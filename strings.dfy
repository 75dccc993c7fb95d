/** The string operations the façades apply to caller-supplied paths. */
module Strings {

  /** `s.lstrip(c)` for a single character `c`: drops every leading `c`. */
  function LStrip(s: string, c: char): (r: string)
    ensures |r| <= |s|
    ensures r == [] || r[0] != c
    ensures s == [] || s[0] != c ==> r == s
  {
    if s != [] && s[0] == c then LStrip(s[1..], c) else s
  }

  /** `k` copies of `c`. */
  function Repeat(c: char, k: nat): (r: string)
    ensures |r| == k
    ensures forall i :: 0 <= i < k ==> r[i] == c
  {
    seq(k, _ => c)
  }

  /** Leading copies of `c` make no difference to `lstrip(c)`. */
  lemma {:induction false} LStripIgnoresPrefix(c: char, k: nat, s: string)
    ensures LStrip(Repeat(c, k) + s, c) == LStrip(s, c)
  {
    if k > 0 {
      var t := Repeat(c, k) + s;
      var rest := Repeat(c, k - 1) + s;
      assert t[1..] == rest by {
        assert |t[1..]| == |rest|;
        forall i | 0 <= i < |rest| ensures t[1..][i] == rest[i] {
          if i < k - 1 {
            assert rest[i] == c;
          } else {
            assert rest[i] == s[i - (k - 1)];
          }
        }
      }
      assert t != [] && t[0] == c;
      assert LStrip(t, c) == LStrip(rest, c);
      LStripIgnoresPrefix(c, k - 1, s);
    } else {
      assert Repeat(c, k) + s == s;
    }
  }

  /**
    The result of `lstrip(c)` is the input with its maximal run of leading `c`
    removed: the input is that many copies of `c` followed by the result.
   */
  lemma {:induction false} LStripSplit(s: string, c: char)
    ensures s == Repeat(c, |s| - |LStrip(s, c)|) + LStrip(s, c)
  {
    if s != [] && s[0] == c {
      LStripSplit(s[1..], c);
      var r := LStrip(s, c);
      assert r == LStrip(s[1..], c);
      var k := |s| - |r|;
      assert s[1..] == Repeat(c, k - 1) + r;
      assert Repeat(c, k) == [c] + Repeat(c, k - 1);
      assert s == [s[0]] + s[1..];
    } else {
      assert Repeat(c, 0) == [];
    }
  }
}
