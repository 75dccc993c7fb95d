/**
  The transcoding (RATS) façade: job creation with its argument validation,
  job retrieval, source upload, and the job status codes.
 */
module Rats {
  import opened Wrappers
  import opened Json
  import opened Http

  // Preset values callers pass as formatgroup, output or proc.
  const ENCODE_MP4_480P_WITH_SNAPSHOTS: string := "1"
  const EXPORT_TO_CDN: string := "1"
  const MAIL_CDN_REPORT: string := "13"
  const POST_CDN_REPORT: string := "14"
  const MAIL_HUMAN_READABLE: string := "24"

  // Job status codes, numbered 1..10; a status >= JOB_SUCCEEDED is final.
  const JOB_RECEIVED: int := 1
  const JOB_IMPORTING: int := 2
  const JOB_IMPORTED: int := 3
  const JOB_TRANSCODING: int := 4
  const JOB_TRANSCODED: int := 5
  const JOB_EXPORTING: int := 6
  const JOB_SUCCEEDED: int := 7
  const JOB_IMPORT_FAILED: int := 8
  const JOB_TRANSCODING_FAILED: int := 9
  const JOB_EXPORT_FAILED: int := 10

  /** A job has finished once its status reaches JOB_SUCCEEDED. */
  predicate Finished(status: int) {
    status >= JOB_SUCCEEDED
  }

  predicate FailedStatus(status: int) {
    status == JOB_IMPORT_FAILED || status == JOB_TRANSCODING_FAILED || status == JOB_EXPORT_FAILED
  }

  /**
    The codes are 1 to 10 in increasing order; among them "finished" is exactly
    "succeeded or one of the three failures", and the six in-progress codes are
    the ones below JOB_SUCCEEDED.
   */
  lemma StatusCodes()
    ensures JOB_RECEIVED == 1 && JOB_EXPORT_FAILED == 10
    ensures JOB_RECEIVED < JOB_IMPORTING < JOB_IMPORTED < JOB_TRANSCODING < JOB_TRANSCODED
      < JOB_EXPORTING < JOB_SUCCEEDED < JOB_IMPORT_FAILED < JOB_TRANSCODING_FAILED < JOB_EXPORT_FAILED
    ensures forall s :: JOB_RECEIVED <= s <= JOB_EXPORT_FAILED ==>
      (Finished(s) <==> s == JOB_SUCCEEDED || FailedStatus(s))
    ensures forall s :: FailedStatus(s) ==> Finished(s) && s != JOB_SUCCEEDED
  {
  }

  /** The exceptions createJob and getJob raise before any request is made. */
  datatype JobError = BothFormats | NoFormat | BothLocations | NoLocation | NoUri {
    function Message(): string {
      match this
      case BothFormats =>
        "Invalid parameters passed to createJob(): both format and formatgroup were set. These can not be combined!"
      case NoFormat =>
        "Invalid parameters passed to createJob(): can't create a job without a format or formatgroup ID."
      case BothLocations =>
        "Invalid parameters passed to createJob(): both format and input_location were set. These can not be combined!"
      case NoLocation =>
        "Invalid parameters passed to createJob(): can't create a job without a src_location or input_location."
      case NoUri =>
        "You must provide a valid URI argument to getJob()."
    }
  }

  /** The keyword arguments of createJob; each defaults to None (Null). */
  datatype JobArgs = JobArgs(
    input: Value := Null, output: Value := Null, format: Value := Null, formatgroup: Value := Null,
    srcLocation: Value := Null, importLocation: Value := Null, tgtLocation: Value := Null,
    startpos: Value := Null, endpos: Value := Null, clientPassthru: Value := Null,
    clientInput: Value := Null, proc: Value := Null, snapshotInterval: Value := Null)

  /** The keys createJob may put in the params object. */
  datatype Param =
    | Format | Formatgroup | SrcLocation | ImportLocation | Input | Output | TgtLocation
    | Startpos | Endpos | ClientPassthru | ClientInput | Proc | SnapshotInterval
  {
    /** The key as it is written in the params object. */
    function Key(): string {
      match this
      case Format => "format"
      case Formatgroup => "formatgroup"
      case SrcLocation => "src_location"
      case ImportLocation => "import_location"
      case Input => "input"
      case Output => "output"
      case TgtLocation => "tgt_location"
      case Startpos => "startpos"
      case Endpos => "endpos"
      case ClientPassthru => "client_passthru"
      case ClientInput => "client_input"
      case Proc => "proc"
      case SnapshotInterval => "snapshot_interval"
    }

    /** The position of the key in createJob's order of insertion. */
    function Order(): nat {
      match this
      case Format => 0
      case Formatgroup => 1
      case SrcLocation => 2
      case ImportLocation => 3
      case Input => 4
      case Output => 5
      case TgtLocation => 6
      case Startpos => 7
      case Endpos => 8
      case ClientPassthru => 9
      case ClientInput => 10
      case Proc => 11
      case SnapshotInterval => 12
    }
  }

  const AllParams: set<Param> := {
    Format, Formatgroup, SrcLocation, ImportLocation, Input, Output, TgtLocation,
    Startpos, Endpos, ClientPassthru, ClientInput, Proc, SnapshotInterval}

  lemma AllParamsComplete(k: Param)
    ensures k in AllParams
  {
  }

  /** The argument the key `k` is named after. */
  function ArgOf(a: JobArgs, k: Param): Value {
    match k
    case Format => a.format
    case Formatgroup => a.formatgroup
    case SrcLocation => a.srcLocation
    case ImportLocation => a.importLocation
    case Input => a.input
    case Output => a.output
    case TgtLocation => a.tgtLocation
    case Startpos => a.startpos
    case Endpos => a.endpos
    case ClientPassthru => a.clientPassthru
    case ClientInput => a.clientInput
    case Proc => a.proc
    case SnapshotInterval => a.snapshotInterval
  }

  /** Reference definition of the params a created job carries: every truthy argument under its own key. */
  function JobParams(a: JobArgs): map<Param, Value> {
    map k | k in AllParams && Truthy(ArgOf(a, k)) :: ArgOf(a, k)
  }

  /** The params object as sent: each key written out as its string. */
  function Wire(p: map<Param, Value>): map<string, Value> {
    map k | k in p :: k.Key() := p[k]
  }

  /**
    In the params object of a created job, the key of every truthy argument
    holds that argument's value, the key of every other argument is absent, and
    no key other than those thirteen occurs.
   */
  lemma JobParamsKeys(a: JobArgs)
    ensures forall k: Param :: (k.Key() in Wire(JobParams(a)) <==> Truthy(ArgOf(a, k)))
    ensures forall k: Param :: k.Key() in Wire(JobParams(a)) ==> Wire(JobParams(a))[k.Key()] == ArgOf(a, k)
    ensures forall s :: s in Wire(JobParams(a)) ==> exists k: Param :: k.Key() == s
  {
    var w := Wire(JobParams(a));
    forall k: Param ensures k.Key() in w <==> Truthy(ArgOf(a, k)) {
      KeyInjective(k);
    }
    forall k: Param | k.Key() in w ensures w[k.Key()] == ArgOf(a, k) {
      KeyInjective(k);
    }
  }

  /** Different keys are written differently. */
  lemma KeyInjective(k: Param)
    ensures forall j: Param :: j.Key() == k.Key() ==> j == k
  {
  }

  /** Key `k` is present in `p` exactly when `v` is truthy, and then holds `v` itself. */
  predicate Slot(p: map<Param, Value>, k: Param, v: Value) {
    (k in p <==> Truthy(v)) && (k in p ==> p[k] == v)
  }

  /** Once the first `n` keys are handled, `k` is as JobParams says if it is among them and absent otherwise. */
  predicate SlotAfter(a: JobArgs, p: map<Param, Value>, n: nat, k: Param) {
    if k.Order() < n then Slot(p, k, ArgOf(a, k)) else k !in p
  }

  /** The first `n` keys, in createJob's order, are handled; the others are absent. */
  ghost predicate Handled(a: JobArgs, p: map<Param, Value>, n: nat) {
    forall k :: SlotAfter(a, p, n, k)
  }

  /** One `if v: params[k] = v` step for the next key in order: the other keys stay as they were. */
  lemma HandledStep(a: JobArgs, p: map<Param, Value>, q: map<Param, Value>, k: Param, n: nat, m: nat)
    requires n == k.Order() && m == n + 1
    requires Handled(a, p, n)
    requires Truthy(ArgOf(a, k)) ==> q == p[k := ArgOf(a, k)]
    requires !Truthy(ArgOf(a, k)) ==> q == p
    ensures Handled(a, q, m)
  {
    assert SlotAfter(a, p, n, k);
    forall j ensures SlotAfter(a, q, m, j) {
      assert SlotAfter(a, p, n, j);
      if j != k {
        assert j.Order() != k.Order();
      }
    }
  }

  /**
    `if v: params[k] = v` for the next key in createJob's order, `v` being the
    argument that belongs under `k`: afterwards one more key is handled.
   */
  method SetNext(a: JobArgs, p: map<Param, Value>, k: Param, v: Value, n: nat, m: nat)
    returns (q: map<Param, Value>)
    requires v == ArgOf(a, k) && n == k.Order() && m == n + 1
    requires Handled(a, p, n)
    ensures Handled(a, q, m)
  {
    q := p;
    if Truthy(v) {
      q := q[k := v];
    }
    HandledStep(a, p, q, k, n, m);
  }

  /** A map that agrees with JobParams on every key is JobParams. */
  lemma JobParamsUnique(a: JobArgs, p: map<Param, Value>)
    requires Handled(a, p, 13)
    ensures p == JobParams(a)
  {
    assert forall k :: Slot(p, k, ArgOf(a, k)) by {
      forall k ensures Slot(p, k, ArgOf(a, k)) {
        assert SlotAfter(a, p, 13, k);
      }
    }
    forall k ensures k in p <==> k in JobParams(a) {
      AllParamsComplete(k);
    }
    assert p.Keys == JobParams(a).Keys;
  }

  /**
    createJob: check the format and location arguments (format first), then
    build the params map one truthy argument at a time and POST it to /job/
    inside the entry envelope.
   */
  method CreateJob(a: JobArgs) returns (r: Result<Call, JobError>)
    ensures Truthy(a.format) && Truthy(a.formatgroup) ==> r == Failure(BothFormats)
    ensures !Truthy(a.format) && !Truthy(a.formatgroup) ==> r == Failure(NoFormat)
    ensures Truthy(a.format) != Truthy(a.formatgroup) && Truthy(a.srcLocation) && Truthy(a.importLocation)
      ==> r == Failure(BothLocations)
    ensures Truthy(a.format) != Truthy(a.formatgroup) && !Truthy(a.srcLocation) && !Truthy(a.importLocation)
      ==> r == Failure(NoLocation)
    ensures r.Success? <==>
      Truthy(a.format) != Truthy(a.formatgroup) && Truthy(a.srcLocation) != Truthy(a.importLocation)
    ensures r.Success? ==> r.value == Request(Post, Path("/job/"), Envelope(Wire(JobParams(a))))
  {
    var params: map<Param, Value> := map[];

    if Truthy(a.format) && Truthy(a.formatgroup) {
      return Failure(BothFormats);
    }
    if Truthy(a.format) {
      params := params[Format := a.format];
    } else if Truthy(a.formatgroup) {
      params := params[Formatgroup := a.formatgroup];
    } else {
      return Failure(NoFormat);
    }

    if Truthy(a.srcLocation) && Truthy(a.importLocation) {
      return Failure(BothLocations);
    }
    if Truthy(a.srcLocation) {
      params := params[SrcLocation := a.srcLocation];
    } else if Truthy(a.importLocation) {
      params := params[ImportLocation := a.importLocation];
    } else {
      return Failure(NoLocation);
    }
    assert Handled(a, params, 4);

    params := SetOptionals(a, params);
    r := Success(Request(Post, Path("/job/"), Envelope(Wire(params))));
  }

  /**
    The optional arguments of createJob, each set under its key when truthy,
    after the format and location keys.
   */
  method SetOptionals(a: JobArgs, p: map<Param, Value>) returns (params: map<Param, Value>)
    requires Handled(a, p, 4)
    ensures params == JobParams(a)
  {
    params := p;
    params := SetNext(a, params, Input, a.input, 4, 5);
    params := SetNext(a, params, Output, a.output, 5, 6);
    params := SetNext(a, params, TgtLocation, a.tgtLocation, 6, 7);
    params := SetNext(a, params, Startpos, a.startpos, 7, 8);
    params := SetNext(a, params, Endpos, a.endpos, 8, 9);
    params := SetNext(a, params, ClientPassthru, a.clientPassthru, 9, 10);
    params := SetNext(a, params, ClientInput, a.clientInput, 10, 11);
    params := SetNext(a, params, Proc, a.proc, 11, 12);
    params := SetNext(a, params, SnapshotInterval, a.snapshotInterval, 12, 13);
    JobParamsUnique(a, params);
  }

  /** getJob: a missing URI is refused before any request; otherwise GET it as given. */
  function GetJob(uri: Option<string>): (r: Result<Call, JobError>)
    ensures r.Failure? <==> uri == None
    ensures r.Failure? ==> r.error == NoUri
    ensures r.Success? ==> r.value.verb == Get && r.value.uri == Path(uri.value) && r.value.body == Null
  {
    if uri == None then Failure(NoUri) else Success(Request(Get, Path(uri.value), Null))
  }

  /** createSrc: PUT the local file to /src/ under the server file name given, with no JSON body. */
  function CreateSrc(filename: string, localPath: string): (c: Call)
    ensures c.verb == Put && c.uri == Path("/src/") && c.body == Null
    ensures c.media == Some(MediaSource(localPath, filename))
  {
    Call(Put, Path("/src/"), Null, Some(MediaSource(localPath, filename)), map[])
  }
}
