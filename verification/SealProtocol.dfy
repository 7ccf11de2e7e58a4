/** The Seal pipeline as a state machine: one step per call to Redis, to the
    object store or to the database, for any number of workers, any number of
    concurrent API requests and one result consumer. Every choice the real
    system leaves open (who moves, whether a call fails, crashes) is in the
    event, so a run is a sequence of events. */
module SealProtocol {
  import opened Wrappers
  import opened SealTypes

  datatype State = State(
    signers: seq<bool>,            // per worker: was a signing certificate found?
    pending: seq<Job>,             // seal:jobs
    processing: seq<Job>,          // seal:processing
    results: seq<Result>,          // seal:results
    dlq: seq<Job>,                 // seal:dlq
    store: map<string, Pdf>,       // bucket seal-outputs
    table: map<DocId, Row>,        // table documents
    inflight: set<DocId>,          // requests between INSERT and RPUSH
    workers: seq<Local>,
    consumer: Option<Result>,      // popped, not yet written to the table
    // What has happened so far; no step reads these.
    pushed: seq<Job>,              // jobs that entered seal:jobs from the API
    moved: seq<Job>,               // every BLMOVE
    finished: seq<Job>,            // every LREM
    reported: seq<Result>,         // every result that entered seal:results
    handled: seq<Result>,          // every result the consumer is done with
    dropped: set<Job>,             // jobs whose dead-letter push failed
    ambiguous: set<Job>,           // jobs whose requeue took effect but was answered with an error
    reprocessed: set<Job>          // jobs the DLQ CronJob put back
  )

  datatype Event =
    | Submit(id: DocId, text: string)
    | PushTask(id: DocId, reply: Reply)
    | Abandon(id: DocId)
    | Work(w: nat, reply: Reply)
    | Crash(w: nat)
    | Pop(reply: Reply)
    | Update(reply: Reply)
    | ConsumerCrash
    | Reprocess

  function Init(signers: seq<bool>): State {
    State(signers, [], [], [], [], map[], map[], {}, seq(|signers|, _ => Idle), None,
          [], [], [], [], [], {}, {}, {})
  }

  // ---- API side -------------------------------------------------------

  /** `CreateDocument` up to the INSERT; an empty text is turned away before it. */
  function SubmitStep(s: State, id: DocId, text: string): State {
    if text == "" || id in s.table then s
    else s.(table := s.table[id := Row(Pending, text, "", "")], inflight := s.inflight + {id})
  }

  /** The RPUSH of `PushTask`; its error is only logged. */
  function PushTaskStep(s: State, id: DocId, r: Reply): State {
    if id !in s.inflight || id !in s.table then s
    else
      var job := Job(id, s.table[id].text);
      var s1 := s.(inflight := s.inflight - {id});
      if r.Applied() then s1.(pending := s.pending + [job], pushed := s.pushed + [job]) else s1
  }

  function PopStep(s: State, r: Reply): State {
    if s.consumer.Some? || s.results == [] || r.Err? then s
    else if r.Ok? then s.(results := s.results[1..], consumer := Some(s.results[0]))
    else s.(results := s.results[1..], handled := s.handled + [s.results[0]])
  }

  function Overwrite(table: map<DocId, Row>, x: Result): map<DocId, Row> {
    if x.Result? && x.id in table
    then table[x.id := table[x.id].(status := x.status, s3Path := x.s3Path, error := x.error)]
    else table
  }

  function UpdateStep(s: State, r: Reply): State {
    if s.consumer.None? then s
    else
      var x := s.consumer.value;
      var s1 := s.(consumer := None, handled := s.handled + [x]);
      if r.Applied() then s1.(table := Overwrite(s.table, x)) else s1
  }

  function ConsumerCrashStep(s: State): State {
    if s.consumer.None? then s
    else s.(consumer := None, handled := s.handled + [s.consumer.value])
  }

  /** The CronJob's LMOVE seal:dlq seal:jobs LEFT LEFT. */
  function ReprocessStep(s: State): State {
    if s.dlq == [] then s
    else s.(dlq := s.dlq[1..], pending := [s.dlq[0]] + s.pending,
            reprocessed := s.reprocessed + {s.dlq[0]})
  }

  // ---- Worker side ----------------------------------------------------

  /** At most worker `w` has gone on, and the API side has not. */
  ghost predicate OnlyWorker(s: State, t: State, w: nat) {
    && t.signers == s.signers && t.table == s.table && t.pushed == s.pushed && t.inflight == s.inflight
    && t.consumer == s.consumer && t.handled == s.handled && t.reprocessed == s.reprocessed
    && |t.workers| == |s.workers|
    && (forall v: nat :: v < |s.workers| && v != w ==> t.workers[v] == s.workers[v])
  }

  function Goto(s: State, w: nat, l: Local): (t: State)
    requires w < |s.workers|
    ensures OnlyWorker(s, t, w)
  {
    s.(workers := s.workers[w := l])
  }

  function PollStep(s: State, w: nat, r: Reply): (t: State)
    requires w < |s.workers|
    ensures OnlyWorker(s, t, w)
  {
    if s.pending == [] || r.Err? then s
    else
      var job := s.pending[0];
      var s1 := s.(pending := s.pending[1..], processing := s.processing + [job], moved := s.moved + [job]);
      if r.Ok? then Goto(s1, w, Decoding(job)) else s1
  }

  function Decoded(job: Job): Local {
    if !job.Job? then Removing(job)
    else if job.text == "" then Reporting(job, "empty input text")
    else Generating(job)
  }

  function AfterGenerate(job: Job, signer: bool, r: Reply): Local
    requires job.Job?
  {
    if !r.Ok? then Reporting(job, "pdf generation: " + r.Msg())
    else if signer then Signing(job, Generated(job.text))
    else Uploading(job, Generated(job.text), 0)
  }

  function AfterSign(job: Job, data: Pdf, r: Reply): Local {
    if r.Ok? then Uploading(job, Signed(data), 0) else Reporting(job, "pdf sign: " + r.Msg())
  }

  /** One PutObject of `Upload`. */
  function PutStep(s: State, w: nat, job: Job, data: Pdf, tries: nat, r: Reply): (t: State)
    requires w < |s.workers| && job.Job?
    ensures OnlyWorker(s, t, w)
  {
    var s1 := if r.Applied() then s.(store := s.store[ObjectKey(job.id) := data]) else s;
    Goto(s1, w,
         if r.Ok? then Finishing(job)
         else if tries + 1 < MAX_RETRIES then Uploading(job, data, tries + 1)
         else Reporting(job, "upload: upload failed after 3 retries: " + r.Msg()))
  }

  function ReportStep(s: State, w: nat, x: Result, next: Local, r: Reply): (t: State)
    requires w < |s.workers|
    ensures OnlyWorker(s, t, w)
  {
    Goto(if r.Applied() then s.(results := s.results + [x], reported := s.reported + [x]) else s, w, next)
  }

  function CountStep(s: State, w: nat, job: Job, r: Reply): (t: State)
    requires w < |s.workers|
    ensures OnlyWorker(s, t, w)
  {
    Goto(s, w, if !r.Ok? || |s.processing| >= MAX_JOB_RETRIES then DeadLettering(job) else Requeueing(job))
  }

  function RequeueStep(s: State, w: nat, job: Job, r: Reply): (t: State)
    requires w < |s.workers|
    ensures OnlyWorker(s, t, w)
  {
    match r
    case Ok => Goto(s.(pending := [job] + s.pending), w, Idle)
    case Err(_) => Goto(s, w, DeadLettering(job))
    case Lost(_) => Goto(s.(pending := [job] + s.pending, ambiguous := s.ambiguous + {job}), w, DeadLettering(job))
  }

  function DeadLetterStep(s: State, w: nat, job: Job, r: Reply): (t: State)
    requires w < |s.workers|
    ensures OnlyWorker(s, t, w)
  {
    Goto(if r.Applied() then s.(dlq := [job] + s.dlq) else s.(dropped := s.dropped + {job}), w, Removing(job))
  }

  function RemoveStep(s: State, w: nat, job: Job, r: Reply): (t: State)
    requires w < |s.workers|
    ensures OnlyWorker(s, t, w)
  {
    Goto(if r.Applied()
         then s.(processing := Without(s.processing, job), finished := s.finished + [job])
         else s, w, Idle)
  }

  /** The next call of worker `w`, answered by `r`. */
  function WorkStep(s: State, w: nat, r: Reply): (t: State)
    requires w < |s.workers| == |s.signers|
    ensures OnlyWorker(s, t, w)
  {
    match s.workers[w]
    case Idle => PollStep(s, w, r)
    case Decoding(job) => Goto(s, w, Decoded(job))
    case Generating(job) => if job.Job? then Goto(s, w, AfterGenerate(job, s.signers[w], r)) else s
    case Signing(job, data) => Goto(s, w, AfterSign(job, data, r))
    case Uploading(job, data, tries) => if job.Job? then PutStep(s, w, job, data, tries, r) else s
    case Reporting(job, error) => if job.Job? then ReportStep(s, w, FailedResult(job.id, error), Counting(job), r)
        else s
    case Counting(job) => CountStep(s, w, job, r)
    case Requeueing(job) => RequeueStep(s, w, job, r)
    case DeadLettering(job) => DeadLetterStep(s, w, job, r)
    case Finishing(job) => if job.Job? then ReportStep(s, w, CompletedResult(job.id), Removing(job), r) else s
    case Removing(job) => RemoveStep(s, w, job, r)
  }

  function Step(s: State, e: Event): State {
    match e
    case Submit(id, text) => SubmitStep(s, id, text)
    case PushTask(id, r) => PushTaskStep(s, id, r)
    case Abandon(id) => s.(inflight := s.inflight - {id})
    case Work(w, r) => if w < |s.workers| == |s.signers| then WorkStep(s, w, r) else s
    case Crash(w) => if w < |s.workers| then Goto(s, w, Idle) else s
    case Pop(r) => PopStep(s, r)
    case Update(r) => UpdateStep(s, r)
    case ConsumerCrash => ConsumerCrashStep(s)
    case Reprocess => ReprocessStep(s)
  }

  function Run(s: State, es: seq<Event>): State
    decreases |es|
  {
    if es == [] then s else Run(Step(s, es[0]), es[1..])
  }

  lemma {:induction false} RunAppend(s: State, es: seq<Event>, fs: seq<Event>)
    ensures Run(s, es + fs) == Run(Run(s, es), fs)
    decreases |es|
  {
    if es == [] {
      assert es + fs == fs;
    } else {
      assert (es + fs)[1..] == es[1..] + fs;
      RunAppend(Step(s, es[0]), es[1..], fs);
    }
  }

  lemma RunSnoc(s: State, es: seq<Event>, e: Event)
    ensures Run(s, es + [e]) == Step(Run(s, es), e)
  {
    RunAppend(s, es, [e]);
    assert [e][1..] == [];
  }

  /** One step of a run whose events are given as a list. */
  lemma RunFrom(s: State, es: seq<Event>, i: nat)
    requires i < |es|
    ensures Run(s, es[i..]) == Run(Step(s, es[i]), es[i + 1..])
  {
    assert es[i..][1..] == es[i + 1..];
  }

  lemma RunOne(s: State, e: Event)
    ensures Run(s, [e]) == Step(s, e)
  {
    RunFrom(s, [e], 0);
    assert [e][0..] == [e];
  }

  lemma RunTwo(s: State, a: Event, b: Event)
    ensures Run(s, [a, b]) == Step(Step(s, a), b)
  {
    RunSnoc(s, [a], b);
    RunOne(s, a);
    assert [a] + [b] == [a, b];
  }

  lemma RunThree(s: State, a: Event, b: Event, c: Event)
    ensures Run(s, [a, b, c]) == Step(Step(Step(s, a), b), c)
  {
    RunTwo(s, a, b);
    RunSnoc(s, [a, b], c);
    assert [a, b] + [c] == [a, b, c];
  }
}
