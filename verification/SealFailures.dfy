/** Why a row says `failed`, and how one came to say `completed`: every status in the table goes back to the answers
    that the calls for its document were given. */
module SealFailures {
  import opened Wrappers
  import opened SealTypes
  import opened SealProtocol
  import opened SealSafety
  import opened SealStorage

  // ---- What was called, and what was answered ---------------------------------------------

  ghost predicate CalledAt(signers: seq<bool>, es: seq<Event>, i: nat, w: nat, l: Local, r: Reply) {
    && i < |es| && es[i] == Work(w, r)
    && w < |Run(Init(signers), es[..i]).workers| && Run(Init(signers), es[..i]).workers[w] == l
  }

  /** In the run, the worker `w` made the call that it makes at `l`, and `r` was the answer. */
  ghost predicate Called(signers: seq<bool>, es: seq<Event>, w: nat, l: Local, r: Reply) {
    exists i: nat :: CalledAt(signers, es, i, w, l, r)
  }

  /** The PDF that the worker `w` uploads for a job. */
  function Output(signers: seq<bool>, w: nat, job: Job): Pdf
    requires w < |signers| && job.Job?
  {
    if signers[w] then Signed(Generated(job.text)) else Generated(job.text)
  }

  ghost predicate PutFailed(signers: seq<bool>, es: seq<Event>, w: nat, job: Job, k: nat)
    requires w < |signers| && job.Job?
  {
    exists r: Reply :: !r.Ok? && Called(signers, es, w, Uploading(job, Output(signers, w, job), k), r)
  }

  /** The worker generated the job's PDF, and had it signed if it has a certificate. */
  ghost predicate Ready(signers: seq<bool>, es: seq<Event>, w: nat, job: Job)
    requires w < |signers| && job.Job?
  {
    && Called(signers, es, w, Generating(job), Ok)
    && (signers[w] ==> Called(signers, es, w, Signing(job, Generated(job.text)), Ok))
  }

  /** And one of at most three attempts to store it succeeded. */
  ghost predicate Delivered(signers: seq<bool>, es: seq<Event>, w: nat, job: Job)
    requires w < |signers| && job.Job?
  {
    && Ready(signers, es, w, job)
    && exists k: nat :: k <= 2 && Called(signers, es, w, Uploading(job, Output(signers, w, job), k), Ok)
  }

  /** A generation, a signing or the third of three uploads was answered with the error that is quoted. */
  ghost predicate FailedBy(signers: seq<bool>, es: seq<Event>, w: nat, r: Reply, job: Job, error: string)
    requires job.Job?
  {
    && w < |signers| && !r.Ok?
    && (|| (error == "pdf generation: " + r.msg && Called(signers, es, w, Generating(job), r))
        || (error == "pdf sign: " + r.msg && signers[w] && Called(signers, es, w, Signing(job, Generated(job.text)), r))
        || (error == "upload: upload failed after 3 retries: " + r.msg
            && PutFailed(signers, es, w, job, 0) && PutFailed(signers, es, w, job, 1)
            && Called(signers, es, w, Uploading(job, Output(signers, w, job), 2), r)))
  }

  ghost predicate Failed(signers: seq<bool>, es: seq<Event>, job: Job, error: string)
    requires job.Job?
  {
    exists w: nat, r :: FailedBy(signers, es, w, r, job, error)
  }

  ghost predicate DeliveredBySome(signers: seq<bool>, es: seq<Event>, job: Job)
    requires job.Job?
  {
    exists w: nat :: w < |signers| && Delivered(signers, es, w, job)
  }

  ghost predicate AttemptFailed(signers: seq<bool>, es: seq<Event>, job: Job)
    requires job.Job?
  {
    exists error :: Failed(signers, es, job, error)
  }

  ghost predicate CountedAt(signers: seq<bool>, es: seq<Event>, i: nat, w: nat, job: Job, full: bool) {
    CalledAt(signers, es, i, w, Counting(job), Ok) && (full <==> |Run(Init(signers), es[..i]).processing| >= 3)
  }

  /** After a failed attempt the worker was told how long the processing list is. */
  ghost predicate Counted(signers: seq<bool>, es: seq<Event>, w: nat, job: Job, full: bool) {
    exists i: nat :: CountedAt(signers, es, i, w, job, full)
  }

  ghost predicate Refused(signers: seq<bool>, es: seq<Event>, w: nat, l: Local) {
    exists r: Reply :: !r.Ok? && Called(signers, es, w, l, r)
  }

  /** After a failed attempt the list was full, or its length or the requeue was answered with an error. */
  ghost predicate GivenUp(signers: seq<bool>, es: seq<Event>, w: nat, job: Job) {
    || Counted(signers, es, w, job, true)
    || Refused(signers, es, w, Counting(job))
    || (Counted(signers, es, w, job, false) && Refused(signers, es, w, Requeueing(job)))
  }

  ghost predicate LetterExplained(signers: seq<bool>, es: seq<Event>, job: Job) {
    job.Job? && AttemptFailed(signers, es, job) && exists w: nat :: GivenUp(signers, es, w, job)
  }

  // ---- What is known at each place ---------------------------------------------------------

  ghost predicate LocalExplained(signers: seq<bool>, es: seq<Event>, w: nat, l: Local)
    requires w < |signers|
  {
    (l.Idle? || l.job.Job?) &&
    match l
    case Signing(job, _) => Called(signers, es, w, Generating(job), Ok)
    case Uploading(job, _, tries) =>
      Ready(signers, es, w, job) && forall k: nat :: k < tries ==> PutFailed(signers, es, w, job, k)
    case Finishing(job) => Delivered(signers, es, w, job)
    case Reporting(job, error) => Failed(signers, es, job, error)
    case Counting(job) => AttemptFailed(signers, es, job)
    case Requeueing(job) => AttemptFailed(signers, es, job) && Counted(signers, es, w, job, false)
    case DeadLettering(job) => AttemptFailed(signers, es, job) && GivenUp(signers, es, w, job)
    case _ => true
  }

  ghost predicate ResultExplained(signers: seq<bool>, es: seq<Event>, s: State, x: Result)
    requires x.Result? && x.id in s.table
  {
    && (x.status == Status.Failed ==> x.s3Path == "" && Failed(signers, es, JobOf(s, x.id), x.error))
    && (x.status == Completed ==> DeliveredBySome(signers, es, JobOf(s, x.id)))
  }

  ghost predicate Explained(signers: seq<bool>, es: seq<Event>) {
    var s := Run(Init(signers), es);
    && WellFormed(s) && s.signers == signers
    && (forall w: nat :: w < |signers| ==> LocalExplained(signers, es, w, s.workers[w]))
    && (forall x :: x in s.reported ==> ResultExplained(signers, es, s, x))
    && (forall j :: j in s.dlq ==> LetterExplained(signers, es, j))
  }

  // ---- The past stays --------------------------------------------------------------------------

  lemma CalledStays(signers: seq<bool>, es: seq<Event>, e: Event, w: nat, l: Local, r: Reply)
    requires Called(signers, es, w, l, r)
    ensures Called(signers, es + [e], w, l, r)
  {
    var i: nat :| CalledAt(signers, es, i, w, l, r);
    assert (es + [e])[..i] == es[..i];
    assert CalledAt(signers, es + [e], i, w, l, r);
  }

  lemma CalledNow(signers: seq<bool>, es: seq<Event>, w: nat, r: Reply)
    requires w < |Run(Init(signers), es).workers|
    ensures Called(signers, es + [Work(w, r)], w, Run(Init(signers), es).workers[w], r)
  {
    assert (es + [Work(w, r)])[..|es|] == es;
    assert CalledAt(signers, es + [Work(w, r)], |es|, w, Run(Init(signers), es).workers[w], r);
  }

  lemma PutFailedStays(signers: seq<bool>, es: seq<Event>, e: Event, w: nat, job: Job, k: nat)
    requires w < |signers| && job.Job? && PutFailed(signers, es, w, job, k)
    ensures PutFailed(signers, es + [e], w, job, k)
  {
    var r: Reply :| !r.Ok? && Called(signers, es, w, Uploading(job, Output(signers, w, job), k), r);
    CalledStays(signers, es, e, w, Uploading(job, Output(signers, w, job), k), r);
  }

  lemma ReadyStays(signers: seq<bool>, es: seq<Event>, e: Event, w: nat, job: Job)
    requires w < |signers| && job.Job? && Ready(signers, es, w, job)
    ensures Ready(signers, es + [e], w, job)
  {
    CalledStays(signers, es, e, w, Generating(job), Ok);
    if signers[w] { CalledStays(signers, es, e, w, Signing(job, Generated(job.text)), Ok); }
  }

  lemma DeliveredStays(signers: seq<bool>, es: seq<Event>, e: Event, w: nat, job: Job)
    requires w < |signers| && job.Job? && Delivered(signers, es, w, job)
    ensures Delivered(signers, es + [e], w, job)
  {
    ReadyStays(signers, es, e, w, job);
    var k: nat :| k <= 2 && Called(signers, es, w, Uploading(job, Output(signers, w, job), k), Ok);
    CalledStays(signers, es, e, w, Uploading(job, Output(signers, w, job), k), Ok);
  }

  lemma SomeStays(signers: seq<bool>, es: seq<Event>, e: Event, job: Job)
    requires job.Job? && DeliveredBySome(signers, es, job)
    ensures DeliveredBySome(signers, es + [e], job)
  {
    var w: nat :| w < |signers| && Delivered(signers, es, w, job);
    DeliveredStays(signers, es, e, w, job);
  }

  lemma FailedStays(signers: seq<bool>, es: seq<Event>, e: Event, job: Job, error: string)
    requires job.Job? && Failed(signers, es, job, error)
    ensures Failed(signers, es + [e], job, error)
  {
    var w: nat, r :| FailedBy(signers, es, w, r, job, error);
    if Called(signers, es, w, Generating(job), r) && error == "pdf generation: " + r.msg {
      CalledStays(signers, es, e, w, Generating(job), r);
    } else if signers[w] && error == "pdf sign: " + r.msg
                         && Called(signers, es, w, Signing(job, Generated(job.text)), r) {
      CalledStays(signers, es, e, w, Signing(job, Generated(job.text)), r);
    } else {
      PutFailedStays(signers, es, e, w, job, 0);
      PutFailedStays(signers, es, e, w, job, 1);
      CalledStays(signers, es, e, w, Uploading(job, Output(signers, w, job), 2), r);
    }
    assert FailedBy(signers, es + [e], w, r, job, error);
  }

  lemma AttemptStays(signers: seq<bool>, es: seq<Event>, e: Event, job: Job)
    requires job.Job? && AttemptFailed(signers, es, job)
    ensures AttemptFailed(signers, es + [e], job)
  {
    var error :| Failed(signers, es, job, error);
    FailedStays(signers, es, e, job, error);
  }

  lemma CountedStays(signers: seq<bool>, es: seq<Event>, e: Event, w: nat, job: Job, full: bool)
    requires Counted(signers, es, w, job, full)
    ensures Counted(signers, es + [e], w, job, full)
  {
    var i: nat :| CountedAt(signers, es, i, w, job, full);
    assert (es + [e])[..i] == es[..i];
    assert CountedAt(signers, es + [e], i, w, job, full);
  }

  lemma RefusedStays(signers: seq<bool>, es: seq<Event>, e: Event, w: nat, l: Local)
    requires Refused(signers, es, w, l)
    ensures Refused(signers, es + [e], w, l)
  {
    var r: Reply :| !r.Ok? && Called(signers, es, w, l, r);
    CalledStays(signers, es, e, w, l, r);
  }

  lemma GivenUpStays(signers: seq<bool>, es: seq<Event>, e: Event, w: nat, job: Job)
    requires GivenUp(signers, es, w, job)
    ensures GivenUp(signers, es + [e], w, job)
  {
    if Counted(signers, es, w, job, true) {
      CountedStays(signers, es, e, w, job, true);
    } else if Refused(signers, es, w, Counting(job)) {
      RefusedStays(signers, es, e, w, Counting(job));
    } else {
      CountedStays(signers, es, e, w, job, false);
      RefusedStays(signers, es, e, w, Requeueing(job));
    }
  }

  lemma LetterStays(signers: seq<bool>, es: seq<Event>, e: Event, job: Job)
    requires LetterExplained(signers, es, job)
    ensures LetterExplained(signers, es + [e], job)
  {
    AttemptStays(signers, es, e, job);
    var w: nat :| GivenUp(signers, es, w, job);
    GivenUpStays(signers, es, e, w, job);
  }

  lemma LocalStays(signers: seq<bool>, es: seq<Event>, e: Event, w: nat, l: Local)
    requires w < |signers| && LocalExplained(signers, es, w, l)
    ensures LocalExplained(signers, es + [e], w, l)
  {
    match l
    case Signing(job, _) => CalledStays(signers, es, e, w, Generating(job), Ok);
    case Uploading(job, _, tries) =>
      ReadyStays(signers, es, e, w, job);
      forall k: nat | k < tries ensures PutFailed(signers, es + [e], w, job, k) {
        PutFailedStays(signers, es, e, w, job, k);
      }
    case Finishing(job) => DeliveredStays(signers, es, e, w, job);
    case Reporting(job, error) => FailedStays(signers, es, e, job, error);
    case Counting(job) => AttemptStays(signers, es, e, job);
    case Requeueing(job) =>
      AttemptStays(signers, es, e, job);
      CountedStays(signers, es, e, w, job, false);
    case DeadLettering(job) =>
      AttemptStays(signers, es, e, job);
      GivenUpStays(signers, es, e, w, job);
    case _ =>
  }

  lemma ResultStays(signers: seq<bool>, es: seq<Event>, e: Event, s: State, t: State, x: Result)
    requires x.Result? && x.id in s.table && Grows(s, t) && ResultExplained(signers, es, s, x)
    ensures ResultExplained(signers, es + [e], t, x)
  {
    var job := JobOf(s, x.id);
    if x.status == Status.Failed { FailedStays(signers, es, e, job, x.error); }
    if x.status == Completed { SomeStays(signers, es, e, job); }
  }

  // ---- Every step explains itself -----------------------------------------------------------------

  /** Where the worker is that moved, what it knows is explained. */
  lemma MoverExplained(signers: seq<bool>, es: seq<Event>, w: nat, r: Reply)
    requires Explained(signers, es) && w < |signers|
    ensures LocalExplained(signers, es + [Work(w, r)], w, WorkStep(Run(Init(signers), es), w, r).workers[w])
  {
    var s, e := Run(Init(signers), es), Work(w, r);
    var l := s.workers[w];
    assert LocalOk(s, w);
    assert LocalExplained(signers, es, w, l);
    CalledNow(signers, es, w, r);
    LocalStays(signers, es, e, w, l);
    if l.Counting? {
      CounterExplained(signers, es, w, r);
    } else if Inner(l) {
      InnerExplained(signers, es + [e], s, w, r);
    } else {
      OthersExplained(signers, es + [e], s, w, r);
    }
  }

  lemma CounterExplained(signers: seq<bool>, es: seq<Event>, w: nat, r: Reply)
    requires Explained(signers, es) && w < |signers| && Run(Init(signers), es).workers[w].Counting?
    ensures LocalExplained(signers, es + [Work(w, r)], w, WorkStep(Run(Init(signers), es), w, r).workers[w])
  {
    var s, e := Run(Init(signers), es), Work(w, r);
    var job := s.workers[w].job;
    assert LocalOk(s, w);
    assert LocalExplained(signers, es, w, s.workers[w]);
    LocalStays(signers, es, e, w, s.workers[w]);
    CalledNow(signers, es, w, r);
    if r.Ok? {
      assert (es + [e])[..|es|] == es;
      assert CountedAt(signers, es + [e], |es|, w, job, |s.processing| >= 3);
    } else {
      assert Refused(signers, es + [e], w, Counting(job));
    }
  }

  lemma PollExplained(signers: seq<bool>, es: seq<Event>, s: State, w: nat, r: Reply)
    requires WellFormed(s) && s.signers == signers && w < |signers| && s.workers[w].Idle?
    ensures LocalExplained(signers, es, w, PollStep(s, w, r).workers[w])
  {
    if s.pending != [] { assert s.pending[0] in s.pending; }
  }

  lemma RequeuerExplained(signers: seq<bool>, es: seq<Event>, s: State, w: nat, job: Job, r: Reply)
    requires w < |signers| == |s.workers| && s.workers[w] == Requeueing(job)
    requires LocalExplained(signers, es, w, Requeueing(job)) && Called(signers, es, w, Requeueing(job), r)
    ensures LocalExplained(signers, es, w, RequeueStep(s, w, job, r).workers[w])
  {
    if !r.Ok? { assert Refused(signers, es, w, Requeueing(job)); }
  }

  lemma ReporterExplained(signers: seq<bool>, es: seq<Event>, s: State, w: nat, r: Reply)
    requires WellFormed(s) && s.signers == signers && w < |signers| && s.workers[w].Reporting?
    requires LocalExplained(signers, es, w, s.workers[w])
    ensures LocalExplained(signers, es, w, WorkStep(s, w, r).workers[w])
  {
    var l := s.workers[w];
    assert AttemptFailed(signers, es, l.job) by { assert Failed(signers, es, l.job, l.error); }
    assert WorkStep(s, w, r).workers[w] == Counting(l.job);
  }

  lemma EndExplained(signers: seq<bool>, es: seq<Event>, s: State, w: nat, r: Reply)
    requires WellFormed(s) && s.signers == signers && w < |signers|
    requires s.workers[w].Finishing? || s.workers[w].DeadLettering? || s.workers[w].Removing?
    ensures LocalExplained(signers, es, w, WorkStep(s, w, r).workers[w])
  {
    assert LocalOk(s, w);
    var m := WorkStep(s, w, r).workers[w];
    assert m.Idle? || m == Removing(s.workers[w].job);
  }

  lemma OthersExplained(signers: seq<bool>, es: seq<Event>, s: State, w: nat, r: Reply)
    requires WellFormed(s) && s.signers == signers && w < |signers| && !Inner(s.workers[w])
    requires LocalExplained(signers, es, w, s.workers[w]) && Called(signers, es, w, s.workers[w], r)
    ensures LocalExplained(signers, es, w, WorkStep(s, w, r).workers[w])
  {
    match s.workers[w]
    case Idle => PollExplained(signers, es, s, w, r);
    case Reporting(_, _) => ReporterExplained(signers, es, s, w, r);
    case Requeueing(job) => RequeuerExplained(signers, es, s, w, job, r);
    case _ => EndExplained(signers, es, s, w, r);
  }

  lemma UploaderExplained(signers: seq<bool>, es: seq<Event>, s: State, w: nat, r: Reply)
    requires WellFormed(s) && s.signers == signers && w < |signers| && s.workers[w].Uploading?
    requires LocalExplained(signers, es, w, s.workers[w]) && Called(signers, es, w, s.workers[w], r)
    ensures var l := s.workers[w];
            LocalExplained(signers, es, w, PutStep(s, w, l.job, l.data, l.tries, r).workers[w])
  {
    assert LocalOk(s, w);
    var l := s.workers[w];
    assert l.data == Output(signers, w, l.job);
    AfterPut(signers, es, w, l.job, l.tries, r);
  }

  lemma InnerExplained(signers: seq<bool>, es: seq<Event>, s: State, w: nat, r: Reply)
    requires WellFormed(s) && s.signers == signers && w < |signers| && Inner(s.workers[w])
    requires LocalExplained(signers, es, w, s.workers[w]) && Called(signers, es, w, s.workers[w], r)
    requires !s.workers[w].Counting?
    ensures LocalExplained(signers, es, w, WorkStep(s, w, r).workers[w])
  {
    assert LocalOk(s, w);
    match s.workers[w]
    case Decoding(job) => assert job.text != "";
    case Generating(job) => AfterGeneration(signers, es, w, job, r);
    case Signing(job, data) => AfterSigning(signers, es, w, job, r);
    case Uploading(_, _, _) => UploaderExplained(signers, es, s, w, r);
  }

  lemma AfterGeneration(signers: seq<bool>, es: seq<Event>, w: nat, job: Job, r: Reply)
    requires w < |signers| && job.Job? && Called(signers, es, w, Generating(job), r)
    ensures LocalExplained(signers, es, w, AfterGenerate(job, signers[w], r))
  {
    if !r.Ok? { assert FailedBy(signers, es, w, r, job, "pdf generation: " + r.msg); }
  }

  lemma AfterSigning(signers: seq<bool>, es: seq<Event>, w: nat, job: Job, r: Reply)
    requires w < |signers| && job.Job? && signers[w] && Called(signers, es, w, Generating(job), Ok)
    requires Called(signers, es, w, Signing(job, Generated(job.text)), r)
    ensures LocalExplained(signers, es, w, AfterSign(job, Generated(job.text), r))
  {
    if !r.Ok? { assert FailedBy(signers, es, w, r, job, "pdf sign: " + r.msg); }
  }

  lemma AfterPut(signers: seq<bool>, es: seq<Event>, w: nat, job: Job, tries: nat, r: Reply)
    requires w < |signers| && job.Job? && Ready(signers, es, w, job) && tries <= 2
    requires forall k: nat :: k < tries ==> PutFailed(signers, es, w, job, k)
    requires Called(signers, es, w, Uploading(job, Output(signers, w, job), tries), r)
    ensures r.Ok? ==> Delivered(signers, es, w, job)
    ensures !r.Ok? ==> PutFailed(signers, es, w, job, tries)
    ensures !r.Ok? && tries == 2 ==> Failed(signers, es, job, "upload: upload failed after 3 retries: " + r.msg)
  {
    if !r.Ok? && tries == 2 {
      assert PutFailed(signers, es, w, job, 0) && PutFailed(signers, es, w, job, 1);
      assert FailedBy(signers, es, w, r, job, "upload: upload failed after 3 retries: " + r.msg);
    }
  }

  /** A result that is new in the list was explained where the worker stood that pushed it. */
  lemma NewResult(signers: seq<bool>, es: seq<Event>, e: Event, x: Result)
    requires Explained(signers, es)
    requires x in Step(Run(Init(signers), es), e).reported && x !in Run(Init(signers), es).reported
    ensures x.Result? && x.id in Run(Init(signers), es).table
    ensures ResultExplained(signers, es, Run(Init(signers), es), x)
  {
    var s := Run(Init(signers), es);
    if !e.Work? {
      ApiFrame(s, e);
    } else if e.w < |signers| {
      assert LocalOk(s, e.w);
      assert LocalExplained(signers, es, e.w, s.workers[e.w]);
      PushedResult(s, e.w, e.reply, x);
    }
  }

  lemma PushedResult(s: State, w: nat, r: Reply, x: Result)
    requires WellFormed(s) && w < |s.workers| && x in WorkStep(s, w, r).reported && x !in s.reported
    ensures var l := s.workers[w];
            || (l.Reporting? && l.job.Job? && x == Result(l.job.id, Status.Failed, "", l.error))
            || (l.Finishing? && l.job.Job? && x.Result? && x.id == l.job.id && x.status == Completed)
  {
    assert LocalOk(s, w);
    if Inner(s.workers[w]) { InnerMoves(s, w, r); }
  }

  /** A job that is new in the DLQ had been given up where the worker stood that put it there. */
  lemma NewLetter(signers: seq<bool>, es: seq<Event>, e: Event, j: Job)
    requires Explained(signers, es)
    requires j in Step(Run(Init(signers), es), e).dlq && j !in Run(Init(signers), es).dlq
    ensures LetterExplained(signers, es, j)
  {
    var s := Run(Init(signers), es);
    if e.Work? && e.w < |signers| {
      assert LocalOk(s, e.w);
      assert LocalExplained(signers, es, e.w, s.workers[e.w]);
      PutLetter(s, e.w, e.reply, j);
    } else {
      LettersLeave(s, e);
    }
  }

  lemma PutLetter(s: State, w: nat, r: Reply, j: Job)
    requires WellFormed(s) && w < |s.workers| && j in WorkStep(s, w, r).dlq && j !in s.dlq
    ensures s.workers[w] == DeadLettering(j)
  {
    if Inner(s.workers[w]) { InnerMoves(s, w, r); }
  }

  lemma LettersLeave(s: State, e: Event)
    requires !e.Work? || e.w >= |s.workers|
    ensures forall j :: j in Step(s, e).dlq ==> j in s.dlq
  {
    if e.Reprocess? && s.dlq != [] { HeadAndTail(s.dlq); }
  }

  lemma ResultsExplained(signers: seq<bool>, es: seq<Event>, e: Event)
    requires Explained(signers, es)
    ensures var t := Step(Run(Init(signers), es), e);
            forall x :: x in t.reported ==> x.Result? && x.id in t.table && ResultExplained(signers, es + [e], t, x)
  {
    var s := Run(Init(signers), es);
    var t := Step(s, e);
    StepGrows(s, e);
    forall x | x in t.reported ensures x.Result? && x.id in t.table && ResultExplained(signers, es + [e], t, x) {
      if x !in s.reported { NewResult(signers, es, e, x); } else { assert Ours(s, x); }
      ResultStays(signers, es, e, s, t, x);
    }
  }

  lemma LettersExplained(signers: seq<bool>, es: seq<Event>, e: Event)
    requires Explained(signers, es)
    ensures forall j :: j in Step(Run(Init(signers), es), e).dlq ==> LetterExplained(signers, es + [e], j)
  {
    var s := Run(Init(signers), es);
    forall j | j in Step(s, e).dlq ensures LetterExplained(signers, es + [e], j) {
      if j !in s.dlq { NewLetter(signers, es, e, j); }
      LetterStays(signers, es, e, j);
    }
  }

  lemma ExplainedStep(signers: seq<bool>, es: seq<Event>, e: Event)
    requires Explained(signers, es)
    ensures Explained(signers, es + [e])
  {
    var s := Run(Init(signers), es);
    RunSnoc(Init(signers), es, e);
    WellFormedStep(s, e);
    StepGrows(s, e);
    forall w: nat | w < |signers| ensures LocalExplained(signers, es + [e], w, Step(s, e).workers[w]) {
      WorkerExplained(signers, es, e, w);
    }
    ResultsExplained(signers, es, e);
    LettersExplained(signers, es, e);
  }

  lemma WorkerExplained(signers: seq<bool>, es: seq<Event>, e: Event, w: nat)
    requires Explained(signers, es) && w < |signers|
    ensures var t := Step(Run(Init(signers), es), e);
            w < |t.workers| && LocalExplained(signers, es + [e], w, t.workers[w])
  {
    var s := Run(Init(signers), es);
    LocalStays(signers, es, e, w, s.workers[w]);
    WorkersStay(s, e);
    if e.Work? && e.w == w {
      MoverExplained(signers, es, w, e.reply);
    } else if !e.Work? {
      ApiFrame(s, e);
    }
  }

  lemma {:induction false} AlwaysExplained(signers: seq<bool>, es: seq<Event>)
    ensures Explained(signers, es)
    decreases |es|
  {
    if es != [] {
      var n := |es| - 1;
      AlwaysExplained(signers, es[..n]);
      ExplainedStep(signers, es[..n], es[n]);
      assert es == es[..n] + [es[n]];
    }
  }

  // ---- The table tells the truth --------------------------------------------------------------------

  /** In every reachable state a failed row names no object, and quotes the answer to the very call that failed: a
      generation or a signing, or the third upload after two that failed. */
  lemma FailedRowsSayWhy(signers: seq<bool>, es: seq<Event>, id: DocId)
    requires var s := Run(Init(signers), es); id in s.table && s.table[id].status == Status.Failed
    ensures var s := Run(Init(signers), es);
            && s.table[id].s3Path == ""
            && exists w: nat, r :: FailedBy(signers, es, w, r, Job(id, s.table[id].text), s.table[id].error)
  {
    var s := Run(Init(signers), es);
    AlwaysExplained(signers, es);
    Reachable(signers, es);
    assert RowOk(s, id);
    var x :| x in s.handled && x.Result? && x.id == id && RowFrom(s.table[id], x);
    assert x in s.reported;
    assert ResultExplained(signers, es, s, x);
  }

  /** In every reachable state a completed row's PDF was generated, signed if the worker has a certificate, and stored
      within three attempts, each of these calls answered with success. */
  lemma CompletedRowsWereDelivered(signers: seq<bool>, es: seq<Event>, id: DocId)
    requires var s := Run(Init(signers), es); id in s.table && s.table[id].status == Completed
    ensures var s := Run(Init(signers), es);
            exists w: nat :: w < |signers| && Delivered(signers, es, w, Job(id, s.table[id].text))
  {
    var s := Run(Init(signers), es);
    AlwaysExplained(signers, es);
    Reachable(signers, es);
    assert RowOk(s, id);
    var x :| x in s.handled && x.Result? && x.id == id && RowFrom(s.table[id], x);
    assert x in s.reported;
    assert ResultExplained(signers, es, s, x);
  }

  /** In every reachable state a dead letter failed an attempt, for one of the reasons above, and after a failed attempt
      the processing list held three copies or more, or Redis did not answer the count or the requeue. */
  lemma DeadLettersWereGivenUp(signers: seq<bool>, es: seq<Event>, j: Job)
    requires j in Run(Init(signers), es).dlq
    ensures j.Job? && (exists error :: Failed(signers, es, j, error)) && exists w: nat :: GivenUp(signers, es, w, j)
  {
    AlwaysExplained(signers, es);
    assert LetterExplained(signers, es, j);
  }
}
