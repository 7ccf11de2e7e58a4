/** The retry bound. Nothing is stored per job: a failed attempt leaves its copy
    in `seal:processing`, and the length of that whole list is compared with
    `maxJobRetries`. The bound holds all the same, because every job has one
    token: it is in one place, and only there can it be moved or reported. */
module SealRetries {
  import opened SealTypes
  import opened SealProtocol
  import opened SealSafety

  /** A worker that has moved `j` and has not yet given it up. */
  predicate Holds(l: Local, j: Job) {
    !l.Idle? && !l.Removing? && l.job == j
  }

  /** A holder that has not reported its attempt yet. */
  predicate BeforeReport(l: Local) {
    l.Decoding? || l.Generating? || l.Signing? || l.Uploading? || l.Reporting? || l.Finishing?
  }

  predicate Settled(s: State, j: Job) {
    j.Job? && CompletedResult(j.id) in s.reported
  }

  ghost predicate Held(s: State, j: Job) {
    exists w: nat :: w < |s.workers| && Holds(s.workers[w], j)
  }

  /** The token of `j` is in at most one place, and nowhere once `j` is reported completed. */
  ghost predicate TokenOk(s: State, j: Job) {
    && multiset(s.pending)[j] + multiset(s.dlq)[j] <= 1
    && (forall w: nat :: w < |s.workers| && Holds(s.workers[w], j) ==> j !in s.pending && j !in s.dlq && !Settled(s, j))
    && (forall v: nat, w: nat ::
          v < |s.workers| && w < |s.workers| && Holds(s.workers[v], j) && Holds(s.workers[w], j) ==> v == w)
    && (Settled(s, j) ==> j !in s.pending && j !in s.dlq)
  }

  ghost predicate TokensOk(s: State) {
    forall j :: j !in s.ambiguous ==> TokenOk(s, j)
  }

  /** The worker goes on with the job it has, or lets it go. */
  lemma TokenMove(s: State, w: nat, l: Local, j: Job)
    requires w < |s.workers| && TokenOk(s, j)
    requires Holds(l, j) ==> Holds(s.workers[w], j)
    ensures TokenOk(Goto(s, w, l), j)
  {
  }

  lemma TokenSame(s: State, t: State, j: Job)
    requires TokenOk(s, j) && t.workers == s.workers && t.pending == s.pending && t.dlq == s.dlq
             && t.reported == s.reported
    ensures TokenOk(t, j)
  {
  }

  /** The next job is moved: nobody had it, and only this worker has it now. */
  lemma TokenMoved(s: State, w: nat, r: Reply)
    requires WellFormed(s) && w < |s.workers| && s.workers[w].Idle? && s.pending != [] && !r.Err?
    requires TokenOk(s, s.pending[0]) && s.pending[0] !in s.pending[1..]
    ensures TokenOk(PollStep(s, w, r), s.pending[0])
  {
    var j, t := s.pending[0], PollStep(s, w, r);
    assert j in s.pending && !Held(s, j);
    assert multiset(t.pending)[j] == 0;
    assert forall v: nat :: v < |s.workers| ==> !Holds(s.workers[v], j);
    assert forall v: nat :: v < |t.workers| && v != w ==> t.workers[v] == s.workers[v];
  }

  /** Another job is moved. */
  lemma TokenPassed(s: State, w: nat, r: Reply, j: Job)
    requires WellFormed(s) && w < |s.workers| && s.workers[w].Idle? && s.pending != [] && !r.Err?
    requires TokenOk(s, j) && j != s.pending[0]
    ensures TokenOk(PollStep(s, w, r), j)
  {
    var t := PollStep(s, w, r);
    HeadAndTail(s.pending);
    assert multiset(t.pending)[j] == multiset(s.pending)[j];
    assert !Holds(t.workers[w], j);
    assert j in t.pending <==> j in s.pending;
  }

  lemma TokenPoll(s: State, w: nat, r: Reply, j: Job)
    requires WellFormed(s) && w < |s.workers| && s.workers[w].Idle? && TokenOk(s, j)
    ensures TokenOk(PollStep(s, w, r), j)
  {
    if s.pending != [] && !r.Err? {
      HeadAndTail(s.pending);
      assert j in s.pending[1..] <==> multiset(s.pending[1..])[j] > 0;
      if j == s.pending[0] { TokenMoved(s, w, r); } else { TokenPassed(s, w, r, j); }
    }
  }

  lemma TokenReport(s: State, w: nat, x: Result, next: Local, r: Reply, j: Job)
    requires w < |s.workers| && TokenOk(s, j) && !s.workers[w].Idle? && Holds(s.workers[w], s.workers[w].job)
    requires s.workers[w].job.Job? && (j.Job? && j.id == s.workers[w].job.id ==> j == s.workers[w].job)
    requires
      || (x == CompletedResult(s.workers[w].job.id) && next == Removing(s.workers[w].job))
      || (x.Result? && x.status == Failed && next == Counting(s.workers[w].job))
    ensures TokenOk(ReportStep(s, w, x, next, r), j)
  {
  }

  lemma TokenRequeue(s: State, w: nat, job: Job, r: Reply, j: Job)
    requires w < |s.workers| && s.workers[w] == Requeueing(job) && TokenOk(s, j)
    requires j !in RequeueStep(s, w, job, r).ambiguous
    ensures TokenOk(RequeueStep(s, w, job, r), j)
  {
    var l := if r.Ok? then Idle else DeadLettering(job);
    TokenMove(s, w, l, j);
    if r.Err? {
      TokenSame(Goto(s, w, l), RequeueStep(s, w, job, r), j);
    } else if j == job {
      TokenBack(s, w, job);
    } else {
      TokenOther(Goto(s, w, l), RequeueStep(s, w, job, r), job, j);
    }
  }

  lemma InMultiset(q: seq<Job>, j: Job)
    ensures j in q <==> multiset(q)[j] > 0
  {
  }

  /** The holder puts its own job back. */
  lemma TokenBack(s: State, w: nat, job: Job)
    requires w < |s.workers| && s.workers[w] == Requeueing(job) && TokenOk(s, job)
    ensures TokenOk(RequeueStep(s, w, job, Ok), job)
  {
    assert Holds(s.workers[w], job);
    InMultiset(s.pending, job);
    InMultiset(s.dlq, job);
    var t := RequeueStep(s, w, job, Ok);
    assert multiset(t.pending) == multiset{job} + multiset(s.pending);
    forall v: nat | v < |t.workers| ensures !Holds(t.workers[v], job) {
      assert Holds(s.workers[v], job) ==> v == w;
    }
  }

  /** A different job was put back. */
  lemma TokenOther(s: State, t: State, job: Job, j: Job)
    requires TokenOk(s, j) && j != job && t.pending == [job] + s.pending
    requires t.workers == s.workers && t.dlq == s.dlq && t.reported == s.reported
    ensures TokenOk(t, j)
  {
    assert multiset(t.pending) == multiset{job} + multiset(s.pending);
    InMultiset(t.pending, j);
    InMultiset(s.pending, j);
  }

  lemma TokenDeadLetter(s: State, w: nat, job: Job, r: Reply, j: Job)
    requires w < |s.workers| && s.workers[w] == DeadLettering(job) && TokenOk(s, j)
    ensures TokenOk(DeadLetterStep(s, w, job, r), j)
  {
    TokenMove(s, w, Removing(job), j);
    if !r.Applied() {
      TokenSame(Goto(s, w, Removing(job)), DeadLetterStep(s, w, job, r), j);
    } else if j == job {
      TokenToDlq(s, w, job, r);
    } else {
      TokenOtherDlq(Goto(s, w, Removing(job)), DeadLetterStep(s, w, job, r), job, j);
    }
  }

  /** The holder sends its own job to the DLQ. */
  lemma TokenToDlq(s: State, w: nat, job: Job, r: Reply)
    requires w < |s.workers| && s.workers[w] == DeadLettering(job) && TokenOk(s, job) && r.Applied()
    ensures TokenOk(DeadLetterStep(s, w, job, r), job)
  {
    assert Holds(s.workers[w], job);
    InMultiset(s.pending, job);
    InMultiset(s.dlq, job);
    var t := DeadLetterStep(s, w, job, r);
    assert multiset(t.dlq) == multiset{job} + multiset(s.dlq);
    forall v: nat | v < |t.workers| ensures !Holds(t.workers[v], job) {
      assert Holds(s.workers[v], job) ==> v == w;
    }
  }

  lemma TokenOtherDlq(s: State, t: State, job: Job, j: Job)
    requires TokenOk(s, j) && j != job && t.dlq == [job] + s.dlq
    requires t.workers == s.workers && t.pending == s.pending && t.reported == s.reported
    ensures TokenOk(t, j)
  {
    assert multiset(t.dlq) == multiset{job} + multiset(s.dlq);
    InMultiset(t.dlq, j);
    InMultiset(s.dlq, j);
  }

  lemma TokenReprocess(s: State, j: Job)
    requires TokenOk(s, j)
    ensures TokenOk(ReprocessStep(s), j)
  {
    if s.dlq != [] {
      HeadAndTail(s.dlq);
      assert j in s.dlq[1..] <==> multiset(s.dlq[1..])[j] > 0;
      assert j in s.pending <==> multiset(s.pending)[j] > 0;
    }
  }

  /** Nothing is reported about a document whose job is not pushed yet. */
  lemma NotReported(s: State, id: DocId, x: Result)
    requires WellFormed(s) && id in s.inflight && x.Result? && x.id == id
    ensures x !in s.reported
  {
  }

  /** The job of a request under way is nowhere yet. */
  lemma NotYetPushed(s: State, id: DocId)
    requires WellFormed(s) && id in s.inflight
    ensures var j := JobOf(s, id); j !in s.pending && j !in s.dlq && !Held(s, j) && !Settled(s, j)
  {
    var j := JobOf(s, id);
    assert j !in s.pushed;
    forall w: nat | w < |s.workers| ensures !Holds(s.workers[w], j) { assert LocalOk(s, w); }
    if Settled(s, j) { NotReported(s, id, CompletedResult(id)); }
  }

  lemma TokenPush(s: State, id: DocId, r: Reply, j: Job)
    requires WellFormed(s) && TokenOk(s, j)
    ensures TokenOk(PushTaskStep(s, id, r), j)
  {
    var t := PushTaskStep(s, id, r);
    if id !in s.inflight || id !in s.table || !r.Applied() {
      TokenSame(s, t, j);
    } else {
      NotYetPushed(s, id);
      TokenAppended(s, t, JobOf(s, id), j);
    }
  }

  lemma TokenAppended(s: State, t: State, job: Job, j: Job)
    requires TokenOk(s, j) && t.pending == s.pending + [job]
    requires t.workers == s.workers && t.dlq == s.dlq && t.reported == s.reported
    requires job !in s.pending && job !in s.dlq && !Held(s, job) && !Settled(s, job)
    ensures TokenOk(t, j)
  {
    assert multiset(t.pending) == multiset(s.pending) + multiset{job};
    InMultiset(s.pending, job);
    InMultiset(s.dlq, job);
  }

  lemma TokenInner(s: State, w: nat, r: Reply, j: Job)
    requires WellFormed(s) && w < |s.workers| && TokenOk(s, j) && Inner(s.workers[w])
    ensures TokenOk(WorkStep(s, w, r), j)
  {
    InnerMoves(s, w, r);
    TokenMove(s, w, WorkStep(s, w, r).workers[w], j);
    TokenSame(Goto(s, w, WorkStep(s, w, r).workers[w]), WorkStep(s, w, r), j);
  }

  lemma TokenRemove(s: State, w: nat, job: Job, r: Reply, j: Job)
    requires w < |s.workers| && s.workers[w] == Removing(job) && TokenOk(s, j)
    ensures TokenOk(RemoveStep(s, w, job, r), j)
  {
    TokenMove(s, w, Idle, j);
    TokenSame(Goto(s, w, Idle), RemoveStep(s, w, job, r), j);
  }

  lemma TokenRequeueing(s: State, w: nat, r: Reply, j: Job)
    requires w < |s.workers| == |s.signers| && TokenOk(s, j) && j !in WorkStep(s, w, r).ambiguous
    requires s.workers[w].Requeueing?
    ensures TokenOk(WorkStep(s, w, r), j)
  {
    TokenRequeue(s, w, s.workers[w].job, r, j);
  }

  lemma TokenDeadLettering(s: State, w: nat, r: Reply, j: Job)
    requires w < |s.workers| == |s.signers| && TokenOk(s, j) && s.workers[w].DeadLettering?
    ensures TokenOk(WorkStep(s, w, r), j)
  {
    TokenDeadLetter(s, w, s.workers[w].job, r, j);
  }

  lemma TokenRemoving(s: State, w: nat, r: Reply, j: Job)
    requires w < |s.workers| == |s.signers| && TokenOk(s, j) && s.workers[w].Removing?
    ensures TokenOk(WorkStep(s, w, r), j)
  {
    TokenRemove(s, w, s.workers[w].job, r, j);
  }

  lemma TokenWork(s: State, w: nat, r: Reply, j: Job)
    requires WellFormed(s) && w < |s.workers| && TokenOk(s, j)
    requires j !in WorkStep(s, w, r).ambiguous && j in s.pushed
    ensures TokenOk(WorkStep(s, w, r), j)
  {
    var l := s.workers[w];
    if l.Idle? {
      TokenPoll(s, w, r, j);
    } else if l.Reporting? || l.Finishing? {
      TokenReporter(s, w, r, j);
    } else if Inner(l) {
      TokenInner(s, w, r, j);
    } else if l.Requeueing? {
      TokenRequeueing(s, w, r, j);
    } else if l.DeadLettering? {
      TokenDeadLettering(s, w, r, j);
    } else {
      TokenRemoving(s, w, r, j);
    }
  }

  lemma TokenReporter(s: State, w: nat, r: Reply, j: Job)
    requires WellFormed(s) && w < |s.workers| && TokenOk(s, j) && j in s.pushed
    requires s.workers[w].Reporting? || s.workers[w].Finishing?
    ensures TokenOk(WorkStep(s, w, r), j)
  {
    assert LocalOk(s, w);
    assert Known(s, j);
    match s.workers[w]
    case Reporting(job, error) => TokenReport(s, w, FailedResult(job.id, error), Counting(job), r, j);
    case Finishing(job) => TokenReport(s, w, CompletedResult(job.id), Removing(job), r, j);
  }

  /** A job nobody has pushed is nowhere. */
  lemma Unpushed(s: State, j: Job)
    requires WellFormed(s) && j !in s.pushed
    ensures TokenOk(s, j) && !Held(s, j)
  {
    assert j !in s.pending && j !in s.dlq;
    assert j in s.pending <==> multiset(s.pending)[j] > 0;
    assert j in s.dlq <==> multiset(s.dlq)[j] > 0;
    forall w: nat | w < |s.workers| ensures !Holds(s.workers[w], j) {
      assert LocalOk(s, w);
    }
  }

  lemma TokenApi(s: State, e: Event, j: Job)
    requires TokenOk(s, j) && (e.Submit? || e.Abandon? || e.Pop? || e.Update? || e.ConsumerCrash?)
    ensures TokenOk(Step(s, e), j)
  {
    TokenSame(s, Step(s, e), j);
  }

  lemma TokenStep(s: State, e: Event, j: Job)
    requires WellFormed(s) && TokenOk(s, j) && j !in Step(s, e).ambiguous
    requires j in Step(s, e).pushed
    ensures TokenOk(Step(s, e), j)
  {
    match e
    case PushTask(id, r) => TokenPush(s, id, r, j);
    case Work(w, r) => if w < |s.workers| { PushedBefore(s, w, r); TokenWork(s, w, r, j); }
    case Crash(w) => if w < |s.workers| { TokenMove(s, w, Idle, j); }
    case Reprocess => TokenReprocess(s, j);
    case _ => TokenApi(s, e, j);
  }

  lemma PushedBefore(s: State, w: nat, r: Reply)
    requires w < |s.workers| == |s.signers|
    ensures WorkStep(s, w, r).pushed == s.pushed
  {
  }

  lemma TokensStep(s: State, e: Event)
    requires WellFormed(s) && TokensOk(s)
    ensures TokensOk(Step(s, e))
  {
    WellFormedStep(s, e);
    AmbiguousGrows(s, e);
    forall j | j !in Step(s, e).ambiguous ensures TokenOk(Step(s, e), j) {
      if j in Step(s, e).pushed { TokenStep(s, e, j); } else { Unpushed(Step(s, e), j); }
    }
  }

  lemma AmbiguousGrows(s: State, e: Event)
    ensures s.ambiguous <= Step(s, e).ambiguous && s.reprocessed <= Step(s, e).reprocessed
  {
  }

  // ---- Counting attempts ------------------------------------------------

  /** How many results were reported for a document. */
  function Reports(rs: seq<Result>, id: DocId): nat {
    if rs == [] then 0
    else Reports(rs[..|rs| - 1], id) + (if rs[|rs| - 1].Result? && rs[|rs| - 1].id == id then 1 else 0)
  }

  lemma ReportsAppend(rs: seq<Result>, x: Result, id: DocId)
    ensures Reports(rs + [x], id) == Reports(rs, id) + (if x.Result? && x.id == id then 1 else 0)
  {
    assert (rs + [x])[..|rs|] == rs;
  }

  function Moves(s: State, j: Job): nat { multiset(s.moved)[j] }

  function Copies(s: State, j: Job): nat { multiset(s.processing)[j] }

  lemma {:induction false} CopiesBounded<T>(q: seq<T>, x: T)
    ensures multiset(q)[x] <= |q|
  {
    if q != [] {
      HeadAndTail(q);
      CopiesBounded(q[1..], x);
    }
  }

  /** Every report of a document was preceded by a move of its own. */
  ghost predicate ReportsOk(s: State, j: Job) {
    j.Job? ==>
      && Reports(s.reported, j.id) <= Moves(s, j)
      && (forall w: nat :: w < |s.workers| && Holds(s.workers[w], j) && BeforeReport(s.workers[w]) ==>
            Reports(s.reported, j.id) < Moves(s, j))
  }

  /** While the token lives, the copies in processing are the attempts so far; a job
      that waits has had at most two. */
  ghost predicate AttemptsOk(s: State, j: Job) {
    && Moves(s, j) <= MAX_JOB_RETRIES
    && (j in s.pending ==> Copies(s, j) == Moves(s, j) < MAX_JOB_RETRIES)
    && (forall w: nat :: w < |s.workers| && Holds(s.workers[w], j) ==> Copies(s, j) == Moves(s, j) >= 1)
    && (forall w: nat :: w < |s.workers| && s.workers[w] == Requeueing(j) ==> Moves(s, j) < MAX_JOB_RETRIES)
    && (forall w: nat :: w < |s.workers| && s.workers[w] == Removing(j) ==> j !in s.pending && !Held(s, j))
  }

  ghost predicate RetriesOk(s: State) {
    && (forall j :: j in s.pushed && j !in s.ambiguous ==> ReportsOk(s, j))
    && (forall j :: j !in s.ambiguous && j !in s.reprocessed ==> AttemptsOk(s, j))
  }

  /** The worker at `w` goes to `l`; the lists stay. */
  lemma AttemptsMove(s: State, w: nat, l: Local, j: Job)
    requires w < |s.workers| && TokenOk(s, j) && AttemptsOk(s, j)
    requires Holds(l, j) ==> Holds(s.workers[w], j)
    requires l == Requeueing(j) ==> Moves(s, j) < MAX_JOB_RETRIES
    requires l == Removing(j) ==> Holds(s.workers[w], j)
    ensures AttemptsOk(Goto(s, w, l), j)
  {
    var t := Goto(s, w, l);
    if Held(t, j) {
      var v: nat :| v < |t.workers| && Holds(t.workers[v], j);
      assert Held(s, j) by {
        assert Holds(s.workers[v], j);
      }
    }
  }

  lemma AttemptsPoll(s: State, w: nat, r: Reply, j: Job)
    requires WellFormed(s) && w < |s.workers| && s.workers[w].Idle? && TokenOk(s, j) && AttemptsOk(s, j)
    ensures AttemptsOk(PollStep(s, w, r), j)
  {
    if s.pending != [] && !r.Err? {
      HeadAndTail(s.pending);
      if j == s.pending[0] { AttemptsMoved(s, w, r); } else { AttemptsPassed(s, w, r, j); }
    }
  }

  /** The next job is moved: one copy and one move more. */
  lemma AttemptsMoved(s: State, w: nat, r: Reply)
    requires w < |s.workers| && s.workers[w].Idle? && s.pending != [] && !r.Err?
    requires TokenOk(s, s.pending[0]) && AttemptsOk(s, s.pending[0])
    ensures AttemptsOk(PollStep(s, w, r), s.pending[0])
  {
    var j, t := s.pending[0], PollStep(s, w, r);
    HeadAndTail(s.pending);
    InMultiset(s.pending[1..], j);
    assert j in s.pending;
    assert forall v: nat :: v < |t.workers| && v != w ==> t.workers[v] == s.workers[v];
    forall v: nat | v < |t.workers| ensures t.workers[v] != Requeueing(j) && t.workers[v] != Removing(j) {
      assert v != w ==> !Holds(s.workers[v], j);
    }
  }

  /** Another job is moved. */
  lemma AttemptsPassed(s: State, w: nat, r: Reply, j: Job)
    requires w < |s.workers| && s.workers[w].Idle? && s.pending != [] && !r.Err? && j != s.pending[0]
    requires AttemptsOk(s, j)
    ensures AttemptsOk(PollStep(s, w, r), j)
  {
    var t := PollStep(s, w, r);
    HeadAndTail(s.pending);
    assert !Holds(t.workers[w], j);
    assert forall v: nat :: v < |t.workers| && v != w ==> t.workers[v] == s.workers[v];
    if Held(t, j) {
      var v: nat :| v < |t.workers| && Holds(t.workers[v], j);
      assert Holds(s.workers[v], j);
    }
  }

  lemma AttemptsRequeue(s: State, w: nat, job: Job, r: Reply, j: Job)
    requires w < |s.workers| && s.workers[w] == Requeueing(job) && TokenOk(s, j) && AttemptsOk(s, j)
    requires j !in RequeueStep(s, w, job, r).ambiguous
    ensures AttemptsOk(RequeueStep(s, w, job, r), j)
  {
    assert Holds(s.workers[w], job);
    AttemptsMove(s, w, if r.Ok? then Idle else DeadLettering(job), j);
    var t := RequeueStep(s, w, job, r);
    assert Held(t, j) <==> Held(Goto(s, w, if r.Ok? then Idle else DeadLettering(job)), j);
    if j == job {
      assert Held(s, j);
    }
  }

  lemma AttemptsRemove(s: State, w: nat, job: Job, r: Reply, j: Job)
    requires w < |s.workers| && s.workers[w] == Removing(job) && TokenOk(s, j) && AttemptsOk(s, j)
    ensures AttemptsOk(RemoveStep(s, w, job, r), j)
  {
    AttemptsMove(s, w, Idle, j);
    var t := RemoveStep(s, w, job, r);
    assert Held(t, j) <==> Held(Goto(s, w, Idle), j);
    if j == job {
      assert !Held(s, j);
      forall v: nat | v < |t.workers| ensures !Holds(t.workers[v], j) {
        assert !Holds(s.workers[v], j);
      }
    }
  }

  /** A job that is pushed was never moved. */
  lemma AttemptsPushed(s: State, id: DocId, r: Reply, j: Job)
    requires WellFormed(s) && id in s.inflight && id in s.table && j == JobOf(s, id)
    ensures AttemptsOk(PushTaskStep(s, id, r), j)
  {
    var t := PushTaskStep(s, id, r);
    assert j !in s.moved && j !in s.processing && Moves(t, j) == Copies(t, j) == 0;
    forall v: nat | v < |t.workers| ensures !Holds(t.workers[v], j) && t.workers[v] != Removing(j) {
      assert LocalOk(s, v);
    }
  }

  lemma AttemptsPush(s: State, id: DocId, r: Reply, j: Job)
    requires WellFormed(s) && TokenOk(s, j) && AttemptsOk(s, j)
    ensures AttemptsOk(PushTaskStep(s, id, r), j)
  {
    if id in s.inflight && id in s.table && j == JobOf(s, id) {
      AttemptsPushed(s, id, r, j);
    } else {
      assert Held(PushTaskStep(s, id, r), j) <==> Held(s, j);
    }
  }

  lemma AttemptsReprocess(s: State, j: Job)
    requires AttemptsOk(s, j) && j !in ReprocessStep(s).reprocessed
    ensures AttemptsOk(ReprocessStep(s), j)
  {
    assert Held(ReprocessStep(s), j) <==> Held(s, j);
  }

  lemma AttemptsWork(s: State, w: nat, r: Reply, j: Job)
    requires WellFormed(s) && w < |s.workers| && TokenOk(s, j) && AttemptsOk(s, j)
    requires j !in WorkStep(s, w, r).ambiguous
    ensures AttemptsOk(WorkStep(s, w, r), j)
  {
    var l := s.workers[w];
    if l.Idle? {
      AttemptsPoll(s, w, r, j);
    } else if l.Requeueing? || l.Removing? {
      AttemptsLeaving(s, w, r, j);
    } else {
      AttemptsKept(s, w, r, j);
    }
  }

  lemma AttemptsLeaving(s: State, w: nat, r: Reply, j: Job)
    requires w < |s.workers| == |s.signers| && TokenOk(s, j) && AttemptsOk(s, j) && j !in WorkStep(s, w, r).ambiguous
    requires s.workers[w].Requeueing? || s.workers[w].Removing?
    ensures AttemptsOk(WorkStep(s, w, r), j)
  {
    match s.workers[w]
    case Requeueing(job) => AttemptsRequeue(s, w, job, r, j);
    case Removing(job) => AttemptsRemove(s, w, job, r, j);
  }

  lemma AttemptsKept(s: State, w: nat, r: Reply, j: Job)
    requires WellFormed(s) && w < |s.workers| && TokenOk(s, j) && AttemptsOk(s, j)
    requires !s.workers[w].Idle? && !s.workers[w].Requeueing? && !s.workers[w].Removing?
    ensures AttemptsOk(WorkStep(s, w, r), j)
  {
    assert LocalOk(s, w);
    if Inner(s.workers[w]) {
      InnerMoves(s, w, r);
      CopiesBounded(s.processing, j);
    }
    AttemptsOther(s, w, WorkStep(s, w, r).workers[w], WorkStep(s, w, r), j);
  }

  lemma AttemptsOther(s: State, w: nat, l: Local, t: State, j: Job)
    requires w < |s.workers| && TokenOk(s, j) && AttemptsOk(s, j) && !s.workers[w].Idle? && !s.workers[w].Removing?
    requires !l.Idle? && l.job == s.workers[w].job && (s.workers[w].DeadLettering? ==> l.Removing?)
    requires l == Requeueing(j) ==> s.workers[w] == Counting(j) && Copies(s, j) < MAX_JOB_RETRIES
    requires t.workers == Goto(s, w, l).workers && t.pending == s.pending && t.processing == s.processing
             && t.moved == s.moved
    ensures AttemptsOk(t, j)
  {
    AttemptsMove(s, w, l, j);
    AttemptsSame(Goto(s, w, l), t, j);
  }

  lemma AttemptsSame(s: State, t: State, j: Job)
    requires AttemptsOk(s, j)
    requires t.workers == s.workers && t.pending == s.pending && t.processing == s.processing && t.moved == s.moved
    ensures AttemptsOk(t, j)
  {
    assert Held(t, j) <==> Held(s, j);
  }

  lemma AttemptsApi(s: State, e: Event, j: Job)
    requires AttemptsOk(s, j) && (e.Submit? || e.Abandon? || e.Pop? || e.Update? || e.ConsumerCrash?)
    ensures AttemptsOk(Step(s, e), j)
  {
    AttemptsSame(s, Step(s, e), j);
  }

  lemma AttemptsStep(s: State, e: Event, j: Job)
    requires WellFormed(s) && TokenOk(s, j) && AttemptsOk(s, j)
    requires j !in Step(s, e).ambiguous && j !in Step(s, e).reprocessed
    ensures AttemptsOk(Step(s, e), j)
  {
    match e
    case PushTask(id, r) => AttemptsPush(s, id, r, j);
    case Work(w, r) => if w < |s.workers| { AttemptsWork(s, w, r, j); }
    case Crash(w) => if w < |s.workers| { AttemptsMove(s, w, Idle, j); }
    case Reprocess => AttemptsReprocess(s, j);
    case _ => AttemptsApi(s, e, j);
  }

  // ---- Counting reports ---------------------------------------------------

  lemma ReportsMove(s: State, w: nat, l: Local, j: Job)
    requires w < |s.workers| && ReportsOk(s, j)
    requires Holds(l, j) && BeforeReport(l) ==> Holds(s.workers[w], j) && BeforeReport(s.workers[w])
    ensures ReportsOk(Goto(s, w, l), j)
  {
  }

  lemma ReportsPoll(s: State, w: nat, r: Reply, j: Job)
    requires w < |s.workers| && s.workers[w].Idle? && ReportsOk(s, j)
    ensures ReportsOk(PollStep(s, w, r), j)
  {
  }

  lemma ReportsReport(s: State, w: nat, x: Result, next: Local, r: Reply, j: Job)
    requires w < |s.workers| && TokenOk(s, j) && ReportsOk(s, j) && x.Result?
    requires BeforeReport(s.workers[w]) && s.workers[w].job.Job? && s.workers[w].job.id == x.id
    requires j.Job? && j.id == x.id ==> j == s.workers[w].job
    requires !BeforeReport(next)
    ensures ReportsOk(ReportStep(s, w, x, next, r), j)
  {
    var t := ReportStep(s, w, x, next, r);
    assert Holds(s.workers[w], s.workers[w].job);
    if j.Job? {
      ReportsAppend(s.reported, x, j.id);
      forall v: nat | v < |t.workers| && Holds(t.workers[v], j) && BeforeReport(t.workers[v])
        ensures Reports(t.reported, j.id) < Moves(t, j)
      {
        assert v != w && t.workers[v] == s.workers[v];
      }
    }
  }

  lemma ReportsSame(s: State, t: State, j: Job)
    requires ReportsOk(s, j) && t.workers == s.workers && t.reported == s.reported && t.moved == s.moved
    ensures ReportsOk(t, j)
  {
  }

  lemma ReportsWork(s: State, w: nat, r: Reply, j: Job)
    requires WellFormed(s) && w < |s.workers| && TokenOk(s, j) && ReportsOk(s, j) && Known(s, j)
    ensures ReportsOk(WorkStep(s, w, r), j)
  {
    assert LocalOk(s, w);
    match s.workers[w]
    case Idle => ReportsPoll(s, w, r, j);
    case Reporting(job, error) => ReportsReport(s, w, FailedResult(job.id, error), Counting(job), r, j);
    case Finishing(job) => ReportsReport(s, w, CompletedResult(job.id), Removing(job), r, j);
    case _ => ReportsKept(s, w, r, j);
  }

  lemma ReportsKept(s: State, w: nat, r: Reply, j: Job)
    requires WellFormed(s) && w < |s.workers| && ReportsOk(s, j)
    requires !s.workers[w].Idle? && !s.workers[w].Reporting? && !s.workers[w].Finishing?
    ensures ReportsOk(WorkStep(s, w, r), j)
  {
    var t := WorkStep(s, w, r);
    if Inner(s.workers[w]) {
      InnerMoves(s, w, r);
    } else {
      LeavingFrame(s, w, r);
    }
    ReportsMove(s, w, t.workers[w], j);
    ReportsSame(Goto(s, w, t.workers[w]), t, j);
  }

  /** The last calls of an attempt report nothing and move nothing. */
  lemma LeavingFrame(s: State, w: nat, r: Reply)
    requires WellFormed(s) && w < |s.workers|
    requires s.workers[w].Requeueing? || s.workers[w].DeadLettering? || s.workers[w].Removing?
    ensures
      var t := WorkStep(s, w, r);
      && t.workers == Goto(s, w, t.workers[w]).workers && t.reported == s.reported && t.moved == s.moved
      && !BeforeReport(t.workers[w])
  {
  }

  lemma {:induction false} ReportsNone(rs: seq<Result>, id: DocId)
    requires forall x :: x in rs && x.Result? ==> x.id != id
    ensures Reports(rs, id) == 0
  {
    if rs != [] {
      ReportsNone(rs[..|rs| - 1], id);
      assert rs[|rs| - 1] in rs;
    }
  }

  lemma ReportsPush(s: State, id: DocId, r: Reply)
    requires WellFormed(s) && id in s.inflight
    ensures ReportsOk(PushTaskStep(s, id, r), JobOf(s, id))
  {
    var job := JobOf(s, id);
    forall x | x in s.reported && x.Result? ensures x.id != id {
      if x.id == id { NotReported(s, id, x); }
    }
    ReportsNone(s.reported, id);
    Unpushed(s, job);
  }

  lemma ReportsApi(s: State, e: Event, j: Job)
    requires ReportsOk(s, j) && !e.Work? && !e.Crash?
    ensures ReportsOk(Step(s, e), j)
  {
    ApiFrame(s, e);
    ReportsSame(s, Step(s, e), j);
  }

  lemma ReportsStep(s: State, e: Event, j: Job)
    requires WellFormed(s) && TokenOk(s, j) && ReportsOk(s, j) && j in s.pushed
    ensures ReportsOk(Step(s, e), j)
  {
    match e
    case Work(w, r) => if w < |s.workers| { assert Known(s, j); ReportsWork(s, w, r, j); }
    case Crash(w) => if w < |s.workers| { ReportsMove(s, w, Idle, j); }
    case _ => ReportsApi(s, e, j);
  }

  lemma RetriesStep(s: State, e: Event)
    requires WellFormed(s) && TokensOk(s) && RetriesOk(s)
    ensures RetriesOk(Step(s, e))
  {
    var t := Step(s, e);
    WellFormedStep(s, e);
    AmbiguousGrows(s, e);
    forall j | j in t.pushed && j !in t.ambiguous ensures ReportsOk(t, j) {
      if j in s.pushed { ReportsStep(s, e, j); } else { ReportsPush(s, e.id, e.reply); }
    }
    forall j | j !in t.ambiguous && j !in t.reprocessed ensures AttemptsOk(t, j) {
      AttemptsStep(s, e, j);
    }
  }
}
