/** One worker, no faults: the jobs reach their outcome in the order they were
    submitted, and a job that never succeeds is attempted exactly three times. */
module SealSolo {
  import opened SealTypes
  import opened SealProtocol
  import opened SealSafety
  import opened SealRetries
  import opened SealFinality
  import opened SealProgress
  import opened SealQuiescence

  /** `q` is a number of copies of `j`. */
  predicate AllAre(q: seq<Job>, j: Job) {
    forall i :: 0 <= i < |q| ==> q[i] == j
  }

  /** The job the worker has in hand. */
  function InHand(l: Local): seq<Job> {
    if l.Idle? then [] else [l.job]
  }

  ghost predicate ProcessingOk(s: State)
    requires |s.workers| == 1
  {
    var l := s.workers[0];
    if l.Idle? then
      if s.pending == [] then s.processing == []
      else AllAre(s.processing, s.pending[0]) && |s.processing| < MAX_JOB_RETRIES
    else
      && AllAre(s.processing, l.job)
      && 1 <= |s.processing| <= MAX_JOB_RETRIES
      && (l.Requeueing? ==> |s.processing| < MAX_JOB_RETRIES)
      && (l.DeadLettering? ==> |s.processing| == MAX_JOB_RETRIES)
  }

  ghost predicate SoloOk(s: State) {
    && |s.workers| == 1
    && s.reprocessed == {}
    && ProcessingOk(s)
    && s.pushed == s.finished + InHand(s.workers[0]) + s.pending
    && (forall j :: j in s.dlq ==> Moves(s, j) == MAX_JOB_RETRIES)
    && (s.workers[0].DeadLettering? ==> Moves(s, s.workers[0].job) == MAX_JOB_RETRIES)
  }

  /** What the polling loop uses up: it falls with every move and never rises but by a push. */
  function Potential(s: State): int {
    3 * |s.pending| - |s.processing| + (if |s.workers| == 1 && s.workers[0].Idle? then 0 else 3)
  }

  ghost predicate SoloSafe(s: State) {
    RetrySafe(s) && CleanOk(s) && SoloOk(s)
  }

  lemma {:induction false} AllCopies(q: seq<Job>, j: Job)
    requires AllAre(q, j)
    ensures multiset(q)[j] == |q| && Without(q, j) == []
  {
    if q != [] {
      HeadAndTail(q);
      AllCopies(q[1..], j);
    }
  }

  lemma NextIsNoDeadLetter(s: State)
    requires TokensOk(s) && s.ambiguous == {} && s.pending != []
    ensures s.pending[0] !in s.dlq
  {
    var j := s.pending[0];
    assert TokenOk(s, j);
    assert multiset(s.pending)[j] >= 1;
    assert j in s.dlq ==> multiset(s.dlq)[j] >= 1;
  }

  lemma SoloPoll(s: State)
    requires SoloOk(s) && TokensOk(s) && s.ambiguous == {} && s.workers[0].Idle?
    ensures SoloOk(PollStep(s, 0, Ok))
    ensures s.pending != [] ==> Potential(PollStep(s, 0, Ok)) < Potential(s)
  {
    if s.pending != [] {
      var j := s.pending[0];
      HeadAndTail(s.pending);
      NextIsNoDeadLetter(s);
      PutBackInOrder(s.finished, j, s.pending[1..]);
      assert s.pending == [j] + s.pending[1..];
    }
  }

  lemma SoloCount(s: State, job: Job)
    requires SoloSafe(s) && s.workers[0] == Counting(job)
    ensures SoloOk(CountStep(s, 0, job, Ok))
  {
    assert Holds(s.workers[0], job) && AttemptsOk(s, job);
    AllCopies(s.processing, job);
  }

  lemma PutBackInOrder(done: seq<Job>, job: Job, waiting: seq<Job>)
    ensures done + [job] + waiting == done + [] + ([job] + waiting)
  {
  }

  lemma SoloRequeue(s: State, job: Job)
    requires SoloOk(s) && s.workers[0] == Requeueing(job)
    ensures SoloOk(RequeueStep(s, 0, job, Ok))
    ensures Potential(RequeueStep(s, 0, job, Ok)) == Potential(s)
  {
    PutBackInOrder(s.finished, job, s.pending);
    assert s.pending == [] || ([job] + s.pending)[0] == job;
  }

  lemma SoloRemove(s: State, job: Job)
    requires SoloSafe(s) && s.workers[0] == Removing(job)
    ensures SoloOk(RemoveStep(s, 0, job, Ok))
    ensures Potential(RemoveStep(s, 0, job, Ok)) <= Potential(s)
  {
    AllCopies(s.processing, job);
    assert s.finished + [job] + s.pending == (s.finished + [job]) + [] + s.pending;
  }

  lemma SoloWork(s: State, r: Reply)
    requires SoloSafe(s) && Clean(s, Work(0, r))
    ensures SoloOk(WorkStep(s, 0, r)) && Potential(WorkStep(s, 0, r)) <= Potential(s)
    ensures s.workers[0].Idle? && s.pending != [] ==> Potential(WorkStep(s, 0, r)) < Potential(s)
  {
    match s.workers[0]
    case Idle => SoloPoll(s);
    case Counting(job) => SoloCount(s, job);
    case Requeueing(job) => SoloRequeue(s, job);
    case Removing(job) => SoloRemove(s, job);
    case DeadLettering(job) => SoloDeadLetter(s, job);
    case Reporting(_, _) => SoloReport(s);
    case Finishing(_) => SoloReport(s);
    case _ => SoloInner(s, r);
  }

  lemma SoloInner(s: State, r: Reply)
    requires SoloSafe(s) && Inner(s.workers[0]) && !s.workers[0].Counting?
    ensures SoloOk(WorkStep(s, 0, r)) && Potential(WorkStep(s, 0, r)) <= Potential(s)
  {
    InnerMoves(s, 0, r);
  }

  lemma SoloReport(s: State)
    requires SoloSafe(s) && (s.workers[0].Reporting? || s.workers[0].Finishing?)
    ensures SoloOk(WorkStep(s, 0, Ok)) && Potential(WorkStep(s, 0, Ok)) <= Potential(s)
  {
    assert LocalOk(s, 0);
    var l := s.workers[0];
    if l.Reporting? {
      SoloReported(s, FailedResult(l.job.id, l.error), Counting(l.job));
    } else {
      SoloReported(s, CompletedResult(l.job.id), Removing(l.job));
    }
  }

  lemma SoloReported(s: State, x: Result, next: Local)
    requires SoloOk(s) && (s.workers[0].Reporting? || s.workers[0].Finishing?)
    requires (next.Counting? || next.Removing?) && next.job == s.workers[0].job
    ensures SoloOk(ReportStep(s, 0, x, next, Ok)) && Potential(ReportStep(s, 0, x, next, Ok)) <= Potential(s)
  {
  }

  lemma SoloDeadLetter(s: State, job: Job)
    requires SoloSafe(s) && s.workers[0] == DeadLettering(job)
    ensures SoloOk(DeadLetterStep(s, 0, job, Ok)) && Potential(DeadLetterStep(s, 0, job, Ok)) <= Potential(s)
  {
  }

  lemma SoloOkStep(s: State, e: Event)
    requires SoloSafe(s) && Clean(s, e) && !e.Reprocess?
    ensures SoloOk(Step(s, e))
  {
    if e.Work? && e.w == 0 {
      SoloWork(s, e.reply);
    } else if e.PushTask? {
      SoloPush(s, e.id);
    } else {
      SoloElse(s, e);
    }
  }

  lemma SoloElse(s: State, e: Event)
    requires SoloOk(s) && Clean(s, e) && !e.Reprocess? && !e.PushTask? && !(e.Work? && e.w == 0)
    ensures SoloOk(Step(s, e))
  {
  }

  lemma SoloStep(s: State, e: Event)
    requires SoloSafe(s) && Clean(s, e) && !e.Reprocess?
    ensures SoloSafe(Step(s, e))
  {
    CleanStep(s, e);
    RetrySafeStep(s, e);
    SoloOkStep(s, e);
  }

  lemma SoloPush(s: State, id: DocId)
    requires SoloSafe(s)
    ensures SoloOk(PushTaskStep(s, id, Ok))
  {
    if id in s.inflight {
      assert s.finished + InHand(s.workers[0]) + (s.pending + [JobOf(s, id)])
          == (s.finished + InHand(s.workers[0]) + s.pending) + [JobOf(s, id)];
    }
  }

  ghost predicate SoloRun(s: State, es: seq<Event>) {
    CleanRun(s, es) && Reprocess !in es
  }

  lemma {:induction false} SoloRunKeeps(s: State, es: seq<Event>)
    requires SoloSafe(s) && SoloRun(s, es)
    ensures SoloSafe(Run(s, es))
    decreases |es|
  {
    if es != [] {
      SoloStep(s, es[0]);
      assert Reprocess !in es[1..];
      SoloRunKeeps(Step(s, es[0]), es[1..]);
    }
  }

  lemma SoloReachable(signer: bool, es: seq<Event>)
    requires SoloRun(Init([signer]), es)
    ensures SoloSafe(Run(Init([signer]), es))
  {
    InitClean([signer]);
    SoloRunKeeps(Init([signer]), es);
  }

  lemma {:induction false} CleanRunSnoc(s: State, es: seq<Event>, e: Event)
    requires CleanRun(s, es) && Clean(Run(s, es), e)
    ensures CleanRun(s, es + [e])
    decreases |es|
  {
    if es == [] {
      assert [e][1..] == [] && es + [e] == [e];
    } else {
      assert (es + [e])[1..] == es[1..] + [e];
      CleanRunSnoc(Step(s, es[0]), es[1..], e);
    }
  }

  /** One more step of the only worker. */
  lemma SoloWorkSnoc(signer: bool, es: seq<Event>, r: Reply)
    requires SoloRun(Init([signer]), es) && Clean(Run(Init([signer]), es), Work(0, r))
    ensures
      var s := Run(Init([signer]), es);
      && |s.workers| == |s.signers| == 1
      && SoloRun(Init([signer]), es + [Work(0, r)])
      && Potential(WorkStep(s, 0, r)) <= Potential(s)
      && (s.workers[0].Idle? && s.pending != [] ==> Potential(WorkStep(s, 0, r)) < Potential(s))
  {
    SoloReachable(signer, es);
    CleanRunSnoc(Init([signer]), es, Work(0, r));
    SoloWork(Run(Init([signer]), es), r);
  }

  /** With one worker and no faults, jobs leave in the order they came, whatever was requeued in between;
      `seal:processing` holds nothing but at most three copies of the job in hand, or at most two of the
      next one between jobs; and a job in the DLQ was attempted exactly three times. */
  lemma FirstInFirstOut(signer: bool, es: seq<Event>)
    requires SoloRun(Init([signer]), es)
    ensures
      var s := Run(Init([signer]), es);
      && |s.workers| == 1
      && s.finished <= s.pushed
      && s.pushed == s.finished + InHand(s.workers[0]) + s.pending
      && (s.workers[0].Idle? && s.pending == [] ==> s.processing == [])
      && (s.workers[0].Idle? && s.pending != [] ==> AllAre(s.processing, s.pending[0]) && |s.processing| <= 2)
      && (!s.workers[0].Idle? ==> AllAre(s.processing, s.workers[0].job) && 1 <= |s.processing| <= 3)
      && (forall j :: j in s.dlq ==> Moves(s, j) == 3)
  {
    SoloReachable(signer, es);
  }
}
