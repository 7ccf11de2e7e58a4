/** Whose turn it is, also after a requeue whose reply was lost. Such a job is back in `seal:jobs` while its worker goes
    on to dead-letter it; as long as the CronJob leaves it alone, the dead letter does no harm, and still at most one
    attempt at a time is going on. */
module SealTurns {
  import opened SealTypes
  import opened SealProtocol
  import opened SealSafety
  import opened SealRetries

  /** The job's requeue was answered with an error although it had happened, and the CronJob has put the job back. */
  predicate TwiceFaulted(s: State, j: Job) { j in s.ambiguous && j in s.reprocessed }

  /** A worker whose attempt at `j` is going on. */
  predicate Engaged(l: Local, j: Job) { Holds(l, j) && !l.DeadLettering? }

  /** At most one attempt at `j` waits or is going on, and none once `j` is reported completed. */
  ghost predicate TurnOk(s: State, j: Job) {
    && multiset(s.pending)[j] <= 1
    && (forall w: nat :: w < |s.workers| && Engaged(s.workers[w], j) ==> j !in s.pending && !Settled(s, j))
    && (forall v: nat, w: nat ::
          v < |s.workers| && w < |s.workers| && Engaged(s.workers[v], j) && Engaged(s.workers[w], j) ==> v == w)
    && (Settled(s, j) ==> j !in s.pending)
  }

  ghost predicate TurnsOk(s: State) {
    forall j :: !TwiceFaulted(s, j) ==> TurnOk(s, j)
  }

  lemma TokenGivesTurn(s: State, j: Job)
    requires TokenOk(s, j)
    ensures TurnOk(s, j)
  {
  }

  lemma TurnMove(s: State, w: nat, l: Local, j: Job)
    requires w < |s.workers| && TurnOk(s, j)
    requires Engaged(l, j) ==> Engaged(s.workers[w], j)
    ensures TurnOk(Goto(s, w, l), j)
  {
  }

  lemma TurnSame(s: State, t: State, j: Job)
    requires TurnOk(s, j) && t.workers == s.workers && t.pending == s.pending && t.reported == s.reported
    ensures TurnOk(t, j)
  {
  }

  lemma TurnMoved(s: State, w: nat, r: Reply)
    requires WellFormed(s) && w < |s.workers| && s.workers[w].Idle? && s.pending != [] && !r.Err?
    requires TurnOk(s, s.pending[0]) && s.pending[0] !in s.pending[1..]
    ensures TurnOk(PollStep(s, w, r), s.pending[0])
  {
    var j, t := s.pending[0], PollStep(s, w, r);
    assert multiset(t.pending)[j] == 0;
    assert forall v: nat :: v < |s.workers| ==> !Engaged(s.workers[v], j);
    assert forall v: nat :: v < |t.workers| && v != w ==> t.workers[v] == s.workers[v];
  }

  lemma TurnPassed(s: State, w: nat, r: Reply, j: Job)
    requires WellFormed(s) && w < |s.workers| && s.workers[w].Idle? && s.pending != [] && !r.Err?
    requires TurnOk(s, j) && j != s.pending[0]
    ensures TurnOk(PollStep(s, w, r), j)
  {
    var t := PollStep(s, w, r);
    HeadAndTail(s.pending);
    assert multiset(t.pending)[j] == multiset(s.pending)[j];
    assert !Engaged(t.workers[w], j);
    assert j in t.pending <==> j in s.pending;
  }

  lemma TurnPoll(s: State, w: nat, r: Reply, j: Job)
    requires WellFormed(s) && w < |s.workers| && s.workers[w].Idle? && TurnOk(s, j)
    ensures TurnOk(PollStep(s, w, r), j)
  {
    if s.pending != [] && !r.Err? {
      HeadAndTail(s.pending);
      assert j in s.pending[1..] <==> multiset(s.pending[1..])[j] > 0;
      if j == s.pending[0] { TurnMoved(s, w, r); } else { TurnPassed(s, w, r, j); }
    }
  }

  lemma TurnReport(s: State, w: nat, x: Result, next: Local, r: Reply, j: Job)
    requires w < |s.workers| && TurnOk(s, j) && !s.workers[w].Idle? && Engaged(s.workers[w], s.workers[w].job)
    requires s.workers[w].job.Job? && (j.Job? && j.id == s.workers[w].job.id ==> j == s.workers[w].job)
    requires
      || (x == CompletedResult(s.workers[w].job.id) && next == Removing(s.workers[w].job))
      || (x.Result? && x.status == Failed && next == Counting(s.workers[w].job))
    ensures TurnOk(ReportStep(s, w, x, next, r), j)
  {
  }

  lemma TurnRequeue(s: State, w: nat, job: Job, r: Reply, j: Job)
    requires w < |s.workers| && s.workers[w] == Requeueing(job) && TurnOk(s, j)
    ensures TurnOk(RequeueStep(s, w, job, r), j)
  {
    var l := if r.Ok? then Idle else DeadLettering(job);
    TurnMove(s, w, l, j);
    if r.Err? {
      TurnSame(Goto(s, w, l), RequeueStep(s, w, job, r), j);
    } else {
      TurnBack(s, w, job, r, j);
    }
  }

  lemma TurnBack(s: State, w: nat, job: Job, r: Reply, j: Job)
    requires w < |s.workers| && s.workers[w] == Requeueing(job) && TurnOk(s, j) && r.Applied()
    ensures TurnOk(RequeueStep(s, w, job, r), j)
  {
    var t := RequeueStep(s, w, job, r);
    assert Engaged(s.workers[w], job);
    assert multiset(t.pending) == multiset{job} + multiset(s.pending);
    InMultiset(s.pending, j);
    InMultiset(t.pending, j);
    forall v: nat | v < |t.workers| && Engaged(t.workers[v], j) ensures Engaged(s.workers[v], j) && v != w { }
  }

  lemma TurnReporter(s: State, w: nat, r: Reply, j: Job)
    requires WellFormed(s) && w < |s.workers| && TurnOk(s, j) && j in s.pushed
    requires s.workers[w].Reporting? || s.workers[w].Finishing?
    ensures TurnOk(WorkStep(s, w, r), j)
  {
    assert LocalOk(s, w);
    assert Known(s, j);
    match s.workers[w]
    case Reporting(job, error) => TurnReport(s, w, FailedResult(job.id, error), Counting(job), r, j);
    case Finishing(job) => TurnReport(s, w, CompletedResult(job.id), Removing(job), r, j);
  }

  lemma TurnWork(s: State, w: nat, r: Reply, j: Job)
    requires WellFormed(s) && w < |s.workers| && TurnOk(s, j) && j in s.pushed
    ensures TurnOk(WorkStep(s, w, r), j)
  {
    match s.workers[w]
    case Idle => TurnPoll(s, w, r, j);
    case Requeueing(job) => TurnRequeue(s, w, job, r, j);
    case Reporting(_, _) => TurnReporter(s, w, r, j);
    case Finishing(_) => TurnReporter(s, w, r, j);
    case _ => TurnKept(s, w, r, j);
  }

  lemma TurnKept(s: State, w: nat, r: Reply, j: Job)
    requires WellFormed(s) && w < |s.workers| && TurnOk(s, j)
    requires !s.workers[w].Idle? && !s.workers[w].Requeueing? && !s.workers[w].Reporting? && !s.workers[w].Finishing?
    ensures TurnOk(WorkStep(s, w, r), j)
  {
    var t := WorkStep(s, w, r);
    if Inner(s.workers[w]) {
      InnerMoves(s, w, r);
    }
    TurnMove(s, w, t.workers[w], j);
    TurnSame(Goto(s, w, t.workers[w]), t, j);
  }

  lemma TurnPush(s: State, id: DocId, r: Reply, j: Job)
    requires WellFormed(s) && TurnOk(s, j)
    ensures TurnOk(PushTaskStep(s, id, r), j)
  {
    if id in s.inflight && j == JobOf(s, id) {
      Unpushed(s, j);
      TokenPush(s, id, r, j);
      TokenGivesTurn(PushTaskStep(s, id, r), j);
    } else {
      assert j in s.pending <==> multiset(s.pending)[j] > 0;
    }
  }

  lemma TurnReprocess(s: State, j: Job)
    requires TurnOk(s, j) && j !in ReprocessStep(s).reprocessed
    ensures TurnOk(ReprocessStep(s), j)
  {
    assert j in s.pending <==> multiset(s.pending)[j] > 0;
  }

  lemma TurnApi(s: State, e: Event, j: Job)
    requires TurnOk(s, j) && (e.Submit? || e.Abandon? || e.Pop? || e.Update? || e.ConsumerCrash?)
    ensures TurnOk(Step(s, e), j)
  {
    TurnSame(s, Step(s, e), j);
  }

  lemma TurnStep(s: State, e: Event, j: Job)
    requires WellFormed(s) && TurnOk(s, j) && j !in Step(s, e).reprocessed
    requires j in Step(s, e).pushed
    ensures TurnOk(Step(s, e), j)
  {
    match e
    case PushTask(id, r) => TurnPush(s, id, r, j);
    case Work(w, r) => if w < |s.workers| { PushedBefore(s, w, r); TurnWork(s, w, r, j); }
    case Crash(w) => if w < |s.workers| { TurnMove(s, w, Idle, j); }
    case Reprocess => TurnReprocess(s, j);
    case _ => TurnApi(s, e, j);
  }

  lemma TurnsStep(s: State, e: Event)
    requires WellFormed(s) && TokensOk(s) && TurnsOk(s)
    ensures TurnsOk(Step(s, e))
  {
    var t := Step(s, e);
    WellFormedStep(s, e);
    TokensStep(s, e);
    AmbiguousGrows(s, e);
    forall j | !TwiceFaulted(t, j) ensures TurnOk(t, j) {
      if j !in t.ambiguous {
        TokenGivesTurn(t, j);
      } else if j in t.pushed {
        TurnStep(s, e, j);
      } else {
        Unpushed(t, j);
        TokenGivesTurn(t, j);
      }
    }
  }
}
