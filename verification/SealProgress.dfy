/** Every run comes to rest: between two submissions only a bounded number of
    steps can change anything, and until the pipeline is at rest some step can. */
module SealProgress {
  import opened Wrappers
  import opened SealTypes
  import opened SealProtocol
  import opened SealSafety
  import opened SealStorage
  import opened SealRetries
  import opened SealFinality

  /** How far a worker is from letting its job go. */
  function Rank(l: Local): nat {
    match l
    case Idle => 0
    case Decoding(_) => 15
    case Generating(_) => 14
    case Signing(_, _) => 13
    case Uploading(_, _, tries) => if tries < MAX_RETRIES then 12 - tries else 0
    case Reporting(_, _) => 9
    case Finishing(_) => 9
    case Counting(_) => 6
    case Requeueing(_) => 5
    case DeadLettering(_) => 4
    case Removing(_) => 2
  }

  function Ranks(ws: seq<Local>): nat {
    if ws == [] then 0 else Rank(ws[0]) + Ranks(ws[1..])
  }

  lemma {:induction false} RanksUpdate(ws: seq<Local>, w: nat, l: Local)
    requires w < |ws|
    ensures Ranks(ws[w := l]) == Ranks(ws) - Rank(ws[w]) + Rank(l)
  {
    if w == 0 {
      assert ws[w := l][1..] == ws[1..];
    } else {
      assert ws[w := l][1..] == ws[1..][w - 1 := l];
      RanksUpdate(ws[1..], w - 1, l);
    }
  }

  lemma {:induction false} WithoutLength<T>(s: seq<T>, x: T)
    ensures |Without(s, x)| == |s| - multiset(s)[x]
  {
    if s != [] {
      HeadAndTail(s);
      WithoutLength(s[1..], x);
    }
  }

  lemma {:induction false} ThreeEach(moved: seq<Job>, pushed: seq<Job>)
    requires forall j :: j in moved ==> j in pushed && multiset(moved)[j] <= MAX_JOB_RETRIES
    ensures |moved| <= MAX_JOB_RETRIES * |pushed|
    decreases |moved|
  {
    if moved != [] {
      var j := moved[0];
      assert j in moved;
      WithoutKeeps(moved, j);
      WithoutKeeps(pushed, j);
      WithoutLength(moved, j);
      WithoutLength(pushed, j);
      assert multiset(moved)[j] >= 1 && multiset(pushed)[j] >= 1;
      ThreeEach(Without(moved, j), Without(pushed, j));
    }
  }

  /** No requeue was answered with an error although it happened, and the CronJob has not run. */
  predicate Undisturbed(s: State) { s.ambiguous == {} && s.reprocessed == {} }

  /** At most three moves for every pushed job. */
  lemma MovesBounded(s: State)
    requires RetrySafe(s) && Undisturbed(s)
    ensures |s.moved| <= MAX_JOB_RETRIES * |s.pushed|
  {
    forall j | j in s.moved ensures j in s.pushed && multiset(s.moved)[j] <= MAX_JOB_RETRIES {
      assert Known(s, j) && AttemptsOk(s, j);
    }
    ThreeEach(s.moved, s.pushed);
  }

  /** A run of any number of workers makes at most three moves for every pushed job. */
  lemma ThreeMovesPerJob(signers: seq<bool>, es: seq<Event>)
    requires Undisturbed(Run(Init(signers), es))
    ensures |Run(Init(signers), es).moved| <= MAX_JOB_RETRIES * |Run(Init(signers), es).pushed|
  {
    ReachableRetrySafe(signers, es);
    MovesBounded(Run(Init(signers), es));
  }

  /** What is still to be done outside the workers. */
  function Backlog(s: State): int {
    20 * (MAX_JOB_RETRIES * |s.pushed| - |s.moved|) + 2 * |s.results|
    + (if s.consumer.Some? then 1 else 0) + 61 * |s.inflight|
  }

  function Measure(s: State): int {
    Backlog(s) + Ranks(s.workers)
  }

  lemma MeasureNonnegative(s: State)
    requires RetrySafe(s) && Undisturbed(s)
    ensures 0 <= Measure(s)
  {
    MovesBounded(s);
  }

  lemma InnerRank(s: State, w: nat, r: Reply)
    requires WellFormed(s) && w < |s.workers| && Inner(s.workers[w])
    ensures Rank(WorkStep(s, w, r).workers[w]) < Rank(s.workers[w])
  {
    assert LocalOk(s, w);
  }

  lemma LostRequeueIsAmbiguous(s: State, w: nat, r: Reply)
    requires WellFormed(s) && w < |s.workers| && s.workers[w].Requeueing? && r.Lost?
    ensures WorkStep(s, w, r).ambiguous != {}
  {
    assert s.workers[w].job in WorkStep(s, w, r).ambiguous;
  }

  /** Backlog and rank of the worker that steps. */
  lemma WorkBalance(s: State, w: nat, r: Reply)
    requires WellFormed(s) && w < |s.workers|
    requires WorkStep(s, w, r) != s && !(s.workers[w].Requeueing? && r.Lost?)
    ensures var t := WorkStep(s, w, r);
            Backlog(t) + Rank(t.workers[w]) < Backlog(s) + Rank(s.workers[w])
  {
    if Inner(s.workers[w]) {
      InnerMoves(s, w, r);
      InnerRank(s, w, r);
    } else {
      assert LocalOk(s, w);
      match s.workers[w]
      case Idle =>
      case Reporting(job, error) =>
      case Finishing(job) =>
      case Requeueing(job) =>
      case DeadLettering(job) =>
      case Removing(job) =>
    }
  }

  lemma WorkMeasure(s: State, w: nat, r: Reply)
    requires WellFormed(s) && w < |s.workers|
    requires WorkStep(s, w, r) != s && WorkStep(s, w, r).ambiguous == {}
    ensures Measure(WorkStep(s, w, r)) < Measure(s)
  {
    var t := WorkStep(s, w, r);
    assert OnlyWorker(s, t, w);
    assert t.workers == s.workers[w := t.workers[w]];
    RanksUpdate(s.workers, w, t.workers[w]);
    if s.workers[w].Requeueing? && r.Lost? {
      LostRequeueIsAmbiguous(s, w, r);
      assert false;
    }
    WorkBalance(s, w, r);
  }

  lemma CrashMeasure(s: State, w: nat)
    requires WellFormed(s) && w < |s.workers| && Goto(s, w, Idle) != s
    ensures Measure(Goto(s, w, Idle)) < Measure(s)
  {
    RanksUpdate(s.workers, w, Idle);
    assert s.workers[w := s.workers[w]] == s.workers;
    assert LocalOk(s, w);
  }

  lemma AbandonMeasure(s: State, id: DocId)
    requires Step(s, Abandon(id)) != s
    ensures Measure(Step(s, Abandon(id))) < Measure(s)
  {
    assert id !in s.inflight ==> s.inflight - {id} == s.inflight;
    assert |s.inflight - {id}| == |s.inflight| - 1;
  }

  lemma ConsumerMeasure(s: State, e: Event)
    requires e.Pop? || e.Update? || e.ConsumerCrash?
    requires Step(s, e) != s
    ensures Measure(Step(s, e)) < Measure(s)
  {
  }

  /** Every step that changes something, other than a new submission and the CronJob's, brings the
      pipeline closer to rest; this includes crashes and failed calls. */
  lemma MeasureDecreases(s: State, e: Event)
    requires WellFormed(s) && !e.Submit? && !e.Reprocess?
    requires Step(s, e) != s && Step(s, e).ambiguous == {}
    ensures Measure(Step(s, e)) < Measure(s)
  {
    match e
    case PushTask(id, r) => assert |s.inflight - {id}| == |s.inflight| - 1;
    case Abandon(id) => AbandonMeasure(s, id);
    case Work(w, r) => WorkMeasure(s, w, r);
    case Crash(w) => CrashMeasure(s, w);
    case _ => ConsumerMeasure(s, e);
  }

  /** Every event of the run changes something, and none is a submission or the CronJob's. */
  ghost predicate Busy(s: State, es: seq<Event>)
    decreases |es|
  {
    es == [] ||
    (Step(s, es[0]) != s && !es[0].Submit? && !es[0].Reprocess? && Busy(Step(s, es[0]), es[1..]))
  }

  /** There is no endless activity: a busy run is no longer than the measure it starts from. */
  lemma {:induction false} BusyRunsEnd(s: State, es: seq<Event>)
    requires RetrySafe(s) && Busy(s, es) && Undisturbed(Run(s, es))
    ensures |es| <= Measure(s)
    decreases |es|
  {
    FaultsRun(s, es);
    ReprocessedRun(s, es);
    if es == [] {
      MeasureNonnegative(s);
    } else {
      var t := Step(s, es[0]);
      FaultsRun(t, es[1..]);
      ReprocessedRun(t, es[1..]);
      RetrySafeStep(s, es[0]);
      MeasureDecreases(s, es[0]);
      BusyRunsEnd(t, es[1..]);
    }
  }

  lemma {:induction false} ReprocessedRun(s: State, es: seq<Event>)
    ensures s.reprocessed <= Run(s, es).reprocessed
    decreases |es|
  {
    if es != [] {
      AmbiguousGrows(s, es[0]);
      ReprocessedRun(Step(s, es[0]), es[1..]);
    }
  }

  // ---- Rest -----------------------------------------------------------------

  /** Nothing waits, nobody works, no result is on its way. */
  predicate AtRest(s: State) {
    && s.pending == [] && s.results == [] && s.consumer.None? && s.inflight == {}
    && (forall w :: 0 <= w < |s.workers| ==> s.workers[w].Idle?)
  }

  /** A fault-free event: Redis and the database answer, nobody crashes. Generating, signing and
      storing a PDF may fail. */
  predicate Clean(s: State, e: Event) {
    match e
    case Submit(_, _) => true
    case PushTask(_, r) => r.Ok?
    case Abandon(_) => false
    case Work(w, r) => r.Ok?
        || (w < |s.workers| && (s.workers[w].Generating? || s.workers[w].Signing? || s.workers[w].Uploading?))
    case Crash(_) => false
    case Pop(r) => r.Ok?
    case Update(r) => r.Ok?
    case ConsumerCrash => false
    case Reprocess => true
  }

  /** Short of rest, some fault-free step changes something, if there is a worker at all. */
  lemma NoDeadlock(s: State) returns (e: Event)
    requires WellFormed(s) && !AtRest(s) && s.workers != []
    ensures Clean(s, e) && Step(s, e) != s && !e.Submit? && !e.Reprocess?
  {
    if s.consumer.Some? {
      e := Update(Ok);
    } else if s.results != [] {
      e := Pop(Ok);
    } else if s.inflight != {} {
      var id :| id in s.inflight;
      e := PushTask(id, Ok);
      assert id !in Step(s, e).inflight;
    } else if exists w: nat :: w < |s.workers| && !s.workers[w].Idle? {
      var w: nat :| w < |s.workers| && !s.workers[w].Idle?;
      e := Work(w, Ok);
      BusyWorkerMoves(s, w);
    } else {
      e := Work(0, Ok);
      assert s.workers[0].Idle?;
      assert Step(s, e).pending == s.pending[1..];
    }
  }

  lemma BusyWorkerMoves(s: State, w: nat)
    requires WellFormed(s) && w < |s.workers| && !s.workers[w].Idle?
    ensures WorkStep(s, w, Ok).workers[w] != s.workers[w]
  {
    assert LocalOk(s, w);
    if Inner(s.workers[w]) {
      InnerRank(s, w, Ok);
    }
  }
}
