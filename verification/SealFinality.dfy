/** What the table may show over a whole run, and where a pushed job may be. */
module SealFinality {
  import opened Wrappers
  import opened SealTypes
  import opened SealProtocol
  import opened SealSafety
  import opened SealStorage
  import opened SealRetries
  import opened SealTurns

  ghost predicate AboutOne(s: State, x: Result, y: Result, id: DocId) {
    x.Result? && y.Result? && x.id == id && y.id == id && id in s.table && !TwiceFaulted(s, JobOf(s, id))
  }

  /** The results of a document are failures, followed by at most one completion. */
  ghost predicate OrderOk(s: State) {
    forall i: nat, k: nat, id :: i < k < |s.reported| && AboutOne(s, s.reported[i], s.reported[k], id) ==>
      s.reported[i].status == Failed
  }

  ghost predicate RetrySafe(s: State) {
    Safe(s) && TokensOk(s) && TurnsOk(s) && RetriesOk(s) && OrderOk(s)
  }

  lemma OrderSame(s: State, t: State)
    requires WellFormed(s) && OrderOk(s) && Grows(s, t) && t.reported == s.reported
    requires s.ambiguous <= t.ambiguous && s.reprocessed <= t.reprocessed
    ensures OrderOk(t)
  {
    forall i: nat, k: nat, id | i < k < |t.reported| && AboutOne(t, t.reported[i], t.reported[k], id)
      ensures t.reported[i].status == Failed
    {
      assert Ours(s, s.reported[i]);
      assert AboutOne(s, s.reported[i], s.reported[k], id);
    }
  }

  lemma OrderReport(s: State, w: nat, x: Result, next: Local, r: Reply)
    requires WellFormed(s) && TurnsOk(s) && OrderOk(s) && w < |s.workers| && x.Result?
    requires s.workers[w].Reporting? || s.workers[w].Finishing?
    requires x.id in s.table && JobOf(s, x.id) == s.workers[w].job
    ensures OrderOk(ReportStep(s, w, x, next, r))
  {
    var t := ReportStep(s, w, x, next, r);
    forall i: nat, k: nat, id | i < k < |t.reported| && AboutOne(t, t.reported[i], t.reported[k], id)
      ensures t.reported[i].status == Failed
    {
      assert s.reported[i] in s.reported && Ours(s, s.reported[i]);
      if k < |s.reported| {
        assert AboutOne(s, s.reported[i], s.reported[k], id);
      } else {
        assert Engaged(s.workers[w], JobOf(s, id)) && TurnOk(s, JobOf(s, id));
      }
    }
  }

  lemma OrderWork(s: State, w: nat, r: Reply)
    requires WellFormed(s) && TurnsOk(s) && OrderOk(s) && w < |s.workers|
    ensures OrderOk(WorkStep(s, w, r))
  {
    assert LocalOk(s, w);
    StepGrows(s, Work(w, r));
    AmbiguousGrows(s, Work(w, r));
    if s.workers[w].Reporting? {
      OrderReport(s, w, FailedResult(s.workers[w].job.id, s.workers[w].error), Counting(s.workers[w].job), r);
    } else if s.workers[w].Finishing? {
      OrderReport(s, w, CompletedResult(s.workers[w].job.id), Removing(s.workers[w].job), r);
    } else {
      OrderSame(s, WorkStep(s, w, r));
    }
  }

  lemma OrderStep(s: State, e: Event)
    requires WellFormed(s) && TurnsOk(s) && OrderOk(s)
    ensures OrderOk(Step(s, e))
  {
    if e.Work? && e.w < |s.workers| {
      OrderWork(s, e.w, e.reply);
    } else {
      StepGrows(s, e);
      AmbiguousGrows(s, e);
      OrderSame(s, Step(s, e));
    }
  }

  lemma RetrySafeStep(s: State, e: Event)
    requires RetrySafe(s)
    ensures RetrySafe(Step(s, e))
  {
    WellFormedStep(s, e);
    StoreStep(s, e);
    RowsStep(s, e);
    TokensStep(s, e);
    TurnsStep(s, e);
    RetriesStep(s, e);
    OrderStep(s, e);
  }

  lemma {:induction false} RetrySafeRun(s: State, es: seq<Event>)
    requires RetrySafe(s)
    ensures RetrySafe(Run(s, es))
    decreases |es|
  {
    if es != [] {
      RetrySafeStep(s, es[0]);
      RetrySafeRun(Step(s, es[0]), es[1..]);
    }
  }

  lemma ReachableRetrySafe(signers: seq<bool>, es: seq<Event>)
    ensures RetrySafe(Run(Init(signers), es))
  {
    RetrySafeRun(Init(signers), es);
  }

  // ---- The retry bound -------------------------------------------------------

  /** However many workers there are and however they interleave, crash and fail, no job is
      attempted more than three times, nor reported more than three times, unless it came back
      from the DLQ or its requeue was answered with an error although it had happened. */
  lemma RetryBound(signers: seq<bool>, es: seq<Event>, j: Job)
    requires var s := Run(Init(signers), es); j !in s.ambiguous && j !in s.reprocessed && j in s.pushed
    ensures var s := Run(Init(signers), es);
            Moves(s, j) <= MAX_JOB_RETRIES && j.Job? && Reports(s.reported, j.id) <= Moves(s, j)
  {
    ReachableRetrySafe(signers, es);
    var s := Run(Init(signers), es);
    assert ReportsOk(s, j) && AttemptsOk(s, j) && Known(s, j);
  }

  /** A waiting or running job's copies in `seal:processing` are exactly its attempts. */
  lemma CopiesAreAttempts(signers: seq<bool>, es: seq<Event>, w: nat, j: Job)
    requires var s := Run(Init(signers), es); j !in s.ambiguous && j !in s.reprocessed
    requires var s := Run(Init(signers), es);
             j in s.pending || (w < |s.workers| && Holds(s.workers[w], j))
    ensures var s := Run(Init(signers), es); Copies(s, j) == Moves(s, j)
  {
    ReachableRetrySafe(signers, es);
    assert AttemptsOk(Run(Init(signers), es), j);
  }

  /** No two workers hold the same job, and a held job waits in no list. */
  lemma OneHolder(signers: seq<bool>, es: seq<Event>, v: nat, w: nat)
    requires var s := Run(Init(signers), es);
      && v < |s.workers| && w < |s.workers| && v != w
      && !s.workers[v].Idle? && Holds(s.workers[v], s.workers[v].job) && s.workers[v].job !in s.ambiguous
    ensures var s := Run(Init(signers), es);
      && !Holds(s.workers[w], s.workers[v].job)
      && s.workers[v].job !in s.pending && s.workers[v].job !in s.dlq
  {
    ReachableRetrySafe(signers, es);
    assert TokenOk(Run(Init(signers), es), Run(Init(signers), es).workers[v].job);
  }

  // ---- Completed is final ------------------------------------------------------

  /** A step that has no result of the document to write leaves its row alone. */
  lemma RowStays(s: State, e: Event, id: DocId)
    requires id in s.table
    requires s.consumer.Some? && s.consumer.value.Result? ==> s.consumer.value.id != id
    ensures id in Step(s, e).table && Step(s, e).table[id] == s.table[id]
  {
    match e
    case Submit(_, _) =>
    case Update(_) =>
    case Work(w, r) =>
    case _ =>
  }

  lemma CompletedStays(s: State, e: Event, id: DocId)
    requires RetrySafe(s) && id in s.table && s.table[id].status == Completed && !TwiceFaulted(s, JobOf(s, id))
    ensures id in Step(s, e).table && Step(s, e).table[id] == s.table[id]
  {
    NothingToOverwrite(s, id);
    RowStays(s, e, id);
  }

  lemma NothingToOverwrite(s: State, id: DocId)
    requires RetrySafe(s) && id in s.table && s.table[id].status == Completed && !TwiceFaulted(s, JobOf(s, id))
    ensures s.consumer.Some? && s.consumer.value.Result? ==> s.consumer.value.id != id
  {
    if s.consumer.Some? && s.consumer.value.Result? && s.consumer.value.id == id {
      assert RowOk(s, id);
      var x :| x in s.handled && x.Result? && x.id == id && RowFrom(s.table[id], x);
      var i: nat :| i < |s.handled| && s.handled[i] == x;
      var k := |s.handled|;
      assert s.reported[i] == x && s.reported[k] == s.consumer.value;
      assert AboutOne(s, s.reported[i], s.reported[k], id);
    }
  }

  lemma {:induction false} CompletedStaysRun(s: State, es: seq<Event>, id: DocId)
    requires RetrySafe(s) && id in s.table && s.table[id].status == Completed
    requires !TwiceFaulted(Run(s, es), JobOf(s, id))
    ensures id in Run(s, es).table && Run(s, es).table[id] == s.table[id]
    decreases |es|
  {
    if es != [] {
      FaultsRun(Step(s, es[0]), es[1..]);
      AmbiguousGrows(s, es[0]);
      CompletedStays(s, es[0], id);
      RetrySafeStep(s, es[0]);
      CompletedStaysRun(Step(s, es[0]), es[1..], id);
    }
  }

  lemma {:induction false} FaultsRun(s: State, es: seq<Event>)
    ensures s.ambiguous <= Run(s, es).ambiguous && s.reprocessed <= Run(s, es).reprocessed
    decreases |es|
  {
    if es != [] {
      AmbiguousGrows(s, es[0]);
      FaultsRun(Step(s, es[0]), es[1..]);
    }
  }

  /** Of the results of one document, in the order in which they were pushed, every one but the last is a failure,
      unless its job met both faults: a requeue that was answered with an error although it had happened, and the
      CronJob. */
  lemma FailuresThenOneCompletion(signers: seq<bool>, es: seq<Event>, id: DocId, i: nat, k: nat)
    requires var s := Run(Init(signers), es); id in s.table && !TwiceFaulted(s, JobOf(s, id))
    requires var s := Run(Init(signers), es);
             && i < k < |s.reported| && s.reported[i].Result? && s.reported[k].Result?
             && s.reported[i].id == id && s.reported[k].id == id
    ensures var s := Run(Init(signers), es);
            s.reported[i].status == Failed && s.reported[k].status in {Failed, Completed}
  {
    ReachableRetrySafe(signers, es);
    var s := Run(Init(signers), es);
    assert AboutOne(s, s.reported[i], s.reported[k], id);
    assert s.reported[k] in s.reported && Ours(s, s.reported[k]);
  }

  /** A row that has become completed never changes again, whatever follows in the run, with the same exception. */
  lemma CompletedIsFinal(signers: seq<bool>, es: seq<Event>, fs: seq<Event>, id: DocId)
    requires var s := Run(Init(signers), es); id in s.table && s.table[id].status == Completed
    requires var s := Run(Init(signers), es); !TwiceFaulted(Run(Init(signers), es + fs), JobOf(s, id))
    ensures
      var s, t := Run(Init(signers), es), Run(Init(signers), es + fs);
      id in t.table && t.table[id] == s.table[id]
  {
    ReachableRetrySafe(signers, es);
    RunAppend(Init(signers), es, fs);
    CompletedStaysRun(Run(Init(signers), es), fs, id);
  }

  // ---- No silent loss ------------------------------------------------------------

  ghost predicate Kept(s: State, j: Job) {
    j in s.dlq || (j.Job? && ObjectKey(j.id) in s.store) || j in s.dropped
  }

  /** The CronJob does not put `j` back while a worker has yet to remove it. */
  ghost predicate InTime(s: State, e: Event, j: Job) {
    e.Reprocess? && s.dlq != [] && s.dlq[0] == j ==> forall w: nat :: w < |s.workers| ==> s.workers[w] != Removing(j)
  }

  ghost predicate AlwaysInTime(s: State, es: seq<Event>, j: Job)
    decreases |es|
  {
    es == [] || (InTime(s, es[0], j) && AlwaysInTime(Step(s, es[0]), es[1..], j))
  }

  /** A pushed job is somewhere, and whoever is about to remove it has left it somewhere else. */
  ghost predicate NotLost(s: State, j: Job) {
    && (j in s.pushed ==> j in s.pending || j in s.processing || Kept(s, j))
    && (forall w: nat :: w < |s.workers| && s.workers[w] == Removing(j) ==> Kept(s, j))
  }

  lemma KeptStep(s: State, e: Event, j: Job)
    requires Kept(s, j)
    ensures Kept(Step(s, e), j) || (e.Reprocess? && s.dlq != [] && s.dlq[0] == j && j in Step(s, e).pending)
  {
    if e.Work? && e.w < |s.workers| == |s.signers| {
      KeptWork(s, e.w, e.reply, j);
    } else if e.Reprocess? && s.dlq != [] {
      HeadAndTail(s.dlq);
    }
  }

  lemma KeptWork(s: State, w: nat, r: Reply, j: Job)
    requires w < |s.workers| == |s.signers| && Kept(s, j)
    ensures Kept(WorkStep(s, w, r), j)
  {
    NothingTakenAway(s, w, r);
  }

  /** No call of a worker takes a dead letter, an object or a dropped job away. */
  lemma NothingTakenAway(s: State, w: nat, r: Reply)
    requires w < |s.workers| == |s.signers|
    ensures var t := WorkStep(s, w, r);
            s.store.Keys <= t.store.Keys && s.dropped <= t.dropped && (t.dlq == s.dlq || s.workers[w].DeadLettering?)
    ensures s.workers[w].DeadLettering? ==> forall j :: j in s.dlq ==> j in WorkStep(s, w, r).dlq
  {
    match s.workers[w]
    case Uploading(job, data, tries) =>
    case DeadLettering(job) =>
    case _ =>
  }

  lemma PlacedWork(s: State, w: nat, r: Reply, j: Job)
    requires WellFormed(s) && NotLost(s, j) && w < |s.workers| && j in s.pushed && !Kept(s, j)
    ensures var t := WorkStep(s, w, r); j in t.pending || j in t.processing || Kept(t, j)
  {
    if s.workers[w].Idle? {
      if s.pending != [] { HeadAndTail(s.pending); }
    } else if s.workers[w].Removing? {
      WithoutKeeps(s.processing, s.workers[w].job);
    } else {
      ListsOnlyGrow(s, w, r);
    }
  }

  lemma ListsOnlyGrow(s: State, w: nat, r: Reply)
    requires w < |s.workers| == |s.signers| && !s.workers[w].Idle? && !s.workers[w].Removing?
    ensures var t := WorkStep(s, w, r);
            t.processing == s.processing && (forall j :: j in s.pending ==> j in t.pending)
  {
    match s.workers[w]
    case Uploading(_, _, _) =>
    case Requeueing(_) =>
    case DeadLettering(_) =>
    case _ =>
  }

  lemma PlacedStep(s: State, e: Event, j: Job)
    requires WellFormed(s) && NotLost(s, j) && j in s.pushed
    ensures var t := Step(s, e); j in t.pending || j in t.processing || Kept(t, j)
  {
    if Kept(s, j) {
      KeptStep(s, e, j);
    } else if e.Work? {
      if e.w < |s.workers| { PlacedWork(s, e.w, e.reply, j); }
    } else {
      ApiFrame(s, e);
    }
  }

  lemma RemovingStep(s: State, e: Event, w: nat)
    requires WellFormed(s) && StoreOk(s) && w < |s.workers| && Step(s, e).workers[w].Removing?
    requires var j := Step(s, e).workers[w].job; NotLost(s, j) && InTime(s, e, j)
    ensures Kept(Step(s, e), Step(s, e).workers[w].job)
  {
    if e.Work? && e.w == w {
      RemovingWork(s, w, e.reply);
    } else if e != Crash(w) {
      OthersStay(s, e, w);
      KeptStep(s, e, s.workers[w].job);
    }
  }

  /** Whoever starts to remove a job has dead-lettered it, or dropped it, or reported it stored. */
  lemma RemovingWork(s: State, w: nat, r: Reply)
    requires WellFormed(s) && StoreOk(s) && w < |s.workers| && WorkStep(s, w, r).workers[w].Removing?
    ensures Kept(WorkStep(s, w, r), WorkStep(s, w, r).workers[w].job)
  {
    assert LocalOk(s, w);
    if Inner(s.workers[w]) {
      InnerMoves(s, w, r);
    }
  }

  lemma NotLostStep(s: State, e: Event, j: Job)
    requires WellFormed(s) && StoreOk(s) && NotLost(s, j) && InTime(s, e, j)
    ensures NotLost(Step(s, e), j)
  {
    var t := Step(s, e);
    WorkersStay(s, e);
    if j in s.pushed { PlacedStep(s, e, j); }
    forall w: nat | w < |t.workers| && t.workers[w] == Removing(j) ensures Kept(t, j) {
      RemovingStep(s, e, w);
    }
  }

  lemma {:induction false} NotLostRun(s: State, es: seq<Event>, j: Job)
    requires Safe(s) && NotLost(s, j) && AlwaysInTime(s, es, j)
    ensures NotLost(Run(s, es), j)
    decreases |es|
  {
    if es != [] {
      WellFormedStep(s, es[0]);
      StoreStep(s, es[0]);
      RowsStep(s, es[0]);
      NotLostStep(s, es[0], j);
      NotLostRun(Step(s, es[0]), es[1..], j);
    }
  }

  ghost predicate Somewhere(s: State, j: Job) {
    && j.Job? && j.id in s.table && j.text == s.table[j.id].text != ""
    && (j in s.pending || j in s.processing || j in s.dlq || j.id + ".pdf" in s.store || j in s.dropped)
  }

  /** A pushed job is waiting, being worked on, dead-lettered, or its PDF is stored: also when workers crash and calls
      fail anywhere, and when the CronJob puts it back, unless it does so while a worker has yet to remove the job.
      The one other way out is a dead-letter push that failed. */
  lemma NoSilentLoss(signers: seq<bool>, es: seq<Event>, j: Job)
    requires j in Run(Init(signers), es).pushed && AlwaysInTime(Init(signers), es, j)
    ensures Somewhere(Run(Init(signers), es), j)
  {
    Reachable(signers, es);
    NotLostRun(Init(signers), es, j);
    assert Known(Run(Init(signers), es), j);
  }

  /** The branches for undecodable messages and for empty texts are never taken. */
  lemma BadMessagesNeverArrive(signers: seq<bool>, es: seq<Event>, w: nat)
    requires w < |Run(Init(signers), es).workers| && Run(Init(signers), es).workers[w].Decoding?
    ensures var l := Run(Init(signers), es).workers[w]; l.job.Job? && Decoded(l.job) == Generating(l.job)
  {
    Reachable(signers, es);
    assert LocalOk(Run(Init(signers), es), w);
  }
}
