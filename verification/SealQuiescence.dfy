/** Where a fault-free run ends: once everything is at rest every pushed document is
    settled one way or the other, and the table, the bucket and the DLQ agree. */
module SealQuiescence {
  import opened Wrappers
  import opened SealTypes
  import opened SealProtocol
  import opened SealSafety
  import opened SealStorage
  import opened SealRetries
  import opened SealFinality
  import opened SealProgress

  ghost predicate CleanRun(s: State, es: seq<Event>)
    decreases |es|
  {
    es == [] || (Clean(s, es[0]) && CleanRun(Step(s, es[0]), es[1..]))
  }

  /** The row a document has after the results `rs`: the last one about it decides. */
  function RowAfter(text: string, rs: seq<Result>, id: DocId): Row {
    if rs == [] then Row(Pending, text, "", "")
    else
      var x := rs[|rs| - 1];
      if x.Result? && x.id == id then Row(x.status, text, x.s3Path, x.error)
      else RowAfter(text, rs[..|rs| - 1], id)
  }

  ghost predicate Accounted(s: State, j: Job) {
    j in s.pending || Held(s, j) || j in s.dlq || Settled(s, j)
  }

  ghost predicate WorkedOn(s: State, j: Job) {
    exists w: nat :: w < |s.workers| && !s.workers[w].Idle? && s.workers[w].job == j
  }

  predicate AfterReport(l: Local) { l.Counting? || l.Requeueing? || l.DeadLettering? }

  ghost predicate Tried(s: State, j: Job) {
    j.Job? ==> Reports(s.reported, j.id) >= 1
  }

  ghost predicate CleanOk(s: State) {
    && s.ambiguous == {} && s.dropped == {}
    && (forall id :: id in s.table ==> id in s.inflight || JobOf(s, id) in s.pushed)
    && (forall j :: j in s.pushed ==> Accounted(s, j))
    && (forall j :: j in s.processing ==> j in s.pending || WorkedOn(s, j))
    && (forall j :: j in s.dlq ==> Tried(s, j))
    && (forall w: nat :: w < |s.workers| && AfterReport(s.workers[w]) ==> Tried(s, s.workers[w].job))
    && (forall id :: id in s.table ==> s.table[id] == RowAfter(s.table[id].text, s.handled, id))
  }

  // ---- Nobody is forgotten ---------------------------------------------------

  lemma AccountedStep(s: State, e: Event, j: Job)
    requires WellFormed(s) && Clean(s, e) && Accounted(s, j)
    ensures Accounted(Step(s, e), j)
  {
    if j in s.pending || j in s.dlq {
      AccountedInList(s, e, j);
    } else if Held(s, j) {
      var w: nat :| w < |s.workers| && Holds(s.workers[w], j);
      AccountedHeld(s, e, w, j);
    } else {
      ReportedGrows(s, e);
    }
  }

  lemma ReportedGrows(s: State, e: Event)
    ensures s.reported <= Step(s, e).reported
  {
  }

  /** What waits or is dead stays so, but for the one that is moved or put back. */
  lemma ListsKeep(s: State, e: Event, j: Job)
    requires j in s.pending || j in s.dlq
    requires !(e.Work? && e.w < |s.workers| == |s.signers| && s.workers[e.w].Idle?) && !e.Reprocess?
    ensures j in Step(s, e).pending || j in Step(s, e).dlq
  {
    if e.Work? && e.w < |s.workers| == |s.signers| {
      NothingTakenAway(s, e.w, e.reply);
      if !s.workers[e.w].Removing? { ListsOnlyGrow(s, e.w, e.reply); }
    }
  }

  lemma AccountedMove(s: State, w: nat, r: Reply, j: Job)
    requires w < |s.workers| == |s.signers| && s.workers[w].Idle? && r.Ok? && (j in s.pending || j in s.dlq)
    ensures Accounted(WorkStep(s, w, r), j)
  {
    var t := WorkStep(s, w, r);
    if s.pending != [] {
      HeadAndTail(s.pending);
      assert Holds(t.workers[w], s.pending[0]);
    }
  }

  lemma AccountedInList(s: State, e: Event, j: Job)
    requires WellFormed(s) && Clean(s, e) && (j in s.pending || j in s.dlq)
    ensures Accounted(Step(s, e), j)
  {
    if e.Work? && e.w < |s.workers| && s.workers[e.w].Idle? {
      AccountedMove(s, e.w, e.reply, j);
    } else if e.Reprocess? {
      AccountedPutBack(s, j);
    } else {
      ListsKeep(s, e, j);
    }
  }

  lemma AccountedPutBack(s: State, j: Job)
    requires j in s.pending || j in s.dlq
    ensures Accounted(ReprocessStep(s), j)
  {
    if s.dlq != [] { HeadAndTail(s.dlq); }
  }

  lemma AccountedHeld(s: State, e: Event, w: nat, j: Job)
    requires WellFormed(s) && Clean(s, e) && w < |s.workers| && Holds(s.workers[w], j)
    ensures Accounted(Step(s, e), j)
  {
    var t := Step(s, e);
    if e.Work? && e.w == w {
      assert LocalOk(s, w);
      if Inner(s.workers[w]) {
        InnerMoves(s, w, e.reply);
        assert Holds(t.workers[w], j);
      } else if s.workers[w].Reporting? {
        assert Holds(t.workers[w], j);
      }
    } else {
      OthersStay(s, e, w);
      assert Holds(t.workers[w], j);
    }
  }

  // ---- Copies in processing have an owner ---------------------------------------

  lemma WorkedOnStep(s: State, e: Event, w: nat, j: Job)
    requires WellFormed(s) && Clean(s, e) && w < |s.workers| && !s.workers[w].Idle? && s.workers[w].job == j
    ensures var t := Step(s, e); j in t.pending || WorkedOn(t, j) || j !in t.processing
  {
    var t := Step(s, e);
    if e.Work? && e.w == w {
      assert LocalOk(s, w);
      if Inner(s.workers[w]) {
        InnerMoves(s, w, e.reply);
        assert !t.workers[w].Idle? && t.workers[w].job == j;
      } else if s.workers[w].Removing? {
        WithoutKeeps(s.processing, j);
      } else if !s.workers[w].Requeueing? {
        assert !t.workers[w].Idle? && t.workers[w].job == j;
      }
    } else {
      OthersStay(s, e, w);
      assert !t.workers[w].Idle? && t.workers[w].job == j;
    }
  }

  lemma OwnedStep(s: State, e: Event, j: Job)
    requires WellFormed(s) && Clean(s, e) && CleanOk(s) && j in Step(s, e).processing
    ensures var t := Step(s, e); j in t.pending || WorkedOn(t, j)
  {
    var t := Step(s, e);
    if e.Work? && e.w < |s.workers| && s.workers[e.w].Idle? {
      if s.pending != [] {
        HeadAndTail(s.pending);
        assert !t.workers[e.w].Idle? && t.workers[e.w].job == s.pending[0];
        if j != s.pending[0] && j !in s.pending {
          var w: nat :| w < |s.workers| && !s.workers[w].Idle? && s.workers[w].job == j;
          WorkedOnStep(s, e, w, j);
        }
      }
    } else {
      ProcessingShrinks(s, e);
      if j !in s.pending {
        var w: nat :| w < |s.workers| && !s.workers[w].Idle? && s.workers[w].job == j;
        WorkedOnStep(s, e, w, j);
      }
    }
  }

  lemma ProcessingShrinks(s: State, e: Event)
    requires !(e.Work? && e.w < |s.workers| && s.workers[e.w].Idle?)
    ensures forall j :: j in Step(s, e).processing ==> j in s.processing
    ensures forall j :: j in s.pending ==> j in Step(s, e).pending
  {
    if e.Work? && e.w < |s.workers| && s.workers[e.w].Removing? {
      WithoutKeeps(s.processing, s.workers[e.w].job);
    }
  }

  // ---- Dead letters have failed ---------------------------------------------------

  lemma ReportsGrow(s: State, e: Event, id: DocId)
    requires WellFormed(s)
    ensures Reports(s.reported, id) <= Reports(Step(s, e).reported, id)
  {
    if e.Work? && e.w < |s.workers| && (s.workers[e.w].Reporting? || s.workers[e.w].Finishing?) {
      assert LocalOk(s, e.w);
      var l := s.workers[e.w];
      ReportsAppend(s.reported, if l.Reporting? then FailedResult(l.job.id, l.error)
          else CompletedResult(l.job.id), id);
    }
  }

  lemma TriedReporter(s: State, w: nat)
    requires w < |s.workers| == |s.signers| && s.workers[w].Reporting? && s.workers[w].job.Job?
    ensures WorkStep(s, w, Ok).workers[w].Counting? && WorkStep(s, w, Ok).workers[w].job == s.workers[w].job
    ensures Tried(WorkStep(s, w, Ok), s.workers[w].job)
  {
    var l := s.workers[w];
    ReportsAppend(s.reported, FailedResult(l.job.id, l.error), l.job.id);
  }

  lemma TriedOwn(s: State, w: nat, r: Reply)
    requires WellFormed(s) && w < |s.workers| && Clean(s, Work(w, r)) && AfterReport(WorkStep(s, w, r).workers[w])
    requires AfterReport(s.workers[w]) ==> Tried(s, s.workers[w].job)
    ensures Tried(WorkStep(s, w, r), WorkStep(s, w, r).workers[w].job)
  {
    assert LocalOk(s, w);
    if Inner(s.workers[w]) {
      InnerMoves(s, w, r);
      ReportsGrow(s, Work(w, r), s.workers[w].job.id);
    } else if s.workers[w].Reporting? {
      TriedReporter(s, w);
    }
  }

  lemma TriedWorkerStep(s: State, e: Event, w: nat)
    requires WellFormed(s) && Clean(s, e) && CleanOk(s)
    requires w < |s.workers| && w < |Step(s, e).workers| && AfterReport(Step(s, e).workers[w])
    ensures Tried(Step(s, e), Step(s, e).workers[w].job)
  {
    if e.Work? && e.w == w {
      TriedOwn(s, w, e.reply);
    } else {
      OthersStay(s, e, w);
      TriedOther(s, e, w);
    }
  }

  lemma TriedOther(s: State, e: Event, w: nat)
    requires WellFormed(s) && w < |s.workers| && e != Crash(w) && !(e.Work? && e.w == w)
    requires AfterReport(s.workers[w]) && Tried(s, s.workers[w].job)
    ensures w < |Step(s, e).workers| && Tried(Step(s, e), Step(s, e).workers[w].job)
  {
    assert LocalOk(s, w);
    OthersStay(s, e, w);
    ReportsGrow(s, e, s.workers[w].job.id);
  }

  lemma DlqFrom(s: State, e: Event, j: Job)
    requires j in Step(s, e).dlq && j !in s.dlq
    ensures e.Work? && e.w < |s.workers| == |s.signers| && s.workers[e.w] == DeadLettering(j)
  {
    if e.Reprocess? {
      if s.dlq != [] { HeadAndTail(s.dlq); }
    } else if !(e.Work? && e.w < |s.workers| && s.workers[e.w].DeadLettering?) {
      DlqStays(s, e);
    }
  }

  lemma TriedDlqStep(s: State, e: Event, j: Job)
    requires WellFormed(s) && Clean(s, e) && CleanOk(s) && j in Step(s, e).dlq && j.Job?
    ensures Tried(Step(s, e), j)
  {
    ReportsGrow(s, e, j.id);
    if j !in s.dlq {
      DlqFrom(s, e, j);
      assert AfterReport(s.workers[e.w]);
    }
  }

  lemma DlqStays(s: State, e: Event)
    requires !e.Reprocess? && !(e.Work? && e.w < |s.workers| && s.workers[e.w].DeadLettering?)
    ensures Step(s, e).dlq == s.dlq
  {
  }

  // ---- Rows follow the results -------------------------------------------------------

  lemma RowAfterAppend(text: string, rs: seq<Result>, x: Result, id: DocId)
    ensures RowAfter(text, rs + [x], id) ==
            if x.Result? && x.id == id then Row(x.status, text, x.s3Path, x.error) else RowAfter(text, rs, id)
  {
    assert (rs + [x])[..|rs|] == rs;
  }

  lemma {:induction false} RowAfterNone(text: string, rs: seq<Result>, id: DocId)
    requires forall x :: x in rs && x.Result? ==> x.id != id
    ensures RowAfter(text, rs, id) == Row(Pending, text, "", "")
  {
    if rs != [] {
      assert rs[|rs| - 1] in rs;
      RowAfterNone(text, rs[..|rs| - 1], id);
    }
  }

  lemma RowCleanStep(s: State, e: Event, id: DocId)
    requires WellFormed(s) && Clean(s, e) && CleanOk(s) && id in Step(s, e).table
    ensures var t := Step(s, e); t.table[id] == RowAfter(t.table[id].text, t.handled, id)
  {
    var t := Step(s, e);
    if e.Update? && s.consumer.Some? {
      assert s.consumer.value in s.reported && Ours(s, s.consumer.value);
      RowAfterAppend(t.table[id].text, s.handled, s.consumer.value, id);
    } else {
      HandledSame(s, e);
      if id !in s.table {
        forall x | x in s.handled && x.Result? ensures x.id != id {
          assert x in s.reported && Ours(s, x);
        }
        RowAfterNone(t.table[id].text, s.handled, id);
      }
    }
  }

  lemma HandledSame(s: State, e: Event)
    requires Clean(s, e) && !(e.Update? && s.consumer.Some?)
    ensures Step(s, e).handled == s.handled
    ensures forall id :: id in s.table ==> id in Step(s, e).table && Step(s, e).table[id] == s.table[id]
  {
  }

  lemma FaultFree(s: State, e: Event)
    requires Clean(s, e) && s.ambiguous == {} && s.dropped == {}
    ensures Step(s, e).ambiguous == {} && Step(s, e).dropped == {}
  {
  }

  lemma PushedStep(s: State, e: Event, id: DocId)
    requires Clean(s, e) && id in Step(s, e).table && Grows(s, Step(s, e))
    requires id in s.table ==> id in s.inflight || JobOf(s, id) in s.pushed
    ensures var t := Step(s, e); id in t.inflight || JobOf(t, id) in t.pushed
  {
    match e
    case Submit(_, _) =>
    case PushTask(_, _) =>
    case Update(_) =>
    case _ => ApiKeeps(s, e);
  }

  /** Only requests change which rows there are, and what is under way and pushed. */
  lemma ApiKeeps(s: State, e: Event)
    requires !e.Submit? && !e.PushTask? && !e.Abandon? && !e.Update?
    ensures var t := Step(s, e); t.table == s.table && t.inflight == s.inflight && t.pushed == s.pushed
  {
  }

  lemma CleanJobs(s: State, e: Event)
    requires WellFormed(s) && Clean(s, e) && CleanOk(s)
    ensures var t := Step(s, e);
            && (forall id :: id in t.table ==> id in t.inflight || JobOf(t, id) in t.pushed)
            && (forall j :: j in t.pushed ==> Accounted(t, j))
  {
    var t := Step(s, e);
    StepGrows(s, e);
    forall id | id in t.table ensures id in t.inflight || JobOf(t, id) in t.pushed { PushedStep(s, e, id); }
    forall j | j in t.pushed ensures Accounted(t, j) {
      if j in s.pushed { AccountedStep(s, e, j); } else { NewlyPushed(s, e, j); }
    }
  }

  lemma NewlyPushed(s: State, e: Event, j: Job)
    requires j in Step(s, e).pushed && j !in s.pushed
    ensures j in Step(s, e).pending
  {
  }

  lemma CleanCopies(s: State, e: Event)
    requires WellFormed(s) && Clean(s, e) && CleanOk(s)
    ensures var t := Step(s, e); forall j :: j in t.processing ==> j in t.pending || WorkedOn(t, j)
  {
    var t := Step(s, e);
    forall j | j in t.processing ensures j in t.pending || WorkedOn(t, j) { OwnedStep(s, e, j); }
  }

  lemma CleanTried(s: State, e: Event)
    requires WellFormed(s) && Clean(s, e) && CleanOk(s)
    ensures var t := Step(s, e);
            && (forall j :: j in t.dlq ==> Tried(t, j))
            && (forall w: nat :: w < |t.workers| && AfterReport(t.workers[w]) ==> Tried(t, t.workers[w].job))
  {
    var t := Step(s, e);
    WorkersStay(s, e);
    forall j | j in t.dlq ensures Tried(t, j) { if j.Job? { TriedDlqStep(s, e, j); } }
    forall w: nat | w < |t.workers| && AfterReport(t.workers[w]) ensures Tried(t, t.workers[w].job) {
      TriedWorkerStep(s, e, w);
    }
  }

  lemma CleanRows(s: State, e: Event)
    requires WellFormed(s) && Clean(s, e) && CleanOk(s)
    ensures var t := Step(s, e); forall id :: id in t.table ==> t.table[id] == RowAfter(t.table[id].text, t.handled, id)
  {
    var t := Step(s, e);
    forall id | id in t.table ensures t.table[id] == RowAfter(t.table[id].text, t.handled, id) {
      RowCleanStep(s, e, id);
    }
  }

  lemma CleanStep(s: State, e: Event)
    requires WellFormed(s) && Clean(s, e) && CleanOk(s)
    ensures CleanOk(Step(s, e))
  {
    FaultFree(s, e);
    WellFormedStep(s, e);
    CleanJobs(s, e);
    CleanCopies(s, e);
    CleanTried(s, e);
    CleanRows(s, e);
  }

  lemma {:induction false} CleanRunKeeps(s: State, es: seq<Event>)
    requires RetrySafe(s) && CleanOk(s) && CleanRun(s, es)
    ensures RetrySafe(Run(s, es)) && CleanOk(Run(s, es))
    decreases |es|
  {
    if es != [] {
      CleanStep(s, es[0]);
      RetrySafeStep(s, es[0]);
      CleanRunKeeps(Step(s, es[0]), es[1..]);
    }
  }

  // ---- At rest ------------------------------------------------------------------------

  lemma {:induction false} LastReportCompleted(s: State, id: DocId, rs: seq<Result>)
    requires WellFormed(s) && OrderOk(s) && s.ambiguous == {} && id in s.table
    requires rs <= s.reported && CompletedResult(id) in rs
    ensures RowAfter(s.table[id].text, rs, id).status == Completed
  {
    var k := |rs| - 1;
    assert rs[k] == s.reported[k] && Ours(s, s.reported[k]);
    if rs[k].id == id {
      if rs[k] != CompletedResult(id) {
        var i: nat :| i < |rs| && rs[i] == CompletedResult(id);
        assert AboutOne(s, s.reported[i], s.reported[k], id);
      }
    } else {
      var i: nat :| i < |rs| && rs[i] == CompletedResult(id);
      assert rs[..k][i] == CompletedResult(id);
      LastReportCompleted(s, id, rs[..k]);
    }
  }

  lemma {:induction false} LastReportFailed(s: State, id: DocId, rs: seq<Result>)
    requires WellFormed(s) && id in s.table
    requires rs <= s.reported && CompletedResult(id) !in rs && Reports(rs, id) >= 1
    ensures RowAfter(s.table[id].text, rs, id).status == Failed
  {
    var k := |rs| - 1;
    assert rs[k] == s.reported[k] && Ours(s, s.reported[k]) && rs[k] in rs;
    if rs[k].id != id {
      LastReportFailed(s, id, rs[..k]);
    }
  }

  /** The two ways a document can end. */
  predicate Succeeded(s: State, j: Job) {
    j.Job? && j.id in s.table && s.table[j.id].status == Completed
    && ObjectKey(j.id) in s.store && multiset(s.dlq)[j] == 0
  }

  predicate GaveUp(s: State, j: Job) {
    j.Job? && j.id in s.table && s.table[j.id].status == Failed && multiset(s.dlq)[j] == 1
  }

  lemma SettledAtRest(s: State, j: Job)
    requires RetrySafe(s) && CleanOk(s) && AtRest(s) && j in s.pushed
    ensures Succeeded(s, j) != GaveUp(s, j)
  {
    assert Known(s, j) && Accounted(s, j) && TokenOk(s, j);
    assert s.handled == s.reported;
    assert j in s.dlq <==> multiset(s.dlq)[j] > 0;
    if Settled(s, j) {
      LastReportCompleted(s, j.id, s.reported);
    } else {
      assert j in s.dlq && Tried(s, j);
      LastReportFailed(s, j.id, s.reported);
    }
  }

  lemma NoCopiesAtRest(s: State)
    requires CleanOk(s) && AtRest(s)
    ensures s.processing == []
  {
    HeadIn(s.processing);
    assert forall j :: j in s.processing ==> WorkedOn(s, j);
  }

  lemma InitClean(signers: seq<bool>)
    ensures RetrySafe(Init(signers)) && CleanOk(Init(signers))
  {
  }

  /** However many workers and whatever the interleaving: when a fault-free run is at rest, every document
      in the table is either completed, with its object stored and no dead letter, or failed, with its job in
      the DLQ exactly once; none is pending, and no copy is left in processing. */
  lemma Quiescence(signers: seq<bool>, es: seq<Event>)
    requires CleanRun(Init(signers), es) && AtRest(Run(Init(signers), es))
    ensures
      var s := Run(Init(signers), es);
      && s.processing == []
      && (forall id :: id in s.table ==> Succeeded(s, JobOf(s, id)) != GaveUp(s, JobOf(s, id)))
  {
    var s := Run(Init(signers), es);
    InitClean(signers);
    CleanRunKeeps(Init(signers), es);
    NoCopiesAtRest(s);
    forall id | id in s.table ensures Succeeded(s, JobOf(s, id)) != GaveUp(s, JobOf(s, id)) {
      SettledAtRest(s, JobOf(s, id));
    }
  }

  /** Rest is reached: from every state of a fault-free run without the CronJob, some continuation of at most
      `Measure` steps, itself fault-free and without new submissions, ends at rest. */
  lemma {:induction false} RestIsReachable(s: State) returns (es: seq<Event>)
    requires RetrySafe(s) && CleanOk(s) && Undisturbed(s) && s.workers != []
    ensures CleanRun(s, es) && AtRest(Run(s, es)) && |es| <= Measure(s)
    ensures forall e :: e in es ==> !e.Submit? && !e.Reprocess?
    decreases Measure(s)
  {
    MeasureNonnegative(s);
    if AtRest(s) {
      es := [];
    } else {
      var e := NoDeadlock(s);
      FaultFree(s, e);
      MeasureDecreases(s, e);
      CleanStep(s, e);
      RetrySafeStep(s, e);
      WorkersStay(s, e);
      NotReprocessed(s, e);
      var rest := RestIsReachable(Step(s, e));
      es := [e] + rest;
      assert es[1..] == rest;
    }
  }

  lemma NotReprocessed(s: State, e: Event)
    requires !e.Reprocess?
    ensures Step(s, e).reprocessed == s.reprocessed
  {
  }
}
