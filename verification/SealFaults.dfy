/** Which faults the guarantees survive: for each class of allowed faults, whether a guarantee holds in all runs of the
    class. Crashes and failing calls are always allowed; two faults are in question. */
module SealFaults {
  import opened Wrappers
  import opened SealTypes
  import opened SealProtocol
  import opened SealSafety
  import opened SealStorage
  import opened SealRetries
  import opened SealTurns
  import opened SealFinality
  import opened SealLimits

  /** May a requeue be answered with an error although it happened? May the CronJob put dead letters back? */
  datatype Faults = Faults(lost: bool, cron: bool)

  predicate LosesRequeue(s: State, e: Event) {
    e.Work? && e.reply.Lost? && e.w < |s.workers| && s.workers[e.w].Requeueing?
  }

  predicate Allowed(f: Faults, s: State, e: Event) {
    (e.Reprocess? ==> f.cron) && (LosesRequeue(s, e) ==> f.lost)
  }

  /** Every event of the run is allowed. */
  predicate Within(f: Faults, s: State, es: seq<Event>)
    decreases |es|
  {
    es == [] || (Allowed(f, s, es[0]) && Within(f, Step(s, es[0]), es[1..]))
  }

  lemma AllowedStep(f: Faults, s: State, e: Event)
    requires Allowed(f, s, e)
    ensures !f.lost ==> Step(s, e).ambiguous == s.ambiguous
    ensures !f.cron ==> Step(s, e).reprocessed == s.reprocessed
  {
    if e.Work? && e.w < |s.workers| == |s.signers| {
      AllowedWork(f, s, e.w, e.reply);
    }
  }

  lemma AllowedWork(f: Faults, s: State, w: nat, r: Reply)
    requires w < |s.workers| == |s.signers| && Allowed(f, s, Work(w, r))
    ensures !f.lost ==> WorkStep(s, w, r).ambiguous == s.ambiguous
    ensures WorkStep(s, w, r).reprocessed == s.reprocessed
  {
    match s.workers[w]
    case Idle =>
    case Uploading(job, _, _) =>
    case Reporting(_, _) =>
    case Counting(_) =>
    case Requeueing(job) =>
    case DeadLettering(_) =>
    case Finishing(_) =>
    case Removing(_) =>
    case _ =>
  }

  lemma {:induction false} WithinRun(f: Faults, s: State, es: seq<Event>)
    requires Within(f, s, es)
    ensures !f.lost ==> Run(s, es).ambiguous == s.ambiguous
    ensures !f.cron ==> Run(s, es).reprocessed == s.reprocessed
    decreases |es|
  {
    if es != [] {
      AllowedStep(f, s, es[0]);
      WithinRun(f, Step(s, es[0]), es[1..]);
    }
  }

  lemma {:induction false} WithinBoth(s: State, es: seq<Event>)
    ensures Within(Faults(true, true), s, es)
    decreases |es|
  {
    if es != [] { WithinBoth(Step(s, es[0]), es[1..]); }
  }

  lemma {:induction false} WithinLost(f: Faults, s: State, es: seq<Event>)
    requires f.lost && forall e :: e in es ==> !e.Reprocess?
    ensures Within(f, s, es)
    decreases |es|
  {
    if es != [] {
      assert es[0] in es;
      WithinLost(f, Step(s, es[0]), es[1..]);
    }
  }

  lemma {:induction false} WithinCron(f: Faults, s: State, es: seq<Event>)
    requires f.cron && forall e :: e in es && e.Work? ==> !e.reply.Lost?
    ensures Within(f, s, es)
    decreases |es|
  {
    if es != [] {
      assert es[0] in es;
      WithinCron(f, Step(s, es[0]), es[1..]);
    }
  }

  // ---- Finality ----------------------------------------------------------------------------

  predicate IsCompleted(s: State, id: DocId) { id in s.table && s.table[id].status == Completed }

  /** If the document is completed after `es`, its row is the same after `es + fs`. */
  ghost predicate StaysCompleted(f: Faults, signers: seq<bool>, es: seq<Event>, fs: seq<Event>, id: DocId) {
    var s, t := Run(Init(signers), es), Run(Init(signers), es + fs);
    Within(f, Init(signers), es + fs) && IsCompleted(s, id) ==> id in t.table && t.table[id] == s.table[id]
  }

  ghost predicate CompletedAlwaysFinal(f: Faults) {
    forall signers, es, fs, id :: StaysCompleted(f, signers, es, fs, id)
  }

  lemma FinalityBreaks(f: Faults)
    requires f.lost && f.cron
    ensures !StaysCompleted(f, [false], LostThenCompleted(), Relapse(), "d")
  {
    LostRequeueBreaksFinality();
    WithinBoth(Init([false]), LostThenCompleted() + Relapse());
  }

  lemma FinalityHolds(f: Faults, signers: seq<bool>, es: seq<Event>, fs: seq<Event>, id: DocId)
    requires !(f.lost && f.cron)
    ensures StaysCompleted(f, signers, es, fs, id)
  {
    if Within(f, Init(signers), es + fs) && IsCompleted(Run(Init(signers), es), id) {
      WithinRun(f, Init(signers), es + fs);
      CompletedIsFinal(signers, es, fs, id);
    }
  }

  /** Completed rows are final in all runs exactly if not both faults are allowed. */
  lemma FinalityExactly(f: Faults)
    ensures CompletedAlwaysFinal(f) <==> !(f.lost && f.cron)
  {
    if f.lost && f.cron {
      FinalityBreaks(f);
    } else {
      forall signers, es, fs, id ensures StaysCompleted(f, signers, es, fs, id) {
        FinalityHolds(f, signers, es, fs, id);
      }
    }
  }

  // ---- The retry bound ---------------------------------------------------------------------

  ghost predicate Bounded(f: Faults, signers: seq<bool>, es: seq<Event>, j: Job) {
    Within(f, Init(signers), es) ==> Moves(Run(Init(signers), es), j) <= MAX_JOB_RETRIES
  }

  ghost predicate AttemptsAlwaysBounded(f: Faults) {
    forall signers, es, j :: Bounded(f, signers, es, j)
  }

  /** Three failing attempts, the dead letter, and the copies removed. */
  function DeadLetter(): seq<Event> { Retry() + (Retry() + (FailingAttempt(0) + [Work(0, Ok), Work(0, Ok)])) }

  lemma DeadLettered(s: State)
    requires s.signers == [false] && s.workers == [DeadLettering(THE_JOB)]
    ensures
      var t := Run(s, [Work(0, Ok), Work(0, Ok)]);
      && t.signers == s.signers && t.workers == [Idle] && t.pending == s.pending && t.moved == s.moved
      && t.dlq == [THE_JOB] + s.dlq
  {
    RunTwo(s, Work(0, Ok), Work(0, Ok));
    DeadLetteredCall(s, 0, THE_JOB);
    var s1 := Step(s, Work(0, Ok));
    assert s1.workers == [Removing(THE_JOB)];
    RemovedCall(s1, 0, THE_JOB);
  }

  lemma TwoRetriesRun(s: State)
    requires s.signers == [false] && s.workers == [Idle] && s.pending == [THE_JOB] && s.processing == []
             && s.moved == []
    ensures
      var t := Run(Run(s, Retry()), Retry());
      && t.signers == [false] && t.workers == [Idle] && t.pending == [THE_JOB] && t.processing == [THE_JOB, THE_JOB]
      && t.moved == [THE_JOB, THE_JOB] && t.dlq == s.dlq
  {
    RetryRuns(s);
    RetryRuns(Run(s, Retry()));
  }

  lemma ThirdFails(s: State)
    requires s.signers == [false] && s.workers == [Idle] && s.pending == [THE_JOB]
    requires s.processing == [THE_JOB, THE_JOB] && s.moved == [THE_JOB, THE_JOB]
    ensures
      var t := Run(Run(s, FailingAttempt(0)), [Work(0, Ok), Work(0, Ok)]);
      && t.signers == [false] && t.workers == [Idle] && t.pending == [] && t.moved == [THE_JOB, THE_JOB, THE_JOB]
      && t.dlq == [THE_JOB] + s.dlq
  {
    FailingAttemptRuns(s, 0);
    DeadLettered(Run(s, FailingAttempt(0)));
  }

  lemma DeadLetterRuns(s: State)
    requires s.signers == [false] && s.workers == [Idle] && s.pending == [THE_JOB] && s.processing == []
             && s.moved == []
    ensures
      var t := Run(s, DeadLetter());
      && t.signers == [false] && t.workers == [Idle] && t.pending == [] && t.moved == [THE_JOB, THE_JOB, THE_JOB]
      && t.dlq == [THE_JOB] + s.dlq
  {
    var s1 := Run(s, Retry());
    var s2 := Run(s1, Retry());
    TwoRetriesRun(s);
    ThirdFails(s2);
    RunAppend(s, Retry(), Retry() + (FailingAttempt(0) + [Work(0, Ok), Work(0, Ok)]));
    RunAppend(s1, Retry(), FailingAttempt(0) + [Work(0, Ok), Work(0, Ok)]);
    RunAppend(s2, FailingAttempt(0), [Work(0, Ok), Work(0, Ok)]);
  }

  lemma PutBackAndMoved(s: State)
    requires s.signers == [false] && s.workers == [Idle] && s.pending == [] && s.dlq == [THE_JOB]
    ensures Run(s, [Reprocess, Work(0, Ok)]).moved == s.moved + [THE_JOB]
  {
    RunTwo(s, Reprocess, Work(0, Ok));
    var s1 := Step(s, Reprocess);
    assert s1 == ReprocessStep(s) && s1.pending == [THE_JOB];
    assert Step(s1, Work(0, Ok)) == PollStep(s1, 0, Ok);
  }

  /** The CronJob alone, without any lost reply, gives a job a fourth attempt. */
  lemma CronBreaksTheBound()
    ensures Moves(Run(Init([false]), OneJob() + (DeadLetter() + [Reprocess, Work(0, Ok)])), THE_JOB) == 4
  {
    var s0 := Init([false]);
    OneJobRuns([false]);
    var s1 := Run(s0, OneJob());
    DeadLetterRuns(s1);
    var s2 := Run(s1, DeadLetter());
    PutBackAndMoved(s2);
    RunAppend(s0, OneJob(), DeadLetter() + [Reprocess, Work(0, Ok)]);
    RunAppend(s1, DeadLetter(), [Reprocess, Work(0, Ok)]);
  }

  lemma NoLostReplies()
    ensures forall e :: e in OneJob() + (DeadLetter() + [Reprocess, Work(0, Ok)]) && e.Work? ==> !e.reply.Lost?
  {
    assert forall e :: e in FailingAttempt(0) && e.Work? ==> !e.reply.Lost?;
    assert forall e :: e in Retry() && e.Work? ==> !e.reply.Lost?;
  }

  lemma NoCronJob()
    ensures forall e :: e in LostStart() + (Retry() + (Retry() + FailingAttempt(0))) ==> !e.Reprocess?
  {
    assert forall e :: e in FailingAttempt(0) ==> !e.Reprocess?;
    assert forall e :: e in Retry() ==> !e.Reprocess?;
  }

  /** No job is ever attempted more than three times exactly if neither fault is allowed. */
  lemma RetryBoundExactly(f: Faults)
    ensures AttemptsAlwaysBounded(f) <==> !f.lost && !f.cron
  {
    if f.lost {
      var es := LostStart() + (Retry() + (Retry() + FailingAttempt(0)));
      LostRequeueBreaksTheBound();
      NoCronJob();
      WithinLost(f, Init([false]), es);
      assert !Bounded(f, [false], es, THE_JOB);
    } else if f.cron {
      var es := OneJob() + (DeadLetter() + [Reprocess, Work(0, Ok)]);
      CronBreaksTheBound();
      NoLostReplies();
      WithinCron(f, Init([false]), es);
      assert !Bounded(f, [false], es, THE_JOB);
    } else {
      forall signers, es, j ensures Bounded(f, signers, es, j) {
        if Within(f, Init(signers), es) {
          WithinRun(f, Init(signers), es);
          ReachableRetrySafe(signers, es);
          assert AttemptsOk(Run(Init(signers), es), j);
        }
      }
    }
  }

  // ---- One holder ------------------------------------------------------------------------------

  ghost predicate HeldOnce(f: Faults, signers: seq<bool>, es: seq<Event>, v: nat, w: nat, j: Job) {
    var s := Run(Init(signers), es);
    Within(f, Init(signers), es) && v < |s.workers| && w < |s.workers| ==>
      Holds(s.workers[v], j) && Holds(s.workers[w], j) ==> v == w
  }

  ghost predicate JobsAlwaysHeldOnce(f: Faults) {
    forall signers, es, v: nat, w: nat, j :: HeldOnce(f, signers, es, v, w, j)
  }

  /** The first worker's requeue is answered with an error, and the second worker moves the job. */
  function HeldTwice(): seq<Event> { OneJob() + (FailingAttempt(0) + [Work(0, Lost("timeout")), Work(1, Ok)]) }

  lemma RequeuedAndMoved(s: State)
    requires s.signers == [false, false] && s.workers == [Requeueing(THE_JOB), Idle] && s.pending == []
    ensures Run(s, [Work(0, Lost("timeout")), Work(1, Ok)]).workers == [DeadLettering(THE_JOB), Decoding(THE_JOB)]
  {
    RunTwo(s, Work(0, Lost("timeout")), Work(1, Ok));
    LostCall(s, 0, THE_JOB);
    var s1 := Step(s, Work(0, Lost("timeout")));
    assert s1.workers == [DeadLettering(THE_JOB), Idle] && s1.pending == [THE_JOB];
    MovedCall(s1, 1);
  }

  lemma HeldTwiceRuns()
    ensures var s := Run(Init([false, false]), HeldTwice()); s.workers == [DeadLettering(THE_JOB), Decoding(THE_JOB)]
  {
    var s0 := Init([false, false]);
    OneJobRuns([false, false]);
    var s1 := Run(s0, OneJob());
    FailingAttemptRuns(s1, 0);
    var s2 := Run(s1, FailingAttempt(0));
    assert s2.workers == [Requeueing(THE_JOB), Idle];
    RequeuedAndMoved(s2);
    RunAppend(s0, OneJob(), FailingAttempt(0) + [Work(0, Lost("timeout")), Work(1, Ok)]);
    RunAppend(s1, FailingAttempt(0), [Work(0, Lost("timeout")), Work(1, Ok)]);
  }

  lemma HeldTwiceEvents()
    ensures forall e :: e in HeldTwice() ==> !e.Reprocess?
  {
    assert forall e :: e in OneJob() ==> !e.Reprocess?;
    assert forall e :: e in FailingAttempt(0) ==> !e.Reprocess?;
  }

  lemma HeldTwiceBreaks(f: Faults)
    requires f.lost
    ensures !HeldOnce(f, [false, false], HeldTwice(), 0, 1, THE_JOB)
  {
    HeldTwiceRuns();
    HeldTwiceEvents();
    WithinLost(f, Init([false, false]), HeldTwice());
  }

  /** No two workers ever hold one job exactly if no requeue reply may be lost; the CronJob does no harm here. */
  lemma OneHolderExactly(f: Faults)
    ensures JobsAlwaysHeldOnce(f) <==> !f.lost
  {
    if f.lost {
      HeldTwiceBreaks(f);
    } else {
      forall signers, es, v: nat, w: nat, j ensures HeldOnce(f, signers, es, v, w, j) {
        if Within(f, Init(signers), es) {
          WithinRun(f, Init(signers), es);
          ReachableRetrySafe(signers, es);
          assert TokenOk(Run(Init(signers), es), j);
        }
      }
    }
  }

  // ---- Loss --------------------------------------------------------------------------------------

  ghost predicate StaysSomewhere(overtaking: bool, signers: seq<bool>, es: seq<Event>, j: Job) {
    (overtaking || AlwaysInTime(Init(signers), es, j)) && j in Run(Init(signers), es).pushed ==>
          Somewhere(Run(Init(signers), es), j)
  }

  ghost predicate NothingEverLost(overtaking: bool) {
    forall signers, es, j :: StaysSomewhere(overtaking, signers, es, j)
  }

  /** No pushed job ever vanishes exactly if the CronJob may not put a job back that a worker has yet to remove. */
  lemma LossExactly(overtaking: bool)
    ensures NothingEverLost(overtaking) <==> !overtaking
  {
    if overtaking {
      ReprocessedJobCanVanish();
      assert THE_JOB.id + ".pdf" == "d.pdf";
      assert !StaysSomewhere(overtaking, [false, false], OneJob() + (FailFast() + Race()), THE_JOB);
    } else {
      forall signers, es, j ensures StaysSomewhere(overtaking, signers, es, j) {
        if AlwaysInTime(Init(signers), es, j) && j in Run(Init(signers), es).pushed {
          NoSilentLoss(signers, es, j);
        }
      }
    }
  }
}
