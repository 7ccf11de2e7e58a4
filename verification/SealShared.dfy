/** What sharing the length of `seal:processing` costs: with more than one worker, jobs take retries from each other. */
module SealShared {
  import opened Wrappers
  import opened SealTypes
  import opened SealProtocol
  import opened SealSafety
  import opened SealRetries
  import opened SealProgress
  import opened SealQuiescence
  import opened SealSolo
  import opened SealLimits

  /** In all fault-free runs without the CronJob, every dead letter was attempted exactly three times. */
  ghost predicate DeadAfterThree(signers: seq<bool>) {
    forall es, j ::
      SoloRun(Init(signers), es) && j in Run(Init(signers), es).dlq ==> Moves(Run(Init(signers), es), j) == 3
  }

  const A := Job("a", "t")
  const B := Job("b", "t")

  function TwoJobs(): seq<Event> { [Submit("b", "t"), PushTask("b", Ok), Submit("a", "t"), PushTask("a", Ok)] }

  lemma TwoJobsRun(signers: seq<bool>)
    ensures
      var s := Run(Init(signers), TwoJobs());
      && s.signers == signers && s.workers == Init(signers).workers && s.pending == [B, A]
      && s.processing == [] && s.dlq == [] && s.moved == []
  {
    var s0 := Init(signers);
    var s1 := Step(s0, Submit("b", "t"));
    var s2 := Step(s1, PushTask("b", Ok));
    RunTwo(s0, Submit("b", "t"), PushTask("b", Ok));
    var s3 := Step(s2, Submit("a", "t"));
    RunTwo(s2, Submit("a", "t"), PushTask("a", Ok));
    assert s2.pending == [B] && s3.pending == [B];
    assert Step(s3, PushTask("a", Ok)).pending == [B] + [A];
    RunAppend(s0, [Submit("b", "t"), PushTask("b", Ok)], [Submit("a", "t"), PushTask("a", Ok)]);
    assert TwoJobs() == [Submit("b", "t"), PushTask("b", Ok)] + [Submit("a", "t"), PushTask("a", Ok)];
  }

  /** The first worker fails b and requeues it; the second moves it again. */
  function Crowd(): seq<Event> { FailingAttempt(0) + [Work(0, Ok), Work(1, Ok)] }

  lemma CrowdRuns(s: State)
    requires 2 <= |s.workers| == |s.signers| && s.workers[0].Idle? && s.workers[1].Idle?
    requires s.pending == [B, A] && s.processing == [] && s.moved == []
    ensures
      var t := Run(s, Crowd());
      && t.signers == s.signers && |t.workers| == |s.workers| && t.workers[0].Idle? && t.pending == [A]
      && t.processing == [B, B] && t.moved == [B, B] && t.dlq == s.dlq
  {
    FailingAttemptRuns(s, 0);
    var s1 := Run(s, FailingAttempt(0));
    assert s1.workers[0] == Requeueing(B) && s1.pending == [A];
    RunTwo(s1, Work(0, Ok), Work(1, Ok));
    RequeuedAndMoved(s1);
    RunAppend(s, FailingAttempt(0), [Work(0, Ok), Work(1, Ok)]);
  }

  lemma RequeuedAndMoved(s: State)
    requires 2 <= |s.workers| == |s.signers| && s.workers[0] == Requeueing(B) && s.workers[1].Idle?
    requires s.pending == [A] && s.processing == [B] && s.moved == [B]
    ensures
      var t := Step(Step(s, Work(0, Ok)), Work(1, Ok));
      && t.signers == s.signers && |t.workers| == |s.workers| && t.workers[0].Idle? && t.pending == [A]
      && t.processing == [B, B] && t.moved == [B, B] && t.dlq == s.dlq
  {
    var s1 := RequeueStep(s, 0, B, Ok);
    assert Step(s, Work(0, Ok)) == s1 && s1.pending == [B, A] && s1.workers[1].Idle?;
    MovedCall(s1, 1);
  }

  /** The first worker fails a, finds three copies in processing, and gives it up at once. */
  function GiveUp(): seq<Event> { FailingAttempt(0) + [Work(0, Ok)] }

  lemma GiveUpRuns(s: State)
    requires 1 <= |s.workers| == |s.signers| && s.workers[0].Idle?
    requires s.pending == [A] && s.processing == [B, B] && s.moved == [B, B] && s.dlq == []
    ensures var t := Run(s, GiveUp()); t.dlq == [A] && t.moved == [B, B, A]
  {
    FailingAttemptRuns(s, 0);
    var s1 := Run(s, FailingAttempt(0));
    assert s1.workers[0] == DeadLettering(A);
    RunSnoc(s, FailingAttempt(0), Work(0, Ok));
    assert Step(s1, Work(0, Ok)) == DeadLetterStep(s1, 0, A, Ok);
  }

  function CrowdedOut(): seq<Event> { TwoJobs() + (Crowd() + GiveUp()) }

  /** Two workers, no fault but two failed generations, and a job is given up after its first attempt. */
  lemma CrowdedOutRuns(signers: seq<bool>)
    requires |signers| >= 2
    ensures var s := Run(Init(signers), CrowdedOut()); s.dlq == [A] && Moves(s, A) == 1
  {
    TwoJobsRun(signers);
    var s1 := Run(Init(signers), TwoJobs());
    CrowdRuns(s1);
    GiveUpRuns(Run(s1, Crowd()));
    RunAppend(Init(signers), TwoJobs(), Crowd() + GiveUp());
    RunAppend(s1, Crowd(), GiveUp());
  }

  // ---- That run is fault-free --------------------------------------------------------------

  lemma {:induction false} CleanAppend(s: State, es: seq<Event>, fs: seq<Event>)
    requires CleanRun(s, es) && CleanRun(Run(s, es), fs)
    ensures CleanRun(s, es + fs)
    decreases |es|
  {
    if es == [] {
      assert es + fs == fs;
    } else {
      assert (es + fs)[1..] == es[1..] + fs;
      CleanAppend(Step(s, es[0]), es[1..], fs);
    }
  }

  /** Nothing goes wrong. */
  predicate Fine(e: Event) { e.Submit? || ((e.PushTask? || e.Work?) && e.reply.Ok?) }

  lemma {:induction false} FineIsClean(s: State, es: seq<Event>)
    requires forall e :: e in es ==> Fine(e)
    ensures CleanRun(s, es)
    decreases |es|
  {
    if es != [] {
      assert es[0] in es;
      FineIsClean(Step(s, es[0]), es[1..]);
    }
  }

  lemma FailingAttemptClean(s: State, w: nat)
    requires w < |s.workers| == |s.signers| && s.workers[w].Idle?
    requires s.pending != [] && s.pending[0].Job? && s.pending[0].text != ""
    ensures CleanRun(s, FailingAttempt(w))
  {
    var start, fail, end := [Work(w, Ok), Work(w, Ok)], [Work(w, Err("e"))], [Work(w, Ok), Work(w, Ok)];
    FineIsClean(s, start);
    RunTwo(s, Work(w, Ok), Work(w, Ok));
    var s1 := PollStep(s, w, Ok);
    assert Step(s, Work(w, Ok)) == s1 && s1.workers[w] == Decoding(s.pending[0]);
    var s2 := Run(s, start);
    assert s2.workers[w] == Generating(s.pending[0]);
    FailedClean(s2, w);
    FineIsClean(Run(s2, fail), end);
    CleanAppend(s2, fail, end);
    CleanAppend(s, start, fail + end);
    assert FailingAttempt(w) == start + (fail + end);
  }

  lemma FailedClean(s: State, w: nat)
    requires w < |s.workers| && s.workers[w].Generating?
    ensures CleanRun(s, [Work(w, Err("e"))])
  {
    assert [Work(w, Err("e"))][1..] == [];
  }

  lemma CrowdClean(s: State)
    requires 2 <= |s.workers| == |s.signers| && s.workers[0].Idle? && s.pending == [B, A]
    ensures CleanRun(s, Crowd())
  {
    FailingAttemptClean(s, 0);
    FineIsClean(Run(s, FailingAttempt(0)), [Work(0, Ok), Work(1, Ok)]);
    CleanAppend(s, FailingAttempt(0), [Work(0, Ok), Work(1, Ok)]);
  }

  lemma GiveUpClean(s: State)
    requires 1 <= |s.workers| == |s.signers| && s.workers[0].Idle? && s.pending == [A]
    ensures CleanRun(s, GiveUp())
  {
    FailingAttemptClean(s, 0);
    FineIsClean(Run(s, FailingAttempt(0)), [Work(0, Ok)]);
    CleanAppend(s, FailingAttempt(0), [Work(0, Ok)]);
  }

  lemma CrowdedOutClean(signers: seq<bool>)
    requires |signers| >= 2
    ensures CleanRun(Init(signers), CrowdedOut())
  {
    TwoJobsRun(signers);
    FineIsClean(Init(signers), TwoJobs());
    var s1 := Run(Init(signers), TwoJobs());
    CrowdRuns(s1);
    CrowdClean(s1);
    GiveUpClean(Run(s1, Crowd()));
    CleanAppend(s1, Crowd(), GiveUp());
    CleanAppend(Init(signers), TwoJobs(), Crowd() + GiveUp());
  }

  lemma CrowdedOutWithoutCron()
    ensures Reprocess !in CrowdedOut()
  {
    assert Reprocess !in FailingAttempt(0);
    assert Reprocess !in Crowd();
    assert Reprocess !in GiveUp();
  }

  // ---- The equivalence -------------------------------------------------------------------------

  lemma {:induction false} NoWorkersNoDeadLetters(s: State, es: seq<Event>)
    requires s.workers == [] && s.dlq == []
    ensures Run(s, es).dlq == []
    decreases |es|
  {
    if es != [] {
      WorkersStay(s, es[0]);
      NoWorkersNoDeadLetters(Step(s, es[0]), es[1..]);
    }
  }

  /** Every dead letter was attempted exactly three times, in all fault-free runs without the CronJob, exactly if there
      is at most one worker. */
  lemma ThreeAttemptsExactly(signers: seq<bool>)
    ensures DeadAfterThree(signers) <==> |signers| <= 1
  {
    if |signers| >= 2 {
      CrowdedOutRuns(signers);
      CrowdedOutClean(signers);
      CrowdedOutWithoutCron();
      assert SoloRun(Init(signers), CrowdedOut()) && A in Run(Init(signers), CrowdedOut()).dlq;
    } else {
      forall es, j | SoloRun(Init(signers), es) && j in Run(Init(signers), es).dlq
        ensures Moves(Run(Init(signers), es), j) == 3
      {
        if |signers| == 1 {
          assert signers == [signers[0]];
          FirstInFirstOut(signers[0], es);
        } else {
          NoWorkersNoDeadLetters(Init(signers), es);
        }
      }
    }
  }
}
