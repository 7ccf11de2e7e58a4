/** Where the guarantees end: concrete runs that break them outside their conditions,
    and what abandoned copies in `seal:processing` do to every later job. */
module SealLimits {
  import opened Wrappers
  import opened SealTypes
  import opened SealProtocol
  import opened SealSafety
  import opened SealStorage
  import opened SealRetries
  import opened SealFinality
  import opened SealProgress

  /** Move, decode, fail to generate, report, count. */
  function FailingAttempt(w: nat): seq<Event> {
    [Work(w, Ok), Work(w, Ok), Work(w, Err("e")), Work(w, Ok), Work(w, Ok)]
  }

  // ---- Single calls -------------------------------------------------------------------------

  lemma ReportedCall(s: State, w: nat, j: Job, error: string)
    requires w < |s.workers| == |s.signers| && j.Job? && s.workers[w] == Reporting(j, error)
    ensures var x := FailedResult(j.id, error);
            Step(s, Work(w, Ok)) == s.(workers := s.workers[w := Counting(j)], results := s.results + [x],
                                       reported := s.reported + [x])
  {
  }

  lemma CountedCall(s: State, w: nat, j: Job, r: Reply)
    requires w < |s.workers| == |s.signers| && s.workers[w] == Counting(j)
    ensures var full := !r.Ok? || |s.processing| >= MAX_JOB_RETRIES;
            Step(s, Work(w, r)) == s.(workers := s.workers[w := if full then DeadLettering(j) else Requeueing(j)])
  {
  }

  lemma DeadLetteredCall(s: State, w: nat, j: Job)
    requires w < |s.workers| == |s.signers| && s.workers[w] == DeadLettering(j)
    ensures Step(s, Work(w, Ok)) == s.(workers := s.workers[w := Removing(j)], dlq := [j] + s.dlq)
  {
  }

  lemma RemovedCall(s: State, w: nat, j: Job)
    requires w < |s.workers| == |s.signers| && s.workers[w] == Removing(j)
    ensures Step(s, Work(w, Ok)) == s.(workers := s.workers[w := Idle], processing := Without(s.processing, j),
                                       finished := s.finished + [j])
  {
  }

  lemma LostCall(s: State, w: nat, j: Job)
    requires w < |s.workers| == |s.signers| && s.workers[w] == Requeueing(j)
    ensures Step(s, Work(w, Lost("timeout"))) == s.(workers := s.workers[w := DeadLettering(j)],
                                                    pending := [j] + s.pending, ambiguous := s.ambiguous + {j})
  {
  }

  lemma MovedCall(s: State, w: nat)
    requires w < |s.workers| == |s.signers| && s.workers[w].Idle? && s.pending != []
    ensures Step(s, Work(w, Ok)) == s.(workers := s.workers[w := Decoding(s.pending[0])], pending := s.pending[1..],
                                       processing := s.processing + [s.pending[0]], moved := s.moved + [s.pending[0]])
  {
  }

  lemma DecodedCall(s: State, w: nat, j: Job)
    requires w < |s.workers| == |s.signers| && s.workers[w] == Decoding(j) && j.Job? && j.text != ""
    ensures Step(s, Work(w, Ok)) == s.(workers := s.workers[w := Generating(j)])
  {
  }

  lemma FailedCall(s: State, w: nat, j: Job)
    requires w < |s.workers| == |s.signers| && s.workers[w] == Generating(j) && j.Job?
    ensures Step(s, Work(w, Err("e"))) == s.(workers := s.workers[w := Reporting(j, "pdf generation: e")])
  {
    assert "pdf generation: " + "e" == "pdf generation: e";
  }

  lemma GeneratedCall(s: State, w: nat, j: Job)
    requires w < |s.workers| == |s.signers| && s.workers[w] == Generating(j) && j.Job? && !s.signers[w]
    ensures Step(s, Work(w, Ok)) == s.(workers := s.workers[w := Uploading(j, Generated(j.text), 0)])
  {
  }

  lemma StoredCall(s: State, w: nat, j: Job, data: Pdf)
    requires w < |s.workers| == |s.signers| && s.workers[w] == Uploading(j, data, 0) && j.Job?
    ensures Step(s, Work(w, Ok)) == s.(workers := s.workers[w := Finishing(j)],
                                       store := s.store[ObjectKey(j.id) := data])
  {
  }

  lemma CompletedCall(s: State, w: nat, j: Job)
    requires w < |s.workers| == |s.signers| && s.workers[w] == Finishing(j) && j.Job?
    ensures var x := CompletedResult(j.id);
            Step(s, Work(w, Ok)) == s.(workers := s.workers[w := Removing(j)], results := s.results + [x],
                                       reported := s.reported + [x])
  {
  }

  // ---- Attempts ------------------------------------------------------------------------------

  lemma FailingAttemptParts(w: nat)
    ensures FailingAttempt(w) == [Work(w, Ok), Work(w, Ok), Work(w, Err("e"))] + [Work(w, Ok), Work(w, Ok)]
  {
  }

  lemma FailingAttemptRuns(s: State, w: nat)
    requires w < |s.workers| == |s.signers| && s.workers[w].Idle?
    requires s.pending != [] && s.pending[0].Job? && s.pending[0].text != ""
    ensures
      var t, j := Run(s, FailingAttempt(w)), s.pending[0];
      && t.pending == s.pending[1..] && t.processing == s.processing + [j] && t.moved == s.moved + [j]
      && t.results == s.results + [FailedResult(j.id, "pdf generation: e")]
      && t.workers == s.workers[w := if |s.processing| + 1 >= MAX_JOB_RETRIES then DeadLettering(j) else Requeueing(j)]
      && t.signers == s.signers && t.dlq == s.dlq && t.store == s.store && t.table == s.table
         && t.consumer == s.consumer
      && t.pushed == s.pushed
  {
    var j := s.pending[0];
    var start, end := [Work(w, Ok), Work(w, Ok), Work(w, Err("e"))], [Work(w, Ok), Work(w, Ok)];
    AttemptStarts(s, w, j);
    RunThree(s, Work(w, Ok), Work(w, Ok), Work(w, Err("e")));
    var s3 := Run(s, start);
    AttemptFails(s3, w, j);
    RunTwo(s3, Work(w, Ok), Work(w, Ok));
    FailingAttemptParts(w);
    RunAppend(s, start, end);
  }

  lemma AttemptStarts(s: State, w: nat, j: Job)
    requires w < |s.workers| == |s.signers| && s.workers[w].Idle? && s.pending != [] && s.pending[0] == j
    requires j.Job? && j.text != ""
    ensures
      var t := Step(Step(Step(s, Work(w, Ok)), Work(w, Ok)), Work(w, Err("e")));
      && t.pending == s.pending[1..] && t.processing == s.processing + [j] && t.moved == s.moved + [j]
      && t.workers == s.workers[w := Reporting(j, "pdf generation: e")]
      && t.signers == s.signers && t.results == s.results && t.dlq == s.dlq && t.store == s.store && t.table == s.table
      && t.consumer == s.consumer && t.pushed == s.pushed && t.dropped == s.dropped
  {
    MovedCall(s, w);
    var s1 := Step(s, Work(w, Ok));
    DecodedCall(s1, w, j);
    var s2 := Step(s1, Work(w, Ok));
    FailedCall(s2, w, j);
  }

  lemma AttemptFails(s: State, w: nat, j: Job)
    requires w < |s.workers| == |s.signers| && j.Job? && s.workers[w] == Reporting(j, "pdf generation: e")
    ensures
      var t := Step(Step(s, Work(w, Ok)), Work(w, Ok));
      && t.pending == s.pending && t.processing == s.processing && t.moved == s.moved
      && t.results == s.results + [FailedResult(j.id, "pdf generation: e")]
      && t.workers == s.workers[w := if |s.processing| >= MAX_JOB_RETRIES then DeadLettering(j) else Requeueing(j)]
      && t.signers == s.signers && t.dlq == s.dlq && t.store == s.store && t.table == s.table
         && t.consumer == s.consumer
      && t.pushed == s.pushed
  {
    ReportedCall(s, w, j, "pdf generation: e");
    CountedCall(Step(s, Work(w, Ok)), w, j, Ok);
  }

  const THE_JOB := Job("d", "t")

  function OneJob(): seq<Event> { [Submit("d", "t"), PushTask("d", Ok)] }

  lemma OneJobRuns(signers: seq<bool>)
    ensures
      var s := Run(Init(signers), OneJob());
      s == Init(signers).(table := map["d" := Row(Pending, "t", "", "")], inflight := {}, pending := [THE_JOB],
          pushed := [THE_JOB])
  {
    var s := Init(signers);
    RunTwo(s, Submit("d", "t"), PushTask("d", Ok));
    var s1 := SubmitStep(s, "d", "t");
    assert Step(s, Submit("d", "t")) == s1;
    assert Step(s1, PushTask("d", Ok)) == PushTaskStep(s1, "d", Ok);
    assert s1.inflight - {"d"} == {};
  }

  // ---- A lost reply to the requeue ------------------------------------------------

  /** The requeue takes effect but is answered with an error, so the worker also dead-letters. */
  function LostRequeue(): seq<Event> { [Work(0, Lost("timeout")), Work(0, Ok), Work(0, Ok)] }

  lemma LostRequeueRuns(s: State)
    requires s.signers == [false] && s.workers == [Requeueing(THE_JOB)] && s.pending == [] && s.dlq == []
             && s.processing == [THE_JOB]
    ensures
      var t := Run(s, LostRequeue());
      && t.workers == [Idle] && t.pending == [THE_JOB] && t.dlq == [THE_JOB] && t.processing == []
      && t.signers == s.signers && t.moved == s.moved && t.results == s.results && t.consumer == s.consumer
         && t.table == s.table
  {
    RunThree(s, Work(0, Lost("timeout")), Work(0, Ok), Work(0, Ok));
    LostCall(s, 0, THE_JOB);
    var s1 := Step(s, Work(0, Lost("timeout")));
    assert s1.workers == [DeadLettering(THE_JOB)];
    DeadLetteredCall(s1, 0, THE_JOB);
    var s2 := Step(s1, Work(0, Ok));
    assert s2.workers == [Removing(THE_JOB)];
    RemovedCall(s2, 0, THE_JOB);
    WithoutSelf(THE_JOB);
  }

  lemma WithoutSelf(j: Job)
    ensures Without([j], j) == []
  {
    assert [j][1..] == [];
  }

  /** The first attempt, then the lost reply. */
  function LostStart(): seq<Event> { OneJob() + (FailingAttempt(0) + LostRequeue()) }

  lemma LostStartRuns()
    ensures
      var s := Run(Init([false]), LostStart());
      && s.signers == [false] && s.workers == [Idle] && s.pending == [THE_JOB] && s.dlq == [THE_JOB]
         && s.processing == []
      && s.moved == [THE_JOB] && s.consumer.None? && s.results == [FailedResult("d", "pdf generation: e")]
      && "d" in s.table
  {
    var s0 := Init([false]);
    OneJobRuns([false]);
    var s1 := Run(s0, OneJob());
    FailingAttemptRuns(s1, 0);
    var s2 := Run(s1, FailingAttempt(0));
    assert s2.workers == [Requeueing(THE_JOB)];
    LostRequeueRuns(s2);
    RunAppend(s0, OneJob(), FailingAttempt(0) + LostRequeue());
    RunAppend(s1, FailingAttempt(0), LostRequeue());
  }

  /** A failing attempt that is requeued. */
  function Retry(): seq<Event> { FailingAttempt(0) + [Work(0, Ok)] }

  lemma RequeuedAgain(s: State)
    requires s.signers == [false] && s.workers == [Requeueing(THE_JOB)] && s.pending == []
    ensures
      var t := Step(s, Work(0, Ok));
      && t.signers == s.signers && t.workers == [Idle] && t.pending == [THE_JOB]
      && t.processing == s.processing && t.moved == s.moved && t.dlq == s.dlq && t.pushed == s.pushed
  {
    assert Step(s, Work(0, Ok)) == RequeueStep(s, 0, THE_JOB, Ok);
  }

  lemma RetryRuns(s: State)
    requires s.signers == [false] && s.workers == [Idle] && s.pending == [THE_JOB] && |s.processing| <= 1
    ensures
      var t := Run(s, Retry());
      && t.signers == [false] && t.workers == [Idle] && t.pending == [THE_JOB]
      && t.processing == s.processing + [THE_JOB] && t.moved == s.moved + [THE_JOB]
      && t.dlq == s.dlq && t.pushed == s.pushed
  {
    FailingAttemptRuns(s, 0);
    RunSnoc(s, FailingAttempt(0), Work(0, Ok));
    RequeuedAgain(Run(s, FailingAttempt(0)));
  }

  /** After a requeue whose reply was lost a job is attempted a fourth time. */
  lemma LostRequeueBreaksTheBound()
    ensures Moves(Run(Init([false]), LostStart() + (Retry() + (Retry() + FailingAttempt(0)))), THE_JOB) == 4
  {
    LostStartRuns();
    var s1 := Run(Init([false]), LostStart());
    RetryRuns(s1);
    var s2 := Run(s1, Retry());
    RetryRuns(s2);
    var s3 := Run(s2, Retry());
    FailingAttemptRuns(s3, 0);
    RunAppend(Init([false]), LostStart(), Retry() + (Retry() + FailingAttempt(0)));
    RunAppend(s1, Retry(), Retry() + FailingAttempt(0));
    RunAppend(s2, Retry(), FailingAttempt(0));
  }

  /** Move, decode, generate. */
  function Make(): seq<Event> { [Work(0, Ok), Work(0, Ok), Work(0, Ok)] }

  lemma MakeRuns(s: State)
    requires s.signers == [false] && s.workers == [Idle] && s.pending == [THE_JOB]
    ensures Run(s, Make()) == s.(workers := [Uploading(THE_JOB, Generated("t"), 0)], pending := [],
                                 processing := s.processing + [THE_JOB], moved := s.moved + [THE_JOB])
  {
    RunThree(s, Work(0, Ok), Work(0, Ok), Work(0, Ok));
    MovedCall(s, 0);
    var s1 := Step(s, Work(0, Ok));
    assert s1.workers == [Decoding(THE_JOB)];
    DecodedCall(s1, 0, THE_JOB);
    var s2 := Step(s1, Work(0, Ok));
    assert s2.workers == [Generating(THE_JOB)];
    GeneratedCall(s2, 0, THE_JOB);
    assert Step(s2, Work(0, Ok)).workers == [Uploading(THE_JOB, Generated("t"), 0)];
  }

  /** Store, report completed, remove. */
  function Deliver(): seq<Event> { [Work(0, Ok), Work(0, Ok), Work(0, Ok)] }

  lemma DeliverRuns(s: State)
    requires s.signers == [false] && s.workers == [Uploading(THE_JOB, Generated("t"), 0)] && s.processing == [THE_JOB]
    ensures
      var t := Run(s, Deliver());
      && t.workers == [Idle] && t.processing == [] && t.results == s.results + [CompletedResult("d")]
      && t.signers == s.signers && t.pending == s.pending && t.dlq == s.dlq && t.consumer == s.consumer
         && t.table == s.table
  {
    RunThree(s, Work(0, Ok), Work(0, Ok), Work(0, Ok));
    StoredCall(s, 0, THE_JOB, Generated("t"));
    var s1 := Step(s, Work(0, Ok));
    assert s1.workers == [Finishing(THE_JOB)];
    CompletedCall(s1, 0, THE_JOB);
    var s2 := Step(s1, Work(0, Ok));
    assert s2.workers == [Removing(THE_JOB)];
    RemovedCall(s2, 0, THE_JOB);
    WithoutSelf(THE_JOB);
  }

  function Consume(): seq<Event> { [Pop(Ok), Update(Ok)] }

  lemma ConsumeRuns(s: State)
    requires s.consumer.None? && s.results != []
    ensures
      var t := Run(s, Consume());
      && t.signers == s.signers && t.workers == s.workers && t.pending == s.pending && t.dlq == s.dlq
      && t.processing == s.processing && t.consumer.None? && t.results == s.results[1..]
      && t.table == Overwrite(s.table, s.results[0])
  {
    RunTwo(s, Pop(Ok), Update(Ok));
    var s1 := PopStep(s, Ok);
    assert Step(s, Pop(Ok)) == s1;
    assert Step(s1, Update(Ok)) == UpdateStep(s1, Ok);
  }

  /** The second attempt after the lost reply succeeds, and both results reach the table. */
  function LostThenCompleted(): seq<Event> {
    LostStart() + (Make() + (Deliver() + (Consume() + Consume())))
  }

  lemma LostThenStored()
    ensures
      var s := Run(Run(Run(Init([false]), LostStart()), Make()), Deliver());
      && s.signers == [false] && s.workers == [Idle] && s.pending == [] && s.dlq == [THE_JOB] && s.processing == []
      && s.consumer.None? && s.results == [FailedResult("d", "pdf generation: e"), CompletedResult("d")]
      && "d" in s.table
  {
    LostStartRuns();
    var s1 := Run(Init([false]), LostStart());
    MakeRuns(s1);
    DeliverRuns(Run(s1, Make()));
  }

  lemma LostThenCompletedRuns()
    ensures
      var s := Run(Init([false]), LostThenCompleted());
      && s.signers == [false] && s.workers == [Idle] && s.pending == [] && s.dlq == [THE_JOB] && s.processing == []
      && s.consumer.None? && s.results == [] && "d" in s.table && s.table["d"].status == Completed
  {
    var s0 := Init([false]);
    var s1 := Run(s0, LostStart());
    var s2 := Run(s1, Make());
    var s3 := Run(s2, Deliver());
    LostThenStored();
    ConsumeRuns(s3);
    ConsumeRuns(Run(s3, Consume()));
    RunAppend(s0, LostStart(), Make() + (Deliver() + (Consume() + Consume())));
    RunAppend(s1, Make(), Deliver() + (Consume() + Consume()));
    RunAppend(s2, Deliver(), Consume() + Consume());
    RunAppend(s3, Consume(), Consume());
  }

  /** The CronJob puts the dead letter back and the new attempt fails. */
  function Relapse(): seq<Event> { [Reprocess] + (FailingAttempt(0) + Consume()) }

  lemma RelapseRuns(s: State)
    requires s.signers == [false] && s.workers == [Idle] && s.pending == [] && s.dlq == [THE_JOB] && s.processing == []
    requires s.consumer.None? && s.results == [] && "d" in s.table
    ensures var t := Run(s, Relapse()); "d" in t.table && t.table["d"].status == Failed
  {
    RunOne(s, Reprocess);
    var s1 := Step(s, Reprocess);
    assert s1 == s.(pending := [THE_JOB], dlq := [], reprocessed := s.reprocessed + {THE_JOB});
    FailingAttemptRuns(s1, 0);
    var s2 := Run(s1, FailingAttempt(0));
    ConsumeRuns(s2);
    RunAppend(s, [Reprocess], FailingAttempt(0) + Consume());
    RunAppend(s1, FailingAttempt(0), Consume());
  }

  /** With the CronJob on top of a lost reply, a completed document goes back to failed. */
  lemma LostRequeueBreaksFinality()
    ensures
      var s, t := Run(Init([false]), LostThenCompleted()), Run(Init([false]), LostThenCompleted() + Relapse());
      && "d" in s.table && s.table["d"].status == Completed
      && "d" in t.table && t.table["d"].status == Failed
  {
    LostThenCompletedRuns();
    RelapseRuns(Run(Init([false]), LostThenCompleted()));
    RunAppend(Init([false]), LostThenCompleted(), Relapse());
  }

  // ---- A dead letter put back too early ---------------------------------------------

  /** The first worker dead-letters the job because LLEN failed, and has yet to remove its copy. */
  function FailFast(): seq<Event> {
    [Work(0, Ok), Work(0, Ok), Work(0, Err("e")), Work(0, Ok), Work(0, Err("e")), Work(0, Ok)]
  }

  lemma FailFastRuns(s: State)
    requires s.signers == [false, false] && s.workers == [Idle, Idle]
    requires s.pending == [THE_JOB] && s.processing == [] && s.dlq == []
    ensures
      var t := Run(s, FailFast());
      && t.signers == s.signers && t.workers == [Removing(THE_JOB), Idle] && t.pending == []
         && t.processing == [THE_JOB]
      && t.dlq == [THE_JOB] && t.store == s.store && t.dropped == s.dropped && t.pushed == s.pushed
  {
    AttemptStarts(s, 0, THE_JOB);
    RunThree(s, Work(0, Ok), Work(0, Ok), Work(0, Err("e")));
    var s3 := Step(Step(Step(s, Work(0, Ok)), Work(0, Ok)), Work(0, Err("e")));
    FailFastEnds(s3);
    var start, end := [Work(0, Ok), Work(0, Ok), Work(0, Err("e"))], [Work(0, Ok), Work(0, Err("e")), Work(0, Ok)];
    assert FailFast() == start + end;
    RunAppend(s, start, end);
  }

  lemma FailFastEnds(s: State)
    requires s.signers == [false, false] && s.workers == [Reporting(THE_JOB, "pdf generation: e"), Idle]
    ensures
      var t := Run(s, [Work(0, Ok), Work(0, Err("e")), Work(0, Ok)]);
      && t.signers == s.signers && t.workers == [Removing(THE_JOB), Idle] && t.pending == s.pending
         && t.processing == s.processing
      && t.dlq == [THE_JOB] + s.dlq && t.store == s.store && t.dropped == s.dropped && t.pushed == s.pushed
  {
    RunThree(s, Work(0, Ok), Work(0, Err("e")), Work(0, Ok));
    ReportedCall(s, 0, THE_JOB, "pdf generation: e");
    var s1 := Step(s, Work(0, Ok));
    assert s1.workers == [Counting(THE_JOB), Idle];
    CountedCall(s1, 0, THE_JOB, Err("e"));
    var s2 := Step(s1, Work(0, Err("e")));
    assert s2.workers == [DeadLettering(THE_JOB), Idle];
    DeadLetteredCall(s2, 0, THE_JOB);
  }

  /** The CronJob puts it back, the second worker moves it, the first removes every copy, the second crashes. */
  function Race(): seq<Event> { [Reprocess, Work(1, Ok), Work(0, Ok), Crash(1)] }

  lemma Overtaken(s: State)
    requires s.signers == [false, false] && s.workers == [Removing(THE_JOB), Idle]
    requires s.pending == [] && s.processing == [THE_JOB] && s.dlq == [THE_JOB]
    ensures
      var t := Run(s, [Reprocess, Work(1, Ok)]);
      && t.signers == s.signers && t.workers == [Removing(THE_JOB), Decoding(THE_JOB)] && t.pending == [] && t.dlq == []
      && t.processing == [THE_JOB, THE_JOB] && t.store == s.store && t.dropped == s.dropped && t.pushed == s.pushed
  {
    RunTwo(s, Reprocess, Work(1, Ok));
    var s1 := ReprocessStep(s);
    assert Step(s, Reprocess) == s1 && s1.pending == [THE_JOB];
    assert Step(s1, Work(1, Ok)) == PollStep(s1, 1, Ok);
  }

  lemma RemovedAndCrashed(s: State)
    requires s.signers == [false, false] && s.workers == [Removing(THE_JOB), Decoding(THE_JOB)]
    requires s.processing == [THE_JOB, THE_JOB]
    ensures
      var t := Run(s, [Work(0, Ok), Crash(1)]);
      && t.workers == [Idle, Idle] && t.pending == s.pending && t.processing == [] && t.dlq == s.dlq
      && t.store == s.store && t.dropped == s.dropped && t.pushed == s.pushed
  {
    RunTwo(s, Work(0, Ok), Crash(1));
    RemovedCall(s, 0, THE_JOB);
    assert Without([THE_JOB], THE_JOB) == [] && s.processing[1..] == [THE_JOB];
    assert Step(Step(s, Work(0, Ok)), Crash(1)) == Goto(Step(s, Work(0, Ok)), 1, Idle);
  }

  lemma RaceRuns(s: State)
    requires s.signers == [false, false] && s.workers == [Removing(THE_JOB), Idle]
    requires s.pending == [] && s.processing == [THE_JOB] && s.dlq == [THE_JOB]
    ensures
      var t := Run(s, Race());
      && t.workers == [Idle, Idle] && t.pending == [] && t.processing == [] && t.dlq == []
      && t.store == s.store && t.dropped == s.dropped && t.pushed == s.pushed
  {
    Overtaken(s);
    RemovedAndCrashed(Run(s, [Reprocess, Work(1, Ok)]));
    RunAppend(s, [Reprocess, Work(1, Ok)], [Work(0, Ok), Crash(1)]);
    assert Race() == [Reprocess, Work(1, Ok)] + [Work(0, Ok), Crash(1)];
  }

  /** A dead-lettered job that the CronJob puts back can vanish without a trace. */
  lemma ReprocessedJobCanVanish()
    ensures
      var s := Run(Init([false, false]), OneJob() + (FailFast() + Race()));
      && THE_JOB in s.pushed
      && THE_JOB !in s.pending && THE_JOB !in s.processing && THE_JOB !in s.dlq && THE_JOB !in s.dropped
      && "d.pdf" !in s.store && (forall w :: 0 <= w < |s.workers| ==> s.workers[w].Idle?)
  {
    OneJobRuns([false, false]);
    var s0 := Init([false, false]);
    var s1 := Run(s0, OneJob());
    FailFastRuns(s1);
    var s2 := Run(s1, FailFast());
    RaceRuns(s2);
    RunAppend(s0, OneJob(), FailFast() + Race());
    RunAppend(s1, FailFast(), Race());
  }

  // ---- Abandoned copies ---------------------------------------------------------

  /** Nobody has the token of `j` any more, and nobody is about to clean up after it. */
  ghost predicate Abandoned(s: State, j: Job) {
    && j !in s.pending && j !in s.dlq && j in s.pushed
    && (forall w: nat :: w < |s.workers| && !s.workers[w].Idle? ==> s.workers[w].job != j)
  }

  lemma AbandonedApi(s: State, e: Event, j: Job)
    requires WellFormed(s) && Abandoned(s, j) && !e.Work? && !e.Reprocess?
    ensures Abandoned(Step(s, e), j) && Copies(Step(s, e), j) == Copies(s, j)
  {
    match e
    case PushTask(id, r) => assert id in s.inflight && id in s.table ==> JobOf(s, id) !in s.pushed;
    case _ => ApiFrame(s, e);
  }

  lemma AbandonedStep(s: State, e: Event, j: Job)
    requires WellFormed(s) && Abandoned(s, j)
    ensures Abandoned(Step(s, e), j) && Copies(Step(s, e), j) == Copies(s, j)
  {
    match e
    case Work(w, r) => if w < |s.workers| { AbandonedWork(s, w, r, j); }
    case Reprocess => if s.dlq != [] { HeadAndTail(s.dlq); }
    case _ => AbandonedApi(s, e, j);
  }

  lemma AbandonedPoll(s: State, w: nat, r: Reply, j: Job)
    requires WellFormed(s) && Abandoned(s, j) && w < |s.workers| && s.workers[w].Idle?
    ensures Abandoned(PollStep(s, w, r), j) && Copies(PollStep(s, w, r), j) == Copies(s, j)
  {
    if s.pending != [] { HeadAndTail(s.pending); }
  }

  /** A call about another job, after its attempt. */
  lemma AbandonedEnd(s: State, w: nat, r: Reply, j: Job)
    requires WellFormed(s) && Abandoned(s, j) && w < |s.workers| && !s.workers[w].Idle? && !Inner(s.workers[w])
    ensures Abandoned(WorkStep(s, w, r), j) && Copies(WorkStep(s, w, r), j) == Copies(s, j)
  {
    assert LocalOk(s, w) && s.workers[w].job != j;
    match s.workers[w]
    case Reporting(job, error) =>
    case Finishing(job) =>
    case Requeueing(job) =>
    case DeadLettering(job) =>
    case Removing(job) =>
  }

  lemma AbandonedWork(s: State, w: nat, r: Reply, j: Job)
    requires WellFormed(s) && Abandoned(s, j) && w < |s.workers|
    ensures Abandoned(WorkStep(s, w, r), j) && Copies(WorkStep(s, w, r), j) == Copies(s, j)
  {
    assert LocalOk(s, w);
    if s.workers[w].Idle? {
      AbandonedPoll(s, w, r, j);
    } else if Inner(s.workers[w]) {
      InnerMoves(s, w, r);
    } else {
      AbandonedEnd(s, w, r, j);
    }
  }

  lemma {:induction false} AbandonedForever(s: State, es: seq<Event>, j: Job)
    requires WellFormed(s) && Abandoned(s, j)
    ensures WellFormed(Run(s, es)) && Abandoned(Run(s, es), j) && Copies(Run(s, es), j) == Copies(s, j)
    decreases |es|
  {
    if es != [] {
      WellFormedStep(s, es[0]);
      AbandonedStep(s, es[0], j);
      AbandonedForever(Step(s, es[0]), es[1..], j);
    }
  }

  /** Once three copies in `seal:processing` are abandoned, they stay, and from then on no failing job is ever retried:
      every first failure goes to the DLQ. */
  lemma ThreeAbandonedCopiesEndRetries(s: State, es: seq<Event>, copies: multiset<Job>, w: nat, r: Reply)
    requires WellFormed(s) && copies <= multiset(s.processing) && |copies| >= MAX_JOB_RETRIES
    requires forall j :: j in copies ==> Abandoned(s, j)
    requires w < |Run(s, es).workers| && Run(s, es).workers[w].Counting?
    ensures copies <= multiset(Run(s, es).processing)
    ensures WellFormed(Run(s, es)) && WorkStep(Run(s, es), w, r).workers[w] == DeadLettering(Run(s, es).workers[w].job)
  {
    var t := Run(s, es);
    WellFormedRun(s, es);
    forall j ensures copies[j] <= multiset(t.processing)[j] {
      if j in copies { AbandonedForever(s, es, j); }
    }
    SubMultisetSize(copies, multiset(t.processing));
  }

  lemma {:induction false} WellFormedRun(s: State, es: seq<Event>)
    requires WellFormed(s)
    ensures WellFormed(Run(s, es))
    decreases |es|
  {
    if es != [] {
      WellFormedStep(s, es[0]);
      WellFormedRun(Step(s, es[0]), es[1..]);
    }
  }

  lemma SubMultisetSize<T>(a: multiset<T>, b: multiset<T>)
    requires a <= b
    ensures |a| <= |b|
  {
    assert b == a + (b - a);
  }

  /** Two failing attempts, then a third one whose worker crashes. */
  function CrashInThird(): seq<Event> { Retry() + (Retry() + [Work(0, Ok), Crash(0)]) }

  lemma MovedAndCrashed(s: State)
    requires s.signers == [false] && s.workers == [Idle] && s.pending == [THE_JOB]
    ensures
      var t := Run(s, [Work(0, Ok), Crash(0)]);
      && t.workers == [Idle] && t.pending == [] && t.processing == s.processing + [THE_JOB]
      && t.dlq == s.dlq && t.pushed == s.pushed
  {
    RunTwo(s, Work(0, Ok), Crash(0));
    assert Step(s, Work(0, Ok)) == PollStep(s, 0, Ok);
  }

  lemma RunThreeParts(s: State, a: seq<Event>, b: seq<Event>, c: seq<Event>)
    ensures Run(s, a + (b + c)) == Run(Run(Run(s, a), b), c)
  {
    RunAppend(s, a, b + c);
    RunAppend(Run(s, a), b, c);
  }

  lemma RetriedTwice(s: State)
    requires s.signers == [false] && s.workers == [Idle] && s.pending == [THE_JOB] && s.processing == []
    ensures
      var t := Run(Run(s, Retry()), Retry());
      && t.signers == [false] && t.workers == [Idle] && t.pending == [THE_JOB] && t.processing == [THE_JOB, THE_JOB]
      && t.dlq == s.dlq && t.pushed == s.pushed
  {
    RetryRuns(s);
    RetryRuns(Run(s, Retry()));
  }

  lemma CrashInThirdRuns(s: State)
    requires s.signers == [false] && s.workers == [Idle] && s.pending == [THE_JOB] && s.processing == []
    ensures
      var t := Run(s, CrashInThird());
      && t.workers == [Idle] && t.pending == [] && t.processing == [THE_JOB, THE_JOB, THE_JOB]
      && t.dlq == s.dlq && t.pushed == s.pushed
  {
    RetriedTwice(s);
    MovedAndCrashed(Run(Run(s, Retry()), Retry()));
    RunThreeParts(s, Retry(), Retry(), [Work(0, Ok), Crash(0)]);
  }

  /** A single crash, in the third attempt at one job, abandons three copies: after that run, whatever follows, every
      worker that has failed an attempt goes on to dead-letter its job. */
  lemma OneCrashEndsRetries(fs: seq<Event>, w: nat, r: Reply)
    requires var t := Run(Run(Init([false]), OneJob() + CrashInThird()), fs); w < |t.workers| && t.workers[w].Counting?
    ensures Abandoned(Run(Init([false]), OneJob() + CrashInThird()), THE_JOB)
    ensures Run(Init([false]), OneJob() + CrashInThird()).processing == [THE_JOB, THE_JOB, THE_JOB]
    ensures
      var t := Run(Run(Init([false]), OneJob() + CrashInThird()), fs);
      |t.workers| == |t.signers| && WorkStep(t, w, r).workers[w] == DeadLettering(t.workers[w].job)
  {
    ThreeCopiesLeft();
    Reachable([false], OneJob() + CrashInThird());
    ThreeAbandonedCopiesEndRetries(Run(Init([false]), OneJob() + CrashInThird()), fs,
        multiset{THE_JOB, THE_JOB, THE_JOB}, w, r);
    WorkersMatch(Run(Init([false]), OneJob() + CrashInThird()), fs);
  }

  lemma WorkersMatch(s: State, es: seq<Event>)
    requires WellFormed(s)
    ensures |Run(s, es).workers| == |Run(s, es).signers|
  {
    WellFormedRun(s, es);
  }

  lemma ThreeCopiesLeft()
    ensures
      var s := Run(Init([false]), OneJob() + CrashInThird());
      s.processing == [THE_JOB, THE_JOB, THE_JOB] && Abandoned(s, THE_JOB)
  {
    OneJobRuns([false]);
    CrashInThirdRuns(Run(Init([false]), OneJob()));
    RunAppend(Init([false]), OneJob(), CrashInThird());
  }

  // ---- Shutting down ------------------------------------------------------------------------

  /** The attempt has neither succeeded nor been given up. */
  predicate InAttempt(l: Local) { !l.Idle? && !l.Finishing? && !l.Removing? }

  function Cancelled(w: nat): Event { Work(w, Err("context canceled")) }

  /** Once every call of a worker fails, because its context is cancelled, it brings its attempt to an end that leaves
      no trace: the job is neither requeued nor dead-lettered nor reported, and its copy stays in processing, as does
      that of a job whose object is stored already. */
  lemma {:induction false} CancelledAttempt(s: State, w: nat) returns (es: seq<Event>)
    requires WellFormed(s) && w < |s.workers| && !s.workers[w].Idle?
    ensures forall e :: e in es ==> e == Cancelled(w)
    ensures
      var t := Run(s, es);
      && t.workers == s.workers[w := Idle]
      && t.pending == s.pending && t.processing == s.processing && t.dlq == s.dlq && t.results == s.results
      && t.store == s.store && (InAttempt(s.workers[w]) ==> s.workers[w].job in t.dropped)
    decreases Rank(s.workers[w])
  {
    var e := Cancelled(w);
    var t := Step(s, e);
    WellFormedStep(s, e);
    CancelledCall(s, w);
    if t.workers[w].Idle? {
      es := [e];
      RunOne(s, e);
    } else {
      var rest := CancelledAttempt(t, w);
      es := [e] + rest;
      assert es[1..] == rest;
      DroppedRun(t, rest);
    }
  }

  /** One failing call. */
  lemma CancelledCall(s: State, w: nat)
    requires WellFormed(s) && w < |s.workers| && !s.workers[w].Idle?
    ensures
      var t := Step(s, Cancelled(w));
      var l, m := s.workers[w], t.workers[w];
      && t.workers == s.workers[w := m]
      && t.pending == s.pending && t.processing == s.processing && t.dlq == s.dlq && t.results == s.results
      && t.store == s.store && Rank(m) < Rank(l)
      && (l.Removing? <==> m.Idle?) && (!m.Idle? ==> m.job == l.job)
      && (InAttempt(l) ==> InAttempt(m) || (l.DeadLettering? && l.job in t.dropped))
  {
    assert LocalOk(s, w);
    if Inner(s.workers[w]) {
      CancelledInner(s, w);
    }
  }

  lemma CancelledInner(s: State, w: nat)
    requires WellFormed(s) && w < |s.workers| && Inner(s.workers[w])
    ensures
      var t := Step(s, Cancelled(w));
      var l, m := s.workers[w], t.workers[w];
      && t == Goto(s, w, m) && Rank(m) < Rank(l) && !m.Idle? && m.job == l.job && InAttempt(m)
  {
    assert LocalOk(s, w);
  }

  lemma {:induction false} DroppedRun(s: State, es: seq<Event>)
    ensures s.dropped <= Run(s, es).dropped
    decreases |es|
  {
    if es != [] {
      DroppedStays(s, es[0]);
      DroppedRun(Step(s, es[0]), es[1..]);
    }
  }

  lemma DroppedStays(s: State, e: Event)
    ensures s.dropped <= Step(s, e).dropped
  {
  }

  // ---- Messages that the API never makes ------------------------------------------------------------

  lemma OddDecodedCall(s: State, w: nat, l: Local)
    requires w < |s.workers| == |s.signers| && s.workers[w].Decoding? && l == Decoded(s.workers[w].job)
    ensures Step(s, Work(w, Ok)) == s.(workers := s.workers[w := l])
  {
  }

  /** A message that is not JSON, or whose id does not parse, is taken out of processing and leaves no other trace. */
  lemma BadMessageIsRemoved(s: State, w: nat)
    requires w < |s.workers| == |s.signers| && s.workers[w].Decoding? && !s.workers[w].job.Job?
    ensures var t, job := Run(s, [Work(w, Ok), Work(w, Ok)]), s.workers[w].job;
            && t.workers == s.workers[w := Idle] && multiset(t.processing) == multiset(s.processing)[job := 0]
            && t.pending == s.pending && t.dlq == s.dlq && t.results == s.results && t.store == s.store
  {
    var job := s.workers[w].job;
    OddDecodedCall(s, w, Removing(job));
    RemovedCall(Step(s, Work(w, Ok)), w, job);
    RunTwo(s, Work(w, Ok), Work(w, Ok));
  }

  /** An empty text is reported as a failure and then counted like one. */
  lemma EmptyTextIsReported(s: State, w: nat, id: DocId)
    requires w < |s.workers| == |s.signers| && s.workers[w] == Decoding(Job(id, ""))
    ensures var t := Run(s, [Work(w, Ok), Work(w, Ok)]);
            && t.workers == s.workers[w := Counting(Job(id, ""))]
            && t.results == s.results + [Result(id, Failed, "", "empty input text")]
            && t.pending == s.pending && t.processing == s.processing && t.dlq == s.dlq && t.store == s.store
  {
    var job := s.workers[w].job;
    OddDecodedCall(s, w, Reporting(job, "empty input text"));
    ReportedCall(Step(s, Work(w, Ok)), w, job, "empty input text");
    RunTwo(s, Work(w, Ok), Work(w, Ok));
  }

  /** The CronJob makes the newest dead letter the next job. */
  lemma ReprocessedIsNext(s: State, w: nat)
    requires w < |s.workers| == |s.signers| && s.workers[w].Idle? && s.dlq != []
    ensures var t := Run(s, [Reprocess, Work(w, Ok)]);
            && t.workers == s.workers[w := Decoding(s.dlq[0])] && t.pending == s.pending && t.dlq == s.dlq[1..]
            && t.processing == s.processing + [s.dlq[0]]
  {
    var s1 := Step(s, Reprocess);
    assert s1.pending == [s.dlq[0]] + s.pending && s1.pending[1..] == s.pending;
    MovedCall(s1, w);
    RunTwo(s, Reprocess, Work(w, Ok));
  }

  // ---- After a failed attempt -----------------------------------------------------------------

  lemma RequeuedCall(s: State, w: nat, j: Job, r: Reply)
    requires w < |s.workers| == |s.signers| && s.workers[w] == Requeueing(j)
    ensures var t := Step(s, Work(w, r));
            && t.workers == s.workers[w := if r.Ok? then Idle else DeadLettering(j)]
            && t.pending == (if r.Applied() then [j] + s.pending else s.pending)
            && t.processing == s.processing && t.dlq == s.dlq && t.signers == s.signers
  {
  }

  lemma LetterCall(s: State, w: nat, j: Job, r: Reply)
    requires w < |s.workers| == |s.signers| && s.workers[w] == DeadLettering(j)
    ensures var t := Step(s, Work(w, r));
            && t.workers == s.workers[w := Removing(j)] && t.dlq == (if r.Applied() then [j] + s.dlq else s.dlq)
            && t.pending == s.pending && t.processing == s.processing
  {
  }

  /** With fewer than three copies in processing a failed job goes back to the head of the queue. If it cannot, or if
      there are more or nobody knows how many, it becomes the newest dead letter, and its worker then removes it. */
  lemma RetryOrDeadLetter(s: State, w: nat, j: Job, count: Reply, next: Reply, last: Reply)
    requires w < |s.workers| == |s.signers| && s.workers[w] == Counting(j)
    ensures
      var t, u := Run(s, [Work(w, count), Work(w, next)]), Run(s, [Work(w, count), Work(w, next), Work(w, last)]);
      if count.Ok? && |s.processing| < 3 then
        && t.pending == (if next.Applied() then [j] + s.pending else s.pending) && t.dlq == s.dlq
        && if next.Ok? then t.workers == s.workers[w := Idle]
           else && u.workers == s.workers[w := Removing(j)] && u.pending == t.pending
                && u.dlq == (if last.Applied() then [j] + s.dlq else s.dlq)
      else
        && t.workers == s.workers[w := Removing(j)] && t.pending == s.pending
        && t.dlq == (if next.Applied() then [j] + s.dlq else s.dlq)
  {
    RunTwo(s, Work(w, count), Work(w, next));
    RunThree(s, Work(w, count), Work(w, next), Work(w, last));
    CountedCall(s, w, j, count);
    var s1 := Step(s, Work(w, count));
    if count.Ok? && |s.processing| < 3 {
      RequeuedCall(s1, w, j, next);
      if !next.Ok? { LetterCall(Step(s1, Work(w, next)), w, j, last); }
    } else {
      LetterCall(s1, w, j, next);
    }
  }
}
