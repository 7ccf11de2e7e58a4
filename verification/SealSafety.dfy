/** What every step of the pipeline keeps, whatever fails and whoever crashes. */
module SealSafety {
  import opened Wrappers
  import opened SealTypes
  import opened SealProtocol

  // ---- Every list holds jobs and results of documents in the table -------

  ghost predicate Known(s: State, j: Job) {
    j.Job? && j.id in s.table && j.text == s.table[j.id].text && j in s.pushed
  }

  function JobOf(s: State, id: DocId): Job
    requires id in s.table
  {
    Job(id, s.table[id].text)
  }

  ghost predicate Ours(s: State, x: Result) {
    && x.Result? && x.id in s.table && Known(s, JobOf(s, x.id))
    && (x == CompletedResult(x.id) || x == FailedResult(x.id, x.error))
  }

  /** The bytes worker `w` makes of a text. */
  function Produced(signer: bool, text: string): Pdf {
    if signer then Signed(Generated(text)) else Generated(text)
  }

  ghost predicate LocalOk(s: State, w: nat)
    requires w < |s.workers| == |s.signers|
  {
    match s.workers[w]
    case Idle => true
    case Signing(job, data) => Known(s, job) && s.signers[w] && data == Generated(job.text)
    case Uploading(job, data, tries) => Known(s, job) && data == Produced(s.signers[w], job.text) && tries < MAX_RETRIES
    case l => Known(s, l.job)
  }

  ghost predicate ListsOk(s: State) {
    && s.inflight <= s.table.Keys
    && (forall id :: id in s.table ==> s.table[id].text != "")
    && (forall j :: j in s.pushed ==> Known(s, j) && j.id !in s.inflight)
    && (forall j :: j in s.pending ==> Known(s, j))
    && (forall j :: j in s.processing ==> Known(s, j))
    && (forall j :: j in s.dlq ==> Known(s, j))
    && (forall j :: j in s.moved ==> Known(s, j))
    && (forall x :: x in s.reported ==> Ours(s, x))
    && s.reported == s.handled + (if s.consumer.Some? then [s.consumer.value] else []) + s.results
  }

  ghost predicate WellFormed(s: State) {
    && |s.workers| == |s.signers|
    && ListsOk(s)
    && (forall w: nat :: w < |s.workers| ==> LocalOk(s, w))
  }

  lemma HeadIn<T>(s: seq<T>)
    ensures s != [] ==> s[0] in s
  {
  }

  lemma HeadAndTail<T>(s: seq<T>)
    requires s != []
    ensures multiset(s) == multiset{s[0]} + multiset(s[1..])
    ensures forall x :: x in s <==> x == s[0] || x in s[1..]
  {
    assert s == [s[0]] + s[1..];
  }

  /** Rows and pushed jobs are never taken away. */
  ghost predicate Grows(s: State, t: State) {
    && t.signers == s.signers
    && s.pushed <= t.pushed
    && (forall id :: id in s.table ==> id in t.table && t.table[id].text == s.table[id].text)
  }

  lemma StepGrows(s: State, e: Event)
    ensures Grows(s, Step(s, e))
  {
  }

  lemma PollLists(s: State, w: nat, r: Reply)
    requires ListsOk(s) && w < |s.workers|
    ensures ListsOk(PollStep(s, w, r))
  {
    if s.pending != [] {
      HeadAndTail(s.pending);
    }
  }

  lemma ReportLists(s: State, w: nat, x: Result, next: Local, r: Reply)
    requires ListsOk(s) && w < |s.workers| && Ours(s, x)
    ensures ListsOk(ReportStep(s, w, x, next, r))
  {
  }

  lemma RequeueLists(s: State, w: nat, job: Job, r: Reply)
    requires ListsOk(s) && w < |s.workers| && Known(s, job)
    ensures ListsOk(RequeueStep(s, w, job, r))
  {
  }

  lemma DeadLetterLists(s: State, w: nat, job: Job, r: Reply)
    requires ListsOk(s) && w < |s.workers| && Known(s, job)
    ensures ListsOk(DeadLetterStep(s, w, job, r))
  {
  }

  lemma RemoveLists(s: State, w: nat, job: Job, r: Reply)
    requires ListsOk(s) && w < |s.workers|
    ensures ListsOk(RemoveStep(s, w, job, r))
  {
    WithoutKeeps(s.processing, job);
  }

  lemma PutLists(s: State, w: nat, job: Job, data: Pdf, tries: nat, r: Reply)
    requires ListsOk(s) && w < |s.workers| && job.Job?
    ensures ListsOk(PutStep(s, w, job, data, tries, r))
  {
  }

  lemma GotoLists(s: State, w: nat, l: Local)
    requires ListsOk(s) && w < |s.workers|
    ensures ListsOk(Goto(s, w, l))
  {
  }

  lemma InnerLists(s: State, w: nat, r: Reply)
    requires WellFormed(s) && w < |s.workers|
    requires s.workers[w].Decoding? || s.workers[w].Generating? || s.workers[w].Signing? || s.workers[w].Uploading?
             || s.workers[w].Counting?
    ensures ListsOk(WorkStep(s, w, r))
  {
    assert LocalOk(s, w);
    match s.workers[w]
    case Decoding(job) => GotoLists(s, w, Decoded(job));
    case Generating(job) => GotoLists(s, w, AfterGenerate(job, s.signers[w], r));
    case Signing(job, data) => GotoLists(s, w, AfterSign(job, data, r));
    case Uploading(job, data, tries) => PutLists(s, w, job, data, tries, r);
    case Counting(job) => GotoLists(s, w, WorkStep(s, w, r).workers[w]);
  }

  lemma ReporterLists(s: State, w: nat, r: Reply)
    requires WellFormed(s) && w < |s.workers| && (s.workers[w].Reporting? || s.workers[w].Finishing?)
    ensures ListsOk(WorkStep(s, w, r))
  {
    assert LocalOk(s, w);
    match s.workers[w]
    case Reporting(job, error) => ReportLists(s, w, FailedResult(job.id, error), Counting(job), r);
    case Finishing(job) => ReportLists(s, w, CompletedResult(job.id), Removing(job), r);
  }

  lemma LeavingLists(s: State, w: nat, r: Reply)
    requires WellFormed(s) && w < |s.workers|
    requires s.workers[w].Requeueing? || s.workers[w].DeadLettering? || s.workers[w].Removing?
    ensures ListsOk(WorkStep(s, w, r))
  {
    assert LocalOk(s, w);
    match s.workers[w]
    case Requeueing(job) => RequeueLists(s, w, job, r);
    case DeadLettering(job) => DeadLetterLists(s, w, job, r);
    case Removing(job) => RemoveLists(s, w, job, r);
  }

  lemma WorkLists(s: State, w: nat, r: Reply)
    requires WellFormed(s) && w < |s.workers|
    ensures ListsOk(WorkStep(s, w, r))
  {
    var l := s.workers[w];
    if l.Idle? {
      PollLists(s, w, r);
    } else if l.Reporting? || l.Finishing? {
      ReporterLists(s, w, r);
    } else if l.Requeueing? || l.DeadLettering? || l.Removing? {
      LeavingLists(s, w, r);
    } else {
      InnerLists(s, w, r);
    }
  }

  lemma SubmitLists(s: State, id: DocId, text: string)
    requires ListsOk(s)
    ensures ListsOk(SubmitStep(s, id, text))
  {
  }

  lemma PushTaskLists(s: State, id: DocId, r: Reply)
    requires ListsOk(s)
    ensures ListsOk(PushTaskStep(s, id, r))
  {
  }

  lemma ConsumerLists(s: State, r: Reply)
    requires ListsOk(s)
    ensures ListsOk(PopStep(s, r)) && ListsOk(ConsumerCrashStep(s))
  {
  }

  lemma UpdateLists(s: State, r: Reply)
    requires ListsOk(s)
    ensures ListsOk(UpdateStep(s, r))
  {
  }

  lemma ReprocessLists(s: State)
    requires ListsOk(s)
    ensures ListsOk(ReprocessStep(s))
  {
    if s.dlq != [] {
      HeadAndTail(s.dlq);
      forall j | j in ReprocessStep(s).pending ensures Known(ReprocessStep(s), j) {
        assert Known(s, j);
      }
    }
  }

  lemma ListsStep(s: State, e: Event)
    requires WellFormed(s)
    ensures ListsOk(Step(s, e))
  {
    match e
    case Submit(id, text) => SubmitLists(s, id, text);
    case PushTask(id, r) => PushTaskLists(s, id, r);
    case Abandon(id) =>
    case Work(w, r) => if w < |s.workers| { WorkLists(s, w, r); }
    case Crash(w) => if w < |s.workers| { GotoLists(s, w, Idle); }
    case Pop(r) => ConsumerLists(s, r);
    case Update(r) => UpdateLists(s, r);
    case ConsumerCrash => ConsumerLists(s, Ok);
    case Reprocess => ReprocessLists(s);
  }

  lemma LocalFrame(s: State, t: State, w: nat)
    requires w < |s.workers| == |s.signers| && LocalOk(s, w)
    requires Grows(s, t) && |t.workers| == |s.workers| && t.workers[w] == s.workers[w]
    ensures LocalOk(t, w)
  {
  }

  lemma LocalPoll(s: State, w: nat, r: Reply)
    requires WellFormed(s) && w < |s.workers| && s.workers[w].Idle?
    ensures var t := WorkStep(s, w, r); |t.workers| == |s.workers| && LocalOk(t, w)
  {
    if s.pending != [] {
      assert Known(s, s.pending[0]);
    }
  }

  lemma LocalInner(s: State, w: nat, r: Reply)
    requires w < |s.workers| == |s.signers| && LocalOk(s, w)
    requires s.workers[w].Decoding? || s.workers[w].Generating? || s.workers[w].Signing? || s.workers[w].Uploading?
    ensures var t := WorkStep(s, w, r); |t.workers| == |s.workers| && LocalOk(t, w)
  {
    match s.workers[w]
    case Decoding(_) =>
    case Generating(_) =>
    case Signing(_, _) =>
    case Uploading(_, _, _) =>
  }

  lemma LocalOuter(s: State, w: nat, r: Reply)
    requires w < |s.workers| == |s.signers| && LocalOk(s, w) && !s.workers[w].Idle?
    requires !s.workers[w].Decoding? && !s.workers[w].Generating? && !s.workers[w].Signing? && !s.workers[w].Uploading?
    ensures var t := WorkStep(s, w, r); |t.workers| == |s.workers| && LocalOk(t, w)
  {
    match s.workers[w]
    case Reporting(_, _) =>
    case Counting(_) =>
    case Requeueing(_) =>
    case DeadLettering(_) =>
    case Finishing(_) =>
    case Removing(_) =>
  }

  lemma LocalWork(s: State, w: nat, r: Reply)
    requires WellFormed(s) && w < |s.workers|
    ensures var t := WorkStep(s, w, r); |t.workers| == |s.workers| && LocalOk(t, w)
  {
    assert LocalOk(s, w);
    var l := s.workers[w];
    if l.Idle? {
      LocalPoll(s, w, r);
    } else if l.Decoding? || l.Generating? || l.Signing? || l.Uploading? {
      LocalInner(s, w, r);
    } else {
      LocalOuter(s, w, r);
    }
  }

  /** Only the worker that steps, or crashes, changes its place. */
  lemma OthersStay(s: State, e: Event, w: nat)
    requires w < |s.workers|
    requires e != Crash(w) && !(e.Work? && e.w == w)
    ensures var t := Step(s, e); |t.workers| == |s.workers| && t.workers[w] == s.workers[w]
  {
  }

  /** What only workers touch. */
  lemma ApiFrame(s: State, e: Event)
    requires !e.Work?
    ensures
      var t := Step(s, e);
      && t.signers == s.signers && t.store == s.store && t.processing == s.processing && t.moved == s.moved
      && t.reported == s.reported && t.dropped == s.dropped && t.ambiguous == s.ambiguous
      && t.workers == (if e.Crash? && e.w < |s.workers| then s.workers[e.w := Idle] else s.workers)
      && (!e.Submit? ==> t.table.Keys == s.table.Keys)
  {
    match e
    case Submit(_, _) =>
    case PushTask(_, _) =>
    case Abandon(_) =>
    case Crash(_) =>
    case Pop(_) =>
    case Update(_) =>
    case ConsumerCrash =>
    case Reprocess =>
  }

  /** Places from which the next call touches no Redis list. */
  predicate Inner(l: Local) {
    l.Decoding? || l.Generating? || l.Signing? || l.Uploading? || l.Counting?
  }

  /** Such a call only moves the worker on, with the job it has, and perhaps stores an object. */
  lemma InnerMoves(s: State, w: nat, r: Reply)
    requires WellFormed(s) && w < |s.workers| && Inner(s.workers[w])
    ensures
      var t := WorkStep(s, w, r);
      var l := s.workers[w];
      var m := t.workers[w];
      && t == Goto(s, w, m).(store := t.store)
      && !m.Idle? && m.job == l.job && !m.Removing?
      && (Inner(m) ==> !m.Counting? && !l.Counting?)
      && (m.Finishing? ==> l.Uploading? && ObjectKey(l.job.id) in t.store)
      && (m.Requeueing? ==> l.Counting? && |s.processing| < MAX_JOB_RETRIES && r.Ok?)
      && (m.DeadLettering? ==> l.Counting? && (|s.processing| >= MAX_JOB_RETRIES || !r.Ok?))
      && (m.Requeueing? || m.DeadLettering? || m.Finishing? || m.Reporting? || Inner(m))
      && (l.Counting? ==> m.Requeueing? || m.DeadLettering?)
  {
    assert LocalOk(s, w);
    assert Known(s, s.workers[w].job);
  }

  lemma LocalStep(s: State, e: Event, w: nat)
    requires WellFormed(s) && w < |s.workers|
    ensures var t := Step(s, e); |t.workers| == |s.workers| && LocalOk(t, w)
  {
    if e.Work? && e.w == w {
      LocalWork(s, w, e.reply);
    } else if e != Crash(w) {
      OthersStay(s, e, w);
      StepGrows(s, e);
      LocalFrame(s, Step(s, e), w);
    }
  }

  lemma WellFormedStep(s: State, e: Event)
    requires WellFormed(s)
    ensures WellFormed(Step(s, e))
  {
    ListsStep(s, e);
    StepGrows(s, e);
    WorkersStay(s, e);
    forall w: nat | w < |Step(s, e).workers| ensures LocalOk(Step(s, e), w) {
      LocalStep(s, e, w);
    }
  }

  lemma WorkersStay(s: State, e: Event)
    ensures |Step(s, e).workers| == |s.workers|
  {
  }

  lemma {:induction false} WithoutKeeps<T>(s: seq<T>, x: T)
    ensures forall y :: y in Without(s, x) <==> y in s && y != x
  {
    forall y ensures y in Without(s, x) <==> y in s && y != x {
      assert y in Without(s, x) <==> y in multiset(Without(s, x));
      assert y in s <==> y in multiset(s);
    }
  }
}
