/** Completed implies stored: a row that says `completed` names an object that
    is in the bucket and was made from that document's own text, in every
    reachable state, with crashes and failed calls anywhere. */
module SealStorage {
  import opened Wrappers
  import opened SealTypes
  import opened SealProtocol
  import opened SealSafety

  /** Some signer made `p` of `text`; an unsigned one only if some worker has no certificate. */
  ghost predicate Genuine(signers: seq<bool>, p: Pdf, text: string) {
    exists w: nat :: w < |signers| && p == Produced(signers[w], text)
  }

  ghost predicate KeyOfTable(s: State, k: string) {
    exists id :: id in s.table && k == ObjectKey(id)
  }

  ghost predicate StoreOk(s: State) {
    && (forall k :: k in s.store ==> KeyOfTable(s, k))
    && (forall id :: id in s.table && ObjectKey(id) in s.store ==>
          Genuine(s.signers, s.store[ObjectKey(id)], s.table[id].text))
    && (forall w: nat :: w < |s.workers| && s.workers[w].Finishing? && s.workers[w].job.Job? ==>
          ObjectKey(s.workers[w].job.id) in s.store)
    && (forall x :: x in s.reported && x.Result? && x.status == Completed ==> ObjectKey(x.id) in s.store)
  }

  /** Status, path and error of a row come from one and the same result, or none has been written. */
  ghost predicate RowFrom(row: Row, x: Result) {
    x.Result? && row.status == x.status && row.s3Path == x.s3Path && row.error == x.error
  }

  ghost predicate RowOk(s: State, id: DocId)
    requires id in s.table
  {
    || s.table[id] == Row(Pending, s.table[id].text, "", "")
    || exists x :: x in s.handled && x.Result? && x.id == id && RowFrom(s.table[id], x)
  }

  ghost predicate RowsOk(s: State) {
    forall id :: id in s.table ==> RowOk(s, id)
  }

  lemma PutStore(s: State, w: nat, job: Job, data: Pdf, tries: nat, r: Reply)
    requires WellFormed(s) && StoreOk(s) && w < |s.workers| && job.Job?
    requires s.workers[w] == Uploading(job, data, tries)
    ensures StoreOk(PutStep(s, w, job, data, tries, r))
  {
    assert LocalOk(s, w);
    var t := PutStep(s, w, job, data, tries, r);
    assert KeyOfTable(t, ObjectKey(job.id));
    forall id | id in t.table && ObjectKey(id) in t.store
      ensures Genuine(t.signers, t.store[ObjectKey(id)], t.table[id].text)
    {
      if ObjectKey(id) == ObjectKey(job.id) {
        ObjectKeyInjective(id, job.id);
      }
    }
    forall k | k in t.store ensures KeyOfTable(t, k) {
      if k in s.store {
        assert KeyOfTable(s, k);
      }
    }
  }

  /** A step that leaves the bucket alone keeps the invariant if whoever it makes ready to
      report a document has that document stored. */
  lemma StoreFrame(s: State, t: State)
    requires StoreOk(s) && Grows(s, t) && t.store == s.store
    requires forall id :: id in t.table && id !in s.table ==> ObjectKey(id) !in s.store
    requires forall w: nat :: w < |t.workers| && t.workers[w].Finishing? ==>
               w < |s.workers| && t.workers[w] == s.workers[w]
    requires forall x :: x in t.reported && x !in s.reported && x.Result? && x.status == Completed ==>
               ObjectKey(x.id) in s.store
    ensures StoreOk(t)
  {
    forall k | k in t.store ensures KeyOfTable(t, k) {
      assert KeyOfTable(s, k);
    }
  }

  lemma ReportStore(s: State, w: nat, x: Result, next: Local, r: Reply)
    requires StoreOk(s) && w < |s.workers| && !next.Finishing?
    requires x.Result? && x.status == Completed ==> ObjectKey(x.id) in s.store
    ensures StoreOk(ReportStep(s, w, x, next, r))
  {
    StoreFrame(s, ReportStep(s, w, x, next, r));
  }

  lemma WorkStore(s: State, w: nat, r: Reply)
    requires WellFormed(s) && StoreOk(s) && w < |s.workers|
    ensures StoreOk(WorkStep(s, w, r))
  {
    assert LocalOk(s, w);
    match s.workers[w]
    case Uploading(job, data, tries) => PutStore(s, w, job, data, tries, r);
    case Reporting(job, error) => ReportStore(s, w, FailedResult(job.id, error), Counting(job), r);
    case Finishing(job) => ReportStore(s, w, CompletedResult(job.id), Removing(job), r);
    case _ => OtherStore(s, w, r);
  }

  lemma OtherStore(s: State, w: nat, r: Reply)
    requires WellFormed(s) && StoreOk(s) && w < |s.workers|
    requires !s.workers[w].Uploading? && !s.workers[w].Reporting? && !s.workers[w].Finishing?
    ensures StoreOk(WorkStep(s, w, r))
  {
    OtherFrame(s, w, r);
    StoreFrame(s, WorkStep(s, w, r));
  }

  lemma OuterFrame(s: State, w: nat, r: Reply)
    requires w < |s.workers| == |s.signers| && !Inner(s.workers[w])
    requires !s.workers[w].Reporting? && !s.workers[w].Finishing?
    ensures var t := WorkStep(s, w, r);
            t.store == s.store && t.reported == s.reported && !t.workers[w].Finishing?
  {
    match s.workers[w]
    case Idle =>
    case Requeueing(_) =>
    case DeadLettering(_) =>
    case Removing(_) =>
  }

  lemma OtherFrame(s: State, w: nat, r: Reply)
    requires WellFormed(s) && w < |s.workers|
    requires !s.workers[w].Uploading? && !s.workers[w].Reporting? && !s.workers[w].Finishing?
    ensures var t := WorkStep(s, w, r);
            t.store == s.store && t.reported == s.reported && !t.workers[w].Finishing?
  {
    if Inner(s.workers[w]) {
      InnerMoves(s, w, r);
      InnerStore(s, w, r);
    } else {
      OuterFrame(s, w, r);
    }
  }

  lemma InnerStore(s: State, w: nat, r: Reply)
    requires WellFormed(s) && w < |s.workers| && Inner(s.workers[w]) && !s.workers[w].Uploading?
    ensures WorkStep(s, w, r).store == s.store
  {
  }

  lemma StoreStep(s: State, e: Event)
    requires WellFormed(s) && StoreOk(s)
    ensures StoreOk(Step(s, e))
  {
    if e.Work? {
      if e.w < |s.workers| { WorkStore(s, e.w, e.reply); }
    } else if e.Submit? {
      SubmitStore(s, e.id, e.text);
    } else {
      StepGrows(s, e);
      ApiFrame(s, e);
      StoreFrame(s, Step(s, e));
    }
  }

  lemma SubmitStore(s: State, id: DocId, text: string)
    requires StoreOk(s)
    ensures StoreOk(SubmitStep(s, id, text))
  {
    if id !in s.table && ObjectKey(id) in s.store {
      assert KeyOfTable(s, ObjectKey(id));
      var other :| other in s.table && ObjectKey(id) == ObjectKey(other);
      ObjectKeyInjective(id, other);
    }
    StoreFrame(s, SubmitStep(s, id, text));
  }

  lemma RowFrame(s: State, t: State, id: DocId)
    requires id in s.table && id in t.table && RowOk(s, id)
    requires t.table[id] == s.table[id] && s.handled <= t.handled
    ensures RowOk(t, id)
  {
    if exists x :: x in s.handled && x.Result? && x.id == id && RowFrom(s.table[id], x) {
      var x :| x in s.handled && x.Result? && x.id == id && RowFrom(s.table[id], x);
      assert x in t.handled;
    }
  }

  lemma RowStep(s: State, e: Event, id: DocId)
    requires WellFormed(s) && RowsOk(s) && id in Step(s, e).table
    requires Grows(s, Step(s, e)) && forall x :: x in s.handled ==> x in Step(s, e).handled
    ensures RowOk(Step(s, e), id)
  {
    var t := Step(s, e);
    if id in s.table && t.table[id] == s.table[id] {
      RowFrame(s, t, id);
    } else {
      match e
      case Submit(_, _) =>
      case Update(_) => assert RowFrom(t.table[id], s.consumer.value) && s.consumer.value in t.handled;
      case _ =>
    }
  }

  lemma RowsStep(s: State, e: Event)
    requires WellFormed(s) && RowsOk(s)
    ensures RowsOk(Step(s, e))
  {
    var t := Step(s, e);
    StepGrows(s, e);
    HandledGrows(s, e);
    forall id | id in t.table ensures RowOk(t, id) { RowStep(s, e, id); }
  }

  lemma HandledGrows(s: State, e: Event)
    ensures s.handled <= Step(s, e).handled
  {
  }

  // ---- Over whole runs -------------------------------------------------

  ghost predicate Safe(s: State) {
    WellFormed(s) && StoreOk(s) && RowsOk(s)
  }

  lemma {:induction false} SafeRun(s: State, es: seq<Event>)
    requires Safe(s)
    ensures Safe(Run(s, es)) && Run(s, es).signers == s.signers
    decreases |es|
  {
    if es != [] {
      WellFormedStep(s, es[0]);
      StoreStep(s, es[0]);
      RowsStep(s, es[0]);
      StepGrows(s, es[0]);
      SafeRun(Step(s, es[0]), es[1..]);
    }
  }

  lemma Reachable(signers: seq<bool>, es: seq<Event>)
    ensures Safe(Run(Init(signers), es)) && Run(Init(signers), es).signers == signers
  {
    SafeRun(Init(signers), es);
  }

  /** In every reachable state a completed row has the path `<id>.pdf` and no error, and the bucket
      holds under it a PDF of that row's own text: a signed one if every worker has a certificate. */
  lemma CompletedImpliesStored(signers: seq<bool>, es: seq<Event>, id: DocId)
    requires var s := Run(Init(signers), es); id in s.table && s.table[id].status == Completed
    ensures
      var s := Run(Init(signers), es);
      && s.table[id].s3Path == id + ".pdf" && s.table[id].error == ""
      && id + ".pdf" in s.store
      && s.store[id + ".pdf"] in {Generated(s.table[id].text), Signed(Generated(s.table[id].text))}
      && ((forall w :: 0 <= w < |signers| ==> signers[w]) ==>
            s.store[id + ".pdf"] == Signed(Generated(s.table[id].text)))
  {
    var s := Run(Init(signers), es);
    Reachable(signers, es);
    assert RowOk(s, id);
    var x :| x in s.handled && x.Result? && x.id == id && RowFrom(s.table[id], x);
    assert x in s.reported;
    assert Ours(s, x);
    assert Genuine(s.signers, s.store[ObjectKey(id)], s.table[id].text);
  }

  // ---- What the API answers from a row ---------------------------------

  datatype Answer = NotFound | NotReady | Url(url: string) | Valid(s3Path: string)

  function Download(s: State, endpoint: string, id: DocId): Answer {
    if id !in s.table then NotFound
    else if s.table[id].status != Completed then NotReady
    else Url(endpoint + "/seal-outputs/" + s.table[id].s3Path)
  }

  function Verify(s: State, id: DocId): Answer {
    if id !in s.table then NotFound
    else if s.table[id].status != Completed then NotReady
    else Valid(s.table[id].s3Path)
  }

  /** A link is given for the completed documents and for no others, and it leads to an object made of the requested
      document's text. */
  lemma DownloadServesTheDocument(signers: seq<bool>, es: seq<Event>, endpoint: string, id: DocId)
    ensures
      var s := Run(Init(signers), es);
      var a := Download(s, endpoint, id);
      && (id !in s.table ==> a == NotFound)
      && (id in s.table && s.table[id].status != Completed ==> a == NotReady)
      && (id in s.table && s.table[id].status == Completed ==>
            && a == Url(endpoint + "/seal-outputs/" + (id + ".pdf")) && id + ".pdf" in s.store
            && s.store[id + ".pdf"] in {Generated(s.table[id].text), Signed(Generated(s.table[id].text))})
  {
    var s := Run(Init(signers), es);
    if id in s.table && s.table[id].status == Completed { CompletedImpliesStored(signers, es, id); }
  }

  /** A document is called valid exactly if it is completed, and with the name of an object that is there. */
  lemma VerifyNamesTheObject(signers: seq<bool>, es: seq<Event>, id: DocId)
    ensures
      var s := Run(Init(signers), es);
      var a := Verify(s, id);
      && (id !in s.table ==> a == NotFound)
      && (id in s.table && s.table[id].status != Completed ==> a == NotReady)
      && (id in s.table && s.table[id].status == Completed ==> a == Valid(id + ".pdf") && id + ".pdf" in s.store)
  {
    var s := Run(Init(signers), es);
    if id in s.table && s.table[id].status == Completed { CompletedImpliesStored(signers, es, id); }
  }

  /** Every document that Verify calls valid carries a signature, in every run,
      exactly when no worker runs without a certificate. */
  ghost predicate VerifyIsTruthful(signers: seq<bool>) {
    forall es: seq<Event>, id: DocId ::
      Verify(Run(Init(signers), es), id).Valid? ==>
        var s := Run(Init(signers), es);
        s.table[id].s3Path in s.store && s.store[s.table[id].s3Path].Signed?
  }

  /** Submit, push, move, decode, generate; then put, report, pop, update. */
  function OneDocument(w: nat): seq<Event> {
    [Submit("d", "t"), PushTask("d", Ok), Work(w, Ok), Work(w, Ok), Work(w, Ok)]
    + [Work(w, Ok), Work(w, Ok), Pop(Ok), Update(Ok)]
  }

  lemma Requested(signers: seq<bool>)
    ensures
      var s := Run(Init(signers), [Submit("d", "t"), PushTask("d", Ok)]);
      && s.signers == signers && s.workers == Init(signers).workers && s.pending == [Job("d", "t")]
      && s.results == [] && s.consumer.None? && "d" in s.table
  {
    var s0 := Init(signers);
    RunTwo(s0, Submit("d", "t"), PushTask("d", Ok));
    var s1 := SubmitStep(s0, "d", "t");
    assert Step(s0, Submit("d", "t")) == s1;
    assert Step(s1, PushTask("d", Ok)) == PushTaskStep(s1, "d", Ok);
  }

  lemma MadeUnsigned(s: State, w: nat)
    requires w < |s.workers| == |s.signers| && !s.signers[w] && s.workers[w].Idle? && s.pending == [Job("d", "t")]
    ensures
      var t := Run(s, [Work(w, Ok), Work(w, Ok), Work(w, Ok)]);
      && w < |t.workers| == |t.signers| && t.workers[w] == Uploading(Job("d", "t"), Generated("t"), 0)
      && t.results == s.results && t.consumer == s.consumer && t.table == s.table
  {
    RunThree(s, Work(w, Ok), Work(w, Ok), Work(w, Ok));
    var s1 := PollStep(s, w, Ok);
    assert Step(s, Work(w, Ok)) == s1 && s1.workers[w] == Decoding(Job("d", "t"));
    var s2 := Goto(s1, w, Generating(Job("d", "t")));
    assert Step(s1, Work(w, Ok)) == s2;
    assert Step(s2, Work(w, Ok)) == Goto(s2, w, Uploading(Job("d", "t"), Generated("t"), 0));
  }

  lemma UnsignedStart(signers: seq<bool>, w: nat)
    requires w < |signers| && !signers[w]
    ensures
      var s := Run(Init(signers), OneDocument(w)[..5]);
      && w < |s.workers| == |s.signers| && s.workers[w] == Uploading(Job("d", "t"), Generated("t"), 0)
      && s.results == [] && s.consumer.None? && "d" in s.table
  {
    var request, make := [Submit("d", "t"), PushTask("d", Ok)], [Work(w, Ok), Work(w, Ok), Work(w, Ok)];
    Requested(signers);
    MadeUnsigned(Run(Init(signers), request), w);
    RunAppend(Init(signers), request, make);
    assert OneDocument(w)[..5] == request + make;
  }

  lemma PutUnsigned(s: State, w: nat)
    requires w < |s.workers| == |s.signers| && s.workers[w] == Uploading(Job("d", "t"), Generated("t"), 0)
    ensures
      var t := Step(s, Work(w, Ok));
      && t.workers == s.workers[w := Finishing(Job("d", "t"))] && t.signers == s.signers
      && ObjectKey("d") in t.store && t.store[ObjectKey("d")] == Generated("t")
      && t.results == s.results && t.consumer == s.consumer && t.table == s.table
  {
    assert Step(s, Work(w, Ok)) == PutStep(s, w, Job("d", "t"), Generated("t"), 0, Ok);
  }

  lemma ReportUnsigned(s: State, w: nat)
    requires w < |s.workers| == |s.signers| && s.workers[w] == Finishing(Job("d", "t"))
    ensures
      var t := Step(s, Work(w, Ok));
      && t.results == s.results + [CompletedResult("d")] && t.store == s.store && t.consumer == s.consumer
      && t.table == s.table
  {
    assert Step(s, Work(w, Ok)) == ReportStep(s, w, CompletedResult("d"), Removing(Job("d", "t")), Ok);
  }

  lemma UnsignedDelivery(s: State, w: nat)
    requires w < |s.workers| == |s.signers| && s.workers[w] == Uploading(Job("d", "t"), Generated("t"), 0)
    ensures
      var t := Run(s, [Work(w, Ok), Work(w, Ok)]);
      && ObjectKey("d") in t.store && t.store[ObjectKey("d")] == Generated("t")
      && t.results == s.results + [CompletedResult("d")] && t.consumer == s.consumer && t.table == s.table
  {
    RunTwo(s, Work(w, Ok), Work(w, Ok));
    PutUnsigned(s, w);
    ReportUnsigned(Step(s, Work(w, Ok)), w);
  }

  lemma UnsignedUpdate(s: State)
    requires s.results == [CompletedResult("d")] && s.consumer.None? && "d" in s.table
    ensures
      var t := Run(s, [Pop(Ok), Update(Ok)]);
      && "d" in t.table && t.table["d"].status == Completed && t.table["d"].s3Path == ObjectKey("d")
         && t.store == s.store
  {
    RunTwo(s, Pop(Ok), Update(Ok));
    assert Step(s, Pop(Ok)) == PopStep(s, Ok);
    assert Step(PopStep(s, Ok), Update(Ok)) == UpdateStep(PopStep(s, Ok), Ok);
  }

  lemma UnsignedRun(signers: seq<bool>, w: nat)
    requires w < |signers| && !signers[w]
    ensures
      var s := Run(Init(signers), OneDocument(w));
      && "d" in s.table && s.table["d"].status == Completed && s.table["d"].s3Path in s.store
      && s.store[s.table["d"].s3Path] == Generated("t")
  {
    var start, put, consume := OneDocument(w)[..5], [Work(w, Ok), Work(w, Ok)], [Pop(Ok), Update(Ok)];
    UnsignedStart(signers, w);
    var s1 := Run(Init(signers), start);
    UnsignedDelivery(s1, w);
    UnsignedUpdate(Run(s1, put));
    assert OneDocument(w) == start + (put + consume);
    RunAppend(Init(signers), start, put + consume);
    RunAppend(s1, put, consume);
  }

  /** `/verify` answers `valid` for every completed document; the answer is backed by a signature
      in all runs exactly when no worker runs without a certificate. */
  lemma VerifyTruthfulIff(signers: seq<bool>)
    ensures VerifyIsTruthful(signers) <==> forall w :: 0 <= w < |signers| ==> signers[w]
  {
    if forall w :: 0 <= w < |signers| ==> signers[w] {
      forall es: seq<Event>, id: DocId | Verify(Run(Init(signers), es), id).Valid?
        ensures var s := Run(Init(signers), es);
                s.table[id].s3Path in s.store && s.store[s.table[id].s3Path].Signed?
      {
        CompletedImpliesStored(signers, es, id);
      }
    } else {
      var w: nat :| w < |signers| && !signers[w];
      UnsignedRun(signers, w);
    }
  }
}
