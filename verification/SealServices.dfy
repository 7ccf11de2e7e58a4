/** The programs themselves: the worker's and the API's code over Redis, the bucket and
    the documents table. Between any two calls every other process may do anything it
    can do in the protocol, and every call may fail; the state the code leaves behind is
    always one a run of the protocol reaches, so everything proved about runs holds of it. */
module SealServices {
  import opened Wrappers
  import opened SealTypes
  import opened SealProtocol
  import opened SealSafety
  import opened SealStorage
  import opened SealRetries
  import opened SealFinality
  import opened SealProgress
  import opened SealQuiescence
  import opened SealSolo
  import opened SealCalls

  /** The four lists of the queue. When not `reliable`, any call may be answered with an error. */
  class Redis {
    const reliable: bool
    var jobs: seq<Job>
    var processing: seq<Job>
    var results: seq<Result>
    var dlq: seq<Job>
    ghost var log: seq<Answered>   // every call so far, with its answer

    constructor (reliable: bool)
      ensures this.reliable == reliable && jobs == [] && processing == [] && results == [] && dlq == [] && log == []
    {
      this.reliable, jobs, processing, results, dlq, log := reliable, [], [], [], [], [];
    }

    method Answer() returns (reply: Reply)
      ensures reliable ==> reply.Ok?
    {
      reply := *;
      if reliable { reply := Ok; }
    }

    /** BLMOVE seal:jobs seal:processing LEFT RIGHT; `None` with `Ok` is a timeout. */
    method BLMove() returns (job: Option<Job>, reply: Reply)
      modifies this`log, this`jobs, this`processing
      ensures reliable ==> reply.Ok?
      ensures old(jobs) == [] || reply.Err? ==> job == None && jobs == old(jobs) && processing == old(processing)
      ensures old(jobs) != [] && reply.Applied() ==>
                && jobs == old(jobs)[1..] && processing == old(processing) + [old(jobs)[0]]
                && job == if reply.Ok? then Some(old(jobs)[0]) else None
      ensures log == old(log) + [Answered(Move, reply)]
    {
      reply := Answer();
      log := log + [Answered(Move, reply)];
      job := None;
      if jobs != [] && reply.Applied() {
        processing := processing + [jobs[0]];
        if reply.Ok? { job := Some(jobs[0]); }
        jobs := jobs[1..];
      }
    }

    method PushJob(job: Job) returns (reply: Reply)
      modifies this`log, this`jobs
      ensures reliable ==> reply.Ok?
      ensures jobs == if reply.Applied() then old(jobs) + [job] else old(jobs)
      ensures log == old(log) + [Answered(Push(job), reply)]
    {
      reply := Answer();
      log := log + [Answered(Push(job), reply)];
      if reply.Applied() { jobs := jobs + [job]; }
    }

    method RequeueJob(job: Job) returns (reply: Reply)
      modifies this`log, this`jobs
      ensures reliable ==> reply.Ok?
      ensures jobs == if reply.Applied() then [job] + old(jobs) else old(jobs)
      ensures log == old(log) + [Answered(PutBack(job), reply)]
    {
      reply := Answer();
      log := log + [Answered(PutBack(job), reply)];
      if reply.Applied() { jobs := [job] + jobs; }
    }

    method PushDlq(job: Job) returns (reply: Reply)
      modifies this`log, this`dlq
      ensures reliable ==> reply.Ok?
      ensures dlq == if reply.Applied() then [job] + old(dlq) else old(dlq)
      ensures log == old(log) + [Answered(DeadLetter(job), reply)]
    {
      reply := Answer();
      log := log + [Answered(DeadLetter(job), reply)];
      if reply.Applied() { dlq := [job] + dlq; }
    }

    method PushResult(x: Result) returns (reply: Reply)
      modifies this`log, this`results
      ensures reliable ==> reply.Ok?
      ensures results == if reply.Applied() then old(results) + [x] else old(results)
      ensures log == old(log) + [Answered(Publish(x), reply)]
    {
      reply := Answer();
      log := log + [Answered(Publish(x), reply)];
      if reply.Applied() { results := results + [x]; }
    }

    /** BLPOP seal:results; `None` with `Ok` is a timeout. */
    method PopResult() returns (x: Option<Result>, reply: Reply)
      modifies this`log, this`results
      ensures reliable ==> reply.Ok?
      ensures old(results) == [] || reply.Err? ==> x == None && results == old(results)
      ensures old(results) != [] && reply.Applied() ==>
                results == old(results)[1..] && x == if reply.Ok? then Some(old(results)[0]) else None
      ensures log == old(log) + [Answered(Take, reply)]
    {
      reply := Answer();
      log := log + [Answered(Take, reply)];
      x := None;
      if results != [] && reply.Applied() {
        if reply.Ok? { x := Some(results[0]); }
        results := results[1..];
      }
    }

    method LLenProcessing() returns (count: nat, reply: Reply)
      modifies this`log
      ensures reliable ==> reply.Ok?
      ensures reply.Ok? ==> count == |processing|
      ensures log == old(log) + [Answered(Length, reply)]
    {
      reply := Answer();
      log := log + [Answered(Length, reply)];
      count := |processing|;
    }

    /** LREM seal:processing 0. */
    method LRem(job: Job) returns (reply: Reply)
      modifies this`log, this`processing
      ensures reliable ==> reply.Ok?
      ensures processing == if reply.Applied() then Without(old(processing), job) else old(processing)
      ensures log == old(log) + [Answered(Remove(job), reply)]
    {
      reply := Answer();
      log := log + [Answered(Remove(job), reply)];
      if reply.Applied() { processing := Without(processing, job); }
    }
  }

  /** The generator and the signer. */
  class Engine {
    ghost var log: seq<Made>

    constructor ()
      ensures log == []
    {
      log := [];
    }

    method GeneratePDF(text: string) returns (data: Pdf, reply: Reply)
      modifies this
      ensures reply.Ok? ==> data == Generated(text)
      ensures log == old(log) + [Made(Generated(text), reply)]
    {
      data, reply := Generated(text), *;
      log := log + [Made(Generated(text), reply)];
    }

    method Sign(data: Pdf) returns (signed: Pdf, reply: Reply)
      modifies this
      ensures reply.Ok? ==> signed == Signed(data)
      ensures log == old(log) + [Made(Signed(data), reply)]
    {
      signed, reply := Signed(data), *;
      log := log + [Made(Signed(data), reply)];
    }
  }

  /** The bucket `seal-outputs`. */
  class Bucket {
    var objects: map<string, Pdf>
    ghost var log: seq<Stored>

    constructor ()
      ensures objects == map[] && log == []
    {
      objects, log := map[], [];
    }

    method PutObject(key: string, data: Pdf) returns (reply: Reply)
      modifies this
      ensures objects == if reply.Applied() then old(objects)[key := data] else old(objects)
      ensures log == old(log) + [Stored(key, data, reply)]
    {
      reply := *;
      log := log + [Stored(key, data, reply)];
      if reply.Applied() { objects := objects[key := data]; }
    }
  }

  /** The table `documents`. */
  class Documents {
    var rows: map<DocId, Row>
    ghost var inserts: seq<Reply>
    ghost var updates: seq<Written>

    constructor ()
      ensures rows == map[] && inserts == [] && updates == []
    {
      rows, inserts, updates := map[], [], [];
    }

    /** INSERT ... RETURNING id; the database draws the id and refuses one that is taken. */
    method CreateDocument(text: string) returns (id: DocId, reply: Reply)
      modifies this`rows, this`inserts
      ensures inserts == old(inserts) + [reply]
      ensures reply.Applied() ==> id !in old(rows) && rows == old(rows)[id := Row(Pending, text, "", "")]
      ensures reply.Err? ==> rows == old(rows)
    {
      id := *;
      reply := *;
      if id in rows { reply := Err("duplicate key"); }
      inserts := inserts + [reply];
      if reply.Applied() { rows := rows[id := Row(Pending, text, "", "")]; }
    }

    /** UPDATE ... WHERE id = $1; an unknown id matches no row. */
    method UpdateStatus(x: Result) returns (reply: Reply)
      modifies this`rows, this`updates
      ensures rows == if reply.Applied() then Overwrite(old(rows), x) else old(rows)
      ensures updates == old(updates) + [Written(x, reply)]
    {
      reply := *;
      updates := updates + [Written(x, reply)];
      if reply.Applied() && x.Result? && x.id in rows {
        rows := rows[x.id := rows[x.id].(status := x.status, s3Path := x.s3Path, error := x.error)];
      }
    }
  }

  /** Who makes an event happen. */
  datatype Actor = TheWorker(w: nat) | TheRequest(id: DocId) | TheConsumer

  predicate By(e: Event, a: Actor) {
    match a
    case TheWorker(w) => e == Crash(w) || (e.Work? && e.w == w)
    case TheRequest(id) => e == Abandon(id) || (e.PushTask? && e.id == id)
    case TheConsumer => e.Pop? || e.Update? || e.ConsumerCrash?
  }

  /** The whole deployment, with the protocol run that led to its present state. */
  class Deployment {
    const signers: seq<bool>
    const sound: bool            // Redis answers every call
    const quiet: bool            // so it does, and nobody else is active
    const redis: Redis
    const engine: Engine
    const bucket: Bucket
    const documents: Documents
    ghost var trace: seq<Event>
    ghost var model: State
    ghost var redisCalls: seq<Answered>
    ghost var engineCalls: seq<Made>
    ghost var bucketCalls: seq<Stored>
    ghost var tableCalls: seq<Written>

    ghost function Repr(): set<object> { {this, redis, engine, bucket, documents} }

    /** The model is where the recorded run leads. */
    ghost predicate Traced()
      reads this
    {
      && model == Run(Init(signers), trace) && model.signers == signers && |model.workers| == |signers|
      && redisCalls == RedisCalls(Init(signers), trace) && (quiet ==> sound) && (sound ==> AllOk(redisCalls))
    }

    /** So far a single worker ran, and nothing failed. */
    ghost predicate Solo()
      reads this
    {
      quiet && |signers| == 1 && SoloRun(Init(signers), trace)
    }

    /** The services are as the recorded run leaves them, and it is made of exactly the calls they answered. */
    ghost predicate Valid()
      reads Repr()
    {
      && Traced()
      && redis.jobs == model.pending && redis.processing == model.processing
      && redis.results == model.results && redis.dlq == model.dlq
      && bucket.objects == model.store && documents.rows == model.table
      && redis.log == redisCalls && engine.log == engineCalls && bucket.log == bucketCalls
      && documents.updates == tableCalls && redis.reliable == sound
    }

    constructor (signers: seq<bool>, sound: bool, quiet: bool)
      requires quiet ==> sound
      ensures Valid() && fresh(Repr()) && trace == []
      ensures this.signers == signers && this.sound == sound && this.quiet == quiet
    {
      this.signers, this.sound, this.quiet := signers, sound, quiet;
      redis := new Redis(sound);
      engine := new Engine();
      bucket := new Bucket();
      documents := new Documents();
      trace, model := [], Init(signers);
      redisCalls, engineCalls, bucketCalls, tableCalls := [], [], [], [];
    }

    /** The services are as `e` leaves them, with its calls logged; only the record lags behind. */
    ghost predicate Ahead(e: Event)
      reads Repr()
    {
      var t := Step(model, e);
      && redis.jobs == t.pending && redis.processing == t.processing
      && redis.results == t.results && redis.dlq == t.dlq
      && bucket.objects == t.store && documents.rows == t.table
      && redis.log == redisCalls + RedisCall(model, e) && engine.log == engineCalls + EngineCall(model, e)
      && bucket.log == bucketCalls + BucketCall(model, e) && documents.updates == tableCalls + TableCall(model, e)
      && redis.reliable == sound
    }

    /** The protocol takes the step that `e` names. */
    ghost method Record(e: Event)
      modifies this
      requires Traced() && Ahead(e) && (sound ==> AllOk(RedisCall(model, e)))
      ensures Valid() && model == Step(old(model), e) && trace == old(trace) + [e]
    {
      RunSnoc(Init(signers), trace, e);
      RedisCallsSnoc(Init(signers), trace, e);
      StepGrows(model, e);
      WorkersStay(model, e);
      redisCalls := redisCalls + RedisCall(model, e);
      engineCalls := engineCalls + EngineCall(model, e);
      bucketCalls := bucketCalls + BucketCall(model, e);
      tableCalls := tableCalls + TableCall(model, e);
      model, trace := Step(model, e), trace + [e];
    }

    /** If Redis is sound, no step of a worker in the recorded run is anything but fault-free: what was answered with an
        error was answered so by a call that was made, and a sound Redis gives no such answer. */
    lemma SoundMeansClean(i: nat)
      requires Valid() && sound && i < |trace| && trace[i].Work? && trace[i].w < |signers|
      ensures var s, w := Run(Init(signers), trace[..i]), trace[i].w;
              w < |s.workers| && (s.workers[w].Decoding? || Clean(s, trace[i]))
    {
      Reachable(signers, trace[..i]);
      SignersStay(Init(signers), trace[..i]);
      var s, w := Run(Init(signers), trace[..i]), trace[i].w;
      assert LocalOk(s, w);
      if !s.workers[w].Decoding? { AnsweredRunsAreClean(Init(signers), trace, i); }
    }

    /** Whatever the other processes do before `a` makes its next call. Callers rely on this contract
        alone; the body stands for the case that the others do nothing. */
    method Others(ghost a: Actor)
      requires Valid()
      modifies Repr()
      ensures Valid() && old(trace) <= trace
      ensures forall i :: |old(trace)| <= i < |trace| ==> !By(trace[i], a)
      ensures a.TheWorker? && a.w < |signers| ==> model.workers[a.w] == old(model.workers[a.w])
      ensures a.TheRequest? && a.id in old(model.inflight) && a.id in old(model.table) ==>
                a.id in model.inflight && a.id in model.table && model.table[a.id].text == old(model.table[a.id].text)
      ensures a.TheConsumer? ==>
                && model.consumer == old(model.consumer) && model.handled == old(model.handled)
                && old(model.results) <= model.results
      ensures old(documents.inserts) <= documents.inserts
      ensures quiet ==> model == old(model) && trace == old(trace)
    {
    }
  }

  function UploadFailed(lastErr: string): string { "upload: upload failed after 3 retries: " + lastErr }

  /** One seal-worker. */
  class Worker {
    const d: Deployment
    const w: nat

    constructor (d: Deployment, w: nat)
      ensures this.d == d && this.w == w
    {
      this.d, this.w := d, w;
    }

    ghost predicate At(l: Local)
      reads d.Repr()
    {
      d.Valid() && w < |d.model.workers| && d.model.workers[w] == l
    }

    /** What a quiet deployment with this one worker keeps while the worker goes on. */
    twostate predicate Drains()
      reads d.Repr()
    {
      old(d.Solo()) ==> d.Solo() && Potential(d.model) <= old(Potential(d.model))
    }

    /** The worker has not crashed: whatever it did, it did by answered calls. */
    twostate predicate GoesOn()
      reads d.Repr()
    {
      old(d.trace) <= d.trace && Crashes(d.trace, w) == old(Crashes(d.trace, w))
    }

    twostate predicate Untouched()
      reads d.Repr()
    {
      d.redis.jobs == old(d.redis.jobs) && d.redis.dlq == old(d.redis.dlq)
          && d.redis.processing == old(d.redis.processing)
    }

    /** The others go on until the worker makes its next call. */
    method Wait()
      requires d.Valid() && w < |d.model.workers|
      modifies d.Repr()
      ensures At(old(d.model.workers[w])) && GoesOn()
      ensures d.quiet ==> d.model == old(d.model) && d.trace == old(d.trace)
    {
      ghost var before := d.trace;
      d.Others(TheWorker(w));
      NoNewCrash(before, d.trace, w);
    }

    /** The step of the protocol that belongs to the call just answered. */
    ghost method Advance(reply: Reply)
      requires d.Traced() && w < |d.model.workers| && d.Ahead(Work(w, reply))
      requires d.sound && WorkerCall(d.model.workers[w]).Some? ==> reply.Ok?
      requires d.quiet ==> Clean(d.model, Work(w, reply))
      modifies d
      ensures d.Valid() && d.model == WorkStep(old(d.model), w, reply) && d.trace == old(d.trace) + [Work(w, reply)]
      ensures GoesOn() && Drains()
      ensures old(d.Solo()) && old(d.model.workers[w]).Idle? && old(d.model.pending) != [] ==>
                Potential(d.model) < old(Potential(d.model))
    {
      if d.Solo() {
        assert d.signers == [d.signers[0]];
        SoloWorkSnoc(d.signers[0], d.trace, reply);
      }
      ghost var before := d.trace;
      d.Record(Work(w, reply));
      NoNewCrash(before, d.trace, w);
    }

    /** Every copy goes; undisturbed, nothing else does. */
    method RemoveFromProcessing(job: Job)
      requires At(Removing(job))
      modifies d.Repr()
      ensures At(Idle) && GoesOn() && Drains()
      ensures d.quiet ==>
                && d.redis.processing == Without(old(d.redis.processing), job)
                && d.redis.jobs == old(d.redis.jobs) && d.redis.dlq == old(d.redis.dlq)
    {
      Wait();
      var reply := d.redis.LRem(job);
      Advance(reply);
    }

    method DeadLetterCall(job: Job)
      requires At(DeadLettering(job))
      modifies d.Repr()
      ensures At(Removing(job)) && GoesOn() && Drains()
      ensures d.quiet ==>
                && d.redis.dlq == [job] + old(d.redis.dlq) && d.redis.jobs == old(d.redis.jobs)
                && d.redis.processing == old(d.redis.processing)
    {
      Wait();
      var reply := d.redis.PushDlq(job);
      Advance(reply);
    }

    /** Undisturbed, the job is the newest dead letter and has no copy left. */
    method PushToDLQ(job: Job)
      requires At(DeadLettering(job))
      modifies d.Repr()
      ensures At(Idle) && GoesOn() && Drains()
      ensures d.quiet ==>
                && d.redis.dlq == [job] + old(d.redis.dlq) && d.redis.jobs == old(d.redis.jobs)
                && d.redis.processing == Without(old(d.redis.processing), job)
    {
      DeadLetterCall(job);
      RemoveFromProcessing(job);
    }

    /** LLEN seal:processing, compared with the retry limit. */
    method MayRetry(job: Job) returns (yes: bool)
      requires At(Counting(job))
      modifies d.Repr()
      ensures At(if yes then Requeueing(job) else DeadLettering(job))
      ensures GoesOn() && Drains()
      ensures d.quiet ==> (yes <==> |old(d.redis.processing)| < MAX_JOB_RETRIES) && Untouched()
    {
      Wait();
      var count, reply := d.redis.LLenProcessing();
      Advance(reply);
      yes := reply.Ok? && count < MAX_JOB_RETRIES;
    }

    method Requeue(job: Job) returns (ok: bool)
      requires At(Requeueing(job))
      modifies d.Repr()
      ensures At(if ok then Idle else DeadLettering(job))
      ensures GoesOn() && Drains()
      ensures d.quiet ==>
                && ok && d.redis.jobs == [job] + old(d.redis.jobs)
                && d.redis.dlq == old(d.redis.dlq) && d.redis.processing == old(d.redis.processing)
    {
      Wait();
      var reply := d.redis.RequeueJob(job);
      Advance(reply);
      ok := reply.Ok?;
    }

    /** Undisturbed, the job goes back to the head of the queue, or to the DLQ if processing holds three copies. */
    method RetryOrDLQ(job: Job)
      requires At(Counting(job))
      modifies d.Repr()
      ensures At(Idle) && GoesOn() && Drains()
      ensures d.quiet && |old(d.redis.processing)| < MAX_JOB_RETRIES ==>
                && d.redis.jobs == [job] + old(d.redis.jobs)
                && d.redis.dlq == old(d.redis.dlq) && d.redis.processing == old(d.redis.processing)
      ensures d.quiet && |old(d.redis.processing)| >= MAX_JOB_RETRIES ==>
                && d.redis.dlq == [job] + old(d.redis.dlq) && d.redis.jobs == old(d.redis.jobs)
                && d.redis.processing == Without(old(d.redis.processing), job)
    {
      var retry := MayRetry(job);
      if !retry {
        PushToDLQ(job);
        return;
      }
      RequeueOrDLQ(job);
    }

    method RequeueOrDLQ(job: Job)
      requires At(Requeueing(job))
      modifies d.Repr()
      ensures At(Idle) && GoesOn() && Drains()
      ensures d.quiet ==>
                && d.redis.jobs == [job] + old(d.redis.jobs)
                && d.redis.dlq == old(d.redis.dlq) && d.redis.processing == old(d.redis.processing)
    {
      var ok := Requeue(job);
      if !ok {
        PushToDLQ(job);
      }
    }

    /** Publishes a failure; the worker goes on to retry whether or not that succeeds. */
    method PushFailure(job: Job, error: string)
      requires At(Reporting(job, error)) && job.Job?
      modifies d.Repr()
      ensures At(Counting(job)) && GoesOn() && Drains()
    {
      Wait();
      var reply := d.redis.PushResult(FailedResult(job.id, error));
      Advance(reply);
    }

    /** One attempt to store the object. */
    method Put(job: Job, data: Pdf, attempt: nat) returns (reply: Reply)
      requires attempt < MAX_RETRIES && At(Uploading(job, data, attempt)) && job.Job?
      modifies d.Repr()
      ensures GoesOn() && Drains()
      ensures reply.Ok? ==>
                At(Finishing(job)) && ObjectKey(job.id) in d.bucket.objects
                    && d.bucket.objects[ObjectKey(job.id)] == data
      ensures !reply.Ok? ==>
                At(if attempt + 1 < MAX_RETRIES then Uploading(job, data, attempt + 1)
                   else Reporting(job, UploadFailed(reply.Msg())))
    {
      Wait();
      reply := d.bucket.PutObject(ObjectKey(job.id), data);
      Advance(reply);
    }

    /** `Storage.Upload`: at most `MAX_RETRIES` attempts. */
    method Upload(job: Job, data: Pdf) returns (lastErr: Option<string>)
      requires At(Uploading(job, data, 0)) && job.Job?
      modifies d.Repr()
      ensures lastErr.None? ==>
                At(Finishing(job)) && ObjectKey(job.id) in d.bucket.objects
                    && d.bucket.objects[ObjectKey(job.id)] == data
      ensures lastErr.Some? ==> At(Reporting(job, UploadFailed(lastErr.value)))
      ensures GoesOn() && Drains()
    {
      lastErr := Some("");
      for i := 0 to MAX_RETRIES
        invariant i < MAX_RETRIES ==> At(Uploading(job, data, i))
        invariant i == MAX_RETRIES ==>
          lastErr.Some? && At(Reporting(job, UploadFailed(lastErr.value)))
        invariant GoesOn() && Drains()
      {
        var reply := Put(job, data, i);
        if reply.Ok? {
          return None;
        }
        lastErr := Some(reply.Msg());
      }
    }

    /** A failed attempt: publish the failure, then retry or dead-letter. */
    method Fail(job: Job, error: string)
      requires At(Reporting(job, error)) && job.Job?
      modifies d.Repr()
      ensures At(Idle) && GoesOn() && Drains()
    {
      PushFailure(job, error);
      RetryOrDLQ(job);
    }

    method PushCompletion(job: Job)
      requires At(Finishing(job)) && job.Job?
      modifies d.Repr()
      ensures At(Removing(job)) && GoesOn() && Drains()
    {
      Wait();
      var reply := d.redis.PushResult(CompletedResult(job.id));
      Advance(reply);
    }

    /** Upload, report, clean up. */
    method Deliver(job: Job, data: Pdf)
      requires At(Uploading(job, data, 0)) && job.Job?
      modifies d.Repr()
      ensures At(Idle) && GoesOn() && Drains()
    {
      var failure := Upload(job, data);
      if failure.Some? {
        Fail(job, UploadFailed(failure.value));
        return;
      }
      PushCompletion(job);
      RemoveFromProcessing(job);
    }

    /** Generate and, with a certificate, sign; or the text of the error. */
    method Produce(job: Job) returns (data: Pdf, failure: Option<string>)
      requires At(Generating(job)) && job.Job?
      modifies d.Repr()
      ensures failure.None? ==> At(Uploading(job, data, 0)) && data == Produced(d.signers[w], job.text)
      ensures failure.Some? ==> At(Reporting(job, failure.value))
      ensures GoesOn() && Drains()
    {
      data, failure := Generate(job);
      if failure.None? && d.signers[w] {
        data, failure := Sign(job, data);
      }
    }

    method Generate(job: Job) returns (data: Pdf, failure: Option<string>)
      requires At(Generating(job)) && job.Job?
      modifies d.Repr()
      ensures failure.None? ==>
                && data == Generated(job.text)
                && At(if d.signers[w] then Signing(job, data) else Uploading(job, data, 0))
      ensures failure.Some? ==> At(Reporting(job, failure.value))
      ensures GoesOn() && Drains()
    {
      var reply;
      data, reply := d.engine.GeneratePDF(job.text);
      Advance(reply);
      failure := if reply.Ok? then None else Some("pdf generation: " + reply.Msg());
    }

    method Sign(job: Job, data: Pdf) returns (signed: Pdf, failure: Option<string>)
      requires At(Signing(job, data)) && job.Job?
      modifies d.Repr()
      ensures failure.None? ==> signed == Signed(data) && At(Uploading(job, signed, 0))
      ensures failure.Some? ==> At(Reporting(job, failure.value))
      ensures GoesOn() && Drains()
    {
      var reply;
      signed, reply := d.engine.Sign(data);
      Advance(reply);
      failure := if reply.Ok? then None else Some("pdf sign: " + reply.Msg());
    }

    /** `process`: one moved job, from decoding to the end of the attempt. */
    method Process(job: Job)
      requires At(Decoding(job))
      modifies d.Repr()
      ensures At(Idle) && GoesOn() && Drains()
    {
      Advance(Ok);
      if !job.Job? {
        RemoveFromProcessing(job);
      } else if job.text == "" {
        Fail(job, "empty input text");
      } else {
        Attempt(job);
      }
    }

    /** Generate, sign, upload, report. */
    method Attempt(job: Job)
      requires At(Generating(job)) && job.Job?
      modifies d.Repr()
      ensures At(Idle) && GoesOn() && Drains()
    {
      var data, failure := Produce(job);
      if failure.Some? {
        Fail(job, failure.value);
      } else {
        Deliver(job, data);
      }
    }

    /** BLMOVE; every job moved uses up some of the potential. */
    method Poll() returns (job: Option<Job>, ok: bool)
      requires At(Idle)
      modifies d.Repr()
      ensures ok ==> At(if job.Some? then Decoding(job.value) else Idle)
      ensures !ok ==> At(Idle)
      ensures GoesOn() && Drains() && (d.sound ==> ok)
      ensures old(d.Solo()) && old(d.model.pending) != [] ==> Potential(d.model) < old(Potential(d.model))
      ensures old(d.Solo()) && old(d.model.pending) == [] ==> d.model.pending == [] && job.None?
    {
      Wait();
      var reply;
      job, reply := d.redis.BLMove();
      Advance(reply);
      ok := reply.Ok?;
    }

    /** One turn of the loop: a job is taken from the queue, if there is one, and processed. */
    method Turn() returns (ok: bool)
      requires At(Idle)
      modifies d.Repr()
      ensures At(Idle) && GoesOn() && Drains() && (d.sound ==> ok)
      ensures old(d.Solo()) ==> d.model.pending == [] || Potential(d.model) < old(Potential(d.model))
      ensures old(d.Solo()) && old(d.model.pending) == [] ==> d.model.pending == []
    {
      var job;
      job, ok := Poll();
      if ok && job.Some? {
        Process(job.value);
      }
    }

    lemma NothingHeld()
      requires At(Idle) && d.Solo() && (d.model.pending == [] || Potential(d.model) <= 0)
      ensures d.model.pending == [] && d.model.processing == []
    {
      assert d.signers == [d.signers[0]];
      SoloReachable(d.signers[0], d.trace);
    }

    /** `Run`, cancelled after `polls` turns of its loop. On its own and with a Redis that answers, a
        worker has emptied the queue after 3*|jobs| - |processing| turns: every turn that moves a job
        lowers that number. */
    method Run(polls: nat) returns (ok: bool)
      requires At(Idle)
      modifies d.Repr()
      ensures At(Idle) && GoesOn() && Drains()
      ensures d.sound ==> ok
      ensures old(d.Solo()) && polls >= 3 * |old(d.redis.jobs)| - |old(d.redis.processing)| ==>
                d.redis.jobs == [] && d.redis.processing == []
    {
      var turn := 0;
      while turn < polls
        invariant turn <= polls
        invariant At(Idle) && GoesOn() && Drains()
        invariant old(d.Solo()) ==>
          d.model.pending == [] || Potential(d.model) + turn <= old(Potential(d.model))
      {
        ok := Turn();
        if !ok {
          return;
        }
        turn := turn + 1;
      }
      if d.Solo() && (d.model.pending == [] || Potential(d.model) <= 0) { NothingHeld(); }
      return true;
    }
  }

  /** A popped result is about a document of the table. */
  lemma PoppedIsOurs(signers: seq<bool>, es: seq<Event>)
    requires Run(Init(signers), es).consumer.Some?
    ensures Ours(Run(Init(signers), es), Run(Init(signers), es).consumer.value)
  {
    Reachable(signers, es);
    var s := Run(Init(signers), es);
    assert s.consumer.value in s.reported;
  }

  /** While its request is under way a document has no job. */
  lemma NotPushedYet(signers: seq<bool>, es: seq<Event>, id: DocId, text: string)
    requires id in Run(Init(signers), es).inflight
    ensures Job(id, text) !in Run(Init(signers), es).pushed
  {
    Reachable(signers, es);
  }

  lemma {:induction false} SignersStay(s: State, es: seq<Event>)
    requires |s.workers| == |s.signers|
    ensures |Run(s, es).workers| == |Run(s, es).signers| == |s.signers|
    decreases |es|
  {
    if es != [] {
      WorkersStay(s, es[0]);
      SignersKept(s, es[0]);
      SignersStay(Step(s, es[0]), es[1..]);
    }
  }

  lemma SignersKept(s: State, e: Event)
    ensures Step(s, e).signers == s.signers
  {
    if !e.Work? { ApiFrame(s, e); }
  }

  datatype Response = BadRequest | InternalError | Created(id: DocId)

  /** seal-api: its request handler and its background consumer. */
  class Api {
    const d: Deployment

    constructor (d: Deployment)
      ensures this.d == d
    {
      this.d := d;
    }

    /** `CreateDocument`. An empty text changes nothing; a 201 means that the insert was answered, and a row with
        exactly that text. Its job is pushed, and is in the queue just when the push took effect; whether it did, only
        the log shows. */
    method CreateDocument(text: string) returns (response: Response, ghost insert: Reply, ghost push: Reply)
      requires d.Valid()
      modifies d.Repr()
      ensures d.Valid() && old(d.trace) <= d.trace
      ensures response.BadRequest? <==> text == ""
      ensures response.BadRequest? ==> d.model == old(d.model) && d.documents.inserts == old(d.documents.inserts)
      ensures !response.BadRequest? ==>
                old(d.documents.inserts) + [insert] <= d.documents.inserts && (insert.Ok? <==> response.Created?)
      ensures response.Created? ==>
                && response.id !in old(d.documents.rows)
                && response.id in d.documents.rows && d.documents.rows[response.id].text == text
                && (push.Applied() <==> Job(response.id, text) in d.model.pushed)
                && old(d.trace) < d.trace && d.trace[|d.trace| - 1] == Event.PushTask(response.id, push)
    {
      insert, push := Ok, Ok;
      if text == "" {
        return BadRequest, insert, push;
      }
      var id, reply := Insert(text);
      insert := reply;
      if !reply.Ok? {
        return InternalError, insert, push;
      }
      push := PushTask(id, text);
      response := Created(id);
    }

    /** The INSERT; a request whose insert is answered with an error ends there. */
    method Insert(text: string) returns (id: DocId, reply: Reply)
      requires d.Valid() && text != ""
      modifies d.Repr()
      ensures d.Valid() && old(d.trace) <= d.trace && d.documents.inserts == old(d.documents.inserts) + [reply]
      ensures reply.Ok? ==> id !in old(d.documents.rows) && id in d.model.inflight && id in d.model.table
                            && d.model.table[id].text == text
    {
      id, reply := d.documents.CreateDocument(text);
      if reply.Applied() {
        d.Record(Submit(id, text));
      }
      if reply.Lost? {
        d.Record(Abandon(id));
      }
    }

    /** The RPUSH for a request under way. */
    method PushTask(id: DocId, text: string) returns (reply: Reply)
      requires d.Valid() && id in d.model.inflight && id in d.model.table && d.model.table[id].text == text
      modifies d.Repr()
      ensures d.Valid() && old(d.trace) < d.trace && d.trace[|d.trace| - 1] == Event.PushTask(id, reply)
      ensures old(d.documents.inserts) <= d.documents.inserts
      ensures id in d.documents.rows && d.documents.rows[id].text == text
      ensures reply.Applied() <==> Job(id, text) in d.model.pushed
    {
      d.Others(TheRequest(id));
      NotPushedYet(d.signers, d.trace, id, text);
      reply := d.redis.PushJob(Job(id, text));
      d.Record(Event.PushTask(id, reply));
    }

    /** One turn of the background consumer, which found `waiting` in the queue: it takes the oldest result if Redis
        answers, and writes it to the table; if that took effect, its document's row shows exactly that result. */
    method ConsumeOne()
      returns (ghost waiting: seq<Result>, ghost answer: Reply, ghost taken: Option<Result>, ghost written: bool,
               ghost at: nat)
      requires d.Valid() && d.model.consumer.None?
      modifies d.Repr()
      ensures d.Valid() && old(d.trace) <= d.trace && d.model.consumer.None?
      ensures |old(d.trace)| <= at < |d.trace| && d.trace[at] == Pop(answer)
      ensures old(d.redis.results) <= waiting && (d.sound ==> answer.Ok?)
      ensures taken == if answer.Ok? && waiting != [] then Some(waiting[0]) else None
      ensures taken.Some? ==> d.model.handled == old(d.model.handled) + [taken.value]
      ensures taken.Some? ==> |d.trace| > 0
      ensures taken.Some? && taken.value.Result? ==>
                d.trace[|d.trace| - 1].Update? && (written <==> d.trace[|d.trace| - 1].reply.Applied())
      ensures written ==> taken.Some? && taken.value.Result? && taken.value.id in d.documents.rows
                          && RowFrom(d.documents.rows[taken.value.id], taken.value)
    {
      taken, written := None, false;
      Wait();
      waiting, at := d.redis.results, |d.trace|;
      var x;
      x, answer := TakeResult();
      taken := x;
      if x.Some? {
        written := WriteResult(x.value);
      }
    }

    /** BLPOP */
    method TakeResult() returns (x: Option<Result>, ghost answer: Reply)
      requires d.Valid() && d.model.consumer.None?
      modifies d.Repr()
      ensures d.Valid() && d.trace == old(d.trace) + [Pop(answer)] && (d.sound ==> answer.Ok?)
      ensures x == if answer.Ok? && old(d.redis.results) != [] then Some(old(d.redis.results)[0]) else None
      ensures d.model.consumer == x && (x.Some? ==> d.model.handled == old(d.model.handled))
    {
      var reply;
      x, reply := d.redis.PopResult();
      d.Record(Pop(reply));
      answer := reply;
    }

    /** A result that cannot be read is dropped; any other overwrites its document's row. */
    method WriteResult(x: Result) returns (ghost written: bool)
      requires d.Valid() && d.model.consumer == Some(x)
      modifies d.Repr()
      ensures d.Valid() && old(d.trace) <= d.trace && d.model.consumer.None?
      ensures d.model.handled == old(d.model.handled) + [x]
      ensures |d.trace| > 0
      ensures x.Result? ==> d.trace[|d.trace| - 1].Update? && (written <==> d.trace[|d.trace| - 1].reply.Applied())
      ensures written ==> x.Result? && x.id in d.documents.rows && RowFrom(d.documents.rows[x.id], x)
    {
      written := false;
      Wait();
      if x.BadResult? {
        d.Record(ConsumerCrash);
      } else {
        written := UpdateRow(x);
      }
    }

    method UpdateRow(x: Result) returns (ghost written: bool)
      requires d.Valid() && d.model.consumer == Some(x) && x.Result?
      modifies d.Repr()
      ensures d.Valid() && old(d.trace) <= d.trace && d.model.consumer.None?
      ensures d.model.handled == old(d.model.handled) + [x]
      ensures |d.trace| > 0 && d.trace[|d.trace| - 1].Update?
      ensures written <==> d.trace[|d.trace| - 1].reply.Applied()
      ensures written ==> x.id in d.documents.rows && RowFrom(d.documents.rows[x.id], x)
    {
      PoppedIsOurs(d.signers, d.trace);
      var reply := d.documents.UpdateStatus(x);
      d.Record(Update(reply));
      written := reply.Applied();
    }

    /** The others go on until the consumer makes its next call. */
    method Wait()
      requires d.Valid()
      modifies d.Repr()
      ensures d.Valid() && old(d.trace) <= d.trace
      ensures d.model.consumer == old(d.model.consumer) && d.model.handled == old(d.model.handled)
      ensures old(d.redis.results) <= d.redis.results
    {
      d.Others(TheConsumer);
    }
  }
}
