/** Which calls to Redis, the PDF engine, the bucket and the table a run of the protocol is made of, and with which
    answers. */
module SealCalls {
  import opened Wrappers
  import opened SealTypes
  import opened SealProtocol
  import opened SealProgress

  datatype Call =
    | Move                        // BLMOVE seal:jobs seal:processing
    | Push(job: Job)              // RPUSH seal:jobs
    | PutBack(job: Job)           // LPUSH seal:jobs
    | DeadLetter(job: Job)        // LPUSH seal:dlq
    | Publish(x: Result)          // RPUSH seal:results
    | Take                        // BLPOP seal:results
    | Length                      // LLEN seal:processing
    | Remove(job: Job)            // LREM seal:processing

  datatype Answered = Answered(call: Call, reply: Reply)

  datatype Stored = Stored(key: string, data: Pdf, reply: Reply)

  datatype Made = Made(output: Pdf, reply: Reply)

  datatype Written = Written(x: Result, reply: Reply)

  /** The next call to Redis of a worker at `l`, if that is where it calls. */
  function WorkerCall(l: Local): Option<Call> {
    match l
    case Idle => Some(Move)
    case Reporting(job, error) => if job.Job? then Some(Publish(FailedResult(job.id, error))) else None
    case Counting(_) => Some(Length)
    case Requeueing(job) => Some(PutBack(job))
    case DeadLettering(job) => Some(DeadLetter(job))
    case Finishing(job) => if job.Job? then Some(Publish(CompletedResult(job.id))) else None
    case Removing(job) => Some(Remove(job))
    case _ => None
  }

  /** The call to Redis that an event stands for. */
  function RedisCall(s: State, e: Event): seq<Answered> {
    match e
    case PushTask(id, r) =>
      if id in s.inflight && id in s.table then [Answered(Push(Job(id, s.table[id].text)), r)] else []
    case Pop(r) => if s.consumer.None? then [Answered(Take, r)] else []
    case Work(w, r) =>
      if w < |s.workers| && WorkerCall(s.workers[w]).Some? then [Answered(WorkerCall(s.workers[w]).value, r)] else []
    case _ => []
  }

  /** The PutObject that an event stands for. */
  function BucketCall(s: State, e: Event): seq<Stored> {
    if e.Work? && e.w < |s.workers| && s.workers[e.w].Uploading? && s.workers[e.w].job.Job?
    then [Stored(ObjectKey(s.workers[e.w].job.id), s.workers[e.w].data, e.reply)]
    else []
  }

  /** The generation or signing that an event stands for. */
  function EngineCall(s: State, e: Event): seq<Made> {
    if e.Work? && e.w < |s.workers| then
      match s.workers[e.w]
      case Generating(job) => if job.Job? then [Made(Generated(job.text), e.reply)] else []
      case Signing(_, data) => [Made(Signed(data), e.reply)]
      case _ => []
    else []
  }

  /** The UPDATE that an event stands for. */
  function TableCall(s: State, e: Event): seq<Written> {
    if e.Update? && s.consumer.Some? then [Written(s.consumer.value, e.reply)] else []
  }

  function RedisCalls(s: State, es: seq<Event>): seq<Answered>
    decreases |es|
  {
    if es == [] then [] else RedisCall(s, es[0]) + RedisCalls(Step(s, es[0]), es[1..])
  }

  lemma {:induction false} RedisCallsSnoc(s: State, es: seq<Event>, e: Event)
    ensures RedisCalls(s, es + [e]) == RedisCalls(s, es) + RedisCall(Run(s, es), e)
    decreases |es|
  {
    if es == [] {
      assert (es + [e])[1..] == [];
    } else {
      assert (es + [e])[1..] == es[1..] + [e];
      RedisCallsSnoc(Step(s, es[0]), es[1..], e);
    }
  }

  /** How often the worker at `w` crashed. */
  function Crashes(es: seq<Event>, w: nat): nat
    decreases |es|
  {
    if es == [] then 0 else (if es[0] == Crash(w) then 1 else 0) + Crashes(es[1..], w)
  }

  lemma {:induction false} NoNewCrash(es: seq<Event>, fs: seq<Event>, w: nat)
    requires es <= fs && forall i :: |es| <= i < |fs| ==> fs[i] != Crash(w)
    ensures Crashes(fs, w) == Crashes(es, w)
    decreases |fs|
  {
    if es != [] {
      NoNewCrash(es[1..], fs[1..], w);
    } else if fs != [] {
      NoNewCrash([], fs[1..], w);
    }
  }

  predicate AllOk(calls: seq<Answered>) { forall a :: a in calls ==> a.reply.Ok? }

  /** If Redis answered every call of a run, no step of a worker in it is anything but fault-free. */
  lemma {:induction false} AnsweredRunsAreClean(s: State, es: seq<Event>, i: nat)
    requires AllOk(RedisCalls(s, es)) && i < |es| && es[i].Work? && es[i].w < |Run(s, es[..i]).workers|
    requires !Run(s, es[..i]).workers[es[i].w].Decoding?
    requires var l := Run(s, es[..i]).workers[es[i].w]; l.Reporting? || l.Finishing? ==> l.job.Job?
    ensures Clean(Run(s, es[..i]), es[i])
    decreases |es|
  {
    var rest := RedisCalls(Step(s, es[0]), es[1..]);
    if i == 0 {
      assert es[..0] == [];
      var l := s.workers[es[0].w];
      if WorkerCall(l).Some? {
        var a := Answered(WorkerCall(l).value, es[0].reply);
        assert RedisCall(s, es[0]) == [a];
        assert a in RedisCalls(s, es);
      }
    } else {
      assert es[..i][1..] == es[1..][..i - 1] && es[..i][0] == es[0];
      assert forall a :: a in rest ==> a in RedisCalls(s, es);
      AnsweredRunsAreClean(Step(s, es[0]), es[1..], i - 1);
    }
  }
}
