/** The vocabulary of the Seal job pipeline: what travels through the Redis
    lists, what the object store and the documents table hold, and where a
    worker stands between two calls to a shared service. */
module SealTypes {

  /** A document id in the canonical text form of its uuid. */
  type DocId = string

  /** An element of `seal:jobs`, `seal:processing` or `seal:dlq`, seen through
      the worker's own decoder: text that is not JSON, a message whose document
      id does not parse, or a job. */
  datatype Job =
    | BadJson(raw: string)
    | BadId(documentId: string, inputText: string)
    | Job(id: DocId, text: string)

  datatype Status = Pending | Failed | Completed

  /** An element of `seal:results`, seen through the API's decoder. */
  datatype Result =
    | BadResult(raw: string)
    | Result(id: DocId, status: Status, s3Path: string, error: string)

  /** Bytes produced by the PDF generator and by the signer. */
  datatype Pdf = Generated(text: string) | Signed(inner: Pdf)

  /** A row of the `documents` table. */
  datatype Row = Row(status: Status, text: string, s3Path: string, error: string)

  /** What the caller of a remote operation sees. `Lost` is an error reply for
      an operation that did take effect. */
  datatype Reply = Ok | Err(msg: string) | Lost(msg: string) {
    predicate Applied() { !Err? }
    function Msg(): string { if Ok? then "" else msg }
  }

  /** The next call a worker is about to make. */
  datatype Local =
    | Idle
    | Decoding(job: Job)
    | Generating(job: Job)
    | Signing(job: Job, data: Pdf)
    | Uploading(job: Job, data: Pdf, tries: nat)
    | Reporting(job: Job, error: string)
    | Counting(job: Job)
    | Requeueing(job: Job)
    | DeadLettering(job: Job)
    | Finishing(job: Job)
    | Removing(job: Job)

  const MAX_JOB_RETRIES: nat := 3
  const MAX_RETRIES: nat := 3

  function ObjectKey(id: DocId): string { id + ".pdf" }

  lemma ObjectKeyInjective(a: DocId, b: DocId)
    requires ObjectKey(a) == ObjectKey(b)
    ensures a == b
  {
    assert a == ObjectKey(a)[..|ObjectKey(a)| - 4];
    assert b == ObjectKey(b)[..|ObjectKey(b)| - 4];
  }

  function FailedResult(id: DocId, error: string): Result { Result(id, Failed, "", error) }

  function CompletedResult(id: DocId): Result { Result(id, Completed, ObjectKey(id), "") }

  /** LREM with count 0: every element equal to `x` goes, the others keep their order. */
  function Without<T(==)>(s: seq<T>, x: T): (r: seq<T>)
    ensures multiset(r) == multiset(s)[x := 0]
    ensures |r| <= |s|
  {
    if s == [] then []
    else
      assert s == [s[0]] + s[1..];
      if s[0] == x then Without(s[1..], x) else [s[0]] + Without(s[1..], x)
  }
}
