/** The vocabulary shared by every component: jobs, their results, and instants. */
module Jobs {

  datatype Option<+T> = None | Some(value: T)

  /** Nanoseconds since the zero time.Time; the zero instant stands for "not set". */
  type Time = nat

  const ZERO_TIME: Time := 0
  const SECOND: nat := 1_000_000_000

  /** Whole seconds, as time.Time.Unix truncates them (up to a constant whole-second offset). */
  function UnixSeconds(t: Time): nat { t / SECOND }

  datatype JobStatus = Pending | Processing | Completed | Failed | Canceled {
    predicate Terminal() { this == Completed || this == Failed || this == Canceled }
  }

  /** A queue message identifier: unset, a fresh UUID, or the text of a leased payload. */
  datatype MessageID = NoMessage | Uuid(n: nat) | Text(payload: Payload)

  /** A string stored in the queue: the JSON text of a job, or text that does not decode. */
  datatype Payload = Json(job: Job) | Malformed(text: string)

  datatype Job = Job(id: string, url: string, idempotencyKey: string, callbackURL: string,
                     requestID: string, messageID: MessageID, leaseUntil: Time)

  datatype JobResult = JobResult(url: string, status: JobStatus, inlinePDF: string, pdfKey: string,
                                 pdfSize: nat, error: string, idempotencyKey: string, callbackURL: string,
                                 requestID: string, createdAt: Time, updatedAt: Time)

  datatype JobSnapshot = JobSnapshot(id: string, url: string, status: JobStatus, error: string,
                                     createdAt: Time, updatedAt: Time)

  datatype StorageStats = StorageStats(total: nat, byStatus: map<JobStatus, nat>, pdfBytes: nat,
                                       oldestJobAt: Time)
}
