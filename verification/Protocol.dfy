/** The wire vocabulary shared by the broker and the harnesses, and a few
    datatypes every module uses. */
module Basics {
  datatype Option<+T> = None | Some(value: T) {
    function GetOr(fallback: T): T { if Some? then value else fallback }
  }

  datatype Result<+T, +E> = Ok(value: T) | Err(error: E)

  /** The store's two ways to refuse. */
  datatype StoreError = NotFound | Conflict

  function Elems<T>(s: seq<T>): set<T> { set x | x in s }
}

module Protocol {
  import opened Basics

  type JobId = string
  type HarnessId = string
  type UserId = string
  type MsgId = string
  type ApprovalId = string

  datatype Decision = Allow | Deny

  /** Any other word for a status counts as failed. */
  datatype Status = StatusSucceeded | StatusFailed | StatusCancelled

  datatype JobError = JobError(code: string, message: string)

  /** What the harness needs to start a job. "" in `workspace` and `agent`
      means the message named none. */
  datatype JobDispatch = JobDispatch(
    botUserId: UserId, rootPostId: string, requester: UserId, workspace: string, agent: string)

  datatype JobResult = JobResult(status: Status, text: string, error: Option<JobError>)

  /** The payloads of the five at-least-once message types. */
  datatype Body =
    | Dispatch(dispatch: JobDispatch)
    | Cancel(reason: string)
    | ApprovalResponse(answered: ApprovalId, decision: Decision)
    | Finished(result: JobResult)
    | ApprovalRequest(asked: ApprovalId, expiresAt: int)
  {
    predicate ByBroker() { Dispatch? || Cancel? || ApprovalResponse? }
  }

  datatype Envelope = Envelope(id: MsgId, jobId: JobId, body: Body)

  datatype Action = Resume | Abort

  datatype WelcomeJob = WelcomeJob(jobId: JobId, action: Action)

  datatype Ack = Ack(ok: bool, code: string)

  /** One message on a connection. Only `Reliable` ones are kept in an outbox;
      an `Acked` frame answers the message whose id is `ref`. */
  datatype Frame =
    | Reliable(env: Envelope)
    | Acked(ref: MsgId, ackJob: JobId, ack: Ack)
    | Hello(reported: seq<JobId>)
    | Welcome(answers: seq<WelcomeJob>)
    | Progress(progressJob: JobId, seqNo: int)

  /** A frame and the harness whose connection carries it. */
  datatype Packet = Packet(harness: HarnessId, frame: Frame)
}
