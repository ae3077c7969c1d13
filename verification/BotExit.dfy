/** How the runner reads a bot's exit: the decision at the head of the exit pipeline. */
module BotExit {
  import opened Common
  import opened Calls

  datatype Decision = Ignore | ToProcessing(endReason: EndReason) | Fail(reason: FailureReason)

  function FailureFor(code: int, status: CallStatus): FailureReason {
    if code == 2 then NeverAdmitted
    else if code == 4 then (if status.Recording? then NoShow else JoinTimeout)
    else if code == 6 then ConsentMissing
    else if code == 7 then SilentRecording
    else BotError(code)
  }

  predicate Clean(status: CallStatus, code: int) {
    code in {0, 3} && status.Recording?
  }

  predicate AloneViaSilence(status: CallStatus, code: int, result: Option<EndReason>) {
    code == 7 && status.Recording? && result == Some(Alone)
  }

  /** `result` is the end reason of the bot's result line; None stands for a missing
      line, an unreadable one, and one whose end reason is not a known value. */
  function Decide(status: CallStatus, code: int, result: Option<EndReason>): Decision {
    if status.Terminal() then Ignore
    else if AloneViaSilence(status, code, result) then ToProcessing(Alone)
    else if Clean(status, code) then
      if code == 3 then ToProcessing(Removed)
      else if result.Some? then ToProcessing(result.value)
      else ToProcessing(CallEnded)
    else Fail(FailureFor(code, status))
  }
}
