/**
 * `hasPermission` and `requestAuthorization`: a decision table over the
 * current authorization status, the answer to the system prompt and
 * whether the settings URL can be built.
 */
module Authorization {

  /** PHAuthorizationStatus */
  datatype Status = NotDetermined | Restricted | Denied | Authorized | Limited

  /** Exactly `.authorized` counts as permission. */
  function HasPermission(status: Status): (r: bool)
    ensures r <==> status == Authorized
  {
    status == Authorized
  }

  /** Which of the two callbacks runs, if any (`NoCallback`: the settings screen opened). */
  datatype Reply = Success | Failure(message: string) | NoCallback

  /** What `requestAuthorization` does: whether it shows the prompt, and how it answers. */
  datatype Decision = Decision(prompted: bool, opensSettings: bool, reply: Reply)

  /**
   * `promptAnswer` is the status the system prompt reports (read only when
   * the prompt is shown); `settingsUrl` is whether
   * `URL(string: UIApplicationOpenSettingsURLString)` produced a URL.
   */
  function RequestAuthorization(status: Status, promptAnswer: Status, settingsUrl: bool): (d: Decision)
    ensures d.prompted <==> status == NotDetermined
    ensures d.reply == Success <==> status == Authorized || (status == NotDetermined && promptAnswer == Authorized)
    ensures d.opensSettings <==> status != Authorized && status != NotDetermined && settingsUrl
    ensures d.reply == NoCallback <==> d.opensSettings
    ensures d.reply == Failure("requestAuthorization denied by user") <==>
              status == NotDetermined && promptAnswer != Authorized
    ensures d.reply == Failure("could not open settings url") <==>
              status != Authorized && status != NotDetermined && !settingsUrl
    ensures d.reply.Failure? ==> d.reply.message in {"requestAuthorization denied by user", "could not open settings url"}
  {
    if status == Authorized then Decision(false, false, Success)
    else if status == NotDetermined then
      Decision(true, false, if promptAnswer == Authorized then Success else Failure("requestAuthorization denied by user"))
    else if settingsUrl then Decision(false, true, NoCallback)
    else Decision(false, false, Failure("could not open settings url"))
  }

  /** Success is reported exactly when the resulting status grants permission. */
  lemma SuccessMeansPermission(status: Status, promptAnswer: Status, settingsUrl: bool)
    ensures RequestAuthorization(status, promptAnswer, settingsUrl).reply == Success <==>
      HasPermission(if status == NotDetermined then promptAnswer else status)
  {
  }

  /**
   * A `.limited` grant is not permission: `hasPermission` answers false, and
   * `requestAuthorization` sends the app to the settings screen (or fails)
   * instead of reporting success.
   */
  lemma LimitedIsNotAuthorized(promptAnswer: Status, settingsUrl: bool)
    ensures !HasPermission(Limited)
    ensures RequestAuthorization(Limited, promptAnswer, settingsUrl).reply != Success
    ensures RequestAuthorization(NotDetermined, Limited, settingsUrl).reply == Failure("requestAuthorization denied by user")
  {
  }
}
