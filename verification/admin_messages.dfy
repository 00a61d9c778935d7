/**
  The settings screen's request vocabulary: the five action names it accepts,
  the message token each action's outcome is redirected with, and the notice
  each token is shown as.
 */
module AdminMessages {
  import opened Wrappers

  datatype Action = EnableCache | DisableCache | FlushCache | UpdateDropin | FlushLog

  /** The `action` query value of each action. */
  function ActionName(a: Action): (name: string)
    ensures |name| > 7 && name[..7] == "docket-"
  {
    match a
    case EnableCache => "docket-enable-cache"
    case DisableCache => "docket-disable-cache"
    case FlushCache => "docket-flush-cache"
    case UpdateDropin => "docket-update-dropin"
    case FlushLog => "docket-flush-log"
  }

  /** in_array($action, $this->actions): which listed action a query value names, if any. */
  function ParseAction(s: string): (a: Option<Action>)
    ensures a.Some? ==> ActionName(a.value) == s
    ensures a.None? ==> forall b: Action :: ActionName(b) != s
  {
    if s == "docket-enable-cache" then Some(EnableCache)
    else if s == "docket-disable-cache" then Some(DisableCache)
    else if s == "docket-flush-cache" then Some(FlushCache)
    else if s == "docket-update-dropin" then Some(UpdateDropin)
    else if s == "docket-flush-log" then Some(FlushLog)
    else None
  }

  /** Every action name is recognised as that action. */
  lemma ParseActionName(a: Action)
    ensures ParseAction(ActionName(a)) == Some(a)
  {
  }

  /** A token that reports a failure ends in "-failed". */
  predicate Failed(token: string)
  {
    |token| >= 7 && token[|token| - 7..] == "-failed"
  }

  /** The message token an action's outcome is redirected with. */
  function ActionToken(a: Action, ok: bool): (token: string)
    ensures |token| > 7 && token[..7] == "docket-"
    ensures !ok <==> Failed(token)
  {
    match a
    case EnableCache => if ok then "docket-cache-enabled" else "docket-cache-enabled-failed"
    case DisableCache => if ok then "docket-cache-disabled" else "docket-cache-disabled-failed"
    case FlushCache => if ok then "docket-cache-flushed" else "docket-cache-flushed-failed"
    case UpdateDropin => if ok then "docket-dropin-updated" else "docket-dropin-updated-failed"
    case FlushLog => if ok then "docket-log-flushed" else "docket-log-flushed-failed"
  }

  /** Different outcomes are never redirected with the same token. */
  lemma ActionTokenInjective(a: Action, ok: bool, b: Action, ok': bool)
    requires ActionToken(a, ok) == ActionToken(b, ok')
    ensures a == b && ok == ok'
  {
    var t := ActionToken(a, ok);
    assert |t| == |ActionToken(b, ok')|;
    assert t[7] == ActionToken(b, ok')[7];
    assert t[|t| - 1] == ActionToken(b, ok')[|t| - 1];
  }

  datatype NoticeKind = Updated | Error

  /**
    The settings error registered for a `message` token: its type and its
    text. For a token outside the table neither variable is set, so the notice
    is an error whose text is undefined (None).
   */
  datatype Notice = Notice(kind: NoticeKind, text: Option<string>)

  /** The error-kind tokens of the table are exactly its "-failed" tokens; a token outside it gets no text. */
  function SettingsNotice(token: string): (n: Notice)
    ensures n.kind == Updated ==> n.text.Some?
    ensures n.text.Some? ==> (n.kind == Error <==> Failed(token))
  {
    if token == "docket-cache-enabled" then Notice(Updated, Some("Object cache enabled."))
    else if token == "docket-cache-enabled-failed" then Notice(Error, Some("Object cache could not be enabled."))
    else if token == "docket-cache-disabled" then Notice(Updated, Some("Object cache disabled."))
    else if token == "docket-cache-disabled-failed" then Notice(Error, Some("Object cache could not be disabled."))
    else if token == "docket-cache-flushed" then Notice(Updated, Some("Object cache was flushed."))
    else if token == "docket-cache-flushed-failed" then Notice(Error, Some("Object cache could not be flushed."))
    else if token == "docket-dropin-updated" then
      Notice(Updated, Some("Updated object cache drop-in and enabled Docket object cache."))
    else if token == "docket-dropin-updated-failed" then
      Notice(Error, Some("Docket object cache drop-in could not be updated."))
    else if token == "docket-log-flushed" then Notice(Updated, Some("Cache log was flushed."))
    else if token == "docket-log-flushed-failed" then Notice(Error, Some("Cache log could not be flushed."))
    else Notice(Error, None)
  }

  /** The two tables agree: every redirect token shows a notice with a text, of the success kind exactly when the action succeeded. */
  lemma TokenShowsOutcome(a: Action, ok: bool)
    ensures SettingsNotice(ActionToken(a, ok)).text.Some?
    ensures SettingsNotice(ActionToken(a, ok)).kind == if ok then Updated else Error
  {
  }

  /** A token no action produces shows an error without a text. */
  lemma UnknownTokenIsError(token: string)
    requires forall a: Action, ok: bool :: ActionToken(a, ok) != token
    ensures SettingsNotice(token) == Notice(Error, None)
  {
    assert ActionToken(EnableCache, true) != token && ActionToken(EnableCache, false) != token;
    assert ActionToken(DisableCache, true) != token && ActionToken(DisableCache, false) != token;
    assert ActionToken(FlushCache, true) != token && ActionToken(FlushCache, false) != token;
    assert ActionToken(UpdateDropin, true) != token && ActionToken(UpdateDropin, false) != token;
    assert ActionToken(FlushLog, true) != token && ActionToken(FlushLog, false) != token;
  }

  /** Where the handler redirects: the message token, plus tab=log for the log action. */
  datatype Redirect = Redirect(message: string, logTab: bool)
}
