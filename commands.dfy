/**
 * Decoding of the intents that other apps send to the external-command
 * service of the mail client: which action was asked for, whether it names
 * an account, and which synchronisation state it requests.
 */
module Commands {

  datatype Option<T> = None | Some(value: T)

  /** The intent action. The three recognised actions carry the application
      id as a prefix; every other action string, and a missing action, is `Other`. */
  datatype Action = Poll | Enable | Disable | Other

  /** An intent as far as the service looks at it: its action and the
      optional string extra "account". */
  datatype Intent = Intent(action: Action, account: Option<string>)

  /** What an intent asks for, once decoded. */
  datatype Command =
    | PollNow
    | SetEnabled(account: Option<string>, target: bool)
    | Ignore

  /** The Boolean `enabled` the dispatcher derives from the action:
      true for ENABLE, false for DISABLE, null (None) otherwise. */
  function Target(action: Action): (r: Option<bool>)
    ensures r.Some? <==> action == Enable || action == Disable
    ensures r == Some(true) <==> action == Enable
    ensures r == Some(false) <==> action == Disable
  {
    if action == Enable then Some(true)
    else if action == Disable then Some(false)
    else None
  }

  /** Decodes an intent into exactly one command. POLL is recognised first;
      ENABLE and DISABLE become a toggle that is global when the intent has
      no "account" extra; everything else is ignored. */
  function Parse(intent: Intent): (r: Command)
    ensures r == PollNow <==> intent.action == Poll
    ensures r == Ignore <==> intent.action == Other
    ensures r.SetEnabled? ==> r.account == intent.account && Target(intent.action) == Some(r.target)
    ensures intent.action == Enable ==> r == SetEnabled(intent.account, true)
    ensures intent.action == Disable ==> r == SetEnabled(intent.account, false)
  {
    if intent.action == Poll then PollNow
    else match Target(intent.action)
      case None => Ignore
      case Some(t) => SetEnabled(intent.account, t)
  }
}
