/**
 * The state that the external-command service reads and writes, as a value,
 * and the specification of each step the service takes on it:
 * dispatching one intent, running one queued account job, and draining the
 * single-worker job queue.
 */
module World {
  import opened Commands

  /** Keys of the default shared preferences the service touches. */
  const SCHEDULE := "schedule"
  const ENABLED := "enabled"

  /** Reason passed to the engine's reload after a global toggle. */
  const EXTERNAL := "external"

  /** A row of the account table, found by its (unique) name. */
  datatype Account = Account(id: int, synchronize: bool)

  /** The per-account job that dispatch submits to the executor. */
  datatype Job = SetSynchronize(accountName: string, enabled: bool)

  /** Calls into the synchronisation engine, recorded in call order. */
  datatype Signal = Process(immediate: bool) | Reload(reason: string)

  datatype World = World(
    prefs: map<string, bool>,          // boolean shared preferences
    accounts: map<string, Account>,    // account table, keyed by name
    queue: seq<Job>,                   // pending jobs of the executor, oldest first
    signals: seq<Signal>)              // engine calls made so far

  /** The account id is the table's primary key. */
  ghost predicate IdsUnique(accounts: map<string, Account>) {
    forall a, b :: a in accounts && b in accounts && accounts[a].id == accounts[b].id ==> a == b
  }

  /** A preference read with a default for a missing key. */
  function GetBoolean(prefs: map<string, bool>, key: string, default: bool): bool {
    if key in prefs then prefs[key] else default
  }

  /** The text of Java's string concatenation "account enabled=" + enabled. */
  function AccountReason(enabled: bool): string {
    "account enabled=" + (if enabled then "true" else "false")
  }

  /** The global toggle, done inline on the dispatch thread: "schedule" is
      reset first, then "enabled" (true when never set) is written, and the
      engine reloaded, only if it differs from the target. */
  function GlobalToggle(w: World, target: bool): (r: World)
    ensures r.accounts == w.accounts && r.queue == w.queue
    ensures SCHEDULE in r.prefs && !r.prefs[SCHEDULE]
    ensures GetBoolean(r.prefs, ENABLED, true) == target
    ensures r.prefs - {SCHEDULE, ENABLED} == w.prefs - {SCHEDULE, ENABLED}
    ensures GetBoolean(w.prefs, ENABLED, true) == target ==> r.prefs == w.prefs[SCHEDULE := false] && r.signals == w.signals
    ensures GetBoolean(w.prefs, ENABLED, true) != target ==> r.signals == w.signals + [Reload(EXTERNAL)]
  {
    var prefs := w.prefs[SCHEDULE := false];
    var previous := GetBoolean(prefs, ENABLED, true);
    if target != previous then
      w.(prefs := prefs[ENABLED := target], signals := w.signals + [Reload(EXTERNAL)])
    else
      w.(prefs := prefs)
  }

  /** One call of the service's start command: a missing intent and an
      unlicensed caller change nothing; POLL asks the engine to process at
      once; a global toggle is applied inline; a per-account toggle is only
      queued; an unknown action is dropped. */
  function Dispatch(w: World, intent: Option<Intent>, licensed: bool): (r: World)
    ensures intent.None? || !licensed ==> r == w
    ensures r.accounts == w.accounts
    ensures r.prefs - {SCHEDULE, ENABLED} == w.prefs - {SCHEDULE, ENABLED}
    ensures |w.queue| <= |r.queue| <= |w.queue| + 1 && r.queue[..|w.queue|] == w.queue
    ensures |w.signals| <= |r.signals| <= |w.signals| + 1 && r.signals[..|w.signals|] == w.signals
    ensures r.queue != w.queue ==> r.prefs == w.prefs && r.signals == w.signals
  {
    if intent.None? || !licensed then w
    else match Parse(intent.value)
      case PollNow => w.(signals := w.signals + [Process(true)])
      case Ignore => w
      case SetEnabled(None, t) => GlobalToggle(w, t)
      case SetEnabled(Some(name), t) => w.(queue := w.queue + [SetSynchronize(name, t)])
  }

  /** Sets the synchronize flag of every row whose id is `id`. */
  function SetAccountSynchronize(accounts: map<string, Account>, id: int, enabled: bool): (r: map<string, Account>)
    ensures r.Keys == accounts.Keys
    ensures forall n :: n in accounts ==> r[n].id == accounts[n].id
    ensures forall n :: n in accounts && accounts[n].id == id ==> r[n] == accounts[n].(synchronize := enabled)
    ensures forall n :: n in accounts && accounts[n].id != id ==> r[n] == accounts[n]
  {
    map n | n in accounts :: if accounts[n].id == id then accounts[n].(synchronize := enabled) else accounts[n]
  }

  /** The body of the queued job: look the account up by name; when it
      exists, write its flag (without comparing with the current value) and
      reload the engine. The queue itself is not touched here. */
  function RunJob(w: World, job: Job): (r: World)
    ensures r.queue == w.queue && r.prefs == w.prefs
    ensures r.accounts.Keys == w.accounts.Keys
    ensures forall n :: n in w.accounts ==> r.accounts[n].id == w.accounts[n].id
    ensures IdsUnique(w.accounts) ==> IdsUnique(r.accounts)
    ensures job.accountName !in w.accounts ==> r == w
    ensures job.accountName in w.accounts ==>
      r.accounts[job.accountName].synchronize == job.enabled &&
      r.signals == w.signals + [Reload(AccountReason(job.enabled))]
    ensures IdsUnique(w.accounts) ==>
      forall n :: n in w.accounts && n != job.accountName ==> r.accounts[n] == w.accounts[n]
  {
    if job.accountName in w.accounts then
      var account := w.accounts[job.accountName];
      w.(accounts := SetAccountSynchronize(w.accounts, account.id, job.enabled),
         signals := w.signals + [Reload(AccountReason(job.enabled))])
    else
      w
  }

  /** The single worker taking the oldest pending job and running it;
      with nothing pending it does nothing. */
  function RunNext(w: World): (r: World)
    ensures w.queue == [] ==> r == w
    ensures w.queue != [] ==> r.queue == w.queue[1..] && r.prefs == w.prefs
    ensures w.queue != [] ==> r == RunJob(w.(queue := w.queue[1..]), w.queue[0])
    ensures w.queue != [] && w.queue[0].accountName in w.accounts ==>
      r.signals == w.signals + [Reload(AccountReason(w.queue[0].enabled))]
    ensures w.queue != [] && w.queue[0].accountName !in w.accounts ==>
      r.accounts == w.accounts && r.signals == w.signals
  {
    if w.queue == [] then w else RunJob(w.(queue := w.queue[1..]), w.queue[0])
  }

  /** The worker running jobs until none is pending. */
  function Drain(w: World): (r: World)
    ensures r.queue == []
    ensures r.prefs == w.prefs
    ensures r.accounts.Keys == w.accounts.Keys
    ensures forall n :: n in w.accounts ==> r.accounts[n].id == w.accounts[n].id
    ensures IdsUnique(w.accounts) ==> IdsUnique(r.accounts)
    ensures |w.signals| <= |r.signals| && r.signals[..|w.signals|] == w.signals
    decreases |w.queue|
  {
    if w.queue == [] then w else Drain(RunNext(w))
  }

  /** Reference definition: the target of the last job in `q` for `name`. */
  function LastTarget(q: seq<Job>, name: string): Option<bool> {
    if q == [] then None
    else if q[|q| - 1].accountName == name then Some(q[|q| - 1].enabled)
    else LastTarget(q[..|q| - 1], name)
  }

  /** The account table once every job of `q` has run: each account whose
      name some job carries has the target of the last such job. */
  function Converged(accounts: map<string, Account>, q: seq<Job>): map<string, Account> {
    map n | n in accounts ::
      match LastTarget(q, n)
      case None => accounts[n]
      case Some(b) => accounts[n].(synchronize := b)
  }

  /** The reloads the jobs of `q` cause, in submission order: one for each
      job whose account is in `names`. */
  function Reloads(q: seq<Job>, names: set<string>): seq<Signal> {
    if q == [] then []
    else (if q[0].accountName in names then [Reload(AccountReason(q[0].enabled))] else []) + Reloads(q[1..], names)
  }
}
