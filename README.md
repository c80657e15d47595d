# External command service of FairEmail, modelled in Dafny

Other apps can send FairEmail's `ServiceExternal` three intents: POLL,
ENABLE and DISABLE. ENABLE and DISABLE may carry an `account` extra. The
service's start command does the following, in this order:

- It drops a null intent.
- It drops every intent when the app is not licensed.
- For POLL, it asks the synchronisation engine to process at once.
- For an ENABLE or DISABLE without an account, it toggles the global
  `enabled` preference inline. It first resets the `schedule` preference,
  every time.
- For an ENABLE or DISABLE with an account, it submits a job to a
  process-wide, single-worker executor. When the job runs, it looks the
  account up by name, writes its `synchronize` flag by id and reloads the
  engine. It does this even when the flag already has the requested value.
- It drops any other action.

Every path ends with a stop request to the host.

The model has four modules:

- `Commands` (commands.dfy) decodes an intent into a command.
- `World` (world.dfy) is the pure specification over a value of the state:
  - the boolean preferences, as a map;
  - the account table, as a map from name to id and `synchronize` flag;
  - the executor's FIFO job queue;
  - the log of engine calls (`process(immediate)` and `reload(reason)`).

  It defines one dispatch, one job, one step of the worker, and the draining
  of the queue.
- `Properties` (properties.dfy) proves the decision table and the queue
  discipline. The main result: once the queue is drained, each account has
  the target of the last job submitted for it, and the reloads come in
  submission order.
- `Service` (service.dfy) is the class `ServiceExternal`. Its fields are the
  same state plus the stop requests. Its imperative methods are proved
  equal to the `World` functions. The module ends with a client scenario.

Two details of the code shape what the model proves:

- The per-account job writes the flag and reloads the engine even when the
  flag already has the target, because it never compares the two
  (ServiceExternal.java:109-111; `KnownAccountJobWritesAndReloads`).
- The global toggle writes `schedule := false` before it reads `enabled`,
  so a toggle that leaves `enabled` unchanged still resets `schedule`
  (ServiceExternal.java:95-98; `GlobalToggleEffect`).

## Model

| member | source | states |
|---|---|---|
| `Commands.Target` | app/src/main/java/eu/faircode/email/ServiceExternal.java:83-89 | the requested state is Some(true) exactly for ENABLE, Some(false) exactly for DISABLE, and null for every other action |
| `Commands.Parse` | app/src/main/java/eu/faircode/email/ServiceExternal.java:76-92 | POLL is recognised before anything else; ENABLE/DISABLE become a toggle that carries the intent's `account` extra (absent means global) and the target; every other action is ignored |
| `World.GlobalToggle` | app/src/main/java/eu/faircode/email/ServiceExternal.java:93-101 | `schedule` ends false; `enabled` (true when unset) ends equal to the target; when it already was the target, the only change is `schedule := false` and no signal is sent; otherwise exactly one `reload("external")` is appended; no other preference, no account and no queued job changes |
| `World.Dispatch` | app/src/main/java/eu/faircode/email/ServiceExternal.java:70-116 | a null intent or no licence leaves the whole state unchanged; the account table is never touched by dispatch; only `schedule` and `enabled` can change among the preferences; at most one job is appended and at most one signal, keeping what was there before; a dispatch that queues a job changes nothing else |
| `World.SetAccountSynchronize` | app/src/main/java/eu/faircode/email/ServiceExternal.java:110 | every row whose id is the given id gets `synchronize := enabled`, every other row is unchanged, and the table's names and ids are kept |
| `World.RunJob` | app/src/main/java/eu/faircode/email/ServiceExternal.java:106-113 | the queue and preferences are untouched; an unknown name changes nothing; a known name gets the target flag and exactly one `reload("account enabled=<target>")`; with unique ids no other account changes, and ids stay unique |
| `World.RunNext` | app/src/main/java/eu/faircode/email/ServiceExternal.java:43-44 | the single worker does nothing when the queue is empty; otherwise it removes the oldest job, leaves the rest queued in order and the preferences unchanged, and runs that job: one reload for an existing account, no change to the table or signals for an unknown one |
| `World.Drain` | app/src/main/java/eu/faircode/email/ServiceExternal.java:43-44 | after the worker runs every pending job, the queue is empty, the preferences and the account names and ids are unchanged, ids stay unique, and the earlier signals are kept as a prefix |
| `Properties.NullIntentChangesNothing` | app/src/main/java/eu/faircode/email/ServiceExternal.java:70-71 | a null intent writes no preference and no account, queues no job and sends no signal |
| `Properties.UnlicensedChangesNothing` | app/src/main/java/eu/faircode/email/ServiceExternal.java:73-74 | without a licence every intent, POLL included, leaves the whole state unchanged |
| `Properties.PollOnlyProcesses` | app/src/main/java/eu/faircode/email/ServiceExternal.java:78-81 | POLL appends exactly one `process(immediate=true)` and changes no preference, no account and no queued job, whatever extra it carries |
| `Properties.UnknownActionChangesNothing` | app/src/main/java/eu/faircode/email/ServiceExternal.java:83-91 | an action that is none of POLL, ENABLE, DISABLE leaves the whole state unchanged |
| `Properties.GlobalToggleEffect` | app/src/main/java/eu/faircode/email/ServiceExternal.java:93-101 | a global ENABLE/DISABLE always leaves `schedule` false; `enabled` is written, and one `reload("external")` is sent, if and only if the previous value (true when unset) differs from the target; accounts and queue are untouched |
| `Properties.AccountToggleOnlyQueues` | app/src/main/java/eu/faircode/email/ServiceExternal.java:102-115 | a per-account ENABLE/DISABLE only appends a job with that name and target; preferences, accounts and signals are unchanged |
| `Properties.UnknownAccountJobChangesNothing` | app/src/main/java/eu/faircode/email/ServiceExternal.java:107-109 | a job whose name has no account writes nothing and signals nothing |
| `Properties.KnownAccountJobWritesAndReloads` | app/src/main/java/eu/faircode/email/ServiceExternal.java:108-112 | with unique ids, a job for a known name changes exactly that account's flag to the target and sends exactly one `reload("account enabled=<target>")`, even when the flag already had that value |
| `Properties.RunNextIsFifo` | app/src/main/java/eu/faircode/email/ServiceExternal.java:43-44 | the worker runs the job at the head of the queue (the oldest one) and leaves the rest queued in order |
| `Properties.DrainConverges` | app/src/main/java/eu/faircode/email/ServiceExternal.java:104-113 | after the queue drains, every account's flag is the target of the last job submitted for it (unchanged when there was none); the engine gets one reload per job whose account exists, in submission order |
| `Properties.LastSubmittedToggleWins` | app/src/main/java/eu/faircode/email/ServiceExternal.java:102-114 | after a per-account toggle for an existing account and a full drain, that account has the requested flag, whatever was queued before it; its id and the preferences are unchanged |
| `Service.ServiceExternal.OnStartCommand` | app/src/main/java/eu/faircode/email/ServiceExternal.java:62-122 | the in-place updates of preferences, queue and signals equal `Dispatch`; every path records one stop request for its start id and returns START_NOT_STICKY; unique ids are preserved |
| `Service.ServiceExternal.RunNextJob` | app/src/main/java/eu/faircode/email/ServiceExternal.java:104-114 | runs a job only when one is pending; removes the oldest job and applies `RunJob` to it; unique ids are preserved |
| `Service.ServiceExternal.RunPendingJobs` | app/src/main/java/eu/faircode/email/ServiceExternal.java:43-44 | the worker loop empties the queue and leaves the state equal to `Drain`; accounts equal `Converged` of the old table and queue; signals gain `Reloads` of the old queue in order |

## Left out

- Android lifecycle: `onCreate`, `onDestroy`, `onBind` and
  `startForeground`/`stopForeground` are host plumbing. `stopSelf(startId)`
  is kept only as an entry in the `stopped` log, and the return value only
  as the constant START_NOT_STICKY (2).
- Exceptions are not modelled: every collaborator call is total.
  - In the source, dispatch runs inside `try`/`finally`
    (ServiceExternal.java:63, 119-121). If `startForeground`, the preference
    store, the DAO or the engine throws, the rest of dispatch is skipped but
    `stopSelf` still runs. `OnStartCommand`'s "one stop request on every
    path" covers only the paths that return normally.
  - An exception inside the submitted `Runnable` (lines 106-112) is caught
    by the Future that `executor.submit` returns. After a failed write the
    reload is skipped and the worker goes on with the next job. The model's
    jobs always complete.
- The notification built by `getNotification` is UI configuration.
- Logging through `EntityLog.log` and `Log.logExtras` has no effect on the
  state.
- The licence check `ActivityBilling.isPro` is a foreign call. It is the
  `licensed` parameter, read anew on every call.
- Room (`DB`) and `SharedPreferences`:
  - They are maps.
  - `apply()` is taken to update the in-memory value at once.
  - Only boolean preferences are modelled.
  - An account name is taken to find at most one row.
  - Ids are unique (the primary key). Without that, a write by id could
    change other names with the same id; the model computes exactly that,
    and the lemmas that need uniqueness require it.
- `ServiceSynchronize.process` and `reload` are engine internals. Each call
  is one record appended to the signal log.
- Threading:
  - The executor is a FIFO queue plus an explicit step that runs the next job.
  - Dispatch and the worker are separate steps. Interleaving the inline
    global toggle with queued jobs is not modelled.
  - The executor is static, so the whole process shares it. The model puts
    it, the preferences and the account table in the one service object.
  - Abandoning pending jobs when the process dies is not modelled.
- The `BuildConfig.APPLICATION_ID` prefix of the action strings is not kept.
  Actions are an enum, and any other string or a missing action is `Other`.
  `getStringExtra` returning null for a missing (or non-string) extra is
  `None`.
