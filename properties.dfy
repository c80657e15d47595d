/**
 * What the external-command service promises, stated over the World
 * specification: the decision table of one dispatch, the effect of one
 * queued account job, and the convergence of the single-worker queue.
 */
module Properties {
  import opened Commands
  import opened World

  // ---------------------------------------------------------------------
  // The decision table of one dispatch
  // ---------------------------------------------------------------------

  /** A null intent changes no preference, no account, no queue and emits no signal. */
  lemma NullIntentChangesNothing(w: World, licensed: bool)
    ensures Dispatch(w, None, licensed) == w
  {
  }

  /** Without a licence every intent, POLL included, is dropped. */
  lemma UnlicensedChangesNothing(w: World, intent: Option<Intent>)
    ensures Dispatch(w, intent, false) == w
  {
  }

  /** POLL makes exactly one immediate process call and touches nothing else,
      whatever "account" extra the intent carries. */
  lemma PollOnlyProcesses(w: World, account: Option<string>)
    ensures var r := Dispatch(w, Some(Intent(Poll, account)), true);
      r.prefs == w.prefs && r.accounts == w.accounts && r.queue == w.queue &&
      r.signals == w.signals + [Process(true)]
  {
  }

  /** An action that is none of POLL, ENABLE, DISABLE is dropped. */
  lemma UnknownActionChangesNothing(w: World, account: Option<string>)
    ensures Dispatch(w, Some(Intent(Other, account)), true) == w
  {
  }

  /** A global toggle: "schedule" is always reset, even when "enabled"
      already has the target value; "enabled" (true when never set) is written
      and one reload("external") is made if and only if it differs from the
      target; accounts and queue are untouched. */
  lemma GlobalToggleEffect(w: World, action: Action)
    requires action == Enable || action == Disable
    ensures var r := Dispatch(w, Some(Intent(action, None)), true);
      var target := action == Enable;
      var previous := GetBoolean(w.prefs, ENABLED, true);
      SCHEDULE in r.prefs && !r.prefs[SCHEDULE] &&
      GetBoolean(r.prefs, ENABLED, true) == target &&
      r.prefs == (if previous != target then w.prefs[SCHEDULE := false][ENABLED := target] else w.prefs[SCHEDULE := false]) &&
      (r.signals == w.signals + [Reload(EXTERNAL)] <==> previous != target) &&
      (r.signals == w.signals <==> previous == target) &&
      r.accounts == w.accounts && r.queue == w.queue
  {
  }

  /** A per-account toggle is only queued: preferences, accounts and
      signals are untouched, and the job carries the name and the target. */
  lemma AccountToggleOnlyQueues(w: World, action: Action, name: string)
    requires action == Enable || action == Disable
    ensures var r := Dispatch(w, Some(Intent(action, Some(name))), true);
      r.prefs == w.prefs && r.accounts == w.accounts && r.signals == w.signals &&
      r.queue == w.queue + [SetSynchronize(name, action == Enable)]
  {
  }

  // ---------------------------------------------------------------------
  // One queued job
  // ---------------------------------------------------------------------

  /** A job for a name with no account writes nothing and signals nothing. */
  lemma UnknownAccountJobChangesNothing(w: World, job: Job)
    requires job.accountName !in w.accounts
    ensures RunJob(w, job) == w
  {
  }

  /** A job for a known name sets that account's flag and no other, and
      makes exactly one reload, even when the flag already had the target. */
  lemma KnownAccountJobWritesAndReloads(w: World, job: Job)
    requires IdsUnique(w.accounts)
    requires job.accountName in w.accounts
    ensures var r := RunJob(w, job);
      r.accounts == w.accounts[job.accountName := w.accounts[job.accountName].(synchronize := job.enabled)] &&
      r.signals == w.signals + [Reload(AccountReason(job.enabled))] &&
      r.prefs == w.prefs && r.queue == w.queue
  {
  }

  /** The worker takes jobs from the head of the queue: the job submitted
      first runs first, and the rest stay queued in order. */
  lemma RunNextIsFifo(w: World, job: Job)
    ensures RunNext(w.(queue := [job] + w.queue)) == RunJob(w, job)
  {
  }

  // ---------------------------------------------------------------------
  // Draining the queue
  // ---------------------------------------------------------------------

  /** The last job of `[job] + q` for a name is the last one in `q`, or
      `job` itself when `q` has none. */
  lemma {:induction false} LastTargetCons(job: Job, q: seq<Job>, name: string)
    ensures LastTarget([job] + q, name) ==
      match LastTarget(q, name)
      case Some(b) => Some(b)
      case None => if job.accountName == name then Some(job.enabled) else None
  {
    if q == [] {
      assert [job] + q == [job];
      assert [job][..0] == [];
    } else {
      var q' := q[..|q| - 1];
      assert ([job] + q)[..|[job] + q| - 1] == [job] + q';
      if q[|q| - 1].accountName != name {
        LastTargetCons(job, q', name);
      }
    }
  }

  /** The job just submitted is the last one for its name. */
  lemma LastTargetOfAppended(q: seq<Job>, job: Job)
    ensures LastTarget(q + [job], job.accountName) == Some(job.enabled)
  {
  }

  /** Running one job and then converging over the rest gives the same
      table as converging over the job followed by the rest. */
  lemma ConvergedAfterJob(w: World, job: Job, rest: seq<Job>)
    requires IdsUnique(w.accounts)
    ensures Converged(RunJob(w, job).accounts, rest) == Converged(w.accounts, [job] + rest)
  {
    var a' := RunJob(w, job).accounts;
    forall n | n in w.accounts
      ensures Converged(a', rest)[n] == Converged(w.accounts, [job] + rest)[n]
    {
      LastTargetCons(job, rest, n);
    }
  }

  /** The reload a job makes comes first among the reloads of the job
      followed by the rest. */
  lemma ReloadsAfterJob(w: World, job: Job, rest: seq<Job>)
    ensures RunJob(w, job).signals + Reloads(rest, w.accounts.Keys) == w.signals + Reloads([job] + rest, w.accounts.Keys)
  {
  }

  /** Once the worker has run every pending job, each account's flag is the
      target of the last job submitted for it (its old flag when there was
      none), and the engine got one reload per job whose account exists,
      in submission order. */
  lemma {:induction false} DrainConverges(w: World)
    requires IdsUnique(w.accounts)
    ensures Drain(w).accounts == Converged(w.accounts, w.queue)
    ensures Drain(w).signals == w.signals + Reloads(w.queue, w.accounts.Keys)
    decreases |w.queue|
  {
    if w.queue == [] {
      assert w.signals + [] == w.signals;
      assert Converged(w.accounts, []) == w.accounts;
    } else {
      var job, rest := w.queue[0], w.queue[1..];
      assert w.queue == [job] + rest;
      var a := w.(queue := rest);
      var w' := RunJob(a, job);
      assert Drain(w) == Drain(w');
      DrainConverges(w');
      ConvergedAfterJob(a, job, rest);
      ReloadsAfterJob(a, job, rest);
    }
  }

  /** A per-account toggle that reaches the queue wins: after the worker has
      drained the queue, the named account (if it exists) has the requested
      flag, whatever was queued before it. */
  lemma LastSubmittedToggleWins(w: World, action: Action, name: string)
    requires IdsUnique(w.accounts)
    requires action == Enable || action == Disable
    requires name in w.accounts
    ensures var r := Drain(Dispatch(w, Some(Intent(action, Some(name))), true));
      r.accounts[name].synchronize == (action == Enable) &&
      r.accounts[name].id == w.accounts[name].id &&
      r.prefs == w.prefs && r.queue == []
  {
    var d := Dispatch(w, Some(Intent(action, Some(name))), true);
    var job := SetSynchronize(name, action == Enable);
    assert d.queue == w.queue + [job];
    DrainConverges(d);
    LastTargetOfAppended(w.queue, job);
  }
}
