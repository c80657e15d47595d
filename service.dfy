/**
 * The external-command service as an object whose fields the start command
 * and the executor's worker update in place: the boolean preferences, the
 * account table, the executor's pending jobs, the engine calls made, and
 * the stop requests sent to the host.
 */
module Service {
  import opened Commands
  import opened World
  import opened Properties

  /** The host's START_NOT_STICKY: do not restart the service after it is killed. */
  const START_NOT_STICKY: int := 2

  class ServiceExternal {
    var prefs: map<string, bool>
    var accounts: map<string, Account>
    var queue: seq<Job>
    var signals: seq<Signal>
    /** The start ids passed to stopSelf, one per start command. */
    var stopped: seq<int>

    /** The part of the object's state that the World functions describe. */
    function State(): World
      reads this
    {
      World(prefs, accounts, queue, signals)
    }

    ghost predicate Valid()
      reads this
    {
      IdsUnique(accounts)
    }

    constructor (prefs0: map<string, bool>, accounts0: map<string, Account>)
      requires IdsUnique(accounts0)
      ensures Valid()
      ensures State() == World(prefs0, accounts0, [], []) && stopped == []
    {
      prefs, accounts, queue, signals, stopped := prefs0, accounts0, [], [], [];
    }

    /** Handles one start command. `intent` is None for a null intent and
        `licensed` is the answer of the licence check for this call. Every
        path ends with a stop request for `startId`. */
    method OnStartCommand(intent: Option<Intent>, licensed: bool, startId: int) returns (r: int)
      requires Valid()
      modifies this
      ensures Valid()
      ensures State() == Dispatch(old(State()), intent, licensed)
      ensures stopped == old(stopped) + [startId]
      ensures r == START_NOT_STICKY
    {
      r := START_NOT_STICKY;
      if intent.Some? && licensed {
        var action := intent.value.action;
        if action == Poll {
          signals := signals + [Process(true)];
        } else {
          var enabled := Target(action);
          if enabled.Some? {
            var accountName := intent.value.account;
            if accountName.None? {
              prefs := prefs[SCHEDULE := false];
              var previous := GetBoolean(prefs, ENABLED, true);
              if enabled.value != previous {
                prefs := prefs[ENABLED := enabled.value];
                signals := signals + [Reload(EXTERNAL)];
              }
            } else {
              queue := queue + [SetSynchronize(accountName.value, enabled.value)];
            }
          }
        }
      }
      stopped := stopped + [startId];
    }

    /** The executor's single worker runs the oldest pending job, if any:
        it looks the account up by name and, when it exists, writes its
        flag by id and asks the engine to reload. */
    method RunNextJob() returns (ran: bool)
      requires Valid()
      modifies this
      ensures Valid()
      ensures ran == (old(queue) != [])
      ensures queue == if ran then old(queue)[1..] else old(queue)
      ensures State() == RunNext(old(State()))
      ensures ran ==> State() == RunJob(old(State()).(queue := old(queue)[1..]), old(queue)[0])
      ensures stopped == old(stopped)
    {
      ran := queue != [];
      if ran {
        var job := queue[0];
        queue := queue[1..];
        if job.accountName in accounts {
          var account := accounts[job.accountName];
          accounts := SetAccountSynchronize(accounts, account.id, job.enabled);
          signals := signals + [Reload(AccountReason(job.enabled))];
        }
      }
    }

    /** The worker keeps running jobs, in submission order, until none is
        pending. */
    method RunPendingJobs()
      requires Valid()
      modifies this
      ensures Valid()
      ensures State() == Drain(old(State()))
      ensures queue == []
      ensures accounts == Converged(old(accounts), old(queue))
      ensures signals == old(signals) + Reloads(old(queue), old(accounts).Keys)
      ensures prefs == old(prefs) && stopped == old(stopped)
    {
      DrainConverges(State());
      while queue != []
        invariant Valid()
        invariant Drain(State()) == Drain(old(State()))
        invariant stopped == old(stopped)
        decreases |queue|
      {
        var _ := RunNextJob();
      }
    }
  }

  /** A client run: account "Work" starts disabled. ENABLE for "Work" twice
      queues two jobs; draining sets the flag and makes two reloads, because
      the job does not compare the flag with the target. A global ENABLE
      while "enabled" is unset resets "schedule" and signals nothing. */
  method ScenarioEnableWorkTwice() {
    var s := new ServiceExternal(map[], map["Work" := Account(7, false)]);
    var enable := Some(Intent(Enable, Some("Work")));
    var r := s.OnStartCommand(enable, true, 1);
    assert r == START_NOT_STICKY && s.queue == [SetSynchronize("Work", true)] && s.signals == [];
    r := s.OnStartCommand(enable, true, 2);
    assert s.queue == [SetSynchronize("Work", true), SetSynchronize("Work", true)];
    ghost var q := s.queue;
    assert s.accounts.Keys == {"Work"};
    s.RunPendingJobs();
    assert s.accounts["Work"] == Account(7, true);
    assert AccountReason(true) == "account enabled=true";
    assert q[1..] == [SetSynchronize("Work", true)] && q[1..][1..] == [];
    ghost var reload := Reload("account enabled=true");
    assert Reloads(q[1..], {"Work"}) == [reload] + Reloads([], {"Work"});
    assert Reloads(q, {"Work"}) == [reload] + Reloads(q[1..], {"Work"});
    assert s.signals == [Reload("account enabled=true"), Reload("account enabled=true")];
    r := s.OnStartCommand(Some(Intent(Enable, None)), true, 3);
    assert s.prefs == map[SCHEDULE := false];
    assert s.signals == [Reload("account enabled=true"), Reload("account enabled=true")];
    r := s.OnStartCommand(Some(Intent(Poll, Some("Work"))), false, 4);
    assert s.signals == [Reload("account enabled=true"), Reload("account enabled=true")];
    assert s.stopped == [1, 2, 3, 4];
  }
}
