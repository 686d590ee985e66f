/** The per-cycle decisions of the synchronisation engine (src/core/sync_engine.py).
    The Git wrapper, the file watcher and the checkpoint ledger are collaborators
    the engine calls; what each call answered is a parameter, and each call the
    engine makes is recorded, in order, in the trace `calls`. The sync lock is the
    flag `lockHeld` (held by another thread when true), the statistics are
    counters, and the clock readings are strings and integer ticks passed in. */
module Sync {
  import opened Common

  /** A call the engine makes on one of its collaborators. */
  datatype Call =
    | WatcherStarted
    | WatcherStopped
    | WatcherPaused
    | WatcherResumed
    | Pulled
    | CommitPushed(message: string)
    | CheckpointCreated(description: string)

  const MoreThreshold := 5

  /** The names of the first five changed files, as `Path(f).name`. */
  function ListedNames(files: seq<string>): (r: seq<string>)
    ensures |r| == if |files| < MoreThreshold then |files| else MoreThreshold
    ensures forall i :: 0 <= i < |r| ==> r[i] == PathName(files[i])
  {
    var shown := if |files| <= MoreThreshold then files else files[..MoreThreshold];
    seq(|shown|, i requires 0 <= i < |shown| => PathName(shown[i]))
  }

  /** The " and N more" tail of the file list when more than five files changed. */
  function MoreSuffix(files: seq<string>): string {
    if |files| > MoreThreshold then " and " + NatToString(|files| - MoreThreshold) + " more" else ""
  }

  /** The file list of an automatic commit: the listed names joined by ", ",
      followed by " and N more" when more than five files changed. */
  function FileList(files: seq<string>): string {
    Join(", ", ListedNames(files)) + MoreSuffix(files)
  }

  /** The part of the message before the file list: `"{prefix} {timestamp}: "`. */
  function MessageHead(prefix: string, timestamp: string): string {
    prefix + " " + timestamp + ": "
  }

  /** The message of an automatic commit: `"{prefix} {timestamp}: {file_list}"`. */
  function CommitMessage(prefix: string, timestamp: string, files: seq<string>): string {
    MessageHead(prefix, timestamp) + FileList(files)
  }

  /** Each of the first five changed files is named in the message. */
  lemma CommitMessageNamesListed(prefix: string, timestamp: string, files: seq<string>, k: nat)
    requires k < |files| && k < MoreThreshold
    ensures Contains(CommitMessage(prefix, timestamp, files), PathName(files[k]))
  {
    var names := ListedNames(files);
    JoinContainsEach(", ", names, k);
    ContainsInside(MessageHead(prefix, timestamp), Join(", ", names), MoreSuffix(files), names[k]);
    AppendAssoc(MessageHead(prefix, timestamp), Join(", ", names), MoreSuffix(files));
  }

  /** Only the first five files are listed by name. */
  lemma ListedNamesOfFirst(files: seq<string>)
    requires |files| > MoreThreshold
    ensures ListedNames(files) == ListedNames(files[..MoreThreshold])
  {
    var a, b := ListedNames(files), ListedNames(files[..MoreThreshold]);
    assert |a| == |b|;
    assert forall i :: 0 <= i < |a| ==> a[i] == b[i];
  }

  /** Beyond the first five, changed files appear in the message only as a count:
      the message is the one for the first five followed by " and N more". */
  lemma CommitMessageCountsTheRest(prefix: string, timestamp: string, files: seq<string>)
    requires |files| > MoreThreshold
    ensures CommitMessage(prefix, timestamp, files)
         == CommitMessage(prefix, timestamp, files[..MoreThreshold]) + (" and " + NatToString(|files| - MoreThreshold) + " more")
  {
    var first := files[..MoreThreshold];
    ListedNamesOfFirst(files);
    assert MoreSuffix(first) == "";
    assert FileList(first) == Join(", ", ListedNames(first));
    var more := MoreSuffix(files);
    assert more == " and " + NatToString(|files| - MoreThreshold) + " more";
    AppendAssoc(MessageHead(prefix, timestamp), FileList(first), more);
  }

  const NoneError := "'NoneType' object has no attribute "

  class SyncEngine {
    /** `git_sync is not None`: `initialize()` has succeeded. */
    var initialized: bool
    /** `file_watcher` and `version_control` are set. */
    var hasWatcher: bool
    var hasLedger: bool
    var isRunning: bool
    var lockHeld: bool
    var lastPullTime: int
    var pulls: nat
    var pushes: nat
    var conflicts: nat
    var errors: nat
    var lastActivity: Option<string>
    ghost var calls: seq<Call>

    /** A fresh engine: nothing initialised, every counter 0. */
    constructor ()
      ensures !initialized && !hasWatcher && !hasLedger && !isRunning && !lockHeld
      ensures lastPullTime == 0 && pulls == 0 && pushes == 0 && conflicts == 0 && errors == 0
      ensures lastActivity == None && calls == []
    {
      initialized, hasWatcher, hasLedger := false, false, false;
      isRunning, lockHeld := false, false;
      lastPullTime := 0;
      pulls, pushes, conflicts, errors := 0, 0, 0, 0;
      lastActivity := None;
      calls := [];
    }

    /** `initialize()`: refused with every configuration error listed; otherwise
        the wrapper, the ledger (with its initial checkpoint) and the watcher exist. */
    method Initialize(configErrors: seq<string>) returns (r: Reply)
      modifies this`initialized, this`hasWatcher, this`hasLedger, this`calls
      ensures configErrors != [] ==>
        && r == Reply(false, "Configuration errors:\n" + Join("\n", configErrors))
        && initialized == old(initialized) && hasWatcher == old(hasWatcher) && hasLedger == old(hasLedger)
        && calls == old(calls)
      ensures configErrors == [] ==>
        && r == Reply(true, "Initialization successful")
        && initialized && hasWatcher && hasLedger
        && calls == old(calls) + [CheckpointCreated("Initial checkpoint")]
    {
      if configErrors != [] {
        return Reply(false, "Configuration errors:\n" + Join("\n", configErrors));
      }
      initialized := true;
      hasLedger := true;
      calls := calls + [CheckpointCreated("Initial checkpoint")];
      hasWatcher := true;
      r := Reply(true, "Initialization successful");
    }

    /** `start()`: refused when running or not initialised; otherwise the watcher is started. */
    method Start() returns (r: Reply)
      modifies this`isRunning, this`calls
      ensures old(isRunning) ==> r == Reply(false, "Sync engine is already running") && isRunning && calls == old(calls)
      ensures !old(isRunning) && !initialized ==>
        r == Reply(false, "Sync engine not initialized. Call initialize() first.") && !isRunning && calls == old(calls)
      ensures !old(isRunning) && initialized ==>
        r == Reply(true, "Sync engine started") && isRunning && calls == old(calls) + [WatcherStarted]
    {
      if isRunning {
        return Reply(false, "Sync engine is already running");
      }
      if !initialized {
        return Reply(false, "Sync engine not initialized. Call initialize() first.");
      }
      calls := calls + [WatcherStarted];
      isRunning := true;
      r := Reply(true, "Sync engine started");
    }

    /** `stop()`: refused when not running; otherwise the engine and its watcher stop. */
    method Stop() returns (r: Reply)
      modifies this`isRunning, this`calls
      ensures !isRunning
      ensures !old(isRunning) ==> r == Reply(false, "Sync engine is not running") && calls == old(calls)
      ensures old(isRunning) ==>
        && r == Reply(true, "Sync engine stopped")
        && calls == old(calls) + (if hasWatcher then [WatcherStopped] else [])
    {
      if !isRunning {
        return Reply(false, "Sync engine is not running");
      }
      isRunning := false;
      if hasWatcher {
        calls := calls + [WatcherStopped];
      }
      r := Reply(true, "Sync engine stopped");
    }

    /** `_check_and_pull()` at tick `now`. `remote` is what `has_remote_changes`
        answered, `pulled` what `pull` answered, `conflicted` what `has_conflicts`
        answered, `clock` the ISO time of the activity. */
    method CheckAndPull(now: int, remote: (bool, nat), pulled: Reply, conflicted: (bool, seq<string>), clock: string)
      modifies this`lastPullTime, this`pulls, this`conflicts, this`errors, this`lastActivity, this`calls
      ensures pushes == old(pushes)
      // another thread holds the lock: the cycle is skipped
      ensures lockHeld ==>
        && lastPullTime == old(lastPullTime) && pulls == old(pulls) && conflicts == old(conflicts)
        && errors == old(errors) && lastActivity == old(lastActivity) && calls == old(calls)
      // the wrapper is missing: the call raises, which counts as an error
      ensures !lockHeld && !initialized ==>
        && lastPullTime == old(lastPullTime) && pulls == old(pulls) && conflicts == old(conflicts)
        && errors == old(errors) + 1 && lastActivity == old(lastActivity)
        && calls == old(calls) + (if hasWatcher then [WatcherResumed] else [])
      ensures !lockHeld && initialized && !remote.0 ==>
        && lastPullTime == now && pulls == old(pulls) && conflicts == old(conflicts)
        && errors == old(errors) && lastActivity == old(lastActivity) && calls == old(calls)
      ensures !lockHeld && initialized && remote.0 ==>
        var pause := if hasWatcher then [WatcherPaused] else [];
        var resume := if hasWatcher then [WatcherResumed] else [];
        && lastPullTime == now
        && (pulled.ok ==>
              && pulls == old(pulls) + 1 && errors == old(errors) && conflicts == old(conflicts)
              && lastActivity == Some(clock)
              && calls == old(calls) + pause + [Pulled]
                          + (if hasLedger then [CheckpointCreated(AutoPullDescription(remote.1))] else [])
                          + resume)
        && (!pulled.ok ==>
              && pulls == old(pulls) && errors == old(errors) + 1
              && conflicts == old(conflicts) + (if conflicted.0 then 1 else 0)
              && lastActivity == old(lastActivity)
              && calls == old(calls) + pause + [Pulled] + resume)
    {
      if lockHeld {
        return;
      }
      if !initialized {
        errors := errors + 1;
        if hasWatcher {
          calls := calls + [WatcherResumed];
        }
        return;
      }
      var hasChanges, commitsBehind := remote.0, remote.1;
      if hasChanges {
        // the watcher is paused around the pull, and a successful pull is checkpointed
        ghost var pause: seq<Call> := if hasWatcher then [WatcherPaused] else [];
        ghost var resume: seq<Call> := if hasWatcher then [WatcherResumed] else [];
        ghost var checkpoint: seq<Call> := [];
        if pulled.ok {
          pulls := pulls + 1;
          lastActivity := Some(clock);
          if hasLedger {
            checkpoint := [CheckpointCreated(AutoPullDescription(commitsBehind))];
          }
        } else {
          errors := errors + 1;
          if conflicted.0 {
            conflicts := conflicts + 1;
          }
        }
        calls := calls + pause + [Pulled] + checkpoint + resume;
      }
      lastPullTime := now;
    }

    /** `_on_files_changed(changed)`: one commit-and-push of every change, whose
        answer is `result`; no retry. */
    method OnFilesChanged(changed: seq<string>, autoPush: bool, prefix: string, timestamp: string,
                          result: Reply, clock: string)
      modifies this`pushes, this`errors, this`lastActivity, this`calls
      ensures pulls == old(pulls) && conflicts == old(conflicts)
      ensures !autoPush || lockHeld ==>
        pushes == old(pushes) && errors == old(errors) && lastActivity == old(lastActivity) && calls == old(calls)
      ensures autoPush && !lockHeld && !initialized ==>
        pushes == old(pushes) && errors == old(errors) + 1 && lastActivity == old(lastActivity) && calls == old(calls)
      ensures autoPush && !lockHeld && initialized ==>
        var pushed := [CommitPushed(CommitMessage(prefix, timestamp, changed))];
        && (result.ok ==>
              && pushes == old(pushes) + 1 && errors == old(errors) && lastActivity == Some(clock)
              && calls == old(calls) + pushed
                          + (if hasLedger then [CheckpointCreated(AutoPushDescription(|changed|))] else []))
        && (!result.ok ==>
              && pushes == old(pushes) && errors == old(errors) + 1 && lastActivity == old(lastActivity)
              && calls == old(calls) + pushed)
    {
      if !autoPush {
        return;
      }
      if lockHeld {
        return;
      }
      if !initialized {
        errors := errors + 1;
        return;
      }
      var message := CommitMessage(prefix, timestamp, changed);
      calls := calls + [CommitPushed(message)];
      if result.ok {
        pushes := pushes + 1;
        lastActivity := Some(clock);
        if hasLedger {
          calls := calls + [CheckpointCreated(AutoPushDescription(|changed|))];
        }
      } else {
        errors := errors + 1;
      }
    }

    /** `manual_sync()`: waits for the lock, pushes local changes if there are any
        and stops at a failed push; then pulls. The statistics are not touched. */
    method ManualSync(hasLocal: bool, timestamp: string, pushed: Reply, pulled: Reply) returns (r: Reply)
      modifies this`calls
      ensures !initialized ==> r == Reply(false, "Manual sync failed: " + NoneError + "'has_local_changes'") && calls == old(calls)
      ensures initialized && hasLocal && !pushed.ok ==>
        && r == Reply(false, "Failed to push local changes: " + pushed.message)
        && calls == old(calls) + [CommitPushed("[Wave.AI Manual] " + timestamp)]
      ensures initialized && (!hasLocal || pushed.ok) ==>
        && calls == old(calls) + (if hasLocal then [CommitPushed("[Wave.AI Manual] " + timestamp)] else []) + [Pulled]
        && r == (if pulled.ok then Reply(true, "Manual sync successful") else Reply(false, "Failed to pull: " + pulled.message))
    {
      if !initialized {
        return Reply(false, "Manual sync failed: " + NoneError + "'has_local_changes'");
      }
      if hasLocal {
        calls := calls + [CommitPushed("[Wave.AI Manual] " + timestamp)];
        if !pushed.ok {
          return Reply(false, "Failed to push local changes: " + pushed.message);
        }
      }
      calls := calls + [Pulled];
      if !pulled.ok {
        return Reply(false, "Failed to pull: " + pulled.message);
      }
      r := Reply(true, "Manual sync successful");
    }

    /** `force_push()`: counts a push only when it succeeds. */
    method ForcePush(timestamp: string, result: Reply) returns (r: Reply)
      modifies this`pushes, this`calls
      ensures !initialized ==>
        r == Reply(false, "Force push failed: " + NoneError + "'commit_and_push'") && pushes == old(pushes) && calls == old(calls)
      ensures initialized ==>
        && calls == old(calls) + [CommitPushed("[Wave.AI Force] " + timestamp)]
        && pushes == old(pushes) + (if result.ok then 1 else 0)
        && r == (if result.ok then Reply(true, "Force push successful") else Reply(false, result.message))
    {
      if !initialized {
        return Reply(false, "Force push failed: " + NoneError + "'commit_and_push'");
      }
      calls := calls + [CommitPushed("[Wave.AI Force] " + timestamp)];
      if result.ok {
        pushes := pushes + 1;
        r := Reply(true, "Force push successful");
      } else {
        r := Reply(false, result.message);
      }
    }

    /** `force_pull()`: the watcher is paused around the pull; counts a pull only when it succeeds. */
    method ForcePull(pulled: Reply) returns (r: Reply)
      modifies this`pulls, this`calls
      ensures !initialized ==>
        && r == Reply(false, "Force pull failed: " + NoneError + "'pull'") && pulls == old(pulls)
        && calls == old(calls) + (if hasWatcher then [WatcherPaused] else [])
      ensures initialized ==>
        var pause := if hasWatcher then [WatcherPaused] else [];
        var resume := if hasWatcher then [WatcherResumed] else [];
        && calls == old(calls) + pause + [Pulled] + resume
        && pulls == old(pulls) + (if pulled.ok then 1 else 0)
        && r == (if pulled.ok then Reply(true, "Force pull successful") else Reply(false, pulled.message))
    {
      if hasWatcher {
        calls := calls + [WatcherPaused];
      }
      if !initialized {
        return Reply(false, "Force pull failed: " + NoneError + "'pull'");
      }
      calls := calls + [Pulled];
      if hasWatcher {
        calls := calls + [WatcherResumed];
      }
      if pulled.ok {
        pulls := pulls + 1;
        r := Reply(true, "Force pull successful");
      } else {
        r := Reply(false, pulled.message);
      }
    }
  }

  /** The checkpoint descriptions of the automatic operations. */
  function AutoPullDescription(commits: nat): string {
    "Auto-pull: " + NatToString(commits) + " commit(s)"
  }

  function AutoPushDescription(files: nat): string {
    "Auto-push: " + NatToString(files) + " file(s)"
  }

  /** One failed automatic push followed by a successful one: the first counts as
      an error and makes no checkpoint, the second as a push with a checkpoint. */
  method PushFailureScenario(changed: seq<string>, prefix: string)
  {
    var engine := new SyncEngine();
    var ready := engine.Initialize([]);
    var started := engine.Start();
    assert started.ok;
    engine.OnFilesChanged(changed, true, prefix, "10:00:00", Reply(false, "rejected"), "t1");
    assert engine.errors == 1 && engine.pushes == 0;
    engine.OnFilesChanged(changed, true, prefix, "10:00:05", Reply(true, "pushed"), "t2");
    assert engine.pushes == 1 && engine.errors == 1;
    assert engine.calls[|engine.calls| - 1] == CheckpointCreated(AutoPushDescription(|changed|));
  }
}
