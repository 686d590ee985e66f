/** The checkpoint ledger (src/core/version_control.py): an undo/redo stack of
    checkpoints over the repository's commits, with a cursor `currentPosition`.
    The repository is an oracle: its HEAD status and the answer of each hard
    reset are parameters, and every reset the ledger asks for is recorded in
    `resetLog`. */
module Ledger {
  import opened Common

  datatype Checkpoint = Checkpoint(
    id: int,
    commitHash: string,
    fullHash: string,
    timestamp: string,
    description: string,
    commitMessage: string,
    author: string)

  /** HEAD as `git_sync.get_status()` reports it. */
  datatype HeadCommit = HeadCommit(hash: string, fullHash: string, message: string, author: string)

  /** `get_status()`: either an error entry, or a status whose latest commit may be missing. */
  datatype RepoStatus = StatusError(error: string) | Status(latest: Option<HeadCommit>)

  /** The two readings of the wall clock the ledger takes: ISO timestamp and HH:MM:SS. */
  datatype Clock = Clock(iso: string, hms: string)

  /** `create_checkpoint`'s `(success, checkpoint_id or error)`. */
  datatype CreateResult = Created(id: int) | NotCreated(error: string)

  datatype SummaryEntry = SummaryEntry(
    id: int,
    description: string,
    timestamp: string,
    commitHash: string,
    isCurrent: bool,
    relativePosition: int)

  datatype PositionInfo = PositionInfo(
    id: int,
    description: string,
    timestamp: string,
    commitHash: string,
    canRevert: bool,
    canForward: bool,
    stepsBackAvailable: int,
    stepsForwardAvailable: int)

  datatype SearchHit = SearchHit(
    id: int,
    description: string,
    commitMessage: string,
    timestamp: string,
    commitHash: string)

  /** The cursor is -1 exactly for an empty ledger and an index otherwise. */
  predicate CursorInRange(history: seq<Checkpoint>, position: int) {
    -1 <= position < |history| && (position == -1 <==> |history| == 0)
  }

  const SafetyDescription := "Safety checkpoint before revert"

  /** The entry `create_checkpoint` builds: its id is the ledger length at the time of the call. */
  function NewEntry(id: int, head: HeadCommit, description: string, clock: Clock): Checkpoint {
    Checkpoint(id, head.hash, head.fullHash, clock.iso,
               if description == "" then "Checkpoint at " + clock.hms else description,
               head.message, head.author)
  }

  /** The history once `cleanup_old_checkpoints` has sliced it with `history[-maxCheckpoints:]`.
      In Python `-0` is `0`, so a limit of 0 keeps every entry. */
  function KeptTail(history: seq<Checkpoint>, maxCheckpoints: nat): (r: seq<Checkpoint>)
    requires |history| > maxCheckpoints
    ensures maxCheckpoints > 0 ==> |r| == maxCheckpoints && history == history[..|history| - maxCheckpoints] + r
    ensures maxCheckpoints == 0 ==> r == history
  {
    if maxCheckpoints == 0 then history else history[|history| - maxCheckpoints..]
  }

  /** Every entry's id replaced by its index. */
  function Renumbered(history: seq<Checkpoint>): (r: seq<Checkpoint>)
    ensures |r| == |history|
    ensures forall i :: 0 <= i < |r| ==> r[i].id == i && r[i] == history[i].(id := i)
  {
    seq(|history|, i requires 0 <= i < |history| => history[i].(id := i))
  }

  /** The cursor after trimming `removed` entries from the front. */
  function ShiftedCursor(position: int, removed: nat): int {
    if position - removed < 0 then 0 else position - removed
  }

  /** `get_history_summary(maxItems)`: the last `maxItems` entries, each marked with
      whether it is the current one and its distance from the cursor. */
  function HistorySummary(history: seq<Checkpoint>, position: int, maxItems: int): (r: seq<SummaryEntry>)
    ensures |r| == if maxItems <= 0 then 0 else if maxItems < |history| then maxItems else |history|
    ensures forall j :: 0 <= j < |r| ==>
      var i := |history| - |r| + j;
      && r[j].id == history[i].id
      && r[j].description == history[i].description
      && r[j].timestamp == history[i].timestamp
      && r[j].commitHash == history[i].commitHash
      && (r[j].isCurrent <==> i == position)
      && r[j].relativePosition == i - position
  {
    var start := if |history| - maxItems < 0 then 0 else |history| - maxItems;
    var n := if start < |history| then |history| - start else 0;
    seq(n, j requires 0 <= j < n =>
      var c := history[start + j];
      SummaryEntry(c.id, c.description, c.timestamp, c.commitHash, start + j == position, start + j - position))
  }

  /** At most one entry of a summary is the current one, and when the cursor lies in the
      summarised window exactly that entry is. */
  lemma {:induction false} SummaryMarksCursorOnce(history: seq<Checkpoint>, position: int, maxItems: int)
    ensures var r := HistorySummary(history, position, maxItems);
      && (forall j, k :: 0 <= j < k < |r| ==> !(r[j].isCurrent && r[k].isCurrent))
      && (|history| - |r| <= position < |history| ==> r[position - (|history| - |r|)].isCurrent)
  {
    var r := HistorySummary(history, position, maxItems);
    forall j, k | 0 <= j < k < |r|
      ensures !(r[j].isCurrent && r[k].isCurrent)
    {
      assert r[j].isCurrent <==> |history| - |r| + j == position;
      assert r[k].isCurrent <==> |history| - |r| + k == position;
    }
  }

  /** `get_current_position_info()`: None when the cursor is outside the ledger. */
  function CurrentPositionInfo(history: seq<Checkpoint>, position: int): (r: Option<PositionInfo>)
    ensures r.None? <==> !(0 <= position < |history|)
    ensures r.Some? ==>
      && r.value.id == history[position].id
      && r.value.description == history[position].description
      && r.value.timestamp == history[position].timestamp
      && r.value.commitHash == history[position].commitHash
      && r.value.stepsBackAvailable == position
      && r.value.stepsForwardAvailable == |history| - position - 1
      && (r.value.canRevert <==> r.value.stepsBackAvailable > 0)
      && (r.value.canForward <==> r.value.stepsForwardAvailable > 0)
  {
    if position < 0 || position >= |history| then None
    else
      var c := history[position];
      Some(PositionInfo(c.id, c.description, c.timestamp, c.commitHash,
                        position > 0, position < |history| - 1,
                        position, |history| - position - 1))
  }

  /** The search predicate: the query occurs, ignoring case, in the description or the commit message. */
  predicate MatchesQuery(c: Checkpoint, query: string) {
    ContainsIgnoringCase(c.description, query) || ContainsIgnoringCase(c.commitMessage, query)
  }

  function HitOf(c: Checkpoint): SearchHit {
    SearchHit(c.id, c.description, c.commitMessage, c.timestamp, c.commitHash)
  }

  /** `search_checkpoints(query)`: the matching checkpoints, in ledger order. */
  function SearchCheckpoints(history: seq<Checkpoint>, query: string): (r: seq<SearchHit>)
    ensures |r| <= |history|
    ensures forall c :: c in history && MatchesQuery(c, query) ==> HitOf(c) in r
    ensures forall h :: h in r ==> exists c :: c in history && MatchesQuery(c, query) && h == HitOf(c)
  {
    if |history| == 0 then []
    else
      var rest := SearchCheckpoints(history[1..], query);
      assert forall c :: c in history ==> c == history[0] || c in history[1..];
      if MatchesQuery(history[0], query) then [HitOf(history[0])] + rest else rest
  }

  /** Searching a ledger made of two parts searches each part, in order: the hits
      keep the ledger's order. */
  lemma {:induction false} SearchSplits(front: seq<Checkpoint>, back: seq<Checkpoint>, query: string)
    ensures SearchCheckpoints(front + back, query) == SearchCheckpoints(front, query) + SearchCheckpoints(back, query)
    decreases |front|
  {
    if |front| > 0 {
      assert (front + back)[0] == front[0];
      assert (front + back)[1..] == front[1..] + back;
      SearchSplits(front[1..], back, query);
    } else {
      assert front + back == back;
    }
  }

  class VersionControl {
    var history: seq<Checkpoint>
    var currentPosition: int
    /** The full hashes of every hard reset requested, oldest first. */
    ghost var resetLog: seq<string>

    ghost predicate Valid()
      reads this
    {
      CursorInRange(history, currentPosition)
    }

    /** `__init__` over the loaded history: the cursor is the last index, or -1 when empty. */
    constructor (loaded: seq<Checkpoint>)
      ensures Valid()
      ensures history == loaded && resetLog == []
      ensures currentPosition == |loaded| - 1
    {
      history := loaded;
      currentPosition := if loaded != [] then |loaded| - 1 else -1;
      resetLog := [];
    }

    /** `create_checkpoint(description)`. */
    method CreateCheckpoint(status: RepoStatus, description: string, clock: Clock) returns (r: CreateResult)
      requires Valid()
      modifies this
      ensures Valid()
      ensures resetLog == old(resetLog)
      ensures status.StatusError? ==>
        r == NotCreated(status.error) && history == old(history) && currentPosition == old(currentPosition)
      ensures status == Status(None) ==>
        r == NotCreated("No commits found") && history == old(history) && currentPosition == old(currentPosition)
      ensures status.Status? && status.latest.Some? ==>
        && r == Created(old(|history|))
        && history == old(history[..currentPosition + 1]) + [NewEntry(old(|history|), status.latest.value, description, clock)]
        && currentPosition == |history| - 1
        // the new id is its index exactly when nothing was truncated
        && (r.id == currentPosition <==> old(currentPosition) == old(|history|) - 1)
    {
      if status.StatusError? {
        return NotCreated(status.error);
      }
      if status.latest.None? {
        return NotCreated("No commits found");
      }
      var checkpoint := NewEntry(|history|, status.latest.value, description, clock);
      if currentPosition < |history| - 1 {
        history := history[..currentPosition + 1];
      }
      history := history + [checkpoint];
      currentPosition := |history| - 1;
      r := Created(checkpoint.id);
    }

    /** `revert(steps)`: a safety checkpoint of the current state is taken first
        (and stays even when the reset then fails); on a successful reset the
        cursor moves `steps` back from where it was before. */
    method Revert(steps: nat, status: RepoStatus, clock: Clock, reset: Reply) returns (r: Reply)
      requires Valid()
      modifies this
      ensures Valid()
      ensures old(history) == [] ==>
        && r == Reply(false, "No version history available")
        && history == old(history) && currentPosition == old(currentPosition) && resetLog == old(resetLog)
      ensures old(history) != [] && old(currentPosition) - steps < 0 ==>
        && r == Reply(false, "Cannot revert " + NatToString(steps) + " steps (only "
                             + IntToString(old(currentPosition) + 1) + " versions back)")
        && history == old(history) && currentPosition == old(currentPosition) && resetLog == old(resetLog)
      ensures old(history) != [] && old(currentPosition) - steps >= 0 ==>
        var target := old(history)[old(currentPosition) - steps];
        && resetLog == old(resetLog) + [target.fullHash]
        && history == (if status.Status? && status.latest.Some?
                       then old(history[..currentPosition + 1]) + [NewEntry(old(|history|), status.latest.value, SafetyDescription, clock)]
                       else old(history))
        && (reset.ok ==> currentPosition == old(currentPosition) - steps && history[currentPosition] == target)
        && (!reset.ok ==> currentPosition == (if status.Status? && status.latest.Some? then |history| - 1 else old(currentPosition)))
        && r == (if reset.ok then Reply(true, "Reverted to: " + target.description) else Reply(false, reset.message))
    {
      if history == [] {
        return Reply(false, "No version history available");
      }
      var newPosition := currentPosition - steps;
      if newPosition < 0 {
        return Reply(false, "Cannot revert " + NatToString(steps) + " steps (only "
                            + IntToString(currentPosition + 1) + " versions back)");
      }
      var target := history[newPosition];
      var _ := CreateCheckpoint(status, SafetyDescription, clock);
      resetLog := resetLog + [target.fullHash];
      if reset.ok {
        currentPosition := newPosition;
        r := Reply(true, "Reverted to: " + target.description);
      } else {
        r := Reply(false, reset.message);
      }
    }

    /** `forward(steps)`: no safety checkpoint; the history is never changed. */
    method Forward(steps: nat, reset: Reply) returns (r: Reply)
      requires Valid()
      modifies this
      ensures Valid()
      ensures history == old(history)
      ensures old(history) == [] ==>
        r == Reply(false, "No version history available") && currentPosition == old(currentPosition) && resetLog == old(resetLog)
      ensures old(history) != [] && old(currentPosition) + steps >= |history| ==>
        && r == Reply(false, "Cannot go forward " + NatToString(steps) + " steps (only "
                             + IntToString(|history| - old(currentPosition) - 1) + " versions ahead)")
        && currentPosition == old(currentPosition) && resetLog == old(resetLog)
      ensures old(history) != [] && old(currentPosition) + steps < |history| ==>
        var target := history[old(currentPosition) + steps];
        && resetLog == old(resetLog) + [target.fullHash]
        && currentPosition == (if reset.ok then old(currentPosition) + steps else old(currentPosition))
        && r == (if reset.ok then Reply(true, "Moved forward to: " + target.description) else Reply(false, reset.message))
    {
      if history == [] {
        return Reply(false, "No version history available");
      }
      var newPosition := currentPosition + steps;
      if newPosition >= |history| {
        return Reply(false, "Cannot go forward " + NatToString(steps) + " steps (only "
                            + IntToString(|history| - currentPosition - 1) + " versions ahead)");
      }
      var target := history[newPosition];
      resetLog := resetLog + [target.fullHash];
      if reset.ok {
        currentPosition := newPosition;
        r := Reply(true, "Moved forward to: " + target.description);
      } else {
        r := Reply(false, reset.message);
      }
    }

    /** `goto_checkpoint(checkpointId)`: the id is used as an index into the ledger. */
    method GotoCheckpoint(checkpointId: int, reset: Reply) returns (r: Reply)
      requires Valid()
      modifies this
      ensures Valid()
      ensures history == old(history)
      ensures !(0 <= checkpointId < |history|) ==>
        && r == Reply(false, "Invalid checkpoint ID: " + IntToString(checkpointId))
        && currentPosition == old(currentPosition) && resetLog == old(resetLog)
      ensures 0 <= checkpointId < |history| ==>
        && resetLog == old(resetLog) + [history[checkpointId].fullHash]
        && currentPosition == (if reset.ok then checkpointId else old(currentPosition))
        && r == (if reset.ok then Reply(true, "Moved to: " + history[checkpointId].description) else Reply(false, reset.message))
    {
      if checkpointId < 0 || checkpointId >= |history| {
        return Reply(false, "Invalid checkpoint ID: " + IntToString(checkpointId));
      }
      var target := history[checkpointId];
      resetLog := resetLog + [target.fullHash];
      if reset.ok {
        currentPosition := checkpointId;
        r := Reply(true, "Moved to: " + target.description);
      } else {
        r := Reply(false, reset.message);
      }
    }

    /** `cleanup_old_checkpoints(maxCheckpoints)`: slice off the oldest entries,
        pull the cursor back by the number removed (not below 0) and renumber. */
    method CleanupOldCheckpoints(maxCheckpoints: nat)
      requires Valid()
      modifies this
      ensures Valid()
      ensures resetLog == old(resetLog)
      ensures |old(history)| <= maxCheckpoints ==>
        history == old(history) && currentPosition == old(currentPosition)
      ensures |old(history)| > maxCheckpoints ==>
        && history == Renumbered(KeptTail(old(history), maxCheckpoints))
        && currentPosition == ShiftedCursor(old(currentPosition), |old(history)| - maxCheckpoints)
    {
      if |history| > maxCheckpoints {
        var removedCount := |history| - maxCheckpoints;
        var kept := KeptTail(history, maxCheckpoints);
        history := kept;
        currentPosition := ShiftedCursor(currentPosition, removedCount);
        for i := 0 to |history|
          invariant |history| == |kept|
          invariant currentPosition == ShiftedCursor(old(currentPosition), removedCount)
          invariant resetLog == old(resetLog)
          invariant forall j :: 0 <= j < i ==> history[j] == kept[j].(id := j)
          invariant forall j :: i <= j < |history| ==> history[j] == kept[j]
        {
          history := history[i := history[i].(id := i)];
        }
      }
    }
  }

  /** With a limit of 0 the slice `history[-0:]` is the whole history: nothing is
      removed and only the ids are rewritten, so a ledger whose ids are already its
      indices comes back unchanged; the cursor goes to 0 from wherever it was. */
  lemma {:induction false} CleanupZeroKeepsEverything(history: seq<Checkpoint>)
    requires |history| > 0
    ensures Renumbered(KeptTail(history, 0)) == Renumbered(history)
    ensures (forall j :: 0 <= j < |history| ==> history[j].id == j) ==> Renumbered(KeptTail(history, 0)) == history
    ensures forall p :: CursorInRange(history, p) ==> ShiftedCursor(p, |history|) == 0
  {
    var r := Renumbered(history);
    if forall j :: 0 <= j < |history| ==> history[j].id == j {
      assert forall j :: 0 <= j < |history| ==> r[j] == history[j];
    }
  }

  /** For a positive limit the trimmed ledger keeps the newest entries in order,
      renumbered from 0, and the cursor stays on the same checkpoint when that
      checkpoint survives. */
  lemma {:induction false} CleanupKeepsNewest(history: seq<Checkpoint>, position: int, maxCheckpoints: nat)
    requires CursorInRange(history, position)
    requires 0 < maxCheckpoints < |history|
    ensures var r := Renumbered(KeptTail(history, maxCheckpoints));
      var removed := |history| - maxCheckpoints;
      && |r| == maxCheckpoints
      && (forall j :: 0 <= j < |r| ==> r[j] == history[removed + j].(id := j))
      && CursorInRange(r, ShiftedCursor(position, removed))
      && (position >= removed ==> r[ShiftedCursor(position, removed)] == history[position].(id := position - removed))
  {
    var tail := KeptTail(history, maxCheckpoints);
    var removed := |history| - maxCheckpoints;
    forall j | 0 <= j < maxCheckpoints
      ensures tail[j] == history[removed + j]
    {
      assert history == history[..removed] + tail;
    }
  }

  /** The scenario of a three-entry ledger at its tail reverted by one step. */
  method RevertScenario()
  {
    var c0 := Checkpoint(0, "a1b2c3d", "a1b2c3d-full", "t0", "first", "m0", "dev");
    var c1 := Checkpoint(1, "e4f5g6h", "e4f5g6h-full", "t1", "second", "m1", "dev");
    var c2 := Checkpoint(2, "i7j8k9l", "i7j8k9l-full", "t2", "third", "m2", "dev");
    var ledger := new VersionControl([c0, c1, c2]);
    assert ledger.currentPosition == 2;
    var head := HeadCommit("i7j8k9l", "i7j8k9l-full", "m2", "dev");
    var r := ledger.Revert(1, Status(Some(head)), Clock("t3", "12:00:00"), Reply(true, "Hard reset"));
    assert r.ok;
    assert |ledger.history| == 4;
    assert ledger.history[3].id == 3 && ledger.history[3].commitHash == "i7j8k9l";
    assert ledger.history[3].description == SafetyDescription;
    assert ledger.currentPosition == 1;
    assert ledger.resetLog == ["e4f5g6h-full"];
  }
}
