/** The decision logic of the Git wrapper (src/core/git_sync.py). GitPython is
    an oracle: each call the wrapper makes into it is a parameter holding what
    that call returned or the error it raised. What the wrapper decides from
    those answers (its guards, messages and compositions) is modelled exactly;
    the stash and the local branch list, which `pull` and the clone path change
    step by step, live in the class `Repository`. */
module GitSync {
  import opened Common

  /** What a GitPython call gave back: a value, a `GitCommandError`, or any other exception. */
  datatype Outcome<T> = Done(value: T) | CommandError(error: string) | OtherError(error: string)

  const NotInitialized := "Repository not initialized"
  const NoChanges := "No changes to commit"

  /** `hexsha[:7]`. */
  function ShortHash(hexsha: string): (r: string)
    ensures |r| <= 7
    ensures StartsWith(hexsha, r)
    ensures |hexsha| >= 7 ==> |r| == 7
  {
    if |hexsha| <= 7 then hexsha else hexsha[..7]
  }

  /** `commit(message, files)`. `staged` answers "is there anything to commit" (a
      non-empty diff against HEAD or an untracked file) after staging, or the
      error staging raised; `created` is the new commit's full hash or the error
      committing raised. */
  function Commit(initialized: bool, staged: Outcome<bool>, created: Outcome<string>): (r: Reply)
    ensures !initialized ==> r == Reply(false, NotInitialized)
    ensures initialized && staged.Done? && !staged.value ==> r == Reply(true, NoChanges)
    ensures r.ok <==> initialized && staged.Done? && (!staged.value || created.Done?)
    ensures r.ok && r.message != NoChanges ==> created.Done? && r.message == ShortHash(created.value)
  {
    if !initialized then Reply(false, NotInitialized)
    else if !staged.Done? then Reply(false, "Commit failed: " + staged.error)
    else if !staged.value then Reply(true, NoChanges)
    else if !created.Done? then Reply(false, "Commit failed: " + created.error)
    else Reply(true, ShortHash(created.value))
  }

  /** The hash a real commit reports is never mistaken for the "no changes" answer,
      so `commit_and_push` tells the two apart by the message alone. */
  lemma CommitHashIsNotNoChanges(hexsha: string)
    ensures ShortHash(hexsha) != NoChanges
  {
    assert |NoChanges| == 20;
  }

  /** `push()`: `pushed` is the list of push infos GitPython returned; an empty
      list is still a success. */
  function Push(initialized: bool, pushed: Outcome<nat>): (r: Reply)
    ensures !initialized ==> r == Reply(false, NotInitialized)
    ensures r.ok <==> initialized && pushed.Done?
    ensures initialized && pushed == Done(0) ==> r == Reply(true, "No commits to push")
  {
    if !initialized then Reply(false, NotInitialized)
    else match pushed
      case Done(n) => if n > 0 then Reply(true, "Push successful") else Reply(true, "No commits to push")
      case CommandError(e) => Reply(false, "Git push failed: " + e)
      case OtherError(e) => Reply(false, "Unexpected error during push: " + e)
  }

  /** `commit_and_push`'s answer and whether it went on to push. */
  datatype CommitPushResult = CommitPushResult(reply: Reply, pushAttempted: bool)

  /** `commit_and_push`: a failed commit is returned as it is, "no changes" is a
      success without a push, and otherwise the push decides. */
  function CommitAndPush(initialized: bool, staged: Outcome<bool>, created: Outcome<string>, pushed: Outcome<nat>)
    : (r: CommitPushResult)
    ensures var c := Commit(initialized, staged, created);
      && (!c.ok ==> r == CommitPushResult(c, false))
      && (c.ok && c.message == NoChanges ==> r == CommitPushResult(Reply(true, NoChanges), false))
      && (c.ok && c.message != NoChanges ==>
            var p := Push(initialized, pushed);
            r == CommitPushResult(Reply(p.ok, "Commit " + c.message + ": " + p.message), true))
  {
    var c := Commit(initialized, staged, created);
    if !c.ok then CommitPushResult(Reply(false, c.message), false)
    else if c.message == NoChanges then CommitPushResult(Reply(true, c.message), false)
    else
      var p := Push(initialized, pushed);
      CommitPushResult(Reply(p.ok, "Commit " + c.message + ": " + p.message), true)
  }

  /** What `commit_and_push` promises in terms of the repository: it pushes exactly
      when a new commit was made, and succeeds exactly when there was nothing to
      commit or the commit was made and pushed. */
  lemma CommitAndPushDecides(initialized: bool, staged: Outcome<bool>, created: Outcome<string>, pushed: Outcome<nat>)
    ensures var r := CommitAndPush(initialized, staged, created, pushed);
      && (r.pushAttempted <==> initialized && staged == Done(true) && created.Done?)
      && (r.reply.ok <==> initialized && staged.Done? && (!staged.value || (created.Done? && pushed.Done?)))
      && (r.pushAttempted ==> r.reply.message == "Commit " + ShortHash(created.value) + ": " + Push(initialized, pushed).message)
  {
    if initialized && staged == Done(true) && created.Done? {
      CommitHashIsNotNoChanges(created.value);
    }
  }

  /** `has_remote_changes()`: the number of commits the remote branch is ahead, and
      whether it is positive; any error counts as "nothing new". */
  function HasRemoteChanges(initialized: bool, behind: Outcome<nat>): (r: (bool, nat))
    ensures r.0 <==> r.1 > 0
    ensures r.1 > 0 <==> initialized && behind.Done? && behind.value > 0
    ensures initialized && behind.Done? ==> r.1 == behind.value
  {
    if !initialized then (false, 0)
    else match behind
      case Done(n) => (n > 0, n)
      case _ => (false, 0)
  }

  /** `has_local_changes()`: when the tree is dirty, the changed files followed by the untracked ones. */
  function HasLocalChanges(initialized: bool, dirty: Outcome<bool>, changed: seq<string>, untracked: seq<string>)
    : (r: (bool, seq<string>))
    ensures r.0 <==> initialized && dirty == Done(true)
    ensures r.0 ==> r.1 == changed + untracked
    ensures !r.0 ==> r.1 == []
  {
    if initialized && dirty == Done(true) then (true, changed + untracked) else (false, [])
  }

  /** `has_conflicts()`: the files with unmerged blobs. */
  function HasConflicts(initialized: bool, unmerged: Outcome<seq<string>>): (r: (bool, seq<string>))
    ensures r.0 <==> r.1 != []
    ensures r.0 <==> initialized && unmerged.Done? && unmerged.value != []
  {
    if initialized && unmerged.Done? then (unmerged.value != [], unmerged.value) else (false, [])
  }

  /** `reset_to_commit(hash, hard)`: `done` is what `git reset` gave back. */
  function ResetToCommit(initialized: bool, commitHash: string, hard: bool, done: Outcome<()>): (r: Reply)
    ensures r.ok <==> initialized && done.Done?
    ensures r.ok ==> r.message == (if hard then "Hard reset to " else "Soft reset to ") + commitHash
  {
    if !initialized then Reply(false, NotInitialized)
    else if !done.Done? then Reply(false, "Reset failed: " + done.error)
    else Reply(true, (if hard then "Hard reset to " else "Soft reset to ") + commitHash)
  }

  const OriginPrefix := "origin/"

  /** `s.replace(p, "")`: every occurrence of `p` removed, scanning left to right. */
  function RemoveAll(s: string, p: string): (r: string)
    requires |p| > 0
    ensures |r| <= |s|
    decreases |s|
  {
    if |s| < |p| then s
    else if s[..|p|] == p then RemoveAll(s[|p|..], p)
    else [s[0]] + RemoveAll(s[1..], p)
  }

  /** A string without an occurrence of `p` is left as it is. */
  lemma {:induction false} RemoveAllAbsent(s: string, p: string)
    requires |p| > 0 && !Contains(s, p)
    ensures RemoveAll(s, p) == s
    decreases |s|
  {
    if |s| >= |p| {
      assert !OccursAt(s, p, 0);
      assert s[..|p|] != p;
      assert !Contains(s[1..], p) by {
        forall i | 0 <= i <= |s[1..]| - |p|
          ensures !OccursAt(s[1..], p, i)
        {
          assert s[1..][i..i + |p|] == s[i + 1..i + 1 + |p|];
          assert !OccursAt(s, p, i + 1);
        }
      }
      RemoveAllAbsent(s[1..], p);
      assert s == [s[0]] + s[1..];
    }
  }

  /** The local name of a remote ref: "origin/" stripped wherever it occurs. */
  function BranchName(ref: string): string {
    RemoveAll(ref, OriginPrefix)
  }

  /** The usual case: "origin/" followed by a name without another "origin/". */
  lemma BranchNameOfRemoteRef(name: string)
    requires !Contains(name, OriginPrefix)
    ensures BranchName(OriginPrefix + name) == name
  {
    var s := OriginPrefix + name;
    assert s[..|OriginPrefix|] == OriginPrefix;
    assert s[|OriginPrefix|..] == name;
    RemoveAllAbsent(name, OriginPrefix);
  }

  /** A string that does not start like `p` keeps its first character. */
  lemma RemoveAllKeepsHead(s: string, p: string)
    requires |p| > 0 && |s| > 0 && s[0] != p[0]
    ensures RemoveAll(s, p) == [s[0]] + RemoveAll(s[1..], p)
  {
    if |s| >= |p| {
      assert s[..|p|][0] != p[0];
    }
  }

  /** A leading occurrence of `p` is dropped. */
  lemma RemoveAllLeading(p: string, x: string)
    requires |p| > 0
    ensures RemoveAll(p + x, p) == RemoveAll(x, p)
  {
    assert (p + x)[..|p|] == p;
    assert (p + x)[|p|..] == x;
  }

  /** A stretch in which no character could start `p` is kept as it is. */
  lemma {:induction false} RemoveAllKeepsFree(a: string, x: string, p: string)
    requires |p| > 0 && forall i :: 0 <= i < |a| ==> a[i] != p[0]
    ensures RemoveAll(a + x, p) == a + RemoveAll(x, p)
    decreases |a|
  {
    if a == [] {
      assert a + x == x;
    } else {
      RemoveAllKeepsHead(a + x, p);
      assert (a + x)[1..] == a[1..] + x;
      RemoveAllKeepsFree(a[1..], x, p);
      AppendAssoc([a[0]], a[1..], RemoveAll(x, p));
      assert [a[0]] + a[1..] == a;
    }
  }

  /** Since every occurrence is removed, a ref such as "origin/ci/origin/fix"
      gives "ci/fix", not "ci/origin/fix". */
  lemma BranchNameRemovesInnerOccurrences(a: string, b: string)
    requires forall i :: 0 <= i < |a| ==> a[i] != 'o'
    requires !Contains(b, OriginPrefix)
    ensures BranchName(OriginPrefix + a + OriginPrefix + b) == a + b
  {
    var p := OriginPrefix;
    assert p[0] == 'o';
    assert p + a + p + b == p + (a + (p + b));
    RemoveAllLeading(p, a + (p + b));
    RemoveAllKeepsFree(a, p + b, p);
    RemoveAllLeading(p, b);
    RemoveAllAbsent(b, p);
  }

  /** The remote branch names `get_all_branches` lists: every ref but "origin/HEAD", in order, renamed. */
  function RemoteBranchNames(refs: seq<string>): (r: seq<string>)
    ensures |r| <= |refs|
    ensures forall name :: name in r <==> exists ref :: ref in refs && ref != "origin/HEAD" && name == BranchName(ref)
  {
    if refs == [] then []
    else
      var rest := RemoteBranchNames(refs[1..]);
      assert forall ref :: ref in refs <==> ref == refs[0] || ref in refs[1..];
      if refs[0] == "origin/HEAD" then rest else [BranchName(refs[0])] + rest
  }

  /** One ref gives its renamed branch, except "origin/HEAD", which gives nothing. */
  lemma RemoteBranchNamesOne(ref: string)
    ensures RemoteBranchNames([ref]) == if ref == "origin/HEAD" then [] else [BranchName(ref)]
  {
    assert [ref][1..] == [];
  }

  /** The names come out in the order of the refs, repeats included: listing a
      concatenation concatenates the lists. */
  lemma {:induction false} RemoteBranchNamesSplits(a: seq<string>, b: seq<string>)
    ensures RemoteBranchNames(a + b) == RemoteBranchNames(a) + RemoteBranchNames(b)
    decreases |a|
  {
    if a == [] {
      assert a + b == b;
    } else {
      assert (a + b)[0] == a[0] && (a + b)[1..] == a[1..] + b;
      RemoteBranchNamesSplits(a[1..], b);
      if a[0] != "origin/HEAD" {
        AppendAssoc([BranchName(a[0])], RemoteBranchNames(a[1..]), RemoteBranchNames(b));
      }
    }
  }

  /** The branches the clone path adds, in order: each remote name not yet local
      whose creation succeeds (`canCreate`); a name already added is not added again. */
  function TrackingBranches(local: seq<string>, names: seq<string>, canCreate: string -> bool): (r: seq<string>)
    decreases |names|
  {
    if names == [] then local
    else if names[0] in local || !canCreate(names[0]) then TrackingBranches(local, names[1..], canCreate)
    else TrackingBranches(local + [names[0]], names[1..], canCreate)
  }

  /** The clone path ends with every branch it had plus every remote branch it
      could create, each name once. */
  lemma {:induction false} TrackingBranchesCover(local: seq<string>, names: seq<string>, canCreate: string -> bool)
    ensures var r := TrackingBranches(local, names, canCreate);
      && |local| <= |r| && r[..|local|] == local
      && (forall k :: 0 <= k < |names| && canCreate(names[k]) ==> names[k] in r)
      && (forall k :: |local| <= k < |r| ==> r[k] in names && r[k] !in r[..k])
    decreases |names|
  {
    if names != [] {
      var next := if names[0] in local || !canCreate(names[0]) then local else local + [names[0]];
      TrackingBranchesCover(next, names[1..], canCreate);
      var r := TrackingBranches(local, names, canCreate);
      assert r == TrackingBranches(next, names[1..], canCreate);
      assert r[..|next|] == next;
      assert r[..|local|] == next[..|local|];
      forall k | 0 <= k < |names| && canCreate(names[k])
        ensures names[k] in r
      {
        if k == 0 {
          assert names[0] in next;
          assert next == r[..|next|];
        } else {
          assert names[k] == names[1..][k - 1];
        }
      }
      forall k | |local| <= k < |r|
        ensures r[k] in names && r[k] !in r[..k]
      {
        if k < |next| {
          assert k == |local| && next == local + [names[0]];
          assert r[..k] == local;
        } else {
          assert r[k] in names[1..];
        }
      }
    }
  }

  /** The parts of the repository that the wrapper itself changes. */
  class Repository {
    var initialized: bool
    /** Uncommitted changes in tracked files (`is_dirty()`). */
    var dirty: bool
    /** The stash list, newest first. */
    var stash: seq<string>
    /** The local branch names. */
    var branches: seq<string>
    /** The branches `git pull` was asked to merge from, oldest first. */
    ghost var pulls: seq<string>

    constructor (initialized: bool, dirty: bool, stash: seq<string>, branches: seq<string>)
      ensures this.initialized == initialized && this.dirty == dirty && this.stash == stash
      ensures this.branches == branches && pulls == []
    {
      this.initialized := initialized;
      this.dirty := dirty;
      this.stash := stash;
      this.branches := branches;
      pulls := [];
    }

    /** `pull()`: stash local changes if the tree is dirty, pull `branch`, then pop
        the stash whenever the stash list is not empty (also when the entry was
        there before the pull). `fetched` is the pull's answer and `popOk` whether
        the pop applied cleanly; a failed pop leaves the entry on the stash. */
    method Pull(branch: string, fetched: Outcome<()>, popOk: bool) returns (r: Reply)
      modifies this`dirty, this`stash, this`pulls
      ensures !initialized ==>
        r == Reply(false, NotInitialized) && dirty == old(dirty) && stash == old(stash) && pulls == old(pulls)
      ensures initialized ==> pulls == old(pulls) + [branch]
      ensures initialized && !fetched.Done? ==>
        && r.ok == false
        && r.message == (if fetched.CommandError? then "Git pull failed: " else "Unexpected error during pull: ") + fetched.error
        && stash == (if old(dirty) then [AutoStash] + old(stash) else old(stash))
      ensures initialized && fetched.Done? ==>
        var saved := if old(dirty) then [AutoStash] + old(stash) else old(stash);
        && (saved == [] ==> r == Reply(true, "Pull successful") && stash == [])
        && (saved != [] && popOk ==> r == Reply(true, "Pull successful") && stash == saved[1..] && dirty)
        && (saved != [] && !popOk ==> r == Reply(false, PopConflict) && stash == saved)
    {
      if !initialized {
        return Reply(false, NotInitialized);
      }
      if dirty {
        stash := [AutoStash] + stash;
        dirty := false;
      }
      pulls := pulls + [branch];
      if !fetched.Done? {
        var prefix := if fetched.CommandError? then "Git pull failed: " else "Unexpected error during pull: ";
        return Reply(false, prefix + fetched.error);
      }
      if stash != [] {
        if !popOk {
          return Reply(false, PopConflict);
        }
        stash := stash[1..];
        dirty := true;
      }
      r := Reply(true, "Pull successful");
    }

    /** The tracking-branch loop of the clone path: for each remote ref but
        "origin/HEAD", create the local branch unless it exists already;
        `canCreate` says whether `create_head` succeeded. */
    method CreateTrackingBranches(refs: seq<string>, canCreate: string -> bool)
      modifies this`branches
      ensures branches == TrackingBranches(old(branches), RemoteBranchNames(refs), canCreate)
    {
      var i := 0;
      while i < |refs|
        invariant 0 <= i <= |refs|
        invariant TrackingBranches(branches, RemoteBranchNames(refs[i..]), canCreate)
               == TrackingBranches(old(branches), RemoteBranchNames(refs), canCreate)
      {
        assert refs[i..][1..] == refs[i + 1..];
        var ref := refs[i];
        if ref != "origin/HEAD" {
          var name := BranchName(ref);
          if name !in branches && canCreate(name) {
            branches := branches + [name];
          }
        }
        i := i + 1;
      }
    }
  }

  const AutoStash := "Wave.AI auto-stash before pull"
  const PopConflict := "Conflict detected after pull. Please resolve manually."

  /** A clean tree with a stash entry left from earlier: the pull pops that entry
      although it did not create it. */
  method PullPopsOlderStash()
  {
    var repo := new Repository(true, false, ["user work in progress"], ["main"]);
    var r := repo.Pull("main", Done(()), true);
    assert r.ok && repo.stash == [] && repo.dirty;
  }
}
