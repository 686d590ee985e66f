/** The account lists (src/utils/account_manager.py): GitHub accounts and
    Perplexity profiles, each a list of records tagged with an integer id, and
    for each list the id of the active entry. Both lists follow the same rules,
    so the list operations are written once and used for both. The JSON file the
    lists are saved to is not modelled. */
module Accounts {
  import opened Common

  datatype Account =
    | GithubAccount(id: int, username: string, repoUrl: string, localDir: string)
    | PerplexityProfile(id: int, name: string, notes: string)

  /** Some entry of the list carries the id. */
  predicate HasId(xs: seq<Account>, id: int) {
    exists i :: 0 <= i < |xs| && xs[i].id == id
  }

  /** The first entry carrying the id, as the `for ... if acc["id"] == active_id` loops find it. */
  function FirstWithId(xs: seq<Account>, id: int): (r: Option<Account>)
    ensures r.Some? ==> r.value.id == id
    decreases |xs|
  {
    if xs == [] then None
    else if xs[0].id == id then Some(xs[0])
    else FirstWithId(xs[1..], id)
  }

  /** The search finds nothing exactly when no entry carries the id, and otherwise
      the entry at the first position that carries it. */
  lemma {:induction false} FirstWithIdIsFirst(xs: seq<Account>, id: int)
    ensures FirstWithId(xs, id).None? <==> !HasId(xs, id)
    ensures FirstWithId(xs, id).Some? ==>
      exists i :: 0 <= i < |xs| && xs[i] == FirstWithId(xs, id).value && forall j :: 0 <= j < i ==> xs[j].id != id
    decreases |xs|
  {
    if xs != [] && xs[0].id != id {
      var r := FirstWithId(xs[1..], id);
      FirstWithIdIsFirst(xs[1..], id);
      if HasId(xs, id) {
        var i :| 0 <= i < |xs| && xs[i].id == id;
        assert xs[1..][i - 1].id == id;
      }
      if r.Some? {
        var i :| 0 <= i < |xs[1..]| && xs[1..][i] == r.value && forall j :: 0 <= j < i ==> xs[1..][j].id != id;
        assert xs[i + 1] == r.value && forall j :: 0 <= j < i + 1 ==> xs[j].id != id;
      }
    }
  }

  /** The list comprehension of the remove operations: every entry but those carrying the id, in order. */
  function Without(xs: seq<Account>, id: int): (r: seq<Account>)
    ensures |r| <= |xs|
    ensures forall x :: x in r <==> x in xs && x.id != id
    decreases |xs|
  {
    if xs == [] then []
    else if xs[0].id == id then Without(xs[1..], id)
    else [xs[0]] + Without(xs[1..], id)
  }

  /** Removal keeps the order of what remains: it works piece by piece. */
  lemma {:induction false} WithoutAppend(a: seq<Account>, b: seq<Account>, id: int)
    ensures Without(a + b, id) == Without(a, id) + Without(b, id)
    decreases |a|
  {
    if a == [] {
      assert a + b == b;
    } else {
      assert (a + b)[0] == a[0] && (a + b)[1..] == a[1..] + b;
      WithoutAppend(a[1..], b, id);
      if a[0].id != id {
        AppendAssoc([a[0]], Without(a[1..], id), Without(b, id));
      }
    }
  }

  /** Removing an id no entry carries leaves the list exactly as it was. */
  lemma {:induction false} WithoutAbsent(xs: seq<Account>, id: int)
    requires !HasId(xs, id)
    ensures Without(xs, id) == xs
    decreases |xs|
  {
    if xs != [] {
      WithoutAbsent(xs[1..], id);
      assert xs == [xs[0]] + xs[1..];
    }
  }

  /** The active id after the entries carrying `id` were removed, leaving `remaining`:
      if the active entry was removed, the first remaining entry becomes active, or none. */
  function ActiveAfterRemoval(active: Option<int>, id: int, remaining: seq<Account>): (r: Option<int>)
    ensures active != Some(id) ==> r == active
    ensures active == Some(id) && remaining != [] ==> r == Some(remaining[0].id)
    ensures active == Some(id) && remaining == [] ==> r == None
  {
    if active == Some(id) then (if remaining != [] then Some(remaining[0].id) else None) else active
  }

  /** The active id names an entry of the list (or there is no active entry). */
  predicate ActiveIsListed(xs: seq<Account>, active: Option<int>) {
    active.Some? ==> HasId(xs, active.value)
  }

  /** Removing an entry never leaves the active id dangling. */
  lemma RemovalKeepsActiveListed(xs: seq<Account>, active: Option<int>, id: int)
    requires ActiveIsListed(xs, active)
    ensures ActiveIsListed(Without(xs, id), ActiveAfterRemoval(active, id, Without(xs, id)))
  {
    var rest := Without(xs, id);
    var a := ActiveAfterRemoval(active, id, rest);
    if a.Some? {
      if active == Some(id) {
        assert rest[0] in rest;
      } else {
        var i :| 0 <= i < |xs| && xs[i].id == a.value;
        assert xs[i] in rest;
        var k :| 0 <= k < |rest| && rest[k] == xs[i];
      }
    }
  }

  /** The `for` loop of `get_active_*`: the first entry carrying the active id. */
  method FindActive(xs: seq<Account>, active: Option<int>) returns (r: Option<Account>)
    ensures r == (if active.Some? then FirstWithId(xs, active.value) else None)
  {
    if active.None? {
      return None;
    }
    var i := 0;
    while i < |xs|
      invariant 0 <= i <= |xs|
      invariant FirstWithId(xs, active.value) == FirstWithId(xs[i..], active.value)
    {
      assert xs[i..][1..] == xs[i + 1..];
      if xs[i].id == active.value {
        return Some(xs[i]);
      }
      i := i + 1;
    }
    return None;
  }

  /** The `for` loop of `set_active_*`: whether some entry carries the id. */
  method FindId(xs: seq<Account>, id: int) returns (found: bool)
    ensures found <==> HasId(xs, id)
  {
    var i := 0;
    while i < |xs|
      invariant 0 <= i <= |xs|
      invariant forall j :: 0 <= j < i ==> xs[j].id != id
    {
      if xs[i].id == id {
        return true;
      }
      i := i + 1;
    }
    return false;
  }

  /** The contents of the accounts file, as `json.load` hands them back. */
  datatype Stored = Stored(githubAccounts: seq<Account>, perplexityProfiles: seq<Account>,
                           activeGithub: Option<int>, activePerplexity: Option<int>)

  /** `_default_accounts()`. */
  const DefaultAccounts := Stored([], [], None, None)

  class AccountManager {
    var githubAccounts: seq<Account>
    var perplexityProfiles: seq<Account>
    var activeGithub: Option<int>
    var activePerplexity: Option<int>

    /** Each active id names an entry of its list. */
    ghost predicate Valid()
      reads this
    {
      ActiveIsListed(githubAccounts, activeGithub) && ActiveIsListed(perplexityProfiles, activePerplexity)
    }

    /** `__init__` through `_load_accounts`: the file's contents, or, when the file is
        missing or unreadable (`None`), both lists empty and nothing active. */
    constructor (file: Option<Stored>)
      ensures var s := if file.Some? then file.value else DefaultAccounts;
        githubAccounts == s.githubAccounts && perplexityProfiles == s.perplexityProfiles &&
        activeGithub == s.activeGithub && activePerplexity == s.activePerplexity
      ensures file.None? ==> Valid()
    {
      var s := if file.Some? then file.value else DefaultAccounts;
      githubAccounts, perplexityProfiles := s.githubAccounts, s.perplexityProfiles;
      activeGithub, activePerplexity := s.activeGithub, s.activePerplexity;
    }

    /** `add_github_account`: the new id is the list length before the append; the
        first account becomes active. Always succeeds. */
    method AddGithubAccount(username: string, repoUrl: string, localDir: string) returns (r: bool)
      modifies this`githubAccounts, this`activeGithub
      ensures r && (old(Valid()) ==> Valid())
      ensures githubAccounts == old(githubAccounts) + [GithubAccount(|old(githubAccounts)|, username, repoUrl, localDir)]
      ensures activeGithub == (if |githubAccounts| == 1 then Some(0) else old(activeGithub))
    {
      var account := GithubAccount(|githubAccounts|, username, repoUrl, localDir);
      githubAccounts := githubAccounts + [account];
      if |githubAccounts| == 1 {
        activeGithub := Some(account.id);
      }
      assert githubAccounts[|githubAccounts| - 1] == account;
      assert forall i :: 0 <= i < |old(githubAccounts)| ==> githubAccounts[i] == old(githubAccounts)[i];
      r := true;
    }

    /** `remove_github_account`: every account with the id goes; the active one is
        replaced by the first remaining account, or none. Always succeeds. */
    method RemoveGithubAccount(accountId: int) returns (r: bool)
      modifies this`githubAccounts, this`activeGithub
      ensures r && (old(Valid()) ==> Valid())
      ensures githubAccounts == Without(old(githubAccounts), accountId)
      ensures activeGithub == ActiveAfterRemoval(old(activeGithub), accountId, githubAccounts)
    {
      if Valid() {
        RemovalKeepsActiveListed(githubAccounts, activeGithub, accountId);
      }
      githubAccounts := Without(githubAccounts, accountId);
      activeGithub := ActiveAfterRemoval(activeGithub, accountId, githubAccounts);
      r := true;
    }

    /** `get_active_github`. */
    method GetActiveGithub() returns (r: Option<Account>)
      ensures r == (if activeGithub.Some? then FirstWithId(githubAccounts, activeGithub.value) else None)
      ensures Valid() && activeGithub.Some? ==> r.Some?
    {
      r := FindActive(githubAccounts, activeGithub);
      if activeGithub.Some? {
        FirstWithIdIsFirst(githubAccounts, activeGithub.value);
      }
    }

    /** `set_active_github`: only an id that some account carries is accepted. */
    method SetActiveGithub(accountId: int) returns (r: bool)
      modifies this`activeGithub
      ensures old(Valid()) ==> Valid()
      ensures r <==> HasId(githubAccounts, accountId)
      ensures activeGithub == (if r then Some(accountId) else old(activeGithub))
    {
      r := FindId(githubAccounts, accountId);
      if r {
        activeGithub := Some(accountId);
      }
    }

    /** `add_perplexity_profile`: as for GitHub accounts. */
    method AddPerplexityProfile(name: string, notes: string) returns (r: bool)
      modifies this`perplexityProfiles, this`activePerplexity
      ensures r && (old(Valid()) ==> Valid())
      ensures perplexityProfiles == old(perplexityProfiles) + [PerplexityProfile(|old(perplexityProfiles)|, name, notes)]
      ensures activePerplexity == (if |perplexityProfiles| == 1 then Some(0) else old(activePerplexity))
    {
      var profile := PerplexityProfile(|perplexityProfiles|, name, notes);
      perplexityProfiles := perplexityProfiles + [profile];
      if |perplexityProfiles| == 1 {
        activePerplexity := Some(profile.id);
      }
      assert perplexityProfiles[|perplexityProfiles| - 1] == profile;
      assert forall i :: 0 <= i < |old(perplexityProfiles)| ==> perplexityProfiles[i] == old(perplexityProfiles)[i];
      r := true;
    }

    /** `remove_perplexity_profile`. */
    method RemovePerplexityProfile(profileId: int) returns (r: bool)
      modifies this`perplexityProfiles, this`activePerplexity
      ensures r && (old(Valid()) ==> Valid())
      ensures perplexityProfiles == Without(old(perplexityProfiles), profileId)
      ensures activePerplexity == ActiveAfterRemoval(old(activePerplexity), profileId, perplexityProfiles)
    {
      if Valid() {
        RemovalKeepsActiveListed(perplexityProfiles, activePerplexity, profileId);
      }
      perplexityProfiles := Without(perplexityProfiles, profileId);
      activePerplexity := ActiveAfterRemoval(activePerplexity, profileId, perplexityProfiles);
      r := true;
    }

    /** `get_active_perplexity`. */
    method GetActivePerplexity() returns (r: Option<Account>)
      ensures r == (if activePerplexity.Some? then FirstWithId(perplexityProfiles, activePerplexity.value) else None)
      ensures Valid() && activePerplexity.Some? ==> r.Some?
    {
      r := FindActive(perplexityProfiles, activePerplexity);
      if activePerplexity.Some? {
        FirstWithIdIsFirst(perplexityProfiles, activePerplexity.value);
      }
    }

    /** `set_active_perplexity`. */
    method SetActivePerplexity(profileId: int) returns (r: bool)
      modifies this`activePerplexity
      ensures old(Valid()) ==> Valid()
      ensures r <==> HasId(perplexityProfiles, profileId)
      ensures activePerplexity == (if r then Some(profileId) else old(activePerplexity))
    {
      r := FindId(perplexityProfiles, profileId);
      if r {
        activePerplexity := Some(profileId);
      }
    }
  }

  /** Ids are list lengths, so after a removal the next account repeats an id that
      is still in use, and removing that id then removes both accounts. */
  method DuplicateIdScenario()
  {
    var m := new AccountManager(None);
    var _ := m.AddGithubAccount("ana", "https://github.com/ana/a", "/src/a");
    var _ := m.AddGithubAccount("ben", "https://github.com/ben/b", "/src/b");
    var _ := m.RemoveGithubAccount(0);
    assert m.githubAccounts == [GithubAccount(1, "ben", "https://github.com/ben/b", "/src/b")];
    assert m.activeGithub == Some(1);
    var _ := m.AddGithubAccount("cleo", "https://github.com/cleo/c", "/src/c");
    assert m.githubAccounts[0].id == 1 && m.githubAccounts[1].id == 1;
    var _ := m.RemoveGithubAccount(1);
    assert m.githubAccounts == [] && m.activeGithub == None;
  }
}
