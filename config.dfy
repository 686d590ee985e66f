/** The nested configuration of the application (src/core/config_manager.py):
    a JSON object of sections, read and written by dot-separated key paths,
    merged over the built-in defaults when loaded, and checked before syncing.
    Files and JSON text are not modelled; a loaded file is the value it parsed to. */
module Config {
  import opened Common

  /** A JSON value as `json.load` returns it; `Null` is Python's `None`. */
  datatype Value =
    | Null
    | Bool(b: bool)
    | Int(i: int)
    | Str(s: string)
    | List(items: seq<Value>)
    | Dict(entries: map<string, Value>)

  /** Python truthiness: `None`, `False`, 0 and empty strings, lists and dicts are false. */
  predicate Truthy(v: Value) {
    match v
    case Null => false
    case Bool(b) => b
    case Int(i) => i != 0
    case Str(s) => s != ""
    case List(xs) => xs != []
    case Dict(m) => m != map[]
  }

  /** `_merge_configs(default, loaded)`: every key of either side; where both sides
      hold a dict the two merge recursively, otherwise the loaded value wins. */
  function Merge(default: map<string, Value>, loaded: map<string, Value>): (r: map<string, Value>)
    ensures r.Keys == default.Keys + loaded.Keys
    ensures forall k :: k in default && k !in loaded ==> r[k] == default[k]
    ensures forall k :: k in loaded ==>
      r[k] == if k in default && default[k].Dict? && loaded[k].Dict? then Dict(Merge(default[k].entries, loaded[k].entries))
              else loaded[k]
    decreases Dict(loaded)
  {
    map k | k in default.Keys + loaded.Keys ::
      if k in loaded then
        if k in default && default[k].Dict? && loaded[k].Dict? then Dict(Merge(default[k].entries, loaded[k].entries))
        else loaded[k]
      else default[k]
  }

  /** The value at a key path: each key looked up in the dict the previous one gave. */
  function Lookup(v: Value, keys: seq<string>): Option<Value>
    decreases |keys|
  {
    if keys == [] then Some(v)
    else if v.Dict? && keys[0] in v.entries then Lookup(v.entries[keys[0]], keys[1..])
    else None
  }

  /** `get(key_path, default)` once the path is split at its dots. */
  function ValueAt(config: map<string, Value>, keys: seq<string>, default: Value): Value {
    var found := Lookup(Dict(config), keys);
    if found.Some? then found.value else default
  }

  /** The settings `validate` and `is_configured` read: "github.repo_url",
      "local.code_directory" and "github.sync_interval". */
  const RepoUrlKeys := ["github", "repo_url"]
  const CodeDirectoryKeys := ["local", "code_directory"]
  const SyncIntervalKeys := ["github", "sync_interval"]

  /** A value from the loaded file that is not itself a section is what the merged
      configuration holds at that path, whatever the defaults say. */
  lemma {:induction false} MergeLoadedWins(default: map<string, Value>, loaded: map<string, Value>, keys: seq<string>)
    requires Lookup(Dict(loaded), keys).Some? && !Lookup(Dict(loaded), keys).value.Dict?
    ensures Lookup(Dict(Merge(default, loaded)), keys) == Lookup(Dict(loaded), keys)
    decreases |keys|
  {
    var k := keys[0];
    var merged := Merge(default, loaded);
    if |keys| > 1 && k in default && default[k].Dict? && loaded[k].Dict? {
      MergeLoadedWins(default[k].entries, loaded[k].entries, keys[1..]);
    }
  }

  /** The point of the recursive merge: a default setting survives when the loaded
      file leaves it out, even where the file does set other keys of the same
      sections (every section the path passes through in the file is a dict).
      A file setting only "github.repo_url" keeps the default "github.branch". */
  lemma {:induction false} MergeKeepsDefaultPath(default: map<string, Value>, loaded: map<string, Value>, keys: seq<string>)
    requires |keys| >= 1
    requires Lookup(Dict(default), keys).Some? && Lookup(Dict(loaded), keys).None?
    requires forall n :: 0 < n < |keys| ==>
      Lookup(Dict(loaded), keys[..n]).None? || Lookup(Dict(loaded), keys[..n]).value.Dict?
    ensures Lookup(Dict(Merge(default, loaded)), keys) == Lookup(Dict(default), keys)
    decreases |keys|
  {
    var k := keys[0];
    var merged := Merge(default, loaded);
    if |keys| > 1 && k in loaded {
      LookupPrefix(loaded, keys, 1);
      var d, l := default[k].entries, loaded[k].entries;
      forall n | 0 < n < |keys| - 1
        ensures Lookup(Dict(l), keys[1..][..n]).None? || Lookup(Dict(l), keys[1..][..n]).value.Dict?
      {
        LookupPrefix(loaded, keys, n + 1);
      }
      MergeKeepsDefaultPath(d, l, keys[1..]);
    }
  }

  /** A section merged with itself is unchanged: loading the defaults back gives the defaults. */
  lemma {:induction false} MergeSelf(m: map<string, Value>)
    ensures Merge(m, m) == m
    decreases Dict(m)
  {
    forall k | k in m
      ensures Merge(m, m)[k] == m[k]
    {
      if m[k].Dict? {
        MergeSelf(m[k].entries);
      }
    }
  }

  /** `set(key_path, value)` on values: `None` is the `TypeError` Python raises when
      the path runs through an existing value that is not a dict. Missing
      intermediate sections are created empty. */
  function SetPath(m: map<string, Value>, keys: seq<string>, v: Value): Option<map<string, Value>>
    requires |keys| >= 1
    decreases |keys|
  {
    if |keys| == 1 then Some(m[keys[0] := v])
    else if keys[0] in m && !m[keys[0]].Dict? then None
    else
      var child := if keys[0] in m then m[keys[0]].entries else map[];
      match SetPath(child, keys[1..], v)
      case None => None
      case Some(c) => Some(m[keys[0] := Dict(c)])
  }

  /** After a successful `set(path, v)`, `get(path)` gives `v`. */
  lemma {:induction false} GetAfterSet(m: map<string, Value>, keys: seq<string>, v: Value)
    requires |keys| >= 1 && SetPath(m, keys, v).Some?
    ensures Lookup(Dict(SetPath(m, keys, v).value), keys) == Some(v)
    decreases |keys|
  {
    if |keys| > 1 {
      var child := if keys[0] in m then m[keys[0]].entries else map[];
      GetAfterSet(child, keys[1..], v);
    }
  }

  /** A successful `set` leaves every path that parts from the set path (at key `i`)
      with the value it had. */
  lemma {:induction false} SetLeavesOtherPaths(m: map<string, Value>, keys: seq<string>, v: Value, q: seq<string>, i: nat)
    requires |keys| >= 1 && SetPath(m, keys, v).Some?
    requires i < |q| && i < |keys| && q[..i] == keys[..i] && q[i] != keys[i]
    ensures Lookup(Dict(SetPath(m, keys, v).value), q) == Lookup(Dict(m), q)
    decreases i
  {
    if i > 0 {
      assert q[0] == keys[0] by { assert q[..i][0] == keys[..i][0]; }
      var child := if keys[0] in m then m[keys[0]].entries else map[];
      assert q[1..][..i - 1] == keys[1..][..i - 1] by {
        assert q[1..][..i - 1] == q[..i][1..];
        assert keys[1..][..i - 1] == keys[..i][1..];
      }
      SetLeavesOtherPaths(child, keys[1..], v, q[1..], i - 1);
    }
  }

  /** The first `n` keys of the path lead to an existing value that is not a dict. */
  predicate StopsAt(m: map<string, Value>, keys: seq<string>, n: nat)
    requires n <= |keys|
  {
    var found := Lookup(Dict(m), keys[..n]);
    found.Some? && !found.value.Dict?
  }

  lemma LookupPrefix(m: map<string, Value>, keys: seq<string>, n: nat)
    requires 1 <= n <= |keys|
    ensures Lookup(Dict(m), keys[..n]) == if keys[0] in m then Lookup(m[keys[0]], keys[1..][..n - 1]) else None
  {
    assert keys[..n][0] == keys[0];
    assert keys[..n][1..] == keys[1..][..n - 1];
  }

  /** `set` fails exactly when some proper prefix of the path already holds a value
      that is not a dict. */
  lemma {:induction false} SetFailsIffBlocked(m: map<string, Value>, keys: seq<string>, v: Value)
    requires |keys| >= 1
    ensures SetPath(m, keys, v).None? <==> exists n :: 1 <= n < |keys| && StopsAt(m, keys, n)
    decreases |keys|
  {
    if |keys| > 1 {
      var k := keys[0];
      LookupPrefix(m, keys, 1);
      if k in m && !m[k].Dict? {
        assert StopsAt(m, keys, 1);
      } else {
        var child := if k in m then m[k].entries else map[];
        SetFailsIffBlocked(child, keys[1..], v);
        assert !StopsAt(m, keys, 1);
        forall n | 2 <= n < |keys|
          ensures StopsAt(m, keys, n) <==> StopsAt(child, keys[1..], n - 1)
        {
          LookupPrefix(m, keys, n);
          LookupPrefix(child, keys[1..], n - 1);
        }
        if SetPath(m, keys, v).None? {
          var n :| 1 <= n < |keys| - 1 && StopsAt(child, keys[1..], n);
          assert StopsAt(m, keys, n + 1);
        }
      }
    }
  }

  /** The outcome of `validate()`: whether it passed and the errors it found. */
  datatype Validation = Validation(valid: bool, errors: seq<string>)

  const RepoUrlMissing := "GitHub repository URL is not set"
  const CodeDirectoryMissing := "Local code directory is not set"
  const IntervalTooShort := "Sync interval must be at least 10 seconds"

  /** The error naming a code directory that does not exist. */
  function DirectoryMissing(dir: string): string {
    "Local code directory does not exist: " + dir
  }

  /** The four messages are told apart by their first character or their length. */
  lemma MessagesDiffer(dir: string)
    ensures RepoUrlMissing != CodeDirectoryMissing && RepoUrlMissing != IntervalTooShort
    ensures CodeDirectoryMissing != IntervalTooShort
    ensures DirectoryMissing(dir) != RepoUrlMissing && DirectoryMissing(dir) != CodeDirectoryMissing
    ensures DirectoryMissing(dir) != IntervalTooShort
  {
    assert RepoUrlMissing[0] == 'G' && IntervalTooShort[0] == 'S' && CodeDirectoryMissing[0] == 'L';
    assert DirectoryMissing(dir)[0] == 'L' && |DirectoryMissing(dir)| > |CodeDirectoryMissing|;
  }

  /** The errors `validate()` appends, in its order: a missing URL, a missing
      directory, a directory that does not exist, an interval under 10 (`tooShort`). */
  function ErrorList(repo: Value, dir: Value, tooShort: bool, dirExists: string -> bool): (errors: seq<string>)
    requires Truthy(dir) ==> dir.Str?
    ensures RepoUrlMissing in errors <==> !Truthy(repo)
    ensures CodeDirectoryMissing in errors <==> !Truthy(dir)
    ensures dir.Str? ==> (DirectoryMissing(dir.s) in errors <==> dir.s != "" && !dirExists(dir.s))
    ensures IntervalTooShort in errors <==> tooShort
    ensures forall e :: e in errors ==>
      e == RepoUrlMissing || e == CodeDirectoryMissing || e == IntervalTooShort || (dir.Str? && e == DirectoryMissing(dir.s))
  {
    MessagesDiffer(if dir.Str? then dir.s else "");
    (if Truthy(repo) then [] else [RepoUrlMissing])
    + (if Truthy(dir) then [] else [CodeDirectoryMissing])
    + (if Truthy(dir) && !dirExists(dir.s) then [DirectoryMissing(dir.s)] else [])
    + (if tooShort then [IntervalTooShort] else [])
  }

  /** `validate()`. `dirExists` answers `Path(dir).exists()`. `None` is the
      `TypeError` Python raises when the code directory is set to something other
      than a string or the sync interval is not a number (`True` and `False`
      compare as 1 and 0). */
  function Validate(config: map<string, Value>, dirExists: string -> bool): (r: Option<Validation>)
    ensures var dir := ValueAt(config, CodeDirectoryKeys, Null);
      var interval := ValueAt(config, SyncIntervalKeys, Null);
      r.None? <==> (Truthy(dir) && !dir.Str?) || !(interval.Int? || interval.Bool?)
    ensures r.Some? ==> (r.value.valid <==> r.value.errors == [])
  {
    var repo := ValueAt(config, RepoUrlKeys, Null);
    var dir := ValueAt(config, CodeDirectoryKeys, Null);
    var interval := ValueAt(config, SyncIntervalKeys, Null);
    if Truthy(dir) && !dir.Str? then None
    else
      match interval
      case Int(n) =>
        var errors := ErrorList(repo, dir, n < 10, dirExists);
        Some(Validation(errors == [], errors))
      case Bool(b) =>
        var errors := ErrorList(repo, dir, true, dirExists);
        Some(Validation(false, errors))
      case _ => None
  }

  /** Each setting has its own message: the URL message appears iff the URL is
      unset, the directory messages iff the directory is unset or does not exist,
      the interval message iff the interval is under 10, and no other message appears. */
  lemma ValidateReports(config: map<string, Value>, dirExists: string -> bool)
    ensures var r := Validate(config, dirExists);
      var repo := ValueAt(config, RepoUrlKeys, Null);
      var dir := ValueAt(config, CodeDirectoryKeys, Null);
      var interval := ValueAt(config, SyncIntervalKeys, Null);
      r.Some? ==>
      && (RepoUrlMissing in r.value.errors <==> !Truthy(repo))
      && (CodeDirectoryMissing in r.value.errors <==> !Truthy(dir))
      && (dir.Str? ==> (DirectoryMissing(dir.s) in r.value.errors <==> dir.s != "" && !dirExists(dir.s)))
      && (IntervalTooShort in r.value.errors <==> interval.Bool? || (interval.Int? && interval.i < 10))
      && (forall e :: e in r.value.errors ==>
            e == RepoUrlMissing || e == CodeDirectoryMissing || e == IntervalTooShort
            || (dir.Str? && e == DirectoryMissing(dir.s)))
  {
  }

  /** `is_configured()`: both the repository URL and the code directory are set. */
  predicate IsConfigured(config: map<string, Value>) {
    Truthy(ValueAt(config, RepoUrlKeys, Null)) && Truthy(ValueAt(config, CodeDirectoryKeys, Null))
  }

  /** The configuration passes validation exactly when the repository URL is set,
      the code directory names an existing directory and the interval is at least
      10; a valid configuration is a configured one. */
  lemma ValidIff(config: map<string, Value>, dirExists: string -> bool)
    ensures var dir := ValueAt(config, CodeDirectoryKeys, Null);
      var interval := ValueAt(config, SyncIntervalKeys, Null);
      Validate(config, dirExists) == Some(Validation(true, [])) <==>
        && Truthy(ValueAt(config, RepoUrlKeys, Null))
        && dir.Str? && dir.s != "" && dirExists(dir.s)
        && interval.Int? && interval.i >= 10
    ensures Validate(config, dirExists) == Some(Validation(true, [])) ==> IsConfigured(config)
  {
  }

  /** The built-in `DEFAULT_CONFIG`. */
  const Defaults: map<string, Value> := map[
    "github" := Dict(map[
      "repo_url" := Str(""),
      "branch" := Str("main"),
      "auto_push" := Bool(true),
      "auto_pull" := Bool(true),
      "sync_interval" := Int(30)]),
    "local" := Dict(map[
      "code_directory" := Str(""),
      "watch_patterns" := List([Str("*.py"), Str("*.js"), Str("*.jsx"), Str("*.ts"), Str("*.tsx"),
                                Str("*.html"), Str("*.css"), Str("*.json"), Str("*.md")])]),
    "perplexity" := Dict(map[
      "url" := Str("https://www.perplexity.ai"),
      "custom_prompt_enabled" := Bool(true),
      "custom_prompt_template" := Str("coding_assistant")]),
    "ui" := Dict(map[
      "theme" := Str("dark"),
      "max_tabs" := Int(5),
      "show_notifications" := Bool(true),
      "window_width" := Int(1400),
      "window_height" := Int(900)]),
    "sync" := Dict(map[
      "commit_prefix" := Str("[Wave.AI Auto]"),
      "conflict_strategy" := Str("manual"),
      "auto_commit_on_save" := Bool(true),
      "commit_message_template" := Str("[Wave.AI Auto] {timestamp}: {files_changed}")]),
    "version_control" := Dict(map[
      "max_history" := Int(100),
      "checkpoint_interval" := Int(300),
      "auto_checkpoint" := Bool(true)])]

  /** A fresh installation fails validation on the two missing settings only, and is not configured. */
  lemma DefaultsNeedSetup(dirExists: string -> bool)
    ensures Validate(Defaults, dirExists) == Some(Validation(false, [RepoUrlMissing, CodeDirectoryMissing]))
    ensures !IsConfigured(Defaults)
  {
    var github := Defaults["github"];
    assert ValueAt(Defaults, RepoUrlKeys, Null) == Str("") by {
      assert Lookup(Dict(Defaults), RepoUrlKeys) == Lookup(github, RepoUrlKeys[1..]);
      assert RepoUrlKeys[1..] == ["repo_url"];
    }
    assert ValueAt(Defaults, SyncIntervalKeys, Null) == Int(30) by {
      assert Lookup(Dict(Defaults), SyncIntervalKeys) == Lookup(github, SyncIntervalKeys[1..]);
      assert SyncIntervalKeys[1..] == ["sync_interval"];
    }
    assert ValueAt(Defaults, CodeDirectoryKeys, Null) == Str("") by {
      assert Lookup(Dict(Defaults), CodeDirectoryKeys) == Lookup(Defaults["local"], CodeDirectoryKeys[1..]);
      assert CodeDirectoryKeys[1..] == ["code_directory"];
    }
    var noMore: seq<string> := [];
    assert [RepoUrlMissing] + [CodeDirectoryMissing] + noMore + noMore == [RepoUrlMissing, CodeDirectoryMissing];
  }

  /** The configuration `_load_config` starts from: the defaults merged with the
      file's top-level object; a missing or unreadable file, or one whose top
      level is not an object, gives the defaults. */
  function Loaded(file: Option<Value>): map<string, Value> {
    if file.Some? && file.value.Dict? then Merge(Defaults, file.value.entries) else Defaults
  }

  class ConfigManager {
    var config: map<string, Value>

    constructor (file: Option<Value>)
      ensures config == Loaded(file)
    {
      config := Loaded(file);
    }

    /** `get(key_path, default)`: walks the keys one dict at a time. */
    method Get(path: string, default: Value) returns (r: Value)
      ensures r == (if Lookup(Dict(config), Split(path, '.')).Some? then Lookup(Dict(config), Split(path, '.')).value else default)
    {
      var keys := Split(path, '.');
      var value := Dict(config);
      var i := 0;
      while i < |keys|
        invariant 0 <= i <= |keys|
        invariant Lookup(Dict(config), keys) == Lookup(value, keys[i..])
      {
        assert keys[i..][1..] == keys[i + 1..];
        if value.Dict? && keys[i] in value.entries {
          value := value.entries[keys[i]];
        } else {
          return default;
        }
        i := i + 1;
      }
      r := value;
    }

    /** `set(key_path, value)`: walks down to the parent of the last key, creating
        empty sections where a key is missing, then stores the value. `ok` is false
        where Python raises `TypeError`; nothing is changed then. */
    method Set(path: string, v: Value) returns (ok: bool)
      modifies this
      ensures var res := SetPath(old(config), Split(path, '.'), v);
        ok == res.Some? && config == (if ok then res.value else old(config))
    {
      var keys := Split(path, '.');
      var trail, blocked := Descend(config, keys, v);
      if blocked {
        return false;
      }
      config := Rebuild(trail, keys, v);
      ok := true;
    }
  }

  /** One step of the walk in `set`: `key` is missing or holds a dict, and `child`
      is that dict (or the empty one created for it). */
  predicate Step(parent: map<string, Value>, key: string, child: map<string, Value>) {
    && !(key in parent && !parent[key].Dict?)
    && child == (if key in parent then parent[key].entries else map[])
  }

  /** `trail` holds the dicts the walk has visited along the first `i` keys. */
  predicate TrailUpTo(m: map<string, Value>, keys: seq<string>, trail: seq<map<string, Value>>, i: nat) {
    && i < |keys| && |trail| == i + 1 && trail[0] == m
    && forall j :: 0 <= j < i ==> Step(trail[j], keys[j], trail[j + 1])
  }

  /** The walk of `set` down to the parent of the last key; `blocked` where it meets
      a value that is not a dict, which is where `set` raises. */
  method Descend(m: map<string, Value>, keys: seq<string>, v: Value) returns (trail: seq<map<string, Value>>, blocked: bool)
    requires |keys| >= 1
    ensures blocked <==> SetPath(m, keys, v).None?
    ensures !blocked ==> TrailUpTo(m, keys, trail, |keys| - 1)
  {
    trail := [m];
    var i := 0;
    while i < |keys| - 1
      invariant TrailUpTo(m, keys, trail, i)
      invariant SetPath(m, keys, v).None? == SetPath(trail[i], keys[i..], v).None?
    {
      var parent := trail[i];
      assert keys[i..][1..] == keys[i + 1..];
      if keys[i] in parent && !parent[keys[i]].Dict? {
        return trail, true;
      }
      trail := trail + [if keys[i] in parent then parent[keys[i]].entries else map[]];
      i := i + 1;
    }
    blocked := false;
    assert keys[i..] == [keys[i]];
  }

  /** Stores `v` under the last key of the innermost dict of the walk and puts each
      changed dict back into its parent, innermost first. */
  method Rebuild(trail: seq<map<string, Value>>, keys: seq<string>, v: Value) returns (built: map<string, Value>)
    requires |keys| >= 1 && |trail| >= 1 && TrailUpTo(trail[0], keys, trail, |keys| - 1)
    ensures SetPath(trail[0], keys, v) == Some(built)
  {
    var i := |keys| - 1;
    built := trail[i][keys[i] := v];
    assert keys[i..] == [keys[i]];
    while i > 0
      invariant 0 <= i <= |keys| - 1
      invariant SetPath(trail[i], keys[i..], v) == Some(built)
    {
      assert keys[i - 1..][1..] == keys[i..];
      assert Step(trail[i - 1], keys[i - 1], trail[i]);
      built := trail[i - 1][keys[i - 1] := Dict(built)];
      i := i - 1;
    }
  }
}
