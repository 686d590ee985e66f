/** The change filter and debounce of the file watcher (src/core/file_watcher.py).
    A `ChangeHandler` collects the paths of accepted file-system events into a
    pending set and hands the whole set to the change callback once no event has
    arrived for `debounce` ticks. A `FileWatcher` owns at most one handler and
    switches it on and off. Time is an integer `now` passed in; glob matching
    (`Path.match`) is the oracle `matches`. */
module Watcher {
  import opened Common

  /** The index of the last `d` in `s`, or -1 when there is none (`str.rfind`). */
  function LastIndexOf(s: string, d: char): (k: int)
    ensures -1 <= k < |s|
    ensures k >= 0 ==> s[k] == d
    ensures forall j :: k < j < |s| ==> s[j] != d
    decreases |s|
  {
    if |s| == 0 then -1
    else if s[|s| - 1] == d then |s| - 1
    else LastIndexOf(s[..|s| - 1], d)
  }

  /** `PurePath.suffix` of a final component: from its last dot, unless that dot
      leads the name or ends it. */
  function Suffix(name: string): string {
    var i := LastIndexOf(name, '.');
    if 0 < i < |name| - 1 then name[i..] else ""
  }

  /** A name has the suffix ".pyc" exactly when it ends with ".pyc" after at least one
      other character. */
  lemma PycSuffix(name: string)
    ensures Suffix(name) == ".pyc" <==> |name| > 4 && EndsWith(name, ".pyc")
  {
    if |name| > 4 && EndsWith(name, ".pyc") {
      var k := |name| - 4;
      assert name[k] == '.';
      assert name[k + 1..] == "pyc";
    }
  }

  /** The names of temporary and system files the watcher never reports. */
  predicate IsIgnoredName(name: string) {
    || StartsWith(name, ".")
    || EndsWith(name, ".tmp") || EndsWith(name, ".swp") || EndsWith(name, "~")
    || EndsWith(name, ".bak") || EndsWith(name, ".log")
    || name == "Thumbs.db" || name == ".DS_Store"
  }

  /** The exclusions `_should_process_file` applies before looking at the patterns. */
  predicate Excluded(path: string) {
    var parts := PathParts(path);
    var name := PathName(path);
    || ".git" in parts
    || ".wave-ai-backup" in parts
    || IsIgnoredName(name)
    || Contains(path, "EBWebView") || Contains(path, "BrowserMetrics")
    || "__pycache__" in parts
    || Suffix(name) == ".pyc"
  }

  /** The acceptance rule: not excluded, and either no pattern is configured or
      some pattern matches the path. */
  predicate Accepted(path: string, patterns: seq<string>, matches: (string, string) -> bool) {
    && !Excluded(path)
    && (patterns == [] || exists i :: 0 <= i < |patterns| && matches(path, patterns[i]))
  }

  /** `_should_process_file(path)`: the exclusions, then the first pattern that matches. */
  method ShouldProcessFile(path: string, patterns: seq<string>, matches: (string, string) -> bool)
    returns (r: bool)
    ensures r == Accepted(path, patterns, matches)
  {
    if Excluded(path) {
      return false;
    }
    if patterns == [] {
      return true;
    }
    var i := 0;
    while i < |patterns|
      invariant 0 <= i <= |patterns|
      invariant forall j :: 0 <= j < i ==> !matches(path, patterns[j])
    {
      if matches(path, patterns[i]) {
        return true;
      }
      i := i + 1;
    }
    return false;
  }

  /** Every path under a `.git`, `.wave-ai-backup` or `__pycache__` directory and every
      `.pyc` file is rejected, whatever the patterns say. */
  lemma ExcludedDirectoriesRejected(path: string, patterns: seq<string>, matches: (string, string) -> bool)
    requires ".git" in PathParts(path) || ".wave-ai-backup" in PathParts(path) || "__pycache__" in PathParts(path)
             || (|PathName(path)| > 4 && EndsWith(PathName(path), ".pyc"))
    ensures !Accepted(path, patterns, matches)
  {
    PycSuffix(PathName(path));
  }

  /** A file-system event: the path it concerns and whether it is about a directory. */
  datatype Event = Event(srcPath: string, isDirectory: bool)

  class ChangeHandler {
    const patterns: seq<string>
    const matches: (string, string) -> bool
    const debounce: int
    /** Whether a callback was given: `if self.callback:` */
    const hasCallback: bool
    var pendingChanges: set<string>
    var lastEventTime: int
    var enabled: bool

    constructor (hasCallback: bool, patterns: seq<string>, matches: (string, string) -> bool, debounce: int)
      ensures this.hasCallback == hasCallback && this.patterns == patterns && this.matches == matches
      ensures this.debounce == debounce
      ensures pendingChanges == {} && lastEventTime == 0 && enabled
    {
      this.hasCallback := hasCallback;
      this.patterns := patterns;
      this.matches := matches;
      this.debounce := debounce;
      pendingChanges := {};
      lastEventTime := 0;
      enabled := true;
    }

    /** `_process_event`: an accepted event adds its path and restarts the quiet period. */
    method ProcessEvent(event: Event, now: int)
      modifies this
      ensures enabled == old(enabled)
      ensures !old(enabled) || event.isDirectory || !Accepted(event.srcPath, patterns, matches) ==>
        pendingChanges == old(pendingChanges) && lastEventTime == old(lastEventTime)
      ensures old(enabled) && !event.isDirectory && Accepted(event.srcPath, patterns, matches) ==>
        pendingChanges == old(pendingChanges) + {event.srcPath} && lastEventTime == now
    {
      if !enabled {
        return;
      }
      if event.isDirectory {
        return;
      }
      var accept := ShouldProcessFile(event.srcPath, patterns, matches);
      if !accept {
        return;
      }
      pendingChanges := pendingChanges + {event.srcPath};
      lastEventTime := now;
    }

    method Enable()
      modifies this`enabled
      ensures enabled
    {
      enabled := true;
    }

    method Disable()
      modifies this`enabled
      ensures !enabled
    {
      enabled := false;
    }

    /** `check_and_trigger`: once `debounce` ticks have passed since the last accepted
        event, every pending path goes to the callback (`delivered`) and the set is
        emptied; before that, or when disabled or idle, nothing happens. */
    method CheckAndTrigger(now: int) returns (delivered: Option<set<string>>)
      modifies this`pendingChanges
      ensures !enabled || old(pendingChanges) == {} || now - lastEventTime < debounce ==>
        pendingChanges == old(pendingChanges) && delivered == None
      ensures enabled && old(pendingChanges) != {} && now - lastEventTime >= debounce ==>
        && pendingChanges == {}
        && delivered == (if hasCallback then Some(old(pendingChanges)) else None)
    {
      delivered := None;
      if !enabled {
        return;
      }
      if pendingChanges == {} {
        return;
      }
      if now - lastEventTime >= debounce {
        var changes := pendingChanges;
        pendingChanges := {};
        if hasCallback {
          delivered := Some(changes);
        }
      }
    }
  }

  /** The watcher's flags and its handler. The observer thread is not modelled;
      `start` and `stop` only create and drop the handler. */
  class FileWatcher {
    const patterns: seq<string>
    const matches: (string, string) -> bool
    const debounce: int
    var hasCallback: bool
    var handler: ChangeHandler?
    var isRunning: bool
    var shouldStop: bool

    /** A handler exists exactly while the watcher runs, and never once stopping began. */
    ghost predicate Valid()
      reads this
    {
      (isRunning <==> handler != null) && (handler != null ==> !shouldStop)
    }

    constructor (patterns: seq<string>, matches: (string, string) -> bool, debounce: int)
      ensures Valid()
      ensures this.patterns == patterns && this.matches == matches && this.debounce == debounce
      ensures !hasCallback && handler == null && !isRunning && !shouldStop
    {
      this.patterns := patterns;
      this.matches := matches;
      this.debounce := debounce;
      hasCallback := false;
      handler := null;
      isRunning := false;
      shouldStop := false;
    }

    /** `set_change_callback`: an existing handler receives the callback as well. */
    method SetChangeCallback()
      requires Valid()
      modifies this`hasCallback
      ensures Valid() && hasCallback
    {
      hasCallback := true;
    }

    /** `start`: refused when already running, when the watched path does not exist
        or when no callback is set; otherwise a fresh handler over the watcher's
        patterns is installed. */
    method Start(pathExists: bool)
      requires Valid()
      modifies this`handler, this`isRunning, this`shouldStop
      ensures Valid()
      ensures old(isRunning) || !pathExists || !hasCallback ==>
        handler == old(handler) && isRunning == old(isRunning) && shouldStop == old(shouldStop)
      ensures !old(isRunning) && pathExists && hasCallback ==>
        && isRunning && !shouldStop && fresh(handler)
        && handler.patterns == patterns && handler.debounce == debounce && handler.hasCallback
        && handler.pendingChanges == {} && handler.enabled
    {
      if isRunning {
        return;
      }
      if !pathExists {
        return;
      }
      if !hasCallback {
        return;
      }
      shouldStop := false;
      handler := new ChangeHandler(hasCallback, patterns, matches, debounce);
      isRunning := true;
    }

    /** `stop`: the handler is disabled and dropped; stopping is remembered. */
    method Stop()
      requires Valid()
      modifies this`handler, this`isRunning, this`shouldStop, handler
      ensures Valid()
      ensures !old(isRunning) ==> handler == old(handler) && shouldStop == old(shouldStop) && !isRunning
      ensures old(isRunning) ==> handler == null && shouldStop && !isRunning && !old(handler).enabled
    {
      if !isRunning {
        return;
      }
      shouldStop := true;
      handler.Disable();
      handler := null;
      isRunning := false;
    }

    /** `check_debounce`: forwards to the handler unless stopping began. */
    method CheckDebounce(now: int) returns (delivered: Option<set<string>>)
      requires Valid()
      modifies handler
      ensures Valid()
      ensures handler != null ==> handler.enabled == old(handler.enabled) && handler.lastEventTime == old(handler.lastEventTime)
      ensures handler == null || shouldStop ==> delivered == None
      ensures handler != null && !shouldStop ==>
        var h := handler;
        && (!h.enabled || old(h.pendingChanges) == {} || now - h.lastEventTime < h.debounce ==>
              h.pendingChanges == old(h.pendingChanges) && delivered == None)
        && (h.enabled && old(h.pendingChanges) != {} && now - h.lastEventTime >= h.debounce ==>
              h.pendingChanges == {} && delivered == (if h.hasCallback then Some(old(h.pendingChanges)) else None))
    {
      delivered := None;
      if handler != null && !shouldStop {
        delivered := handler.CheckAndTrigger(now);
      }
    }

    /** `pause`: the handler stops accepting events; what is pending stays pending. */
    method Pause()
      requires Valid()
      modifies handler
      ensures Valid()
      ensures handler != null ==>
        && !handler.enabled
        && handler.pendingChanges == old(handler.pendingChanges) && handler.lastEventTime == old(handler.lastEventTime)
    {
      if handler != null {
        handler.Disable();
      }
    }

    /** `resume`: the handler accepts events again, unless stopping began. */
    method Resume()
      requires Valid()
      modifies handler
      ensures Valid()
      ensures handler != null ==> handler.enabled
      ensures handler != null ==>
        handler.pendingChanges == old(handler.pendingChanges) && handler.lastEventTime == old(handler.lastEventTime)
    {
      if handler != null && !shouldStop {
        handler.Enable();
      }
    }

    /** `get_pending_changes`. */
    method PendingChanges() returns (r: set<string>)
      requires Valid()
      ensures r == (if handler != null then handler.pendingChanges else {})
    {
      r := if handler != null then handler.pendingChanges else {};
    }

    /** `clear_pending_changes`: drops what is pending without calling back. */
    method ClearPendingChanges()
      requires Valid()
      modifies handler
      ensures Valid()
      ensures handler != null ==>
        handler.pendingChanges == {} && handler.enabled == old(handler.enabled) && handler.lastEventTime == old(handler.lastEventTime)
    {
      if handler != null {
        handler.pendingChanges := {};
      }
    }
  }

  /** A name made of lower-case letters only. */
  predicate LowerWord(n: string) {
    |n| > 0 && forall i :: 0 <= i < |n| ==> 'a' <= n[i] <= 'z'
  }

  /** No string made of lower-case letters and dots holds a word starting with
      an upper-case letter, such as "EBWebView" or "BrowserMetrics". */
  lemma NoCapitalisedWord(s: string, q: string)
    requires forall i :: 0 <= i < |s| ==> 'a' <= s[i] <= 'z' || s[i] == '.'
    requires |q| > 0 && 'A' <= q[0] <= 'Z'
    ensures !Contains(s, q)
  {
  }

  /** A path without a '/' is a single part, which is also its name. */
  lemma SinglePart(s: string)
    requires '/' !in s && |s| > 1
    ensures PathParts(s) == [s] && PathName(s) == s
  {
    assert Split(s, '/') == [s];
    assert [s][1..] == [] && KeptSegments([]) == [];
    assert KeptSegments([s]) == [s] + KeptSegments([]);
  }

  /** "n.py" has the suffix ".py". */
  lemma PySuffix(n: string)
    requires LowerWord(n)
    ensures Suffix(n + ".py") == ".py"
  {
    var s := n + ".py";
    assert s[|n|] == '.' && s[|n| + 1] == 'p' && s[|n| + 2] == 'y';
    assert LastIndexOf(s, '.') == |n|;
    assert s[|n|..] == ".py";
  }

  /** A name ending in 'y' and not starting with a dot is no temporary or system file. */
  lemma EndingInYNotIgnored(s: string)
    requires |s| > 1 && s[0] != '.' && s[|s| - 1] == 'y'
    ensures !IsIgnoredName(s)
  {
    assert !StartsWith(s, ".") by { assert s[..1][0] == s[0]; }
    forall q | q in {".tmp", ".swp", "~", ".bak", ".log", "Thumbs.db"}
      ensures !EndsWith(s, q)
    {
      if |q| <= |s| { assert s[|s| - |q|..][|q| - 1] == s[|s| - 1]; }
    }
    assert s != ".DS_Store";
  }

  /** Every plain Python file at the top of the watched tree, such as "main.py",
      passes every exclusion. */
  lemma PlainFileAccepted(n: string)
    requires LowerWord(n)
    ensures !Excluded(n + ".py")
  {
    var s := n + ".py";
    assert forall i :: 0 <= i < |s| ==> 'a' <= s[i] <= 'z' || s[i] == '.' by {
      forall i | 0 <= i < |s|
        ensures 'a' <= s[i] <= 'z' || s[i] == '.'
      {
        if i < |n| { assert s[i] == n[i]; }
      }
    }
    SinglePart(s);
    PySuffix(n);
    NoCapitalisedWord(s, "EBWebView");
    NoCapitalisedWord(s, "BrowserMetrics");
    EndingInYNotIgnored(s);
  }

  /** A paused watcher keeps collecting nothing, keeps what it had, and a resumed
      one delivers it once the quiet period has passed. */
  method PauseResumeScenario(name: string)
    requires LowerWord(name)
  {
    var path := name + ".py";
    var w := new FileWatcher([], (p: string, g: string) => false, 2);
    w.SetChangeCallback();
    w.Start(true);
    var h := w.handler;
    PlainFileAccepted(name);
    h.ProcessEvent(Event(path, false), 10);
    w.Pause();
    h.ProcessEvent(Event("other.py", false), 11);
    assert h.pendingChanges == {path};
    var none := w.CheckDebounce(20);
    assert none == None;
    w.Resume();
    var early := w.CheckDebounce(11);
    assert early == None;
    var batch := w.CheckDebounce(12);
    assert batch == Some({path});
    w.Stop();
    var after := w.CheckDebounce(30);
    assert after == None;
  }
}
