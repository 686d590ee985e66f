/** Values and string operations shared by every component: the optional value
    and (ok, message) pair the Python code returns, and the handful of Python
    string built-ins the components rely on (`in`, `lower`, `startswith`,
    `endswith`, `split`, `join`, `str(n)`, `pathlib.Path(..).parts`/`.name`). */
module Common {

  datatype Option<T> = None | Some(value: T)

  /** The `(success, message)` tuple most operations of the system return. */
  datatype Reply = Reply(ok: bool, message: string)

  lemma AppendAssoc<T>(a: seq<T>, b: seq<T>, c: seq<T>)
    ensures (a + b) + c == a + (b + c)
  {
  }

  predicate StartsWith(s: string, p: string) {
    |p| <= |s| && s[..|p|] == p
  }

  predicate EndsWith(s: string, p: string) {
    |p| <= |s| && s[|s| - |p|..] == p
  }

  /** `q` occurs in `s` starting at offset `i`. */
  predicate OccursAt(s: string, q: string, i: int) {
    0 <= i && i + |q| <= |s| && s[i..i + |q|] == q
  }

  /** Python's `q in s` on strings: `q` occurs at some offset of `s`. */
  predicate Contains(s: string, q: string) {
    exists i | 0 <= i <= |s| - |q| :: OccursAt(s, q, i)
  }

  /** An occurrence inside a part is an occurrence inside any string that
      embeds that part. */
  lemma {:induction false} ContainsInside(a: string, b: string, c: string, q: string)
    requires Contains(b, q)
    ensures Contains(a + b + c, q)
  {
    var i :| 0 <= i <= |b| - |q| && OccursAt(b, q, i);
    assert (a + b + c)[|a| + i..|a| + i + |q|] == b[i..i + |q|];
    assert OccursAt(a + b + c, q, |a| + i);
  }

  function LowerChar(c: char): char {
    if 'A' <= c <= 'Z' then (c as int + 32) as char else c
  }

  /** `str.lower()` restricted to ASCII letters. */
  function Lower(s: string): (r: string)
    ensures |r| == |s|
    ensures forall i :: 0 <= i < |s| ==> r[i] == LowerChar(s[i])
  {
    seq(|s|, i requires 0 <= i < |s| => LowerChar(s[i]))
  }

  /** Case-insensitive `in`, as `q.lower() in s.lower()`. */
  function ContainsIgnoringCase(s: string, q: string): bool {
    Contains(Lower(s), Lower(q))
  }

  /** `sep.join(parts)`. */
  function Join(sep: string, parts: seq<string>): string
    decreases |parts|
  {
    if |parts| == 0 then ""
    else if |parts| == 1 then parts[0]
    else parts[0] + sep + Join(sep, parts[1..])
  }

  lemma ContainsItself(s: string)
    ensures Contains(s, s)
  {
    assert OccursAt(s, s, 0);
  }

  /** Every part of a join occurs in the joined string. */
  lemma {:induction false} JoinContainsEach(sep: string, parts: seq<string>, k: nat)
    requires k < |parts|
    ensures Contains(Join(sep, parts), parts[k])
    decreases |parts|
  {
    if |parts| == 1 {
      ContainsItself(parts[0]);
    } else {
      var rest := Join(sep, parts[1..]);
      if k == 0 {
        ContainsItself(parts[0]);
        ContainsInside("", parts[0], sep + rest, parts[0]);
        assert "" + parts[0] + (sep + rest) == parts[0] + sep + rest;
      } else {
        JoinContainsEach(sep, parts[1..], k - 1);
        ContainsInside(parts[0] + sep, rest, "", parts[k]);
        assert (parts[0] + sep) + rest + "" == parts[0] + sep + rest;
      }
    }
  }

  /** The index of the first `d` in `s`. */
  function FirstIndexOf(s: string, d: char): (k: nat)
    requires d in s
    ensures k < |s| && s[k] == d && d !in s[..k]
  {
    if s[0] == d then 0
    else
      var k := 1 + FirstIndexOf(s[1..], d);
      assert s[..k] == [s[0]] + s[1..][..k - 1];
      k
  }

  /** `s.split(d)` for a one-character separator. */
  function Split(s: string, d: char): (r: seq<string>)
    ensures |r| >= 1
    ensures forall i :: 0 <= i < |r| ==> d !in r[i]
    decreases |s|
  {
    if d !in s then [s]
    else
      var k := FirstIndexOf(s, d);
      [s[..k]] + Split(s[k + 1..], d)
  }

  lemma JoinCons(sep: string, p: string, rest: seq<string>)
    requires |rest| >= 1
    ensures Join(sep, [p] + rest) == p + sep + Join(sep, rest)
  {
    assert ([p] + rest)[1..] == rest;
  }

  /** Joining the pieces of a split with the separator gives back the string. */
  lemma {:induction false} JoinSplit(s: string, d: char)
    ensures Join([d], Split(s, d)) == s
    decreases |s|
  {
    if d in s {
      var k := FirstIndexOf(s, d);
      var tail := s[k + 1..];
      var rest := Split(tail, d);
      assert Split(s, d) == [s[..k]] + rest;
      JoinCons([d], s[..k], rest);
      JoinSplit(tail, d);
      assert s == s[..k] + [d] + tail;
    }
  }

  /** Splitting a join of separator-free pieces gives back the pieces. */
  lemma {:induction false} SplitJoin(parts: seq<string>, d: char)
    requires |parts| >= 1
    requires forall i :: 0 <= i < |parts| ==> d !in parts[i]
    ensures Split(Join([d], parts), d) == parts
    decreases |parts|
  {
    if |parts| > 1 {
      var rest := Join([d], parts[1..]);
      var s := parts[0] + [d] + rest;
      assert s[|parts[0]|] == d;
      var k := FirstIndexOf(s, d);
      assert s[..|parts[0]|] == parts[0];
      assert k == |parts[0]|;
      assert s[..k] == parts[0];
      assert s[k + 1..] == rest;
      SplitJoin(parts[1..], d);
    }
  }

  function DigitChar(d: nat): char
    requires d < 10
  {
    ('0' as int + d) as char
  }

  /** `str(n)` for a natural number. */
  function NatToString(n: nat): (r: string)
    ensures |r| >= 1
    ensures forall i :: 0 <= i < |r| ==> '0' <= r[i] <= '9'
  {
    if n < 10 then [DigitChar(n)] else NatToString(n / 10) + [DigitChar(n % 10)]
  }

  /** `str(i)` for any integer. */
  function IntToString(i: int): (r: string)
    ensures |r| >= 1
    ensures (r[0] == '-') <==> i < 0
  {
    if i < 0 then "-" + NatToString(-i) else NatToString(i)
  }

  function DigitsValue(s: string): int
  {
    if |s| == 0 then 0 else 10 * DigitsValue(s[..|s| - 1]) + (s[|s| - 1] as int - '0' as int)
  }

  /** Reading the decimal digits back gives the number: the rendering loses nothing. */
  lemma {:induction false} NatToStringRoundTrip(n: nat)
    ensures DigitsValue(NatToString(n)) == n
  {
    if n >= 10 {
      NatToStringRoundTrip(n / 10);
      var s := NatToString(n);
      assert s[..|s| - 1] == NatToString(n / 10);
    }
  }

  /** The segments `pathlib` keeps of a '/'-separated path: empty and "." segments are dropped. */
  function PathParts(path: string): seq<string> {
    KeptSegments(Split(path, '/'))
  }

  function KeptSegments(segments: seq<string>): (r: seq<string>)
    ensures forall i :: 0 <= i < |r| ==> r[i] in segments && r[i] != "" && r[i] != "."
    ensures forall i :: 0 <= i < |segments| && segments[i] != "" && segments[i] != "." ==> segments[i] in r
  {
    if |segments| == 0 then []
    else
      var rest := KeptSegments(segments[1..]);
      assert forall i :: 1 <= i < |segments| ==> segments[i] == segments[1..][i - 1];
      if segments[0] == "" || segments[0] == "." then rest else [segments[0]] + rest
  }

  /** `Path(path).name`: the last kept segment, or "" when there is none. */
  function PathName(path: string): string {
    var parts := PathParts(path);
    if |parts| == 0 then "" else parts[|parts| - 1]
  }
}
