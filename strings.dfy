/**
 * The JavaScript string operations the bot relies on (`indexOf`, `includes`,
 * `startsWith`, `endsWith`, `replace` with a string pattern, `split` with a
 * string separator), written over `seq<char>`, together with the facts about
 * them that the parsers need.
 */
module Strings {
  import opened Wrappers

  /** True when `p` occurs in `s` starting at position `i`. */
  predicate OccursAt(s: string, p: string, i: nat) {
    i + |p| <= |s| && s[i..i + |p|] == p
  }

  /** The first position at or after `from` where `p` occurs in `s`, as `s.indexOf(p, from)`. */
  function IndexOf(s: string, p: string, from: nat): (r: Option<nat>)
    ensures r.Some? ==> from <= r.value && OccursAt(s, p, r.value)
    ensures forall j :: from <= j && (r.None? || j < r.value) ==> !OccursAt(s, p, j)
    decreases |s| - from
  {
    if |s| < from + |p| then None
    else if OccursAt(s, p, from) then Some(from)
    else IndexOf(s, p, from + 1)
  }

  /** `s.includes(p)`; also what a regular expression made only of literal characters tests. */
  predicate Contains(s: string, p: string) {
    IndexOf(s, p, 0).Some?
  }

  predicate StartsWith(s: string, p: string) {
    |p| <= |s| && s[..|p|] == p
  }

  predicate EndsWith(s: string, p: string) {
    |p| <= |s| && s[|s| - |p|..] == p
  }

  /** Renders an optional string as a JavaScript template literal does: an absent value prints as "undefined". */
  function Render(o: Option<string>): string {
    match o
    case Some(v) => v
    case None => "undefined"
  }

  /** JavaScript truthiness of an optional string: present and not empty. */
  predicate Truthy(o: Option<string>) {
    o.Some? && o.value != ""
  }

  /** `s.replace(p, rep)` with a string pattern: only the first occurrence is replaced. */
  function ReplaceFirst(s: string, p: string, rep: string): (r: string)
    ensures !Contains(s, p) ==> r == s
    ensures Contains(s, p) ==> exists i: nat ::
      && OccursAt(s, p, i) && (forall j: nat :: j < i ==> !OccursAt(s, p, j))
      && r == s[..i] + rep + s[i + |p|..]
  {
    match IndexOf(s, p, 0)
    case None => s
    case Some(i) => s[..i] + rep + s[i + |p|..]
  }

  /** Concatenates `parts` with `sep` between neighbours, as `parts.join(sep)`. */
  function Join(parts: seq<string>, sep: string): string {
    if |parts| == 0 then ""
    else if |parts| == 1 then parts[0]
    else parts[0] + sep + Join(parts[1..], sep)
  }

  /**
   * `s.split(sep)` for a non-empty separator: the pieces between successive
   * non-overlapping occurrences of `sep`, found left to right. Joining the
   * pieces back gives `s`, and no piece contains the separator.
   */
  function Split(s: string, sep: string): (parts: seq<string>)
    requires |sep| > 0
    ensures |parts| >= 1
    ensures Join(parts, sep) == s
    ensures forall k :: 0 <= k < |parts| ==> !Contains(parts[k], sep)
    decreases |s|
  {
    match IndexOf(s, sep, 0)
    case None => [s]
    case Some(i) =>
      PrefixBeforeFirst(s, sep, i);
      var rest := Split(s[i + |sep|..], sep);
      assert s == s[..i] + sep + s[i + |sep|..];
      [s[..i]] + rest
  }

  /** Positional destructuring `const [a, b, ...] = parts`: a missing position is absent. */
  function Field(parts: seq<string>, i: nat): (r: Option<string>)
    ensures r.Some? <==> i < |parts|
    ensures r.Some? ==> r.value == parts[i]
  {
    if i < |parts| then Some(parts[i]) else None
  }

  /** No occurrence of `p` lies entirely before the first one. */
  lemma {:induction false} PrefixBeforeFirst(s: string, p: string, i: nat)
    requires |p| > 0 && IndexOf(s, p, 0) == Some(i)
    ensures !Contains(s[..i], p)
  {
    var pre := s[..i];
    forall j | 0 <= j && j + |p| <= |pre|
      ensures !OccursAt(pre, p, j)
    {
      assert !OccursAt(s, p, j);
      assert pre[j..j + |p|] == s[j..j + |p|];
    }
    var r := IndexOf(pre, p, 0);
    assert r.Some? ==> OccursAt(pre, p, r.value);
  }

  /** The separator's first character does not occur again in it, so no two occurrences can overlap. */
  predicate HeadUnique(sep: string) {
    |sep| > 0 && forall i :: 0 < i < |sep| ==> sep[i] != sep[0]
  }

  /** A one-character pattern is contained exactly when that character occurs. */
  lemma {:induction false} ContainsChar(s: string, c: char)
    ensures Contains(s, [c]) <==> c in s
  {
    if Contains(s, [c]) {
      var i := IndexOf(s, [c], 0).value;
      assert s[i] == s[i..i + 1][0];
    }
    if c in s {
      var i :| 0 <= i < |s| && s[i] == c;
      assert OccursAt(s, [c], i);
    }
  }

  /** A pattern that holds a character absent from `s` is not contained in `s`. */
  lemma {:induction false} MissingCharNotContained(s: string, p: string, c: char)
    requires c in p && c !in s
    ensures !Contains(s, p)
  {
    var k :| 0 <= k < |p| && p[k] == c;
    forall i | 0 <= i && i + |p| <= |s|
      ensures !OccursAt(s, p, i)
    {
      assert s[i..i + |p|][k] == s[i + k];
    }
  }

  /** In `x + sep + t`, when `x` is free of `sep`, the first occurrence of `sep` is right after `x`. */
  lemma {:induction false} FirstAfterPrefix(x: string, sep: string, t: string)
    requires HeadUnique(sep) && !Contains(x, sep)
    ensures IndexOf(x + sep + t, sep, 0) == Some(|x|)
  {
    var s := x + sep + t;
    assert s[|x|..|x| + |sep|] == sep;
    assert OccursAt(s, sep, |x|);
    forall j | 0 <= j < |x|
      ensures !OccursAt(s, sep, j)
    {
      if j + |sep| <= |x| {
        assert !OccursAt(x, sep, j);
        assert x[j..j + |sep|] == s[j..j + |sep|];
      } else {
        var k := |x| - j;
        assert s[j..j + |sep|][k] == s[|x|] == sep[0];
        assert sep[k] != sep[0];
      }
    }
  }

  /**
   * Splitting a join gives the parts back, when no part contains the
   * separator and occurrences of the separator cannot overlap.
   */
  lemma {:induction false} SplitJoin(parts: seq<string>, sep: string)
    requires |parts| >= 1 && HeadUnique(sep)
    requires forall k :: 0 <= k < |parts| ==> !Contains(parts[k], sep)
    ensures Split(Join(parts, sep), sep) == parts
  {
    if |parts| == 1 {
      assert Join(parts, sep) == parts[0];
    } else {
      var rest := Join(parts[1..], sep);
      var s := parts[0] + sep + rest;
      assert Join(parts, sep) == s;
      FirstAfterPrefix(parts[0], sep, rest);
      assert s[..|parts[0]|] == parts[0];
      assert s[|parts[0]| + |sep|..] == rest;
      SplitJoin(parts[1..], sep);
      assert Split(s, sep) == [parts[0]] + parts[1..];
    }
  }
}
