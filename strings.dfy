/** The JavaScript string operations the catalog and the resolver use, on
    `string` = `seq<char>`: `includes`, `startsWith`, `toLowerCase`,
    `split('/')`, `replace(pattern, '')` with a string pattern, and the one
    regular-expression replace `replace(/^.*?\//, '')`. */
module Strings {

  import opened Seqs

  /** `s.startsWith(p)`. */
  predicate StartsWith(s: string, p: string)
  {
    |p| <= |s| && s[..|p|] == p
  }

  /** `s.includes(sub)`: some suffix of `s` starts with `sub`. */
  predicate Contains(s: string, sub: string)
    decreases |s|
  {
    StartsWith(s, sub) || (s != [] && Contains(s[1..], sub))
  }

  /** A string contains every string spliced into it. */
  lemma {:induction false} ContainsSpliced(a: string, b: string, c: string)
    ensures Contains(a + b + c, b)
    decreases |a|
  {
    if a == [] {
      assert a + b + c == b + c;
      assert (b + c)[..|b|] == b;
    } else {
      ContainsSpliced(a[1..], b, c);
      assert (a + b + c)[1..] == a[1..] + b + c;
    }
  }

  /** A string can only contain what starts with one of its characters; this
      is how a concrete id is shown not to contain a marker. */
  lemma {:induction false} ContainsFirstChar(s: string, sub: string)
    requires Contains(s, sub) && sub != ""
    ensures sub[0] in s
    decreases |s|
  {
    if StartsWith(s, sub) {
      assert s[0] == s[..|sub|][0];
    } else {
      ContainsFirstChar(s[1..], sub);
      assert sub[0] in s[1..];
    }
  }

  /** A string with no occurrence of the first character of `sub` does not
      contain `sub`. */
  lemma NotContainsByFirstChar(s: string, sub: string)
    requires sub != "" && sub[0] !in s
    ensures !Contains(s, sub)
  {
    if Contains(s, sub) {
      ContainsFirstChar(s, sub);
    }
  }

  /** `subs.some(m => s.includes(m))`. */
  predicate AnyContains(s: string, subs: seq<string>)
  {
    exists i :: 0 <= i < |subs| && Contains(s, subs[i])
  }

  /** `some` over a literal list of two to four markers is their disjunction. */
  lemma AnyContains2(s: string, a: string, b: string)
    ensures AnyContains(s, [a, b]) <==> Contains(s, a) || Contains(s, b)
  {
    if Contains(s, a) { assert [a, b][0] == a; }
    if Contains(s, b) { assert [a, b][1] == b; }
  }

  lemma AnyContains3(s: string, a: string, b: string, c: string)
    ensures AnyContains(s, [a, b, c]) <==> Contains(s, a) || Contains(s, b) || Contains(s, c)
  {
    if Contains(s, a) { assert [a, b, c][0] == a; }
    if Contains(s, b) { assert [a, b, c][1] == b; }
    if Contains(s, c) { assert [a, b, c][2] == c; }
  }

  lemma AnyContains4(s: string, a: string, b: string, c: string, d: string)
    ensures AnyContains(s, [a, b, c, d]) <==> Contains(s, a) || Contains(s, b) || Contains(s, c) || Contains(s, d)
  {
    if Contains(s, a) { assert [a, b, c, d][0] == a; }
    if Contains(s, b) { assert [a, b, c, d][1] == b; }
    if Contains(s, c) { assert [a, b, c, d][2] == c; }
    if Contains(s, d) { assert [a, b, c, d][3] == d; }
  }

  /** `toLowerCase` on ASCII letters; every other character is kept. */
  function LowerChar(c: char): char
  {
    if 'A' <= c <= 'Z' then (c as int + 32) as char else c
  }

  function ToLower(s: string): (r: string)
    ensures |r| == |s|
    ensures forall i :: 0 <= i < |s| ==> r[i] == LowerChar(s[i])
  {
    seq(|s|, i requires 0 <= i < |s| => LowerChar(s[i]))
  }

  /** `s` has no ASCII upper-case letter, so `ToLower` leaves it as it is. */
  predicate IsLowerCase(s: string)
  {
    forall i :: 0 <= i < |s| ==> !('A' <= s[i] <= 'Z')
  }

  /** `s` has no ASCII lower-case letter. */
  predicate HasNoLowerCase(s: string)
  {
    forall i :: 0 <= i < |s| ==> !('a' <= s[i] <= 'z')
  }

  /** Lowercasing keeps every lower-case substring: an id that contains
      `gpt-4` still contains it after `toLowerCase`. */
  lemma {:induction false} LowerKeepsContains(s: string, sub: string)
    requires IsLowerCase(sub) && Contains(s, sub)
    ensures Contains(ToLower(s), sub)
    decreases |s|
  {
    var t := ToLower(s);
    if StartsWith(s, sub) {
      assert t[..|sub|] == sub by {
        forall k | 0 <= k < |sub| ensures t[k] == sub[k] {
          assert s[k] == s[..|sub|][k];
        }
      }
    } else {
      LowerKeepsContains(s[1..], sub);
      assert t[1..] == ToLower(s[1..]);
    }
  }

  /** `s.indexOf(c)`, with "absent" reported as `|s|`. */
  function FirstIndexOf(s: string, c: char): (k: nat)
    ensures k <= |s|
    ensures c !in s[..k]
    ensures k < |s| ==> s[k] == c
    ensures k == |s| <==> c !in s
  {
    if s == [] then 0
    else if s[0] == c then 0
    else
      var k := 1 + FirstIndexOf(s[1..], c);
      assert s[..k] == [s[0]] + s[1..][..k - 1];
      assert s == [s[0]] + s[1..];
      k
  }

  /** `s.split(sep)` for a one-character separator: the pieces between
      successive separators, at least one of them. */
  function Split(s: string, sep: char): (parts: seq<string>)
    ensures |parts| >= 1
    ensures forall i :: 0 <= i < |parts| ==> sep !in parts[i]
    decreases |s|
  {
    var k := FirstIndexOf(s, sep);
    if k == |s| then [s] else [s[..k]] + Split(s[k + 1..], sep)
  }

  /** `parts.join(sep)`. */
  function Join(parts: seq<string>, sep: char): string
    requires |parts| >= 1
  {
    if |parts| == 1 then parts[0] else parts[0] + [sep] + Join(parts[1..], sep)
  }

  /** Joining the pieces gives back the string ... */
  lemma {:induction false} JoinSplit(s: string, sep: char)
    ensures Join(Split(s, sep), sep) == s
    decreases |s|
  {
    var k := FirstIndexOf(s, sep);
    if k < |s| {
      var parts := Split(s, sep);
      var rest := Split(s[k + 1..], sep);
      assert parts == [s[..k]] + rest;
      assert parts[1..] == rest;
      JoinSplit(s[k + 1..], sep);
      assert Join(parts, sep) == s[..k] + [sep] + Join(rest, sep);
      assert s == s[..k] + [sep] + s[k + 1..];
    }
  }

  /** ... and splitting a join of separator-free pieces gives back the pieces. */
  lemma {:induction false} SplitJoin(parts: seq<string>, sep: char)
    requires |parts| >= 1
    requires forall i :: 0 <= i < |parts| ==> sep !in parts[i]
    ensures Split(Join(parts, sep), sep) == parts
  {
    if |parts| > 1 {
      var head, tail := parts[0], parts[1..];
      assert forall i :: 0 <= i < |tail| ==> sep !in tail[i] by {
        assert forall i :: 0 <= i < |tail| ==> tail[i] == parts[i + 1];
      }
      SplitJoin(tail, sep);
      SplitAtFirst(head, sep, Join(tail, sep));
      assert parts == [head] + tail;
    }
  }

  /** Splitting at the first separator, when it follows a separator-free `p`. */
  lemma SplitAtFirst(p: string, c: char, q: string)
    requires c !in p
    ensures Split(p + [c] + q, c) == [p] + Split(q, c)
  {
    var s := p + [c] + q;
    FirstIndexAfter(p, c, q);
    assert s[..|p|] == p && s[|p| + 1..] == q;
  }

  /** The first `c` in `p + [c] + q` is the one after `p` when `p` has none. */
  lemma FirstIndexAfter(p: string, c: char, q: string)
    requires c !in p
    ensures FirstIndexOf(p + [c] + q, c) == |p|
  {
    var s := p + [c] + q;
    var k := FirstIndexOf(s, c);
    assert s[|p|] == c;
    assert s[..|p|] == p;
  }

  /** The first occurrence of `pat` in `s`, as `indexOf` finds it. */
  function Find(s: string, pat: string): (r: Option<nat>)
    ensures r.Some? ==> r.value + |pat| <= |s| && s[r.value..r.value + |pat|] == pat
    ensures r.Some? ==> forall j :: 0 <= j < r.value ==> !StartsWith(s[j..], pat)
    ensures r.None? <==> !Contains(s, pat)
    decreases |s|
  {
    if StartsWith(s, pat) then Some(0)
    else if s == [] then None
    else
      match Find(s[1..], pat)
      case None => None
      case Some(k) =>
        assert forall j :: 1 <= j < k + 1 ==> s[j..] == s[1..][j - 1..];
        assert s[k + 1..k + 1 + |pat|] == s[1..][k..k + |pat|];
        Some(k + 1)
  }

  /** `s.replace(pat, rep)` with a string pattern: only the first occurrence
      is replaced, and nothing happens when there is none. */
  function ReplaceFirst(s: string, pat: string, rep: string): string
  {
    match Find(s, pat)
    case None => s
    case Some(k) => s[..k] + rep + s[k + |pat|..]
  }

  /** When `s` starts with `pat`, replacing it by the empty string drops exactly
      that prefix (`'openai/gpt-4'.replace('openai/', '') == 'gpt-4'`), even
      if `pat` occurs again later. */
  lemma ReplacePrefix(s: string, pat: string)
    requires StartsWith(s, pat)
    ensures ReplaceFirst(s, pat, "") == s[|pat|..]
  {
  }

  /** The characters JavaScript's `.` does not match outside `s` mode. */
  predicate IsLineTerminator(c: char)
  {
    c == '\n' || c == '\r' || c == '\U{2028}' || c == '\U{2029}'
  }

  predicate HasLineTerminator(s: string)
  {
    exists i :: 0 <= i < |s| && IsLineTerminator(s[i])
  }

  /** `s.replace(/^.*?\//, '')`: drop everything up to and including the
      first `/`. The regular expression matches only at the start and its `.`
      stops at a line terminator, so a line terminator before the first `/`
      (or no `/` at all) leaves `s` unchanged. */
  function StripThroughFirstSlash(s: string): (r: string)
    ensures '/' !in s ==> r == s
    ensures |r| <= |s|
  {
    var k := FirstIndexOf(s, '/');
    if k < |s| && !HasLineTerminator(s[..k]) then s[k + 1..] else s
  }

  /** The strip removes exactly the first segment and its `/`. */
  lemma StripFirstSegment(p: string, q: string)
    requires '/' !in p && !HasLineTerminator(p)
    ensures StripThroughFirstSlash(p + "/" + q) == q
  {
    FirstIndexAfter(p, '/', q);
    var s := p + "/" + q;
    assert s[..|p|] == p;
    assert s[|p| + 1..] == q;
  }

  /** A line terminator before the first `/` blocks the strip. */
  lemma StripBlockedByLineTerminator(p: string, q: string)
    requires '/' !in p && HasLineTerminator(p)
    ensures StripThroughFirstSlash(p + "/" + q) == p + "/" + q
  {
    FirstIndexAfter(p, '/', q);
    var s := p + "/" + q;
    assert s[..|p|] == p;
  }
}
