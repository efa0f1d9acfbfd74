/** The few JavaScript string operations the application relies on, with their ECMAScript
    meaning: `includes`, `indexOf`, `split`, `trim`, `startsWith`/`endsWith`, ASCII
    `toLowerCase`, `join`, and the decimal rendering of an integer in a template literal. */
module JsText {

  datatype Option<T> = None | Some(value: T)

  /** `d` occurs in `s` starting at index `i`. */
  predicate OccursAt(s: string, d: string, i: nat) {
    i + |d| <= |s| && s[i..i + |d|] == d
  }

  predicate StartsWith(s: string, p: string) {
    |p| <= |s| && s[..|p|] == p
  }

  predicate EndsWith(s: string, p: string) {
    |p| <= |s| && s[|s| - |p|..] == p
  }

  /** `s.indexOf(d, k)`: the first occurrence of `d` at or after `k`. */
  function IndexFrom(s: string, d: string, k: nat): Option<nat>
    requires k <= |s|
    decreases |s| - k
  {
    if OccursAt(s, d, k) then Some(k)
    else if k == |s| then None
    else IndexFrom(s, d, k + 1)
  }

  lemma {:induction false} IndexFromSpec(s: string, d: string, k: nat)
    requires k <= |s|
    decreases |s| - k
    ensures var r := IndexFrom(s, d, k);
      && (r.Some? ==> k <= r.value && OccursAt(s, d, r.value))
      && (r.Some? ==> forall j :: k <= j < r.value ==> !OccursAt(s, d, j))
      && (r.None? ==> forall j :: k <= j ==> !OccursAt(s, d, j))
  {
    if !OccursAt(s, d, k) && k < |s| {
      IndexFromSpec(s, d, k + 1);
    }
  }

  /** `s.indexOf(d)`, with `None` for -1. */
  function IndexOf(s: string, d: string): (r: Option<nat>)
    ensures r.Some? <==> exists j: nat :: OccursAt(s, d, j)
    ensures r.Some? ==> OccursAt(s, d, r.value) && forall j: nat :: j < r.value ==> !OccursAt(s, d, j)
  {
    IndexFromSpec(s, d, 0);
    IndexFrom(s, d, 0)
  }

  /** `s.includes(d)`. */
  predicate Includes(s: string, d: string) {
    IndexOf(s, d).Some?
  }

  /** An occurrence inside a prefix is an occurrence in the whole string. */
  lemma OccursInPrefix(s: string, d: string, k: nat, j: nat)
    requires k <= |s| && OccursAt(s[..k], d, j)
    ensures OccursAt(s, d, j)
  {
    assert s[..k][j..j + |d|] == s[j..j + |d|];
  }

  /** An occurrence inside a suffix is an occurrence in the whole string. */
  lemma OccursInSuffix(s: string, d: string, k: nat, j: nat)
    requires k <= |s| && OccursAt(s[k..], d, j)
    ensures OccursAt(s, d, k + j)
  {
    assert s[k..][j..j + |d|] == s[k + j..k + j + |d|];
  }

  /** `s.split(e)[0]`: the text before the first `e`, or all of `s`. It is the longest
      prefix of `s` free of `e` that ends where `e` begins or at the end of `s`. */
  function CutAt(s: string, e: string): (r: string)
    requires |e| > 0
    ensures StartsWith(s, r) && !Includes(r, e)
    ensures |r| == |s| || StartsWith(s[|r|..], e)
  {
    match IndexOf(s, e)
    case None =>
      assert s[..|s|] == s;
      s
    case Some(k) =>
      var r := s[..k];
      assert !Includes(r, e) by {
        forall j | OccursAt(r, e, j) ensures false {
          OccursInPrefix(s, e, k, j);
        }
      }
      assert s[k..][..|e|] == s[k..k + |e|];
      r
  }

  /** `s.split(d)[1]`: the text between the first and the second `d` (or the end),
      `None` when `s` has no `d` (the element is `undefined`). */
  function SplitSecond(s: string, d: string): (r: Option<string>)
    requires |d| > 0
    ensures r.None? <==> !Includes(s, d)
  {
    match IndexOf(s, d)
    case None => None
    case Some(i) => Some(CutAt(s[i + |d|..], d))
  }

  /** A prefix of a string free of `d` is free of `d`. */
  lemma PrefixExcludes(s: string, p: string, d: string)
    requires StartsWith(s, p) && !Includes(s, d)
    ensures !Includes(p, d)
  {
    if Includes(p, d) {
      var j := IndexOf(p, d).value;
      assert p == s[..|p|];
      OccursInPrefix(s, d, |p|, j);
    }
  }

  /** JavaScript `s.split(d)[1]?.split(e)[0] || ''`: the text after the first `d`, up to
      the next `d` or the first `e`, whichever comes first; `''` when `s` has no `d`.
      (`|| ''` changes nothing: a falsy string is already `''`.) */
  function SplitPick(s: string, d: string, e: string): (r: string)
    requires |d| > 0 && |e| > 0
    ensures !Includes(s, d) ==> r == ""
    ensures Includes(s, d) ==>
      var rest := s[IndexOf(s, d).value + |d|..];
      && StartsWith(rest, r) && !Includes(r, d) && !Includes(r, e)
      && (|r| == |rest| || StartsWith(rest[|r|..], d) || StartsWith(rest[|r|..], e))
  {
    match SplitSecond(s, d)
    case None => ""
    case Some(m) =>
      var rest := s[IndexOf(s, d).value + |d|..];
      assert m == CutAt(rest, d);
      var r := CutAt(m, e);
      PrefixExcludes(m, r, d);
      CutTwice(rest, m, r, d, e);
      r
  }

  /** Cutting `rest` at `d` and the result at `e` ends where `d` or `e` begins, or at the
      end of `rest`. */
  lemma CutTwice(rest: string, m: string, r: string, d: string, e: string)
    requires StartsWith(rest, m) && (|m| == |rest| || StartsWith(rest[|m|..], d))
    requires StartsWith(m, r) && (|r| == |m| || StartsWith(m[|r|..], e))
    ensures StartsWith(rest, r)
    ensures |r| == |rest| || StartsWith(rest[|r|..], d) || StartsWith(rest[|r|..], e)
  {
    assert rest[..|m|] == m;
    assert rest[..|r|] == m[..|r|];
    if |r| < |m| {
      assert m[|r|..][..|e|] == rest[|r|..][..|e|];
    } else {
      assert r == m;
    }
  }

  /** A string lacking one of `d`'s characters does not contain `d`. */
  lemma AbsentCharExcludes(s: string, d: string, i: nat)
    requires i < |d| && d[i] !in s
    ensures !Includes(s, d)
  {
    forall j: nat | j + |d| <= |s| ensures !OccursAt(s, d, j) {
      assert s[j..j + |d|][i] == s[j + i];
    }
  }

  /** An occurrence in a prefix is still there once the string is extended. */
  lemma IncludesExtended(s: string, t: string, d: string)
    requires Includes(s, d)
    ensures Includes(s + t, d)
  {
    var j := IndexOf(s, d).value;
    assert (s + t)[..|s|] == s;
    OccursInPrefix(s + t, d, |s|, j);
  }

  /** The first occurrence is the one at `k` when `d` occurs at `k` and nowhere before. */
  lemma IndexOfIs(s: string, d: string, k: nat)
    requires OccursAt(s, d, k) && forall j: nat :: j < k ==> !OccursAt(s, d, j)
    ensures IndexOf(s, d) == Some(k)
  {
  }

  /** When `d` does not occur in `h` followed by all but the last character of `d`, the
      first `d` in `h + d + t` is the one right after `h`. */
  lemma FirstOccurrence(h: string, d: string, t: string)
    requires |d| > 0 && !Includes(h + d[..|d| - 1], d)
    ensures IndexOf(h + d + t, d) == Some(|h|)
  {
    var s := h + d + t;
    var p := h + d[..|d| - 1];
    assert s[|h|..|h| + |d|] == d;
    assert p == s[..|p|];
    forall j: nat | j < |h| ensures !OccursAt(s, d, j) {
      OccursInPrefixOf(s, d, |p|, j);
    }
    IndexOfIs(s, d, |h|);
  }

  /** Whether `d` occurs at `j` is decided within any prefix the occurrence would fit in. */
  lemma OccursInPrefixOf(s: string, d: string, k: nat, j: nat)
    requires j + |d| <= k <= |s|
    ensures OccursAt(s, d, j) <==> OccursAt(s[..k], d, j)
  {
    assert s[..k][j..j + |d|] == s[j..j + |d|];
  }

  /** In `x + query`, where `query` is empty or starts with `c`, no prefix of `x` shorter
      than `x` ends where `d` or `c` begins, when `x` holds neither and `c` is not in `d`. */
  lemma NoEarlierStop(x: string, query: string, d: string, c: char, n: nat)
    requires |d| > 0
    requires !Includes(x, d) && c !in x && c !in d
    requires query == [] || query[0] == c
    ensures n < |x| ==> !StartsWith((x + query)[n..], d) && !StartsWith((x + query)[n..], [c])
  {
    var rest := x + query;
    if n < |x| {
      assert rest[n] == x[n];
      if n + |d| <= |x| {
        assert x[n..n + |d|] == rest[n..][..|d|];
        assert !OccursAt(x, d, n);
      } else if n + |d| <= |rest| {
        assert rest[n..][..|d|][|x| - n] == c;
      }
    }
  }

  /** A prefix of `x + query` that reaches past `x` holds `c`, when `query` starts with `c`. */
  lemma PastEndHolds(x: string, query: string, c: char, r: string)
    requires StartsWith(x + query, r)
    requires query == [] || query[0] == c
    ensures |r| > |x| ==> Includes(r, [c])
  {
    if |r| > |x| {
      assert r[|x|..|x| + 1] == [c];
      assert OccursAt(r, [c], |x|);
    }
  }

  /** `s.split(d)[1]?.split(c)[0]` reads back the text `x` placed right after the first `d`
      and ended by `c` or by the end of the string, when `x` holds neither `c` nor `d` and `c`
      is not part of `d`. */
  lemma SplitPickBuilt(h: string, d: string, x: string, c: char, query: string)
    requires |d| > 0 && !Includes(h + d[..|d| - 1], d)
    requires !Includes(x, d) && c !in x && c !in d
    requires query == [] || query[0] == c
    ensures SplitPick(h + d + x + query, d, [c]) == x
  {
    var s := h + d + x + query;
    assert s == h + d + (x + query);
    FirstOccurrence(h, d, x + query);
    var rest := x + query;
    assert s[|h| + |d|..] == rest;
    var r := SplitPick(s, d, [c]);
    assert StartsWith(rest, r) && !Includes(r, [c]);
    PastEndHolds(x, query, c, r);
    NoEarlierStop(x, query, d, c, |r|);
    assert r == rest[..|r|];
  }

  /** JavaScript's `WhiteSpace` and `LineTerminator` code points, which `trim` removes. */
  predicate IsJsSpace(c: char) {
    || c == ' ' || c == '\t' || c == '\n' || c == '\r' || c == '\U{000B}' || c == '\U{000C}'
    || c == '\U{00A0}' || c == '\U{FEFF}' || c == '\U{1680}' || ('\U{2000}' <= c <= '\U{200A}')
    || c == '\U{2028}' || c == '\U{2029}' || c == '\U{202F}' || c == '\U{205F}' || c == '\U{3000}'
  }

  /** Leading white space removed. */
  function TrimStart(s: string): string {
    if |s| > 0 && IsJsSpace(s[0]) then TrimStart(s[1..]) else s
  }

  /** Trailing white space removed. */
  function TrimEnd(s: string): string {
    if |s| > 0 && IsJsSpace(s[|s| - 1]) then TrimEnd(s[..|s| - 1]) else s
  }

  /** `TrimStart` is the suffix of `s` after its leading white space. */
  lemma {:induction false} TrimStartSpec(s: string)
    ensures |TrimStart(s)| <= |s| && TrimStart(s) == s[|s| - |TrimStart(s)|..]
    ensures forall i :: 0 <= i < |s| - |TrimStart(s)| ==> IsJsSpace(s[i])
    ensures TrimStart(s) == [] || !IsJsSpace(TrimStart(s)[0])
    decreases |s|
  {
    if |s| > 0 && IsJsSpace(s[0]) {
      TrimStartSpec(s[1..]);
      forall i | 0 <= i < |s| - |TrimStart(s)| ensures IsJsSpace(s[i]) {
        if i > 0 { assert s[i] == s[1..][i - 1]; }
      }
    }
  }

  /** `TrimEnd` is the prefix of `s` before its trailing white space. */
  lemma {:induction false} TrimEndSpec(s: string)
    ensures |TrimEnd(s)| <= |s| && TrimEnd(s) == s[..|TrimEnd(s)|]
    ensures forall i :: |TrimEnd(s)| <= i < |s| ==> IsJsSpace(s[i])
    ensures TrimEnd(s) == [] || !IsJsSpace(TrimEnd(s)[|TrimEnd(s)| - 1])
    decreases |s|
  {
    if |s| > 0 && IsJsSpace(s[|s| - 1]) {
      TrimEndSpec(s[..|s| - 1]);
    }
  }

  /** `s.trim()`. */
  function Trim(s: string): string {
    TrimEnd(TrimStart(s))
  }

  /** A string is trimmed when it neither starts nor ends with white space. */
  predicate IsTrimmed(s: string) {
    s == [] || (!IsJsSpace(s[0]) && !IsJsSpace(s[|s| - 1]))
  }

  /** `trim` yields a trimmed string, leaves a trimmed string alone, and is empty exactly
      for all-white-space input. */
  lemma TrimProperties(s: string)
    ensures IsTrimmed(Trim(s))
    ensures IsTrimmed(s) ==> Trim(s) == s
    ensures Trim(s) == [] <==> forall i :: 0 <= i < |s| ==> IsJsSpace(s[i])
  {
    var a := TrimStart(s);
    var b := TrimEnd(a);
    TrimStartSpec(s);
    TrimEndSpec(a);
    if b != [] {
      assert b[0] == a[0];
    }
  }

  /** Trimming twice is trimming once. */
  lemma TrimTwice(s: string)
    ensures Trim(Trim(s)) == Trim(s)
  {
    TrimProperties(s);
    TrimProperties(Trim(s));
  }

  /** Trimming keeps a slice of the string, so it adds no character. */
  lemma TrimKeepsAbsence(s: string, c: char)
    requires c !in s
    ensures c !in Trim(s)
  {
    var a := TrimStart(s);
    TrimStartSpec(s);
    TrimEndSpec(a);
    assert c !in a;
  }

  /** Leading white space does not change the trimmed text. */
  lemma TrimSkipsLeadingSpace(c: char, s: string)
    requires IsJsSpace(c)
    ensures Trim([c] + s) == Trim(s)
  {
    assert ([c] + s)[1..] == s;
  }

  /** ASCII `toLowerCase` of one character. */
  function LowerChar(c: char): char {
    if 'A' <= c <= 'Z' then (c as int + 32) as char else c
  }

  /** `s.toLowerCase()` on the ASCII letters. */
  function Lower(s: string): (r: string)
    ensures |r| == |s|
    ensures forall i :: 0 <= i < |s| ==> r[i] == LowerChar(s[i])
  {
    seq(|s|, i requires 0 <= i < |s| => LowerChar(s[i]))
  }

  /** `parts.join(sep)`. */
  function Join(parts: seq<string>, sep: string): string {
    if |parts| == 0 then ""
    else if |parts| == 1 then parts[0]
    else parts[0] + sep + Join(parts[1..], sep)
  }

  /** A string with no occurrence of `[c]` does not contain `c`. */
  lemma NoSeparator(s: string, c: char, k: nat)
    requires k <= |s| && forall j: nat :: j < k ==> !OccursAt(s, [c], j)
    ensures c !in s[..k]
  {
    forall j | 0 <= j < k ensures s[j] != c {
      assert !OccursAt(s, [c], j);
      assert s[j..j + 1] == [s[j]];
    }
  }

  /** `s.split(c)` for a one-character separator: the pieces between separators, which
      contain no separator and join back into `s`. */
  function SplitOn(s: string, c: char): (r: seq<string>)
    decreases |s|
    ensures |r| >= 1
    ensures Join(r, [c]) == s
    ensures forall k :: 0 <= k < |r| ==> c !in r[k]
  {
    match IndexOf(s, [c])
    case None =>
      NoSeparator(s, c, |s|);
      assert s[..|s|] == s;
      [s]
    case Some(i) =>
      FirstSeparator(s, c, i);
      var tail := SplitOn(s[i + 1..], c);
      JoinFront(s[..i], tail, [c]);
      [s[..i]] + tail
  }

  /** The first separator cuts `s` into a separator-free head, itself, and the rest. */
  lemma FirstSeparator(s: string, c: char, i: nat)
    requires IndexOf(s, [c]) == Some(i)
    ensures i < |s| && s == s[..i] + [c] + s[i + 1..] && c !in s[..i]
  {
    NoSeparator(s, c, i);
    assert s[i..i + 1] == [c];
  }

  /** Joining a list with a head in front puts the head and a separator before the join. */
  lemma JoinFront(head: string, tail: seq<string>, sep: string)
    requires |tail| >= 1
    ensures Join([head] + tail, sep) == head + sep + Join(tail, sep)
  {
    assert ([head] + tail)[1..] == tail;
  }

  /** `x` contains no `c`, so `[c]` occurs nowhere before `|x|` in `x + rest`. */
  lemma NoOccurrenceBefore(x: string, c: char, rest: string)
    requires c !in x
    ensures forall j: nat :: j < |x| ==> !OccursAt(x + rest, [c], j)
  {
    forall j: nat | j < |x| ensures !OccursAt(x + rest, [c], j) {
      assert (x + rest)[j] == x[j];
    }
  }

  /** Splitting on a separator that first occurs right after `x`. */
  lemma SplitOnAfter(x: string, c: char, y: string)
    requires c !in x
    ensures SplitOn(x + [c] + y, c) == [x] + SplitOn(y, c)
  {
    var s := x + [c] + y;
    assert OccursAt(s, [c], |x|) by { assert s[|x|..|x| + 1] == [c]; }
    NoOccurrenceBefore(x, c, [c] + y);
    assert s == x + ([c] + y);
    assert IndexOf(s, [c]) == Some(|x|);
    assert s[..|x|] == x && s[|x| + 1..] == y;
  }

  /** Splitting a string free of the separator yields just that string. */
  lemma SplitOnNone(x: string, c: char)
    requires c !in x
    ensures SplitOn(x, c) == [x]
  {
    NoOccurrenceBefore(x, c, []);
    assert x + [] == x;
  }

  function DigitChar(d: nat): char
    requires d < 10
  {
    ('0' as int + d) as char
  }

  /** The decimal numeral of `n`, as `${n}` renders an integer. */
  function NatToString(n: nat): (r: string)
    ensures |r| >= 1 && forall i :: 0 <= i < |r| ==> '0' <= r[i] <= '9'
    ensures r[0] == '0' ==> n == 0
  {
    if n < 10 then [DigitChar(n)] else NatToString(n / 10) + [DigitChar(n % 10)]
  }

  /** The value of a decimal numeral. */
  function DigitsValue(s: string): int
    requires forall i :: 0 <= i < |s| ==> '0' <= s[i] <= '9'
  {
    if |s| == 0 then 0 else DigitsValue(s[..|s| - 1]) * 10 + (s[|s| - 1] as int - '0' as int)
  }

  /** The rendering of a number reads back as that number. */
  lemma {:induction false} NatToStringValue(n: nat)
    ensures DigitsValue(NatToString(n)) == n
  {
    if n >= 10 {
      NatToStringValue(n / 10);
      var r := NatToString(n);
      assert r[..|r| - 1] == NatToString(n / 10);
    }
  }

  /** `${n}` for an integer. */
  function IntToString(n: int): (r: string)
    ensures n >= 0 ==> r == NatToString(n)
    ensures n < 0 ==> r == "-" + NatToString(-n)
  {
    if n >= 0 then NatToString(n) else "-" + NatToString(-n)
  }
}
