/**
 * The JavaScript string operations the core relies on: the `\s` character class
 * (which is also the set `String.prototype.trim` removes), `trim`, `split` on one
 * character, `toLowerCase` restricted to ASCII, `||` on strings, `join`, and
 * case-insensitive occurrence as a regular expression with the `i` flag sees it.
 */
module Text {
  import opened Wrappers
  import opened Seqs

  /** ECMAScript WhiteSpace and LineTerminator code points: the `\s` class. */
  predicate IsSpace(c: char) {
    c in SpaceChars
  }

  const SpaceChars: set<char> := {' ', '\t', '\n', '\r', '\U{000B}', '\U{000C}',
    '\U{00A0}', '\U{1680}', '\U{2000}', '\U{2001}', '\U{2002}', '\U{2003}', '\U{2004}', '\U{2005}', '\U{2006}', '\U{2007}', '\U{2008}', '\U{2009}', '\U{200A}',
    '\U{2028}', '\U{2029}', '\U{202F}', '\U{205F}', '\U{3000}', '\U{FEFF}'}

  predicate IsAsciiLetter(c: char) { ('A' <= c <= 'Z') || ('a' <= c <= 'z') }

  /** The `\d` class. */
  predicate IsDigit(c: char) { '0' <= c <= '9' }

  /** The `\w` class. */
  predicate IsWordChar(c: char) { IsAsciiLetter(c) || IsDigit(c) || c == '_' }

  predicate NotNewline(c: char) { c != '\n' }

  predicate NoSpace(s: string) { forall i :: 0 <= i < |s| ==> !IsSpace(s[i]) }

  /** A printable ASCII character other than the space is not white space. */
  lemma PrintableNotSpace(c: char)
    requires '!' <= c <= '~'
    ensures !IsSpace(c)
  {
  }

  function LowerChar(c: char): char {
    if 'A' <= c <= 'Z' then (c as int + 32) as char else c
  }

  /** `toLowerCase`, ASCII letters only. */
  function Lower(s: string): string {
    seq(|s|, i requires 0 <= i < |s| => LowerChar(s[i]))
  }

  /** JavaScript `s || fallback` for a string operand. */
  function OrElse(s: string, fallback: string): string {
    if s != "" then s else fallback
  }

  function EndsWith(s: string, suffix: string): bool {
    |suffix| <= |s| && s[|s| - |suffix|..] == suffix
  }

  /** `word` occurs in `text` at `p`, compared as a regular expression with flag `i` does. */
  predicate OccursAtIgnoreCase(text: string, p: nat, word: string) {
    p + |word| <= |text| && Lower(text[p..p + |word|]) == Lower(word)
  }

  predicate OccursAt(text: string, p: nat, word: string) {
    p + |word| <= |text| && text[p..p + |word|] == word
  }

  /** `hay.includes(needle)`. */
  predicate Includes(hay: string, needle: string) {
    exists p: nat | p <= |hay| :: OccursAt(hay, p, needle)
  }

  /** Length of the run of characters satisfying P that starts at i. */
  function Run(s: string, i: nat, P: char -> bool): (n: nat)
    requires i <= |s|
    ensures i + n <= |s|
    ensures forall k :: i <= k < i + n ==> P(s[k])
    ensures i + n == |s| || !P(s[i + n])
    decreases |s| - i
  {
    if i < |s| && P(s[i]) then 1 + Run(s, i + 1, P) else 0
  }

  /** Number of white-space characters that start at position i. */
  function SpacesFrom(s: string, i: nat): (n: nat)
    requires i <= |s|
    ensures i + n <= |s|
    ensures forall k :: i <= k < i + n ==> IsSpace(s[k])
    ensures i + n == |s| || !IsSpace(s[i + n])
    decreases |s| - i
  {
    if i < |s| && IsSpace(s[i]) then 1 + SpacesFrom(s, i + 1) else 0
  }

  /** Number of white-space characters that end just before position j. */
  function SpacesBefore(s: string, j: nat): (n: nat)
    requires j <= |s|
    ensures n <= j
    ensures forall k :: j - n <= k < j ==> IsSpace(s[k])
    ensures n == j || !IsSpace(s[j - n - 1])
  {
    if j > 0 && IsSpace(s[j - 1]) then 1 + SpacesBefore(s, j - 1) else 0
  }

  /** `s.trim()`: the result is `s` without its maximal white-space prefix and suffix. */
  function Trim(s: string): (r: string)
    ensures |r| <= |s|
    ensures r == [] || (!IsSpace(r[0]) && !IsSpace(r[|r| - 1]))
    ensures forall c :: c in r ==> c in s
    ensures r == [] <==> forall i :: 0 <= i < |s| ==> IsSpace(s[i])
  {
    var a := SpacesFrom(s, 0);
    if a == |s| then []
    else
      var b := |s| - SpacesBefore(s, |s|);
      assert a < b by {
        assert !IsSpace(s[a]);
      }
      s[a..b]
  }

  /** The trimmed text is one slice of `s`, and everything outside that slice is white
      space. */
  lemma TrimSlice(s: string)
    ensures exists a, b ::
      && 0 <= a <= b <= |s| && Trim(s) == s[a..b]
      && (forall k :: 0 <= k < a ==> IsSpace(s[k]))
      && (forall k :: b <= k < |s| ==> IsSpace(s[k]))
  {
    var a := SpacesFrom(s, 0);
    if a == |s| {
      assert Trim(s) == s[a..a];
    } else {
      var b := |s| - SpacesBefore(s, |s|);
      assert Trim(s) == s[a..b];
    }
  }

  lemma TrimIdempotent(s: string)
    ensures Trim(Trim(s)) == Trim(s)
  {
    var r := Trim(s);
    if r != [] {
      assert SpacesFrom(r, 0) == 0;
      assert SpacesBefore(r, |r|) == 0;
    }
  }

  /** Number of occurrences of c in s. */
  function Count(s: string, c: char): nat {
    if s == [] then 0 else (if s[0] == c then 1 else 0) + Count(s[1..], c)
  }

  /** `s.split(sep)` for a one-character separator. */
  function Split(s: string, sep: char): (parts: seq<string>)
    ensures |parts| >= 1
    ensures forall i :: 0 <= i < |parts| ==> sep !in parts[i]
  {
    if s == [] then [[]]
    else
      var rest := Split(s[1..], sep);
      if s[0] == sep then [[]] + rest else [[s[0]] + rest[0]] + rest[1..]
  }

  /** `parts.join(sep)` for a one-character separator. */
  function Join(parts: seq<string>, sep: char): string {
    if parts == [] then []
    else if |parts| == 1 then parts[0]
    else parts[0] + [sep] + Join(parts[1..], sep)
  }

  /** `split` loses nothing: joining the pieces with the separator restores the input. */
  lemma {:induction false} JoinSplit(s: string, sep: char)
    ensures Join(Split(s, sep), sep) == s
  {
    if s != [] {
      var rest := Split(s[1..], sep);
      JoinSplit(s[1..], sep);
      if s[0] == sep {
        assert Split(s, sep) == [[]] + rest;
      } else {
        var parts := [[s[0]] + rest[0]] + rest[1..];
        if |rest| > 1 {
          assert parts[1..] == rest[1..];
          assert Join(rest, sep) == rest[0] + [sep] + Join(rest[1..], sep);
        }
      }
    }
  }

  /** `s.split(sep).length` is one more than the number of separators. */
  lemma {:induction false} SplitLength(s: string, sep: char)
    ensures |Split(s, sep)| == Count(s, sep) + 1
  {
    if s != [] {
      SplitLength(s[1..], sep);
    }
  }

  /** `items.join(sep)` for a string separator. */
  function JoinWith(items: seq<string>, sep: string): string {
    if items == [] then []
    else if |items| == 1 then items[0]
    else items[0] + sep + JoinWith(items[1..], sep)
  }

  /** Joining one more item appends the separator and the item, or is the item alone. */
  lemma {:induction false} JoinWithAppend(items: seq<string>, x: string, sep: string)
    ensures JoinWith(items + [x], sep) == if items == [] then x else JoinWith(items, sep) + sep + x
  {
    if |items| == 1 {
      assert (items + [x])[1..] == [x];
    } else if |items| > 1 {
      assert (items + [x])[1..] == items[1..] + [x];
      JoinWithAppend(items[1..], x, sep);
    }
  }

  /** Number of white-space characters in s. */
  function SpaceCount(s: string): nat {
    if s == [] then 0 else (if IsSpace(s[0]) then 1 else 0) + SpaceCount(s[1..])
  }

  /** `s.replace(/\s+/g, '')`: the characters of `s` that are not white space, all of them
      and in their order. */
  function StripSpaces(s: string): (r: string)
    ensures NoSpace(r)
    ensures IsSubsequence(r, s)
    ensures |r| == |s| - SpaceCount(s)
    ensures NoSpace(s) ==> r == s
  {
    if s == [] then []
    else if IsSpace(s[0]) then StripSpaces(s[1..])
    else
      var r := [s[0]] + StripSpaces(s[1..]);
      assert r[1..] == StripSpaces(s[1..]);
      r
  }

  /** `s.replace(/\s+/g, '-')`: every maximal white-space run becomes one `-`. */
  function DashRuns(s: string): string
    decreases |s|
  {
    if s == [] then []
    else if IsSpace(s[0]) then
      var n := Run(s, 0, IsSpace);
      "-" + DashRuns(s[n..])
    else [s[0]] + DashRuns(s[1..])
  }

  /** The result has no white space and is no longer than the input, and text without
      white space is left as it is. */
  lemma {:induction false} DashRunsShape(s: string)
    ensures var r := DashRuns(s);
      NoSpace(r) && |r| <= |s| && (NoSpace(s) ==> r == s)
    decreases |s|
  {
    if s != [] {
      if IsSpace(s[0]) {
        var n := Run(s, 0, IsSpace);
        DashRunsShape(s[n..]);
        assert !IsSpace('-');
      } else {
        DashRunsShape(s[1..]);
        assert NoSpace(s) ==> NoSpace(s[1..]);
      }
    }
  }

  /** A run of `n` characters satisfying P that starts at i and cannot be extended is the
      run `Run` measures. */
  lemma RunIs(s: string, i: nat, P: char -> bool, n: nat)
    requires i + n <= |s|
    requires forall k :: i <= k < i + n ==> P(s[k])
    requires i + n == |s| || !P(s[i + n])
    ensures Run(s, i, P) == n
  {
  }

  /** A maximal white-space run becomes exactly one `-`, and the text on either side of
      it is rewritten on its own. */
  lemma {:induction false} DashRunsJoin(a: string, w: string, b: string)
    requires w != [] && forall k :: 0 <= k < |w| ==> IsSpace(w[k])
    requires a == [] || !IsSpace(a[|a| - 1])
    requires b == [] || !IsSpace(b[0])
    ensures DashRuns(a + w + b) == DashRuns(a) + "-" + DashRuns(b)
    decreases |a|
  {
    if a == [] {
      assert a + w + b == w + b;
      DashRunsLeadingRun(w, b);
    } else if IsSpace(a[0]) {
      var n := Run(a, 0, IsSpace);
      DashRunsJoin(a[n..], w, b);
      DashRunsJoinAfterRun(a, n, w, b);
    } else {
      DashRunsJoin(a[1..], w, b);
      DashRunsJoinAfterChar(a, w, b);
    }
  }

  /** The step of `DashRunsJoin` for text that starts with a white-space run of length
      `n`. */
  lemma DashRunsJoinAfterRun(a: string, n: nat, w: string, b: string)
    requires 0 < n < |a| && !IsSpace(a[n]) && forall k :: 0 <= k < n ==> IsSpace(a[k])
    requires DashRuns(a[n..] + w + b) == DashRuns(a[n..]) + "-" + DashRuns(b)
    ensures DashRuns(a + w + b) == DashRuns(a) + "-" + DashRuns(b)
  {
    var s := a + w + b;
    assert forall k :: 0 <= k <= n ==> s[k] == a[k];
    DashRunsAfterLead(s, n);
    assert s[n..] == a[n..] + w + b;
    DashRunsAfterLead(a, n);
    DashPrefixRegroup(DashRuns(s), DashRuns(s[n..]), DashRuns(a), DashRuns(a[n..]), DashRuns(b));
  }

  /** Text that starts with a white-space run of length `n` becomes a dash and the rest. */
  lemma DashRunsAfterLead(s: string, n: nat)
    requires 0 < n <= |s| && (n == |s| || !IsSpace(s[n]))
    requires forall k :: 0 <= k < n ==> IsSpace(s[k])
    ensures DashRuns(s) == "-" + DashRuns(s[n..])
  {
    RunIs(s, 0, IsSpace, n);
  }

  /** If `r` is a dash before `x + "-" + y` and `p` a dash before `x`, then `r` is `p`, a
      dash and `y`. */
  lemma DashPrefixRegroup(r: string, m: string, p: string, x: string, y: string)
    requires r == "-" + m && m == x + "-" + y && p == "-" + x
    ensures r == p + "-" + y
  {
  }

  /** The step of `DashRunsJoin` for text that starts with a character other than white
      space. */
  lemma DashRunsJoinAfterChar(a: string, w: string, b: string)
    requires a != [] && !IsSpace(a[0])
    requires DashRuns(a[1..] + w + b) == DashRuns(a[1..]) + "-" + DashRuns(b)
    ensures DashRuns(a + w + b) == DashRuns(a) + "-" + DashRuns(b)
  {
    var t := a[1..];
    calc {
      DashRuns(a + w + b);
      { assert a + w + b == [a[0]] + (t + w + b); }
      DashRuns([a[0]] + (t + w + b));
      { DashRunsCons(a[0], t + w + b); }
      [a[0]] + DashRuns(t + w + b);
      [a[0]] + (DashRuns(t) + "-" + DashRuns(b));
      ([a[0]] + DashRuns(t)) + "-" + DashRuns(b);
      { assert a == [a[0]] + t; DashRunsCons(a[0], t); }
      DashRuns(a) + "-" + DashRuns(b);
    }
  }

  lemma DashRunsCons(c: char, t: string)
    requires !IsSpace(c)
    ensures DashRuns([c] + t) == [c] + DashRuns(t)
  {
    assert ([c] + t)[1..] == t;
  }

  /** A leading white-space run `w` followed by text that does not start with white space
      becomes one `-`. */
  lemma DashRunsLeadingRun(w: string, b: string)
    requires w != [] && forall k :: 0 <= k < |w| ==> IsSpace(w[k])
    requires b == [] || !IsSpace(b[0])
    ensures DashRuns(w + b) == "-" + DashRuns(b)
  {
    var s := w + b;
    RunIs(s, 0, IsSpace, |w|);
    assert s[|w|..] == b;
  }

  lemma LowerKeepsNoSpace(s: string)
    requires NoSpace(s)
    ensures NoSpace(Lower(s))
  {
  }
}
