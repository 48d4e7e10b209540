// String helpers standing for the JavaScript string methods the components use:
// includes, replace (first occurrence of a string), trim, toLowerCase,
// toUpperCase, the regular expressions /\s+/g and /\n+/g, join and number
// formatting.

module Text {

  import opened Types
  import opened Seqs

  /** The characters JavaScript's `\s` and `trim` treat as white space. */
  predicate IsWhitespace(c: char) {
    c == ' ' || c == '\t' || c == '\n' || c == '\r' || c == '\U{000B}' || c == '\U{000C}'
    || c == '\U{00A0}' || c == '\U{1680}' || ('\U{2000}' <= c <= '\U{200A}')
    || c == '\U{2028}' || c == '\U{2029}' || c == '\U{202F}' || c == '\U{205F}'
    || c == '\U{3000}' || c == '\U{FEFF}'
  }

  /** `t` occurs in `s` starting at index `j`. */
  predicate MatchesAt(s: string, t: string, j: nat) {
    j + |t| <= |s| && s[j..j + |t|] == t
  }

  /** The first index at or after `from` where `t` occurs in `s`. */
  function IndexOfFrom(s: string, t: string, from: nat): (r: Option<nat>)
    ensures r.Some? ==> from <= r.value && MatchesAt(s, t, r.value)
    ensures r.Some? ==> forall j :: from <= j < r.value ==> !MatchesAt(s, t, j)
    ensures r.None? ==> forall j :: from <= j ==> !MatchesAt(s, t, j)
    decreases |s| - from
  {
    if from + |t| > |s| then None
    else if s[from..from + |t|] == t then Some(from)
    else IndexOfFrom(s, t, from + 1)
  }

  /** `s.indexOf(t)`: the first occurrence of `t`, if any. */
  function IndexOf(s: string, t: string): Option<nat> {
    IndexOfFrom(s, t, 0)
  }

  /** `s.includes(t)`. */
  predicate Contains(s: string, t: string) {
    IndexOf(s, t).Some?
  }

  lemma ContainsEmpty(s: string)
    ensures Contains(s, "")
  {
    assert MatchesAt(s, "", 0);
  }

  /** `s.replace(t, u)` with a string pattern: only the first occurrence is replaced. */
  function ReplaceFirst(s: string, t: string, u: string): (r: string)
    ensures !Contains(s, t) ==> r == s
    ensures Contains(s, t) ==> r == s[..IndexOf(s, t).value] + u + s[IndexOf(s, t).value + |t|..]
  {
    match IndexOf(s, t)
    case None => s
    case Some(i) => s[..i] + u + s[i + |t|..]
  }

  /** The length of the run of white space that `s` starts with. */
  function LeadingWhitespace(s: string): (n: nat)
    ensures n <= |s|
    ensures forall i :: 0 <= i < n ==> IsWhitespace(s[i])
    ensures n < |s| ==> !IsWhitespace(s[n])
  {
    if s != [] && IsWhitespace(s[0]) then 1 + LeadingWhitespace(s[1..]) else 0
  }

  /** The length of the run of white space that `s` ends with. */
  function TrailingWhitespace(s: string): (n: nat)
    ensures n <= |s|
    ensures forall i :: |s| - n <= i < |s| ==> IsWhitespace(s[i])
    ensures n < |s| ==> !IsWhitespace(s[|s| - n - 1])
  {
    if s != [] && IsWhitespace(s[|s| - 1]) then 1 + TrailingWhitespace(s[..|s| - 1]) else 0
  }

  function TrimStart(s: string): string {
    s[LeadingWhitespace(s)..]
  }

  function TrimEnd(s: string): string {
    s[..|s| - TrailingWhitespace(s)]
  }

  /**
   * `s.trim()`: the result is the stretch of `s` after its leading white
   * space, and everything after that stretch is white space too; no white
   * space is left at either end.
   */
  function Trim(s: string): (r: string)
    ensures LeadingWhitespace(s) + |r| <= |s|
    ensures r == s[LeadingWhitespace(s)..LeadingWhitespace(s) + |r|]
    ensures forall i :: LeadingWhitespace(s) + |r| <= i < |s| ==> IsWhitespace(s[i])
    ensures r != [] ==> !IsWhitespace(r[0]) && !IsWhitespace(r[|r| - 1])
  {
    var t := TrimStart(s);
    var r := TrimEnd(t);
    assert r == s[LeadingWhitespace(s)..LeadingWhitespace(s) + |r|];
    r
  }

  function LowerChar(c: char): char {
    if 'A' <= c <= 'Z' then (c as int + 32) as char else c
  }

  function UpperChar(c: char): char {
    if 'a' <= c <= 'z' then (c as int - 32) as char else c
  }

  /** `s.toLowerCase()` on the ASCII letters. */
  function ToLower(s: string): (r: string)
    ensures |r| == |s|
    ensures forall i :: 0 <= i < |r| ==> !('A' <= r[i] <= 'Z')
    ensures forall i :: 0 <= i < |s| && !('A' <= s[i] <= 'Z') ==> r[i] == s[i]
    ensures forall i :: 0 <= i < |s| && 'A' <= s[i] <= 'Z' ==> r[i] == (s[i] as int + 32) as char
  {
    seq(|s|, i requires 0 <= i < |s| => LowerChar(s[i]))
  }

  /** `s.toUpperCase()` on the ASCII letters. */
  function ToUpper(s: string): (r: string)
    ensures |r| == |s|
    ensures forall i :: 0 <= i < |r| ==> !('a' <= r[i] <= 'z')
    ensures forall i :: 0 <= i < |s| && !('a' <= s[i] <= 'z') ==> r[i] == s[i]
    ensures forall i :: 0 <= i < |s| && 'a' <= s[i] <= 'z' ==> r[i] == (s[i] as int - 32) as char
  {
    seq(|s|, i requires 0 <= i < |s| => UpperChar(s[i]))
  }

  /** `s.replace(/\s+/g, rep)`: every maximal run of white space becomes `rep`. */
  function ReplaceWhitespaceRuns(s: string, rep: string): (r: string)
    ensures forall c :: c in r && c !in rep ==> c in s && !IsWhitespace(c)
    decreases |s|
  {
    if s == [] then []
    else if IsWhitespace(s[0]) then rep + ReplaceWhitespaceRuns(s[LeadingWhitespace(s)..], rep)
    else [s[0]] + ReplaceWhitespaceRuns(s[1..], rep)
  }

  /** How the leading white-space run of `a + b` relates to that of `a`. */
  lemma {:induction false} LeadingWhitespaceAppend(a: string, b: string)
    ensures LeadingWhitespace(a) < |a| ==> LeadingWhitespace(a + b) == LeadingWhitespace(a)
    ensures LeadingWhitespace(a) == |a| ==> LeadingWhitespace(a + b) == |a| + LeadingWhitespace(b)
  {
    if a != [] && IsWhitespace(a[0]) {
      assert (a + b)[1..] == a[1..] + b;
      LeadingWhitespaceAppend(a[1..], b);
    } else if a == [] {
      assert a + b == b;
    }
  }

  /** Text without white space is left as it is. */
  lemma {:induction false} ReplaceWhitespaceRunsNone(s: string, rep: string)
    requires forall i :: 0 <= i < |s| ==> !IsWhitespace(s[i])
    ensures ReplaceWhitespaceRuns(s, rep) == s
  {
    if s != [] {
      ReplaceWhitespaceRunsNone(s[1..], rep);
    }
  }

  /** A character other than white space at the head of `a + b` is copied. */
  lemma ReplaceWhitespaceRunsWordHead(a: string, b: string, rep: string)
    requires a != [] && !IsWhitespace(a[0])
    ensures ReplaceWhitespaceRuns(a + b, rep) == [a[0]] + ReplaceWhitespaceRuns(a[1..] + b, rep)
    ensures ReplaceWhitespaceRuns(a, rep) == [a[0]] + ReplaceWhitespaceRuns(a[1..], rep)
  {
    assert (a + b)[0] == a[0];
    assert (a + b)[1..] == a[1..] + b;
  }

  /** A run of white space at the head of `a + b` that ends inside `a` becomes `rep`. */
  lemma ReplaceWhitespaceRunsRunHead(a: string, b: string, rep: string)
    requires a != [] && IsWhitespace(a[0]) && LeadingWhitespace(a) < |a|
    ensures ReplaceWhitespaceRuns(a + b, rep) == rep + ReplaceWhitespaceRuns(a[LeadingWhitespace(a)..] + b, rep)
    ensures ReplaceWhitespaceRuns(a, rep) == rep + ReplaceWhitespaceRuns(a[LeadingWhitespace(a)..], rep)
  {
    LeadingWhitespaceAppend(a, b);
    assert (a + b)[0] == a[0];
    assert (a + b)[LeadingWhitespace(a)..] == a[LeadingWhitespace(a)..] + b;
  }

  /** When `a` is all white space and `b` does not continue the run, the run becomes `rep`. */
  lemma ReplaceWhitespaceRunsBlankHead(a: string, b: string, rep: string)
    requires a != [] && LeadingWhitespace(a) == |a|
    requires b == [] || !IsWhitespace(b[0])
    ensures ReplaceWhitespaceRuns(a + b, rep) == rep + ReplaceWhitespaceRuns(b, rep)
    ensures ReplaceWhitespaceRuns(a, rep) == rep
  {
    LeadingWhitespaceAppend(a, b);
    assert (a + b)[0] == a[0];
    assert (a + b)[|a|..] == b;
    assert a[|a|..] == [];
  }

  /**
   * Replacing runs works piecewise on `a + b` as long as the seam does not
   * split a run of white space.
   */
  lemma {:induction false} ReplaceWhitespaceRunsAppend(a: string, b: string, rep: string)
    requires a == [] || b == [] || !IsWhitespace(a[|a| - 1]) || !IsWhitespace(b[0])
    ensures ReplaceWhitespaceRuns(a + b, rep) == ReplaceWhitespaceRuns(a, rep) + ReplaceWhitespaceRuns(b, rep)
    decreases |a|
  {
    if a == [] {
      assert a + b == b;
    } else if !IsWhitespace(a[0]) {
      ReplaceWhitespaceRunsWordHead(a, b, rep);
      ReplaceWhitespaceRunsAppend(a[1..], b, rep);
      AppendAssoc([a[0]], ReplaceWhitespaceRuns(a[1..], rep), ReplaceWhitespaceRuns(b, rep));
    } else if LeadingWhitespace(a) < |a| {
      var rest := a[LeadingWhitespace(a)..];
      assert rest[|rest| - 1] == a[|a| - 1];
      ReplaceWhitespaceRunsRunHead(a, b, rep);
      ReplaceWhitespaceRunsAppend(rest, b, rep);
      AppendAssoc(rep, ReplaceWhitespaceRuns(rest, rep), ReplaceWhitespaceRuns(b, rep));
    } else {
      assert IsWhitespace(a[|a| - 1]);
      ReplaceWhitespaceRunsBlankHead(a, b, rep);
    }
  }

  /** A non-empty run of white space on its own becomes one `rep`. */
  lemma ReplaceWhitespaceRunsOfBlank(w: string, rep: string)
    requires w != [] && forall i :: 0 <= i < |w| ==> IsWhitespace(w[i])
    ensures ReplaceWhitespaceRuns(w, rep) == rep
  {
    assert LeadingWhitespace(w) == |w|;
    assert w[|w|..] == [];
  }

  /** Text without white space in front of any `t` is kept in front of what `t` becomes. */
  lemma ReplaceWhitespaceRunsPrefix(a: string, t: string, rep: string)
    requires forall i :: 0 <= i < |a| ==> !IsWhitespace(a[i])
    ensures ReplaceWhitespaceRuns(a + t, rep) == a + ReplaceWhitespaceRuns(t, rep)
  {
    ReplaceWhitespaceRunsNone(a, rep);
    ReplaceWhitespaceRunsAppend(a, t, rep);
  }

  /** A run of white space followed by text without white space becomes `rep` and that text. */
  lemma ReplaceWhitespaceRunsOfRunThen(w: string, b: string, rep: string)
    requires forall i :: 0 <= i < |b| ==> !IsWhitespace(b[i])
    requires w != [] && forall i :: 0 <= i < |w| ==> IsWhitespace(w[i])
    ensures ReplaceWhitespaceRuns(w + b, rep) == rep + b
  {
    ReplaceWhitespaceRunsOfBlank(w, rep);
    ReplaceWhitespaceRunsNone(b, rep);
    ReplaceWhitespaceRunsAppend(w, b, rep);
  }

  /**
   * A maximal run of white space between two stretches without white space
   * becomes exactly one `rep`; the other characters keep their order.
   */
  lemma ReplaceWhitespaceRunsOfRun(a: string, w: string, b: string, rep: string)
    requires forall i :: 0 <= i < |a| ==> !IsWhitespace(a[i])
    requires forall i :: 0 <= i < |b| ==> !IsWhitespace(b[i])
    requires w != [] && forall i :: 0 <= i < |w| ==> IsWhitespace(w[i])
    ensures ReplaceWhitespaceRuns(a + (w + b), rep) == a + (rep + b)
  {
    ReplaceWhitespaceRunsPrefix(a, w + b, rep);
    ReplaceWhitespaceRunsOfRunThen(w, b, rep);
  }

  /** The length of the run of line feeds that `s` starts with. */
  function LeadingNewlines(s: string): (n: nat)
    ensures n <= |s|
    ensures forall i :: 0 <= i < n ==> s[i] == '\n'
    ensures n < |s| ==> s[n] != '\n'
  {
    if s != [] && s[0] == '\n' then 1 + LeadingNewlines(s[1..]) else 0
  }

  /** `s.replace(/\n+/g, ' ')`: every run of line feeds becomes one space. */
  function CollapseNewlines(s: string): (r: string)
    ensures '\n' !in r
    decreases |s|
  {
    if s == [] then []
    else if s[0] == '\n' then " " + CollapseNewlines(s[LeadingNewlines(s)..])
    else [s[0]] + CollapseNewlines(s[1..])
  }

  /** How the leading line-feed run of `a + b` relates to that of `a`. */
  lemma {:induction false} LeadingNewlinesAppend(a: string, b: string)
    ensures LeadingNewlines(a) < |a| ==> LeadingNewlines(a + b) == LeadingNewlines(a)
    ensures LeadingNewlines(a) == |a| ==> LeadingNewlines(a + b) == |a| + LeadingNewlines(b)
  {
    if a != [] && a[0] == '\n' {
      assert (a + b)[1..] == a[1..] + b;
      LeadingNewlinesAppend(a[1..], b);
    } else if a == [] {
      assert a + b == b;
    }
  }

  /** Text without line feeds is left as it is. */
  lemma {:induction false} CollapseNewlinesNone(s: string)
    requires '\n' !in s
    ensures CollapseNewlines(s) == s
  {
    if s != [] {
      assert s[0] in s;
      assert forall c :: c in s[1..] ==> c in s;
      CollapseNewlinesNone(s[1..]);
    }
  }

  /** A character other than a line feed at the head of `a + b` is copied. */
  lemma CollapseNewlinesWordHead(a: string, b: string)
    requires a != [] && a[0] != '\n'
    ensures CollapseNewlines(a + b) == [a[0]] + CollapseNewlines(a[1..] + b)
    ensures CollapseNewlines(a) == [a[0]] + CollapseNewlines(a[1..])
  {
    assert (a + b)[0] == a[0];
    assert (a + b)[1..] == a[1..] + b;
  }

  /** A run of line feeds at the head of `a + b` that ends inside `a` becomes one space. */
  lemma CollapseNewlinesRunHead(a: string, b: string)
    requires a != [] && a[0] == '\n' && LeadingNewlines(a) < |a|
    ensures CollapseNewlines(a + b) == " " + CollapseNewlines(a[LeadingNewlines(a)..] + b)
    ensures CollapseNewlines(a) == " " + CollapseNewlines(a[LeadingNewlines(a)..])
  {
    LeadingNewlinesAppend(a, b);
    assert (a + b)[0] == a[0];
    assert (a + b)[LeadingNewlines(a)..] == a[LeadingNewlines(a)..] + b;
  }

  /** When `a` is all line feeds and `b` does not continue the run, the run becomes one space. */
  lemma CollapseNewlinesBlankHead(a: string, b: string)
    requires a != [] && LeadingNewlines(a) == |a|
    requires b == [] || b[0] != '\n'
    ensures CollapseNewlines(a + b) == " " + CollapseNewlines(b)
    ensures CollapseNewlines(a) == " "
  {
    LeadingNewlinesAppend(a, b);
    assert (a + b)[0] == a[0];
    assert (a + b)[|a|..] == b;
    assert a[|a|..] == [];
  }

  /** Collapsing works piecewise on `a + b` as long as the seam does not split a run of line feeds. */
  lemma {:induction false} CollapseNewlinesAppend(a: string, b: string)
    requires a == [] || b == [] || a[|a| - 1] != '\n' || b[0] != '\n'
    ensures CollapseNewlines(a + b) == CollapseNewlines(a) + CollapseNewlines(b)
    decreases |a|
  {
    if a == [] {
      assert a + b == b;
    } else if a[0] != '\n' {
      CollapseNewlinesWordHead(a, b);
      CollapseNewlinesAppend(a[1..], b);
      AppendAssoc([a[0]], CollapseNewlines(a[1..]), CollapseNewlines(b));
    } else if LeadingNewlines(a) < |a| {
      var rest := a[LeadingNewlines(a)..];
      assert rest[|rest| - 1] == a[|a| - 1];
      CollapseNewlinesRunHead(a, b);
      CollapseNewlinesAppend(rest, b);
      AppendAssoc(" ", CollapseNewlines(rest), CollapseNewlines(b));
    } else {
      assert a[|a| - 1] == '\n';
      CollapseNewlinesBlankHead(a, b);
    }
  }

  /** A non-empty run of line feeds on its own becomes one space. */
  lemma CollapseNewlinesOfBlank(w: string)
    requires w != [] && forall i :: 0 <= i < |w| ==> w[i] == '\n'
    ensures CollapseNewlines(w) == " "
  {
    assert LeadingNewlines(w) == |w|;
    assert w[|w|..] == [];
  }

  /** Text without line feeds in front of any `t` is kept in front of what `t` becomes. */
  lemma CollapseNewlinesPrefix(a: string, t: string)
    requires '\n' !in a
    ensures CollapseNewlines(a + t) == a + CollapseNewlines(t)
  {
    CollapseNewlinesNone(a);
    CollapseNewlinesAppend(a, t);
  }

  /** A run of line feeds followed by text without line feeds becomes a space and that text. */
  lemma CollapseNewlinesOfRunThen(w: string, b: string)
    requires '\n' !in b
    requires w != [] && forall i :: 0 <= i < |w| ==> w[i] == '\n'
    ensures CollapseNewlines(w + b) == " " + b
  {
    CollapseNewlinesOfBlank(w);
    CollapseNewlinesNone(b);
    CollapseNewlinesAppend(w, b);
  }

  /**
   * A run of line feeds between two stretches without line feeds becomes
   * exactly one space; the other characters keep their order.
   */
  lemma CollapseNewlinesOfRun(a: string, w: string, b: string)
    requires '\n' !in a && '\n' !in b
    requires w != [] && forall i :: 0 <= i < |w| ==> w[i] == '\n'
    ensures CollapseNewlines(a + (w + b)) == a + (" " + b)
  {
    CollapseNewlinesPrefix(a, w + b);
    CollapseNewlinesOfRunThen(w, b);
  }

  /** `parts.join(sep)`. */
  function Join(parts: seq<string>, sep: string): string
  {
    if parts == [] then ""
    else if |parts| == 1 then parts[0]
    else Join(parts[..|parts| - 1], sep) + sep + parts[|parts| - 1]
  }

  function Digit(d: nat): (c: char)
    requires d < 10
    ensures '0' <= c <= '9'
  {
    ('0' as int + d) as char
  }

  /** The decimal form of a natural number, as template literals print it. */
  function NatToString(n: nat): (r: string)
    ensures r != []
    ensures forall i :: 0 <= i < |r| ==> '0' <= r[i] <= '9'
    ensures (|r| == 1) == (n < 10)
  {
    if n < 10 then [Digit(n)] else NatToString(n / 10) + [Digit(n % 10)]
  }

  /** Different numbers print differently. */
  lemma {:induction false} NatToStringInjective(n: nat, m: nat)
    requires NatToString(n) == NatToString(m)
    ensures n == m
  {
    if n >= 10 && m >= 10 {
      var a, b := NatToString(n), NatToString(m);
      assert a[..|a| - 1] == NatToString(n / 10);
      assert b[..|b| - 1] == NatToString(m / 10);
      NatToStringInjective(n / 10, m / 10);
      assert Digit(n % 10) == a[|a| - 1] == b[|b| - 1] == Digit(m % 10);
    }
  }
}
