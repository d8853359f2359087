/**
 * The handful of Python `str` operations the conversation manager relies on:
 * `strip`, `lower`, `startswith`, the `in` substring test, slicing with `[:n]`,
 * `replace`, `split` on one character and `join`.
 *
 * Two of them are approximations: `Lower` folds only ASCII letters and
 * `IsSpace` knows only the ASCII whitespace characters that Python's
 * `str.isspace` accepts.
 */
module Text {

  /** ASCII characters for which Python's `str.isspace` holds. */
  predicate IsSpace(c: char) {
    c == ' ' || c == '\t' || c == '\n' || c == '\r' || c == '\U{000B}' || c == '\U{000C}'
    || ('\U{001C}' <= c <= '\U{001F}')
  }

  /** How many whitespace characters open `s`. */
  function LeadingSpaces(s: string): (n: nat)
    ensures n <= |s|
  {
    if s != [] && IsSpace(s[0]) then 1 + LeadingSpaces(s[1..]) else 0
  }

  /** How many whitespace characters close `s`. */
  function TrailingSpaces(s: string): (n: nat)
    ensures n <= |s|
  {
    if s != [] && IsSpace(s[|s| - 1]) then 1 + TrailingSpaces(s[..|s| - 1]) else 0
  }

  /** The leading run is all whitespace and the character after it is not. */
  lemma {:induction false} LeadingSpacesSpan(s: string)
    ensures var n := LeadingSpaces(s);
      && (n < |s| ==> !IsSpace(s[n]))
      && forall i :: 0 <= i < n ==> IsSpace(s[i])
  {
    if s != [] && IsSpace(s[0]) {
      LeadingSpacesSpan(s[1..]);
      forall i | 1 <= i < LeadingSpaces(s) ensures IsSpace(s[i]) {
        assert s[i] == s[1..][i - 1];
      }
    }
  }

  /** The trailing run is all whitespace and the character before it is not. */
  lemma {:induction false} TrailingSpacesSpan(s: string)
    ensures var n := TrailingSpaces(s);
      && (n < |s| ==> !IsSpace(s[|s| - 1 - n]))
      && forall i :: |s| - n <= i < |s| ==> IsSpace(s[i])
  {
    if s != [] && IsSpace(s[|s| - 1]) {
      TrailingSpacesSpan(s[..|s| - 1]);
      forall i | |s| - TrailingSpaces(s) <= i < |s| - 1 ensures IsSpace(s[i]) {
        assert s[i] == s[..|s| - 1][i];
      }
    }
  }

  /** `s.lstrip()`. */
  function TrimLeft(s: string): string {
    s[LeadingSpaces(s)..]
  }

  /** `s.rstrip()`. */
  function TrimRight(s: string): string {
    s[..|s| - TrailingSpaces(s)]
  }

  /** `s.strip()`. */
  function Strip(s: string): string {
    TrimRight(TrimLeft(s))
  }

  /** `Strip` keeps one contiguous piece of `s` that neither opens nor closes
      with whitespace, and everything it drops around it is whitespace. */
  lemma StripSpan(s: string)
    ensures var a := LeadingSpaces(s);
      var r := Strip(s);
      && a + |r| <= |s|
      && r == s[a..a + |r|]
      && (r == [] || (!IsSpace(r[0]) && !IsSpace(r[|r| - 1])))
      && (forall i :: 0 <= i < a ==> IsSpace(s[i]))
      && (forall i :: a + |r| <= i < |s| ==> IsSpace(s[i]))
  {
    var a := LeadingSpaces(s);
    LeadingSpacesSpan(s);
    TrimRightSpan(s[a..]);
    SpanOf(s, a, Strip(s));
  }

  /** A piece of `s` that starts right after a run of whitespace `a` long,
      with the rest of `s` after the piece whitespace too. */
  lemma SpanOf(s: string, a: nat, r: string)
    requires a <= |s| && (a < |s| ==> !IsSpace(s[a])) && forall i :: 0 <= i < a ==> IsSpace(s[i])
    requires var t := s[a..];
      && |r| <= |t| && r == t[..|r|] && (r == [] || !IsSpace(r[|r| - 1]))
      && forall i :: |r| <= i < |t| ==> IsSpace(t[i])
    ensures a + |r| <= |s| && r == s[a..a + |r|]
    ensures r == [] || (!IsSpace(r[0]) && !IsSpace(r[|r| - 1]))
    ensures forall i :: a + |r| <= i < |s| ==> IsSpace(s[i])
  {
    var t := s[a..];
    if r != [] {
      assert r[0] == s[a];
    }
    forall i | a + |r| <= i < |s| ensures IsSpace(s[i]) {
      assert s[i] == t[i - a];
    }
  }

  /** `rstrip` keeps a prefix that does not close with whitespace and drops
      only whitespace. */
  lemma TrimRightSpan(t: string)
    ensures var r := TrimRight(t);
      && r == t[..|r|]
      && (r == [] || !IsSpace(r[|r| - 1]))
      && forall i :: |r| <= i < |t| ==> IsSpace(t[i])
  {
    var b := TrailingSpaces(t);
    TrailingSpacesSpan(t);
    if b < |t| {
      assert TrimRight(t)[|t| - b - 1] == t[|t| - 1 - b];
    }
  }

  /** Text that neither opens nor closes with whitespace strips to itself. */
  lemma StripUnchanged(s: string)
    requires s != [] && !IsSpace(s[0]) && !IsSpace(s[|s| - 1])
    ensures Strip(s) == s
  {
    assert LeadingSpaces(s) == 0;
    assert TrimLeft(s) == s;
    assert TrailingSpaces(s) == 0;
  }

  /** Stripping only removes characters. */
  lemma StripInside(s: string)
    ensures forall c :: c in Strip(s) ==> c in s
  {
    var t := TrimLeft(s);
    var r := Strip(s);
    forall c | c in r ensures c in s {
      var j :| 0 <= j < |r| && r[j] == c;
      assert r[j] == t[j];
      assert t[j] == s[|s| - |t| + j];
    }
  }

  function LowerChar(c: char): char {
    if 'A' <= c <= 'Z' then (c as int + 32) as char else c
  }

  /** `s.lower()`, folding ASCII letters only. */
  function Lower(s: string): (r: string)
    ensures |r| == |s|
    ensures forall i :: 0 <= i < |s| ==> r[i] == LowerChar(s[i])
  {
    seq(|s|, i requires 0 <= i < |s| => LowerChar(s[i]))
  }

  /** Text without capital letters is its own lower-case form. */
  lemma LowerOfLowercase(s: string)
    requires forall i :: 0 <= i < |s| ==> !('A' <= s[i] <= 'Z')
    ensures Lower(s) == s
  {
  }

  /** Lower-casing twice is lower-casing once. */
  lemma LowerIdempotent(s: string)
    ensures Lower(Lower(s)) == Lower(s)
  {
    assert forall i :: 0 <= i < |s| ==> Lower(Lower(s))[i] == Lower(s)[i];
  }

  /** Concatenation is associative. */
  lemma AppendAssoc<T>(a: seq<T>, b: seq<T>, c: seq<T>)
    ensures a + (b + c) == (a + b) + c
  {
  }

  /** `s.startswith(p)`. */
  predicate StartsWith(s: string, p: string) {
    |p| <= |s| && s[..|p|] == p
  }

  /** `s.endswith(p)`. */
  predicate EndsWith(s: string, p: string) {
    |p| <= |s| && s[|s| - |p|..] == p
  }

  /** `p` occurs in `s` starting at index `i`. */
  predicate OccursAt(s: string, p: string, i: int) {
    0 <= i && i + |p| <= |s| && s[i..i + |p|] == p
  }

  /** A text starts with any prefix of its own prefix. */
  lemma StartsWithTrans(s: string, q: string, p: string)
    requires StartsWith(s, q) && StartsWith(q, p)
    ensures StartsWith(s, p)
  {
    assert s[..|p|] == s[..|q|][..|p|];
  }

  /** A concatenation starts with its left operand. */
  lemma StartsWithConcat(a: string, b: string)
    ensures StartsWith(a + b, a)
  {
    assert (a + b)[..|a|] == a;
  }

  /** Python's `p in s`. */
  predicate Contains(s: string, p: string) {
    exists i :: 0 <= i <= |s| && OccursAt(s, p, i)
  }

  /** A prefix is an occurrence. */
  lemma StartsWithContains(s: string, p: string)
    requires StartsWith(s, p)
    ensures Contains(s, p)
  {
    assert OccursAt(s, p, 0);
  }

  /** An occurrence after the first character is an occurrence. */
  lemma ContainsTail(s: string, p: string)
    requires s != [] && Contains(s[1..], p)
    ensures Contains(s, p)
  {
    var i :| 0 <= i <= |s[1..]| && OccursAt(s[1..], p, i);
    assert s[1..][i..i + |p|] == s[i + 1..i + 1 + |p|];
    assert OccursAt(s, p, i + 1);
  }

  /** A pattern with a character the text lacks does not occur in it. */
  lemma AbsentCharNotContained(s: string, p: string, c: char)
    requires c in p && c !in s
    ensures !Contains(s, p)
  {
    forall i | 0 <= i <= |s| ensures !OccursAt(s, p, i) {
      if i + |p| <= |s| {
        var k :| 0 <= k < |p| && p[k] == c;
        assert s[i..i + |p|][k] == s[i + k];
      }
    }
  }

  /** Text without surrounding whitespace or line breaks survives `Strip` and `Flatten`. */
  lemma PlainTextUnchanged(s: string)
    requires s != [] && !IsSpace(s[0]) && !IsSpace(s[|s| - 1]) && '\n' !in s
    ensures Flatten(s) == s && Strip(s) == s
  {
    assert Flatten(s) == s;
    assert TrimLeft(s) == s;
  }

  /** Python's `any(p in s for p in ps)`. */
  predicate ContainsAny(s: string, ps: seq<string>) {
    exists k :: 0 <= k < |ps| && Contains(s, ps[k])
  }

  /** `s[:n]`. */
  function Take(s: string, n: nat): (r: string)
    ensures |r| <= n && |r| <= |s|
    ensures r == s[..|r|]
    ensures |s| <= n ==> r == s
    ensures |s| > n ==> |r| == n
  {
    if |s| <= n then s else s[..n]
  }

  /** `s.replace('\n', ' ')`: the same text with every line break turned into a space. */
  function Flatten(s: string): (r: string)
    ensures |r| == |s|
    ensures '\n' !in r
    ensures forall i :: 0 <= i < |s| && s[i] != '\n' ==> r[i] == s[i]
    ensures forall i :: 0 <= i < |s| ==> r[i] == (if s[i] == '\n' then ' ' else s[i])
  {
    if s == [] then []
    else
      var rest := Flatten(s[1..]);
      assert forall i :: 1 <= i < |s| ==> s[i] == s[1..][i - 1];
      [if s[0] == '\n' then ' ' else s[0]] + rest
  }

  /** `s.replace(pat, "")`: one left-to-right pass deleting non-overlapping occurrences. */
  function RemoveAll(s: string, pat: string): (r: string)
    requires pat != []
    decreases |s|
  {
    if StartsWith(s, pat) then RemoveAll(s[|pat|..], pat)
    else if s == [] then []
    else [s[0]] + RemoveAll(s[1..], pat)
  }

  /** Removal never lengthens the text, and leaves text without the pattern untouched. */
  lemma {:induction false} RemoveAllShrinks(s: string, pat: string)
    requires pat != []
    ensures |RemoveAll(s, pat)| <= |s|
    ensures !Contains(s, pat) ==> RemoveAll(s, pat) == s
    decreases |s|
  {
    if StartsWith(s, pat) {
      StartsWithContains(s, pat);
      RemoveAllShrinks(s[|pat|..], pat);
    } else if s != [] {
      RemoveAllShrinks(s[1..], pat);
      if Contains(s[1..], pat) {
        ContainsTail(s, pat);
      }
    }
  }

  /** One pass is not enough to erase the pattern: a pattern whose first two
      characters differ, wrapped around its own first character, is deleted once
      and leaves the pattern itself; deleting "SEARCH:" from "SSEARCH:EARCH:"
      leaves "SEARCH:". */
  lemma RemoveAllLeavesPattern(p: string)
    requires |p| >= 2 && p[0] != p[1]
    ensures RemoveAll(p[..1] + p + p[1..], p) == p
  {
    var s := p[..1] + p + p[1..];
    var t := p + p[1..];
    assert s == [p[0]] + t;
    assert s[..|p|][1] == p[0];
    assert RemoveAll(s, p) == [p[0]] + RemoveAll(t, p);
    assert t[..|p|] == p && t[|p|..] == p[1..];
    assert RemoveAll(t, p) == RemoveAll(p[1..], p);
    RemoveAllShrinks(p[1..], p);
  }

  /** `s.split(sep)` for a one-character separator; never empty, as in Python. */
  function Split(s: string, sep: char): (r: seq<string>)
    ensures |r| >= 1
    ensures forall k :: 0 <= k < |r| ==> sep !in r[k]
  {
    if s == [] then [""]
    else
      var rest := Split(s[1..], sep);
      if s[0] == sep then [""] + rest else [[s[0]] + rest[0]] + rest[1..]
  }

  /** `sep.join(parts)`. */
  function Join(parts: seq<string>, sep: string): string {
    if parts == [] then ""
    else if |parts| == 1 then parts[0]
    else parts[0] + sep + Join(parts[1..], sep)
  }

  /** Splitting on a character and joining with it gives the text back. */
  lemma {:induction false} JoinSplit(s: string, sep: char)
    ensures Join(Split(s, sep), [sep]) == s
  {
    if s != [] {
      var rest := Split(s[1..], sep);
      JoinSplit(s[1..], sep);
      if s[0] == sep {
        assert Split(s, sep) == [""] + rest;
        assert ([""] + rest)[1..] == rest;
      } else {
        var r := Split(s, sep);
        assert r == [[s[0]] + rest[0]] + rest[1..];
        if |rest| == 1 {
          assert r == [[s[0]] + rest[0]];
        } else {
          assert r[1..] == rest[1..];
          assert Join(rest, [sep]) == rest[0] + [sep] + Join(rest[1..], [sep]);
        }
      }
    }
  }

  /** A text with a separator: splitting peels off the part before it. */
  lemma {:induction false} SplitCons(a: string, b: string, sep: char)
    requires sep !in a
    ensures Split(a + [sep] + b, sep) == [a] + Split(b, sep)
    decreases |a|
  {
    if a == [] {
      assert a + [sep] + b == [sep] + b;
      assert ([sep] + b)[1..] == b;
    } else {
      SplitCons(a[1..], b, sep);
      assert (a + [sep] + b)[1..] == a[1..] + [sep] + b;
      assert [a[0]] + a[1..] == a;
    }
  }

  /** A text without the separator splits into itself. */
  lemma {:induction false} SplitNoSep(a: string, sep: char)
    requires sep !in a
    ensures Split(a, sep) == [a]
    decreases |a|
  {
    if a != [] {
      SplitNoSep(a[1..], sep);
      assert [a[0]] + a[1..] == a;
    }
  }

  /** Joining separator-free parts and splitting again gives the parts back. */
  lemma {:induction false} SplitJoin(parts: seq<string>, sep: char)
    requires parts != []
    requires forall k :: 0 <= k < |parts| ==> sep !in parts[k]
    ensures Split(Join(parts, [sep]), sep) == parts
  {
    if |parts| == 1 {
      SplitNoSep(parts[0], sep);
    } else {
      SplitJoin(parts[1..], sep);
      SplitCons(parts[0], Join(parts[1..], [sep]), sep);
      assert [parts[0]] + parts[1..] == parts;
    }
  }

  /** The decimal digits of `n`, as Python's `str(n)` writes them. */
  function Decimal(n: nat): (r: string)
    ensures r != []
    ensures forall k :: 0 <= k < |r| ==> '0' <= r[k] <= '9'
  {
    if n < 10 then [Digit(n)] else Decimal(n / 10) + [Digit(n % 10)]
  }

  function Digit(d: nat): (c: char)
    requires d < 10
    ensures '0' <= c <= '9'
  {
    ((d + '0' as int) as char)
  }

  /** Reading decimal digits back as a number. */
  function DigitsValue(s: string): nat
    requires forall k :: 0 <= k < |s| ==> '0' <= s[k] <= '9'
  {
    if s == [] then 0 else 10 * DigitsValue(s[..|s| - 1]) + (s[|s| - 1] as int - '0' as int)
  }

  /** Printing a number and reading it back gives the number. */
  lemma {:induction false} DecimalRoundTrip(n: nat)
    ensures DigitsValue(Decimal(n)) == n
  {
    if n >= 10 {
      DecimalRoundTrip(n / 10);
      var s := Decimal(n);
      assert s[..|s| - 1] == Decimal(n / 10);
    }
  }
}
