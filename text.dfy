/**
 * The JavaScript string and array built-ins that main.js relies on:
 * `a || d` on an optional string, template interpolation of a possibly
 * missing value, `includes`, `toUpperCase`/`toLowerCase`, `join`, `trim`,
 * `replace(/c/g, …)` and `Array.prototype.find`.
 */
module Text {
  import opened Wrappers

  /** `o || d` where `o` is a string or missing: the empty string is falsy, so it also yields `d`. */
  function Fallback(o: Option<string>, d: string): (r: string)
    ensures r == d <== (o.None? || o.value == "")
    ensures o.Some? && o.value != "" ==> r == o.value
    ensures r == "" <==> d == "" && (o.None? || o.value == "")
  {
    if o.Some? && o.value != "" then o.value else d
  }

  /** A possibly missing value interpolated into a template literal: `${undefined}` is "undefined". */
  function Shown(o: Option<string>): string
  {
    match o
    case Some(s) => s
    case None => "undefined"
  }

  /** `s.startsWith(p)`. */
  predicate StartsWith(s: string, p: string)
  {
    |p| <= |s| && s[..|p|] == p
  }

  /** `needle` occurs in `s` starting at index `i`. */
  predicate MatchesAt(s: string, needle: string, i: int)
  {
    0 <= i <= |s| - |needle| && s[i..i + |needle|] == needle
  }

  /** `s.includes(needle)`, as a left-to-right scan. */
  predicate Contains(s: string, needle: string)
    decreases |s|
  {
    StartsWith(s, needle) || (|s| > 0 && Contains(s[1..], needle))
  }

  /** The scan agrees with the textbook definition: some window of `s` equals `needle`. */
  lemma {:induction false} ContainsIff(s: string, needle: string)
    ensures Contains(s, needle) <==> exists i :: MatchesAt(s, needle, i)
    decreases |s|
  {
    if Contains(s, needle) {
      if StartsWith(s, needle) {
        assert MatchesAt(s, needle, 0);
      } else {
        ContainsIff(s[1..], needle);
        var i :| MatchesAt(s[1..], needle, i);
        assert s[i + 1..i + 1 + |needle|] == s[1..][i..i + |needle|];
        assert MatchesAt(s, needle, i + 1);
      }
    }
    if exists i :: MatchesAt(s, needle, i) {
      var i :| MatchesAt(s, needle, i);
      if i == 0 {
        assert StartsWith(s, needle);
      } else {
        assert s[1..][i - 1..i - 1 + |needle|] == s[i..i + |needle|];
        assert MatchesAt(s[1..], needle, i - 1);
        ContainsIff(s[1..], needle);
      }
    }
  }

  /** A needle with a character that `s` lacks cannot occur in `s`. */
  lemma NotContainedForMissingChar(s: string, needle: string, k: nat)
    requires k < |needle| && needle[k] !in s
    ensures !Contains(s, needle)
  {
    ContainsIff(s, needle);
    forall i | 0 <= i <= |s| - |needle|
      ensures !MatchesAt(s, needle, i)
    {
      assert s[i..i + |needle|][k] == s[i + k];
    }
  }

  /** A needle found at a known position is contained. */
  lemma ContainedAt(s: string, needle: string, i: nat)
    requires MatchesAt(s, needle, i)
    ensures Contains(s, needle)
  {
    ContainsIff(s, needle);
  }

  /** `toUpperCase` on one character (ASCII letters only). */
  function UpperChar(c: char): char
  {
    if 'a' <= c <= 'z' then (c as int - 'a' as int + 'A' as int) as char else c
  }

  /** `toLowerCase` on one character (ASCII letters only). */
  function LowerChar(c: char): char
  {
    if 'A' <= c <= 'Z' then (c as int - 'A' as int + 'a' as int) as char else c
  }

  /** `s.toUpperCase()`: the same length, each character mapped on its own. */
  function Upper(s: string): (r: string)
    ensures |r| == |s|
    ensures forall i :: 0 <= i < |s| ==> r[i] == UpperChar(s[i])
  {
    if s == [] then [] else [UpperChar(s[0])] + Upper(s[1..])
  }

  /** `s.toLowerCase()`: the same length, each character mapped on its own. */
  function Lower(s: string): (r: string)
    ensures |r| == |s|
    ensures forall i :: 0 <= i < |s| ==> r[i] == LowerChar(s[i])
  {
    if s == [] then [] else [LowerChar(s[0])] + Lower(s[1..])
  }

  /** Text without lower-case letters is its own upper-case form. */
  lemma UpperOfUpperCase(s: string)
    requires forall i :: 0 <= i < |s| ==> !('a' <= s[i] <= 'z')
    ensures Upper(s) == s
  {
  }

  /** Upper-casing forgets the original case of every letter. */
  lemma UpperIgnoresCase(s: string)
    ensures Upper(Lower(s)) == Upper(s)
    ensures Upper(Upper(s)) == Upper(s)
  {
  }

  /** `parts.join(sep)`; an empty array joins to "". */
  function Join(parts: seq<string>, sep: string): string
  {
    if |parts| == 0 then ""
    else if |parts| == 1 then parts[0]
    else parts[0] + sep + Join(parts[1..], sep)
  }

  /** String concatenation is associative. */
  lemma Assoc(a: string, b: string, c: string)
    ensures (a + b) + c == a + (b + c)
  {
  }

  /** Extending a prefix by one element. */
  lemma PrefixSnoc<T>(s: seq<T>, j: nat)
    requires j < |s|
    ensures s[..j + 1] == s[..j] + [s[j]]
  {
  }

  /** The number of occurrences of `c` in `s`. */
  function CountChar(s: string, c: char): nat
  {
    if s == [] then 0 else (if s[0] == c then 1 else 0) + CountChar(s[1..], c)
  }

  lemma {:induction false} CountCharAppend(a: string, b: string, c: char)
    ensures CountChar(a + b, c) == CountChar(a, c) + CountChar(b, c)
  {
    if a == [] {
      assert a + b == b;
    } else {
      assert (a + b)[1..] == a[1..] + b;
      CountCharAppend(a[1..], b, c);
    }
  }

  lemma {:induction false} CountCharAbsent(s: string, c: char)
    requires c !in s
    ensures CountChar(s, c) == 0
  {
    if s != [] {
      CountCharAbsent(s[1..], c);
    }
  }

  /** `prefix` holds no `c` and `suffix` holds `n` of them: so does `prefix + suffix`. */
  lemma CountCharAfter(prefix: string, suffix: string, c: char)
    requires c !in prefix
    ensures CountChar(prefix + suffix, c) == CountChar(suffix, c)
  {
    CountCharAppend(prefix, suffix, c);
    CountCharAbsent(prefix, c);
  }

  /** One `c` between two pieces adds exactly one to the count. */
  lemma CountCharAround(a: string, b: string, c: char)
    ensures CountChar(a + [c] + b, c) == CountChar(a, c) + 1 + CountChar(b, c)
  {
    CountCharAppend(a, [c], c);
    CountCharAppend(a + [c], b, c);
  }

  /** `c` once between two pieces that lack it: a count of one. */
  lemma SoleChar(a: string, b: string, c: char)
    requires c !in a && c !in b
    ensures CountChar(a + [c] + b, c) == 1
  {
    CountCharAround(a, b, c);
    CountCharAbsent(a, c);
    CountCharAbsent(b, c);
  }

  /** Five pieces that lack `c` make a text that lacks `c`. */
  lemma LacksFive(a: string, b: string, d: string, e: string, f: string, c: char)
    requires c !in a && c !in b && c !in d && c !in e && c !in f
    ensures c !in a + b + d + e + f
  {
  }

  /** Joining pieces that lack `c` with a separator that lacks `c` gives text that lacks `c`. */
  lemma {:induction false} JoinLacks(parts: seq<string>, sep: string, c: char)
    requires forall i :: 0 <= i < |parts| ==> c !in parts[i]
    requires c !in sep
    ensures c !in Join(parts, sep)
  {
    if |parts| > 1 {
      JoinLacks(parts[1..], sep, c);
    }
  }

  /** Lower-casing introduces no character other than a lower-case letter. */
  lemma LowerLacks(s: string, c: char)
    requires c !in s && !('a' <= c <= 'z')
    ensures c !in Lower(s)
  {
    forall i | 0 <= i < |s|
      ensures Lower(s)[i] != c
    {
      assert s[i] in s;
    }
  }

  /** `xs.findIndex(p)`, which `xs.find(p)` is built on: the first index that satisfies `p`. */
  function FindIndex<T>(xs: seq<T>, p: T -> bool): (r: Option<nat>)
    ensures r.None? ==> forall i :: 0 <= i < |xs| ==> !p(xs[i])
    ensures r.Some? ==> r.value < |xs| && p(xs[r.value])
    ensures r.Some? ==> forall i :: 0 <= i < r.value ==> !p(xs[i])
  {
    if xs == [] then None
    else if p(xs[0]) then Some(0)
    else match FindIndex(xs[1..], p)
      case None => None
      case Some(k) => Some(k + 1)
  }

  /** The characters `String.prototype.trim` removes: ECMAScript WhiteSpace and LineTerminator. */
  predicate IsJsSpace(c: char)
  {
    c == '\t' || c == '\n' || c == '\U{000B}' || c == '\U{000C}' || c == '\r' || c == ' '
    || c == '\U{00A0}' || c == '\U{1680}' || '\U{2000}' <= c <= '\U{200A}'
    || c == '\U{2028}' || c == '\U{2029}' || c == '\U{202F}' || c == '\U{205F}'
    || c == '\U{3000}' || c == '\U{FEFF}'
  }

  /** The number of white-space characters `s` starts with. */
  function LeadingSpaces(s: string): (n: nat)
    ensures n <= |s|
    ensures forall i :: 0 <= i < n ==> IsJsSpace(s[i])
    ensures n < |s| ==> !IsJsSpace(s[n])
  {
    if s != [] && IsJsSpace(s[0]) then 1 + LeadingSpaces(s[1..]) else 0
  }

  /** Where `s[lo..hi]` ends once its trailing white space is removed. */
  function TrailingEnd(s: string, lo: nat, hi: nat): (m: nat)
    requires lo <= hi <= |s|
    ensures lo <= m <= hi
    ensures forall i :: m <= i < hi ==> IsJsSpace(s[i])
    ensures lo < m ==> !IsJsSpace(s[m - 1])
    decreases hi
  {
    if lo < hi && IsJsSpace(s[hi - 1]) then TrailingEnd(s, lo, hi - 1) else hi
  }

  /**
   * `r` is the window of `s` at `a`, with nothing but white space before it
   * and after it.
   */
  predicate TrimsTo(s: string, r: string, a: int)
  {
    MatchesAt(s, r, a)
    && (forall i :: 0 <= i < a ==> IsJsSpace(s[i]))
    && (forall i :: a + |r| <= i < |s| ==> IsJsSpace(s[i]))
  }

  /** `r` neither starts nor ends with white space. */
  predicate SpaceFreeEnds(r: string)
  {
    r != "" ==> !IsJsSpace(r[0]) && !IsJsSpace(r[|r| - 1])
  }

  /**
   * `s.trim()`: the window of `s` left once the white space at both ends
   * is removed. It neither starts nor ends with white space, only white
   * space lies outside it, and it is empty exactly when `s` is nothing but
   * white space.
   */
  function Trim(s: string): (r: string)
    ensures r == "" <==> forall i :: 0 <= i < |s| ==> IsJsSpace(s[i])
    ensures SpaceFreeEnds(r)
    ensures exists a :: TrimsTo(s, r, a)
  {
    var a := LeadingSpaces(s);
    var b := TrailingEnd(s, a, |s|);
    assert TrimsTo(s, s[a..b], a);
    s[a..b]
  }

  /**
   * The two ensures of `Trim` pin its result down: any window with only
   * white space outside it and no white space at its ends is `Trim(s)`.
   */
  lemma TrimUnique(s: string, r: string, a: int)
    requires TrimsTo(s, r, a) && SpaceFreeEnds(r)
    ensures r == Trim(s)
  {
    var n := LeadingSpaces(s);
    var m := TrailingEnd(s, n, |s|);
    if r == "" {
      assert forall i :: 0 <= i < |s| ==> IsJsSpace(s[i]) by {
        forall i | 0 <= i < |s| ensures IsJsSpace(s[i]) {
          if i >= a {
            assert a + |r| <= i;
          }
        }
      }
    } else {
      var b := a + |r|;
      assert s[a] == r[0] && s[b - 1] == r[|r| - 1];
      assert !IsJsSpace(s[a]) && !IsJsSpace(s[b - 1]);
      assert n < |s| ==> !IsJsSpace(s[n]);
      assert a == n;
      assert n < m ==> !IsJsSpace(s[m - 1]);
      assert b == m;
    }
  }
}
