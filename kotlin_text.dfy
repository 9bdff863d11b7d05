/** The Kotlin standard-library string operations the app relies on:
    `startsWith`, `indexOf`, `contains`, `substringAfter`, `substringBefore`,
    `replace`, `split`, `take` and `trim`, on strings as sequences of
    characters. */
module KotlinText {
  import opened Wrappers

  predicate StartsWith(s: string, prefix: string) {
    |prefix| <= |s| && s[..|prefix|] == prefix
  }

  /** `s.indexOf(p)`: the first position at which `p` occurs in `s`. */
  function IndexOf(s: string, p: string): (r: Option<nat>)
    ensures r.Some? ==> r.value <= |s| && StartsWith(s[r.value..], p)
    ensures r.Some? ==> forall k :: 0 <= k < r.value ==> !StartsWith(s[k..], p)
    ensures r.None? ==> forall k :: 0 <= k <= |s| ==> !StartsWith(s[k..], p)
    decreases |s|
  {
    if StartsWith(s, p) then Some(0)
    else if s == [] then None
    else
      assert forall k :: 1 <= k <= |s| ==> s[k..] == s[1..][k - 1..];
      match IndexOf(s[1..], p)
      case None => None
      case Some(i) => Some(i + 1)
  }

  /** `s.contains(p)` */
  predicate Contains(s: string, p: string) {
    IndexOf(s, p).Some?
  }

  lemma OccurrenceIsContained(s: string, p: string, k: nat)
    requires k <= |s| && StartsWith(s[k..], p)
    ensures Contains(s, p)
  {
  }

  /** A one-character needle occurs exactly when that character does. */
  lemma ContainsChar(s: string, c: char)
    ensures Contains(s, [c]) <==> c in s
  {
    if c in s {
      var k :| 0 <= k < |s| && s[k] == c;
      assert s[k..][..1] == [c];
      OccurrenceIsContained(s, [c], k);
    }
    var found := IndexOf(s, [c]);
    if found.Some? {
      assert s[found.value..][..1] == [c];
      assert s[found.value] == c;
    }
  }

  /** `s.substringAfter(d)`: what follows the first `d`, or all of `s` when
      `d` does not occur. */
  function SubstringAfter(s: string, d: string): string {
    match IndexOf(s, d)
    case None => s
    case Some(i) => s[i + |d|..]
  }

  /** `s.substringBefore(d)`: what precedes the first `d`, or all of `s` when
      `d` does not occur. */
  function SubstringBefore(s: string, d: string): (r: string)
    ensures StartsWith(s, r)
  {
    match IndexOf(s, d)
    case None => s
    case Some(i) => s[..i]
  }

  /** Cutting before the first delimiter leaves no delimiter behind. */
  lemma SubstringBeforeExcludes(s: string, d: string)
    requires |d| > 0
    ensures !Contains(SubstringBefore(s, d), d)
  {
    var r := SubstringBefore(s, d);
    forall k | 0 <= k <= |r| ensures !StartsWith(r[k..], d) {
      if k + |d| <= |r| {
        assert r[k..][..|d|] == s[k..][..|d|];
      }
    }
  }

  /** `s.replace(oldValue, newValue)`: every non-overlapping occurrence of
      `oldValue`, found left to right, is replaced by `newValue`. */
  function Replace(s: string, oldValue: string, newValue: string): string
    requires |oldValue| > 0
    decreases |s|
  {
    if s == [] then []
    else if StartsWith(s, oldValue) then newValue + Replace(s[|oldValue|..], oldValue, newValue)
    else [s[0]] + Replace(s[1..], oldValue, newValue)
  }

  /** If `s` lacks a character of `oldValue`, `replace` returns `s` itself. */
  lemma {:induction false} ReplaceAbsent(s: string, oldValue: string, newValue: string, c: char)
    requires |oldValue| > 0 && c in oldValue && c !in s
    ensures Replace(s, oldValue, newValue) == s
    decreases |s|
  {
    if s != [] {
      var k :| 0 <= k < |oldValue| && oldValue[k] == c;
      assert k < |s| ==> s[k] != c;
      assert !StartsWith(s, oldValue);
      ReplaceAbsent(s[1..], oldValue, newValue, c);
    }
  }

  /** `replace` introduces no character that neither `s` nor `newValue` has. */
  lemma {:induction false} ReplaceKeepsAbsent(s: string, oldValue: string, newValue: string, c: char)
    requires |oldValue| > 0 && c !in s && c !in newValue
    ensures c !in Replace(s, oldValue, newValue)
    decreases |s|
  {
    if s != [] {
      if StartsWith(s, oldValue) {
        ReplaceKeepsAbsent(s[|oldValue|..], oldValue, newValue, c);
      } else {
        ReplaceKeepsAbsent(s[1..], oldValue, newValue, c);
      }
    }
  }

  /** With a non-empty replacement, `replace` yields the empty string only
      from the empty string. */
  lemma ReplaceEmpty(s: string, oldValue: string, newValue: string)
    requires |oldValue| > 0 && |newValue| > 0
    ensures Replace(s, oldValue, newValue) == [] <==> s == []
  {
  }

  /** A prefix that lacks the first character of `oldValue` is copied as it
      is, and `replace` carries on behind it. */
  lemma {:induction false} ReplaceSkipsPrefix(x: string, y: string, oldValue: string, newValue: string)
    requires |oldValue| > 0 && oldValue[0] !in x
    ensures Replace(x + y, oldValue, newValue) == x + Replace(y, oldValue, newValue)
    decreases |x|
  {
    if x != [] {
      assert (x + y)[0] == x[0] != oldValue[0];
      assert |oldValue| <= |x + y| ==> (x + y)[..|oldValue|][0] == x[0];
      assert !StartsWith(x + y, oldValue);
      assert (x + y)[1..] == x[1..] + y;
      assert Replace(x + y, oldValue, newValue) == [x[0]] + Replace(x[1..] + y, oldValue, newValue);
      ReplaceSkipsPrefix(x[1..], y, oldValue, newValue);
      assert [x[0]] + x[1..] == x;
    } else {
      assert x + y == y;
    }
  }

  /** The number of positions at which `p` occurs in `s`. */
  function Occurrences(s: string, p: string): nat
    decreases |s|
  {
    if s == [] then 0
    else (if StartsWith(s, p) then 1 else 0) + Occurrences(s[1..], p)
  }

  /** A string lacking the first character of `p` holds no occurrence of it. */
  lemma {:induction false} OccurrencesAbsent(s: string, p: string)
    requires |p| > 0 && p[0] !in s
    ensures Occurrences(s, p) == 0
    decreases |s|
  {
    if s != [] {
      assert |p| <= |s| ==> s[..|p|][0] == s[0];
      OccurrencesAbsent(s[1..], p);
    }
  }

  /** When `p` is flanked by strings lacking its first character, and that
      character does not recur inside `p`, `p` occurs exactly once. */
  lemma {:induction false} OccurrencesSingle(x: string, p: string, y: string)
    requires |p| > 0 && p[0] !in x && p[0] !in y
    requires forall i :: 0 < i < |p| ==> p[i] != p[0]
    ensures Occurrences(x + p + y, p) == 1
    decreases |x|
  {
    var s := x + p + y;
    if x == [] {
      assert s == p + y;
      assert s[..|p|] == p;
      assert s[1..] == p[1..] + y;
      OccurrencesAbsent(p[1..] + y, p);
    } else {
      assert |p| <= |s| ==> s[..|p|][0] == x[0];
      assert s[1..] == x[1..] + p + y;
      OccurrencesSingle(x[1..], p, y);
    }
  }

  /** Replacing a single occurrence flanked as above substitutes it once. */
  lemma ReplaceSingle(x: string, p: string, y: string, n: string)
    requires |p| > 0 && p[0] !in x && p[0] !in y
    ensures Replace(x + p + y, p, n) == x + n + y
  {
    assert x + p + y == x + (p + y);
    ReplaceSkipsPrefix(x, p + y, p, n);
    assert (p + y)[..|p|] == p;
    assert (p + y)[|p|..] == y;
    ReplaceAbsent(y, p, n, p[0]);
  }

  /** `s.split(c)`: the pieces between the occurrences of `c`; empty pieces
      are kept, so there is always one piece more than there are separators. */
  function Split(s: string, c: char): (r: seq<string>)
    ensures |r| >= 1
    decreases |s|
  {
    if s == [] then [""]
    else
      var rest := Split(s[1..], c);
      if s[0] == c then [""] + rest
      else [[s[0]] + rest[0]] + rest[1..]
  }

  /** `joinToString(sep)`: the pieces with `sep` between neighbours. */
  function Join(pieces: seq<string>, sep: string): string
    decreases |pieces|
  {
    if pieces == [] then ""
    else if |pieces| == 1 then pieces[0]
    else pieces[0] + sep + Join(pieces[1..], sep)
  }

  /** No piece of a split holds the separator. */
  lemma {:induction false} SplitPiecesLackSeparator(s: string, c: char)
    ensures forall k :: 0 <= k < |Split(s, c)| ==> c !in Split(s, c)[k]
    decreases |s|
  {
    if s != [] {
      SplitPiecesLackSeparator(s[1..], c);
    }
  }

  /** Joining the pieces of a split with the separator gives the string back. */
  lemma {:induction false} JoinSplit(s: string, c: char)
    ensures Join(Split(s, c), [c]) == s
    decreases |s|
  {
    if s != [] {
      var rest := Split(s[1..], c);
      JoinSplit(s[1..], c);
      if s[0] == c {
        assert ([""] + rest)[1..] == rest;
      } else {
        var pieces := [[s[0]] + rest[0]] + rest[1..];
        assert pieces[1..] == rest[1..];
        if |rest| == 1 {
          assert Join(rest, [c]) == rest[0];
        } else {
          assert Join(rest, [c]) == rest[0] + [c] + Join(rest[1..], [c]);
        }
      }
    }
  }

  /** The UTF-16 code units Kotlin stores a character in: a surrogate pair
      for one beyond U+FFFF, a single unit otherwise. */
  function Utf16Units(c: char): nat {
    if c as int >= 0x1_0000 then 2 else 1
  }

  /** `s.length`: the number of UTF-16 code units of `s`. */
  function Utf16Length(s: string): (r: nat)
    ensures |s| <= r <= 2 * |s|
    decreases |s|
  {
    if |s| == 0 then 0 else Utf16Units(s[0]) + Utf16Length(s[1..])
  }

  /** `s.take(n)`: the first `n` code units of `s`, as the longest prefix of
      whole characters that fits in them. */
  function Take(s: string, n: nat): (r: string)
    ensures StartsWith(s, r)
    ensures Utf16Length(r) <= n
    ensures |r| < |s| ==> Utf16Length(r) + Utf16Units(s[|r|]) > n
    decreases |s|
  {
    if |s| == 0 || Utf16Units(s[0]) > n then ""
    else
      var rest := Take(s[1..], n - Utf16Units(s[0]));
      assert ([s[0]] + rest)[1..] == rest;
      [s[0]] + rest
  }

  /** A text that fits in `n` code units is taken whole. */
  lemma {:induction false} TakeWhole(s: string, n: nat)
    requires Utf16Length(s) <= n
    ensures Take(s, n) == s
    decreases |s|
  {
    if |s| > 0 {
      var u := Utf16Units(s[0]);
      assert u <= n;
      TakeWhole(s[1..], n - u);
      assert Take(s, n) == [s[0]] + Take(s[1..], n - u);
      assert [s[0]] + s[1..] == s;
    }
  }

  /** A text longer than `n` code units is cut before its end, keeping `n`
      units, or `n - 1` when the next character is a surrogate pair that
      the cut would split. */
  lemma TakeCut(s: string, n: nat)
    requires Utf16Length(s) > n
    ensures var r := Take(s, n);
      && |r| < |s|
      && n <= Utf16Length(r) + 1
      && (Utf16Length(r) < n ==> Utf16Units(s[|r|]) == 2)
  {
  }

  /** Below U+10000 every character is one code unit, so lengths in code
      units and in characters agree. */
  lemma {:induction false} NarrowLength(s: string)
    requires forall i :: 0 <= i < |s| ==> s[i] as int < 0x1_0000
    ensures Utf16Length(s) == |s|
    decreases |s|
  {
    if |s| > 0 {
      NarrowLength(s[1..]);
    }
  }

  /** Beyond U+FFFF every character is two code units. */
  lemma {:induction false} WideLength(s: string)
    requires forall i :: 0 <= i < |s| ==> s[i] as int >= 0x1_0000
    ensures Utf16Length(s) == 2 * |s|
    decreases |s|
  {
    if |s| > 0 {
      WideLength(s[1..]);
    }
  }

  /** `n.toString()` for a non-negative integer: its decimal digits. */
  function DecimalString(n: nat): (r: string)
    ensures |r| >= 1 && forall i :: 0 <= i < |r| ==> '0' <= r[i] <= '9'
    decreases n
  {
    if n < 10 then [(48 + n) as char]
    else DecimalString(n / 10) + [(48 + n % 10) as char]
  }

  /** The number a string of decimal digits denotes. */
  function DecimalValue(s: string): int
    decreases |s|
  {
    if s == [] then 0
    else DecimalValue(s[..|s| - 1]) * 10 + (s[|s| - 1] as int - 48)
  }

  /** Reading the digits back gives the number. */
  lemma {:induction false} DecimalRoundTrip(n: nat)
    ensures DecimalValue(DecimalString(n)) == n
    decreases n
  {
    var r := DecimalString(n);
    if n >= 10 {
      DecimalRoundTrip(n / 10);
      assert r[..|r| - 1] == DecimalString(n / 10);
    }
  }

  /** Kotlin's `Char.isWhitespace()` on the JVM: the characters that
      `Character.isWhitespace` or `Character.isSpaceChar` accept. */
  predicate IsWhitespace(c: char) {
    || ('\t' <= c <= '\r')
    || ('\U{1C}' <= c <= '\U{1F}')
    || c == ' '
    || c == '\U{A0}'
    || c == '\U{1680}'
    || ('\U{2000}' <= c <= '\U{200A}')
    || c == '\U{2028}'
    || c == '\U{2029}'
    || c == '\U{202F}'
    || c == '\U{205F}'
    || c == '\U{3000}'
  }

  /** Drops the leading whitespace. */
  function TrimStart(s: string): (r: string)
    ensures |r| <= |s| && r == s[|s| - |r|..]
    ensures forall i :: 0 <= i < |s| - |r| ==> IsWhitespace(s[i])
    ensures |r| > 0 ==> !IsWhitespace(r[0])
    decreases |s|
  {
    if |s| > 0 && IsWhitespace(s[0]) then TrimStart(s[1..]) else s
  }

  /** Drops the trailing whitespace. */
  function TrimEnd(s: string): (r: string)
    ensures |r| <= |s| && r == s[..|r|]
    ensures forall i :: |r| <= i < |s| ==> IsWhitespace(s[i])
    ensures |r| > 0 ==> !IsWhitespace(r[|r| - 1])
    decreases |s|
  {
    if |s| > 0 && IsWhitespace(s[|s| - 1]) then TrimEnd(s[..|s| - 1]) else s
  }

  /** `s.trim()`: `s` without its leading and trailing whitespace. */
  function Trim(s: string): string {
    TrimEnd(TrimStart(s))
  }

  /** Neither end of the trimmed string is whitespace. */
  lemma TrimEnds(s: string)
    ensures var r := Trim(s); |r| > 0 ==> !IsWhitespace(r[0]) && !IsWhitespace(r[|r| - 1])
  {
    var t := TrimStart(s);
    var r := TrimEnd(t);
    assert |r| > 0 ==> r[0] == t[0];
  }

  /** Trimming a second time changes nothing. */
  lemma TrimIdempotent(s: string)
    ensures Trim(Trim(s)) == Trim(s)
  {
    var r := Trim(s);
    TrimEnds(s);
    if |r| > 0 {
      assert TrimStart(r) == r;
      assert TrimEnd(r) == r;
    }
  }

  /** The trimmed string is empty exactly when `s` is all whitespace. */
  lemma TrimEmpty(s: string)
    ensures Trim(s) == [] <==> forall i :: 0 <= i < |s| ==> IsWhitespace(s[i])
  {
    var t := TrimStart(s);
    assert t != [] ==> t[0] == s[|s| - |t|];
    assert forall i :: |s| - |t| <= i < |s| ==> s[i] == t[i - (|s| - |t|)];
  }
}
