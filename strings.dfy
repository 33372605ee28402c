/** The .NET string operations the parsers are built from: character classes,
    invariant lower-casing, trimming, splitting, joining and integer parsing. */
module Strings {
  import opened Base

  /** char.IsWhiteSpace, which is also what the regex class `\s` matches. */
  predicate IsWhiteSpace(c: char) {
    if c <= ' ' then c == ' ' || '\t' <= c <= '\r'
    else if c < '\U{0085}' then false
    else if c < '\U{2000}' then c == '\U{0085}' || c == '\U{00A0}' || c == '\U{1680}'
    else c <= '\U{200A}' || c == '\U{2028}' || c == '\U{2029}' || c == '\U{202F}' || c == '\U{205F}' || c == '\U{3000}'
  }

  /** The white space that integer parsing skips (NumberStyles.AllowLeadingWhite/AllowTrailingWhite). */
  predicate IsNumberWhite(c: char) { c == ' ' || ('\t' <= c <= '\r') }

  predicate IsDigit(c: char) { '0' <= c <= '9' }

  predicate AllDigits(s: string) { forall i :: 0 <= i < |s| ==> IsDigit(s[i]) }

  function LowerChar(c: char): (r: char)
  {
    if 'A' <= c <= 'Z' then (c as int + 32) as char else c
  }

  /** ToLowerInvariant, restricted to the ASCII letters. */
  function ToLower(s: string): (r: string)
    ensures |r| == |s|
    ensures forall i :: 0 <= i < |s| ==> r[i] == LowerChar(s[i])
  {
    if s == [] then [] else [LowerChar(s[0])] + ToLower(s[1..])
  }

  lemma {:induction false} ToLowerIdempotent(s: string)
    ensures ToLower(ToLower(s)) == ToLower(s)
  {
    if s != [] {
      ToLowerIdempotent(s[1..]);
      assert ToLower(s)[1..] == ToLower(s[1..]);
    }
  }

  lemma {:induction false} ToLowerConcat(a: string, b: string)
    ensures ToLower(a + b) == ToLower(a) + ToLower(b)
  {
    assert forall i :: 0 <= i < |a + b| ==> (a + b)[i] == if i < |a| then a[i] else b[i - |a|];
  }

  /** String comparison with StringComparison.OrdinalIgnoreCase (ASCII letters). */
  predicate EqualsIgnoreCase(a: string, b: string) { ToLower(a) == ToLower(b) }

  predicate NoUpper(s: string) { forall i :: 0 <= i < |s| ==> !('A' <= s[i] <= 'Z') }

  /** A string without upper-case ASCII letters is its own lower-case form. */
  lemma LowerFixed(s: string)
    requires NoUpper(s)
    ensures ToLower(s) == s
  {
  }

  /** A string lowers letter by letter. */
  lemma LowerLetters(w: string, key: string)
    requires |w| == |key| && forall i :: 0 <= i < |w| ==> LowerChar(w[i]) == key[i]
    ensures ToLower(w) == key
  {
  }

  /** A word without white space at its ends trims to itself and lowers letter by letter. */
  lemma TrimLowerWord(w: string, key: string)
    requires w != [] && !IsWhiteSpace(w[0]) && !IsWhiteSpace(w[|w| - 1])
    requires |w| == |key| && forall i :: 0 <= i < |w| ==> LowerChar(w[i]) == key[i]
    ensures ToLower(Trim(w)) == key
  {
    TrimByFixed(w, IsWhiteSpace);
  }

  predicate StartsWith(s: string, prefix: string) { prefix <= s }

  predicate StartsWithIgnoreCase(s: string, prefix: string) {
    |prefix| <= |s| && EqualsIgnoreCase(s[..|prefix|], prefix)
  }

  /** string.Contains (ordinal). */
  predicate Contains(s: string, t: string)
    decreases |s|
  {
    t <= s || (s != [] && Contains(s[1..], t))
  }

  lemma {:induction false} ContainsAt(s: string, t: string, i: nat)
    requires i + |t| <= |s| && s[i..i + |t|] == t
    ensures Contains(s, t)
  {
    if i > 0 {
      assert s[1..][i - 1..i - 1 + |t|] == s[i..i + |t|];
      ContainsAt(s[1..], t, i - 1);
    }
  }

  lemma {:induction false} ContainsWitness(s: string, t: string) returns (i: nat)
    requires Contains(s, t)
    ensures i + |t| <= |s| && s[i..i + |t|] == t
    decreases |s|
  {
    if t <= s {
      i := 0;
    } else {
      var j := ContainsWitness(s[1..], t);
      assert s[1..][j..j + |t|] == s[j + 1..j + 1 + |t|];
      i := j + 1;
    }
  }

  /** A string in which no character is one of `seps` contains no string made of them. */
  lemma {:induction false} NotContainsChar(s: string, c: char)
    requires forall i :: 0 <= i < |s| ==> s[i] != c
    ensures !Contains(s, [c])
    decreases |s|
  {
    if s != [] {
      assert !([c] <= s) by { assert s[0] != c; }
      NotContainsChar(s[1..], c);
    }
  }

  // ---------------------------------------------------------------- trimming

  function TrimStartBy(s: string, drop: char -> bool): (r: string)
    ensures |r| <= |s| && r == s[|s| - |r|..]
    ensures forall i :: 0 <= i < |s| - |r| ==> drop(s[i])
    ensures r == [] || !drop(r[0])
  {
    if s != [] && drop(s[0]) then TrimStartBy(s[1..], drop) else s
  }

  function TrimEndBy(s: string, drop: char -> bool): (r: string)
    ensures |r| <= |s| && r == s[..|r|]
    ensures forall i :: |r| <= i < |s| ==> drop(s[i])
    ensures r == [] || !drop(r[|r| - 1])
  {
    if s != [] && drop(s[|s| - 1]) then TrimEndBy(s[..|s| - 1], drop) else s
  }

  function TrimBy(s: string, drop: char -> bool): (r: string)
    ensures r == [] || (!drop(r[0]) && !drop(r[|r| - 1]))
  {
    TrimEndBy(TrimStartBy(s, drop), drop)
  }

  /** string.Trim(): removes leading and trailing white space. */
  function Trim(s: string): (r: string)
    ensures r == [] || (!IsWhiteSpace(r[0]) && !IsWhiteSpace(r[|r| - 1]))
  {
    TrimBy(s, IsWhiteSpace)
  }

  /** string.Trim(chars): removes leading and trailing characters of `cs`. */
  function TrimChars(s: string, cs: set<char>): (r: string)
    ensures r == [] || (r[0] !in cs && r[|r| - 1] !in cs)
  {
    TrimBy(s, c => c in cs)
  }

  /** A string with nothing to drop at either end is its own trimming. */
  lemma TrimByFixed(s: string, drop: char -> bool)
    requires s == [] || (!drop(s[0]) && !drop(s[|s| - 1]))
    ensures TrimBy(s, drop) == s
  {
  }

  /** Trimming a string padded at both ends with dropped characters gives the string. */
  lemma TrimByPadded(x: string, s: string, y: string, drop: char -> bool)
    requires forall i :: 0 <= i < |x| ==> drop(x[i])
    requires forall i :: 0 <= i < |y| ==> drop(y[i])
    requires s == [] || (!drop(s[0]) && !drop(s[|s| - 1]))
    ensures TrimBy(x + s + y, drop) == s
  {
    var t := s + y;
    assert x + s + y == x + t;
    if s == [] {
      assert t == y;
    } else {
      assert t[0] == s[0];
    }
    TrimStartPadded(x, t, drop);
    assert TrimStartBy(x + t, drop) == TrimStartBy(t, drop) by {
      if t != [] && !drop(t[0]) {
        assert TrimStartBy(t, drop) == t;
      }
    }
    TrimEndPadded(s, y, drop);
  }

  lemma {:induction false} TrimStartPadded(x: string, t: string, drop: char -> bool)
    requires forall i :: 0 <= i < |x| ==> drop(x[i])
    requires t == [] || !drop(t[0]) || forall i :: 0 <= i < |t| ==> drop(t[i])
    ensures TrimStartBy(x + t, drop) == if t != [] && !drop(t[0]) then t else TrimStartBy(t, drop)
    decreases |x|
  {
    if x != [] {
      assert (x + t)[1..] == x[1..] + t;
      TrimStartPadded(x[1..], t, drop);
    } else {
      assert x + t == t;
    }
  }

  lemma {:induction false} TrimEndPadded(s: string, y: string, drop: char -> bool)
    requires forall i :: 0 <= i < |y| ==> drop(y[i])
    requires s == [] || (!drop(s[0]) && !drop(s[|s| - 1]))
    ensures TrimEndBy(TrimStartBy(s + y, drop), drop) == s
    decreases |y|
  {
    if s == [] {
      assert s + y == y;
      AllDroppedTrimStart(y, drop);
    } else {
      assert TrimStartBy(s + y, drop) == s + y;
      TrimEndSuffix(s, y, drop);
    }
  }

  lemma {:induction false} AllDroppedTrimStart(y: string, drop: char -> bool)
    requires forall i :: 0 <= i < |y| ==> drop(y[i])
    ensures TrimStartBy(y, drop) == []
    decreases |y|
  {
    if y != [] {
      AllDroppedTrimStart(y[1..], drop);
    }
  }

  lemma {:induction false} TrimEndSuffix(s: string, y: string, drop: char -> bool)
    requires forall i :: 0 <= i < |y| ==> drop(y[i])
    requires s != [] && !drop(s[|s| - 1])
    ensures TrimEndBy(s + y, drop) == s
    decreases |y|
  {
    if y == [] {
      assert s + y == s;
    } else {
      var n := |s + y| - 1;
      assert (s + y)[..n] == s + y[..|y| - 1];
      TrimEndSuffix(s, y[..|y| - 1], drop);
    }
  }

  /** Trimming twice is trimming once. */
  lemma TrimIdempotent(s: string)
    ensures Trim(Trim(s)) == Trim(s)
  {
    TrimByFixed(Trim(s), IsWhiteSpace);
  }

  // --------------------------------------------------------------- splitting

  /** string.Split(separators) with StringSplitOptions.None: every piece, empty ones included. */
  function SplitAll(s: string, seps: set<char>): (r: seq<string>)
    ensures |r| >= 1
    ensures forall k, i :: 0 <= k < |r| && 0 <= i < |r[k]| ==> r[k][i] !in seps
    decreases |s|
  {
    if s == [] then [[]]
    else if s[0] in seps then [[]] + SplitAll(s[1..], seps)
    else
      var rest := SplitAll(s[1..], seps);
      [[s[0]] + rest[0]] + rest[1..]
  }

  function RemoveEmpty(ps: seq<string>): (r: seq<string>)
    ensures |r| <= |ps|
    ensures forall k :: 0 <= k < |r| ==> r[k] != [] && r[k] in ps
    ensures forall p :: p in ps && p != [] ==> p in r
  {
    if ps == [] then []
    else if ps[0] == [] then RemoveEmpty(ps[1..])
    else [ps[0]] + RemoveEmpty(ps[1..])
  }

  /** string.Split(separators, StringSplitOptions.RemoveEmptyEntries). */
  function SplitNonEmpty(s: string, seps: set<char>): (r: seq<string>)
    ensures forall k :: 0 <= k < |r| ==> r[k] != []
    ensures forall k, i :: 0 <= k < |r| && 0 <= i < |r[k]| ==> r[k][i] !in seps
  {
    RemoveEmpty(SplitAll(s, seps))
  }

  function Join(sep: string, ps: seq<string>): string
  {
    if ps == [] then []
    else if |ps| == 1 then ps[0]
    else ps[0] + sep + Join(sep, ps[1..])
  }

  /** Appending one piece to a non-empty join adds the separator and the piece. */
  lemma {:induction false} JoinSnoc(sep: string, ps: seq<string>, x: string)
    requires ps != []
    ensures Join(sep, ps + [x]) == Join(sep, ps) + sep + x
    decreases |ps|
  {
    if |ps| > 1 {
      assert (ps + [x])[1..] == ps[1..] + [x];
      JoinSnoc(sep, ps[1..], x);
    }
  }

  lemma {:induction false} SplitAllNoSeparator(s: string, seps: set<char>)
    requires forall i :: 0 <= i < |s| ==> s[i] !in seps
    ensures SplitAll(s, seps) == [s]
    decreases |s|
  {
    if s != [] {
      SplitAllNoSeparator(s[1..], seps);
      assert s == [s[0]] + s[1..];
    }
  }

  lemma {:induction false} SplitAllConcat(a: string, c: char, b: string, seps: set<char>)
    requires c in seps
    ensures SplitAll(a + [c] + b, seps) == SplitAll(a, seps) + SplitAll(b, seps)
    decreases |a|
  {
    if a == [] {
      assert a + [c] + b == [c] + b;
      assert ([c] + b)[1..] == b;
    } else {
      assert (a + [c] + b)[1..] == a[1..] + [c] + b;
      SplitAllConcat(a[1..], c, b, seps);
    }
  }

  /** Joining the pieces of a split with the one separator gives the string back. */
  lemma {:induction false} JoinSplitAll(s: string, c: char)
    ensures Join([c], SplitAll(s, {c})) == s
    decreases |s|
  {
    if s != [] {
      JoinSplitAll(s[1..], c);
      var rest := SplitAll(s[1..], {c});
      if s[0] != c {
        if |rest| > 1 {
          assert rest == [rest[0]] + rest[1..];
          assert Join([c], rest) == rest[0] + [c] + Join([c], rest[1..]);
        }
        assert s == [s[0]] + s[1..];
      }
    }
  }

  /** Splitting a join of separator-free pieces gives the pieces back. */
  lemma {:induction false} SplitAllJoin(ps: seq<string>, c: char)
    requires |ps| >= 1
    requires forall k, i :: 0 <= k < |ps| && 0 <= i < |ps[k]| ==> ps[k][i] != c
    ensures SplitAll(Join([c], ps), {c}) == ps
    decreases |ps|
  {
    SplitAllNoSeparator(ps[0], {c});
    if |ps| > 1 {
      SplitAllJoin(ps[1..], c);
      SplitAllConcat(ps[0], c, Join([c], ps[1..]), {c});
      assert ps == [ps[0]] + ps[1..];
    }
  }

  lemma {:induction false} RemoveEmptyConcat(a: seq<string>, b: seq<string>)
    ensures RemoveEmpty(a + b) == RemoveEmpty(a) + RemoveEmpty(b)
    decreases |a|
  {
    if a == [] {
      assert a + b == b;
    } else {
      assert (a + b)[1..] == a[1..] + b;
      assert (a + b)[0] == a[0];
      RemoveEmptyConcat(a[1..], b);
      if a[0] != [] {
        assert RemoveEmpty(a) == [a[0]] + RemoveEmpty(a[1..]);
      }
    }
  }

  /** Index of the first `c` in `s`, or |s| when there is none. */
  function IndexOf(s: string, c: char): (i: nat)
    ensures i <= |s|
    ensures i < |s| ==> s[i] == c
    ensures forall k :: 0 <= k < i ==> s[k] != c
  {
    if s == [] then 0 else if s[0] == c then 0 else 1 + IndexOf(s[1..], c)
  }

  /** string.Split(c, 2): the part before the first `c` and everything after it. */
  function SplitFirst(s: string, c: char): (r: seq<string>)
    ensures 1 <= |r| <= 2
    ensures |r| == 1 <==> forall k :: 0 <= k < |s| ==> s[k] != c
    ensures |r| == 1 ==> r[0] == s
    ensures |r| == 2 ==> s == r[0] + [c] + r[1] && forall k :: 0 <= k < |r[0]| ==> r[0][k] != c
  {
    var i := IndexOf(s, c);
    if i == |s| then [s] else [s[..i], s[i + 1..]]
  }

  /** Splitting at the first `c` of `a + [c] + b`, where `a` has no `c`, gives `a` and `b`. */
  lemma SplitFirstAt(a: string, c: char, b: string)
    requires forall k :: 0 <= k < |a| ==> a[k] != c
    ensures SplitFirst(a + [c] + b, c) == [a, b]
  {
    var s := a + [c] + b;
    assert s[|a|] == c;
    var i := IndexOf(s, c);
    assert forall k :: 0 <= k < |a| ==> s[k] == a[k];
    assert s[..i] == a;
    assert s[i + 1..] == b;
  }

  // ---------------------------------------------------------------- integers

  function DigitValue(c: char): nat
    requires IsDigit(c)
  {
    c as int - '0' as int
  }

  function DigitChar(d: nat): (c: char)
    requires d < 10
    ensures IsDigit(c) && DigitValue(c) == d
  {
    (d + '0' as int) as char
  }

  /** The value of a string of decimal digits. */
  function DigitsValue(s: string): nat
    requires AllDigits(s)
  {
    if s == [] then 0 else DigitsValue(s[..|s| - 1]) * 10 + DigitValue(s[|s| - 1])
  }

  /** The decimal representation of `n`, without leading zeros. */
  function DecimalString(n: nat): (s: string)
    ensures s != [] && AllDigits(s)
    ensures s[0] != '+' && s[0] != '-' && !IsNumberWhite(s[0]) && !IsNumberWhite(s[|s| - 1])
  {
    if n < 10 then [DigitChar(n)] else DecimalString(n / 10) + [DigitChar(n % 10)]
  }

  lemma {:induction false} DecimalStringValue(n: nat)
    ensures DigitsValue(DecimalString(n)) == n
  {
    if n >= 10 {
      DecimalStringValue(n / 10);
      var s := DecimalString(n);
      assert s[..|s| - 1] == DecimalString(n / 10);
    }
  }

  /** int.TryParse applied to a run of digits: fails (value 0) when the value exceeds int.MaxValue. */
  function ParseInt32Digits(s: string): (r: Option<int>)
    requires AllDigits(s)
    ensures r.Some? ==> 0 <= r.value <= Int32Max
    ensures r.Some? <==> s != [] && DigitsValue(s) <= Int32Max
  {
    if s != [] && DigitsValue(s) <= Int32Max then Some(DigitsValue(s)) else None
  }

  /** ulong.TryParse with NumberStyles.Integer: white space at either end, an optional
      sign, at least one digit; only a zero value may carry a minus sign. */
  function ParseULong(s: string): Option<Snowflake>
  {
    var t := TrimBy(s, IsNumberWhite);
    var negative := t != [] && t[0] == '-';
    var body := if t != [] && (t[0] == '+' || t[0] == '-') then t[1..] else t;
    if body != [] && AllDigits(body) && DigitsValue(body) < ULongLimit
       && (!negative || DigitsValue(body) == 0)
    then Some(DigitsValue(body))
    else None
  }

  /** Formatting a ulong and parsing it back gives the same value. */
  lemma ParseULongDecimal(n: Snowflake)
    ensures ParseULong(DecimalString(n)) == Some(n)
  {
    var s := DecimalString(n);
    TrimByFixed(s, IsNumberWhite);
    DecimalStringValue(n);
  }

  /** A minus sign is accepted only in front of a zero value. */
  lemma ParseULongNegative(n: Snowflake)
    ensures ParseULong("-" + DecimalString(n)) == if n == 0 then Some(0) else None
  {
    var s := "-" + DecimalString(n);
    TrimByFixed(s, IsNumberWhite);
    assert s[1..] == DecimalString(n);
    DecimalStringValue(n);
  }
}
