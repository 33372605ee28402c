/** The duration patterns `((?<hour>D)h\s*)?(?<minute>D)\**\s*min`, searched
    case-insensitively, where the digit group D is `\d\d?` in the status-report
    parser and `\d+` in the English output parser.

    The matcher below follows the backtracking engine: it tries every start
    position from the left, and at each one the optional hour group first.
    Backtracking cannot change a group's extent: a shorter digit group, star
    run or white-space run leaves a digit, star or white-space character where
    the rest of the pattern needs a character of another class. So each group
    is the longest run of its class, which `MatchAtAgrees` proves against the
    declarative reading of the pattern (`MatchesAt`). */
module TimeRegex {
  import opened Base
  import opened Strings

  /** The two digit-group forms: `\d\d?` and `\d+`. */
  datatype Width = UpToTwo | Unbounded

  predicate Fits(w: Width, k: nat) { 1 <= k && (w == UpToTwo ==> k <= 2) }

  datatype CharClass = Digit | Star | Space

  predicate InClass(c: char, cls: CharClass) {
    match cls
    case Digit => IsDigit(c)
    case Star => c == '*'
    case Space => IsWhiteSpace(c)
  }

  /** The `n` characters from position `i` all belong to `cls`. */
  predicate AllIn(s: string, i: nat, n: nat, cls: CharClass) {
    i + n <= |s| && forall t :: i <= t < i + n ==> InClass(s[t], cls)
  }

  /** "min", in any case, occurs at `i`. */
  predicate MinAt(s: string, i: nat) {
    i + 3 <= |s| && LowerChar(s[i]) == 'm' && LowerChar(s[i + 1]) == 'i' && LowerChar(s[i + 2]) == 'n'
  }

  /** Length of the longest run of `cls` characters starting at `i`. */
  function Run(s: string, i: nat, cls: CharClass): (n: nat)
    requires i <= |s|
    ensures i + n <= |s|
    decreases |s| - i
  {
    if i < |s| && InClass(s[i], cls) then 1 + Run(s, i + 1, cls) else 0
  }

  lemma {:induction false} RunFacts(s: string, i: nat, cls: CharClass)
    requires i <= |s|
    ensures AllIn(s, i, Run(s, i, cls), cls)
    ensures i + Run(s, i, cls) == |s| || !InClass(s[i + Run(s, i, cls)], cls)
    decreases |s| - i
  {
    if i < |s| && InClass(s[i], cls) { RunFacts(s, i + 1, cls); }
  }

  lemma RunIsMaximal(s: string, i: nat, n: nat, cls: CharClass)
    requires AllIn(s, i, n, cls)
    requires i + n == |s| || !InClass(s[i + n], cls)
    ensures Run(s, i, cls) == n
  {
    RunFacts(s, i, cls);
  }

  // ------------------------------------------------------- declarative reading

  /** `D\**\s*min` at `q`: `k` digits, `a` stars, `b` white-space characters, then "min". */
  predicate MinuteShape(s: string, q: nat, w: Width, k: nat, a: nat, b: nat) {
    Fits(w, k) && AllIn(s, q, k, Digit) && AllIn(s, q + k, a, Star)
    && AllIn(s, q + k + a, b, Space) && MinAt(s, q + k + a + b)
  }

  /** `Dh\s*` from `p` to `q`: `j` digits, an 'h', then white space up to `q`. */
  predicate HourShape(s: string, p: nat, w: Width, j: nat, q: nat) {
    p + j + 1 <= q <= |s| && Fits(w, j) && AllIn(s, p, j, Digit)
    && LowerChar(s[p + j]) == 'h' && AllIn(s, p + j + 1, q - (p + j + 1), Space)
  }

  /** The pattern matches at `p` with the optional hour group present. */
  ghost predicate HourFormAt(s: string, p: nat, w: Width) {
    exists j: nat, q: nat, k: nat, a: nat, b: nat :: HourShape(s, p, w, j, q) && MinuteShape(s, q, w, k, a, b)
  }

  /** The pattern matches at `p` with the hour group absent. */
  ghost predicate MinuteFormAt(s: string, p: nat, w: Width) {
    exists k: nat, a: nat, b: nat :: MinuteShape(s, p, w, k, a, b)
  }

  ghost predicate MatchesAt(s: string, p: nat, w: Width) {
    HourFormAt(s, p, w) || MinuteFormAt(s, p, w)
  }

  // ---------------------------------------------------------------- matcher

  /** The captured groups; an absent group captures "". */
  datatype Groups = Groups(hour: string, minute: string)

  datatype Match = Match(index: nat, groups: Groups)

  /** The minute part at `q`, giving the minute group. */
  function MinuteAt(s: string, q: nat, w: Width): Option<string>
    requires q <= |s|
  {
    var k := Run(s, q, Digit);
    var a := Run(s, q + k, Star);
    var b := Run(s, q + k + a, Space);
    if Fits(w, k) && MinAt(s, q + k + a + b) then Some(s[q..q + k]) else None
  }

  /** The hour alternative at `p`, tried first because `?` is greedy. */
  function HourAt(s: string, p: nat, w: Width): Option<Groups>
    requires p <= |s|
  {
    HourFrom(s, p, w, Run(s, p, Digit))
  }

  /** The hour alternative after `j` digits. */
  function HourFrom(s: string, p: nat, w: Width, j: nat): Option<Groups>
    requires p + j <= |s|
  {
    if Fits(w, j) && p + j < |s| && LowerChar(s[p + j]) == 'h' then
      MinuteAfterHour(s, p, w, j, p + j + 1 + Run(s, p + j + 1, Space))
    else None
  }

  /** The minute part at `q` after an hour part of `j` digits at `p`. */
  function MinuteAfterHour(s: string, p: nat, w: Width, j: nat, q: nat): Option<Groups>
    requires p + j <= q <= |s|
  {
    var m := MinuteAt(s, q, w);
    if m.Some? then Some(Groups(s[p..p + j], m.value)) else None
  }

  function MatchAt(s: string, p: nat, w: Width): Option<Groups>
    requires p <= |s|
  {
    var h := HourAt(s, p, w);
    var m := MinuteAt(s, p, w);
    if h.Some? then h else if m.Some? then Some(Groups([], m.value)) else None
  }

  /** The leftmost position in [p, n] at which `at` yields groups. */
  function Leftmost(at: nat -> Option<Groups>, p: nat, n: nat): Option<Match>
    requires p <= n
    decreases n - p
  {
    if at(p).Some? then Some(Match(p, at(p).value))
    else if p == n then None
    else Leftmost(at, p + 1, n)
  }

  function MatchAtFn(s: string, w: Width): nat -> Option<Groups> {
    (i: nat) => if i <= |s| then MatchAt(s, i, w) else None
  }

  /** Regex.Match: the leftmost start position at which the pattern matches. */
  function FirstMatch(s: string, w: Width): Option<Match> { Leftmost(MatchAtFn(s, w), 0, |s|) }

  // ------------------------------------------------------------ agreement

  /** "min" starts with a character that is neither a digit, a star nor white space. */
  lemma MinStartsOutsideClasses(s: string, i: nat)
    requires MinAt(s, i)
    ensures !InClass(s[i], Digit) && !InClass(s[i], Star) && !InClass(s[i], Space)
  {
  }

  /** The runs of a minute part are forced: each is the longest run of its class. */
  lemma MinuteShapeUnique(s: string, q: nat, w: Width, k: nat, a: nat, b: nat)
    requires MinuteShape(s, q, w, k, a, b)
    ensures Run(s, q, Digit) == k && Run(s, q + k, Star) == a && Run(s, q + k + a, Space) == b
  {
    MinStartsOutsideClasses(s, q + k + a + b);
    RunIsMaximal(s, q + k + a, b, Space);
    assert q + k + a == |s| || !InClass(s[q + k + a], Star) by {
      if b > 0 { assert InClass(s[q + k + a], Space); }
    }
    RunIsMaximal(s, q + k, a, Star);
    assert q + k == |s| || !InClass(s[q + k], Digit) by {
      if a > 0 { assert InClass(s[q + k], Star); }
      else if b > 0 { assert InClass(s[q + k], Space); }
    }
    RunIsMaximal(s, q, k, Digit);
  }

  lemma MinuteAtSound(s: string, q: nat, w: Width)
    requires q <= |s| && MinuteAt(s, q, w).Some?
    ensures MinuteFormAt(s, q, w)
  {
    var k := Run(s, q, Digit);
    var a := Run(s, q + k, Star);
    MinuteRuns(s, q, w, k, a, Run(s, q + k + a, Space));
  }

  /** The runs MinuteAt measures satisfy the declarative pattern. */
  lemma MinuteRuns(s: string, q: nat, w: Width, k: nat, a: nat, b: nat)
    requires q <= |s| && k == Run(s, q, Digit) && a == Run(s, q + k, Star) && b == Run(s, q + k + a, Space)
    requires Fits(w, k) && MinAt(s, q + k + a + b)
    ensures MinuteShape(s, q, w, k, a, b)
  {
    RunFacts(s, q, Digit);
    RunFacts(s, q + k, Star);
    RunFacts(s, q + k + a, Space);
  }

  lemma MinuteAtComplete(s: string, q: nat, w: Width, k: nat, a: nat, b: nat)
    requires q <= |s| && MinuteShape(s, q, w, k, a, b)
    ensures MinuteAt(s, q, w) == Some(s[q..q + k])
  {
    MinuteShapeUnique(s, q, w, k, a, b);
    assert MinAt(s, q + k + a + b);
    assert Fits(w, k);
  }

  lemma MinuteAtAgrees(s: string, q: nat, w: Width)
    requires q <= |s|
    ensures MinuteAt(s, q, w).Some? <==> MinuteFormAt(s, q, w)
    ensures forall k: nat, a: nat, b: nat :: MinuteShape(s, q, w, k, a, b) ==> MinuteAt(s, q, w) == Some(s[q..q + k])
  {
    if MinuteAt(s, q, w).Some? {
      MinuteAtSound(s, q, w);
    }
    forall k: nat, a: nat, b: nat | MinuteShape(s, q, w, k, a, b)
      ensures MinuteAt(s, q, w) == Some(s[q..q + k])
    {
      MinuteAtComplete(s, q, w, k, a, b);
    }
  }

  /** The runs of an hour part followed by a minute part are forced as well. */
  lemma HourShapeUnique(s: string, p: nat, w: Width, j: nat, q: nat, k: nat, a: nat, b: nat)
    requires HourShape(s, p, w, j, q) && MinuteShape(s, q, w, k, a, b)
    ensures Run(s, p, Digit) == j && p + j + 1 + Run(s, p + j + 1, Space) == q
  {
    RunIsMaximal(s, p, j, Digit);
    assert q == |s| || !InClass(s[q], Space) by {
      assert InClass(s[q], Digit);
    }
    RunIsMaximal(s, p + j + 1, q - (p + j + 1), Space);
  }

  /** The hour part HourAt found, and where its minute part starts. */
  lemma HourAtParts(s: string, p: nat, w: Width) returns (j: nat, q: nat)
    requires p <= |s| && HourAt(s, p, w).Some?
    ensures HourShape(s, p, w, j, q) && MinuteAt(s, q, w).Some?
    ensures HourAt(s, p, w).value == Groups(s[p..p + j], MinuteAt(s, q, w).value)
  {
    j := Run(s, p, Digit);
    q := p + j + 1 + Run(s, p + j + 1, Space);
    HourRuns(s, p, w, j, q);
  }

  /** The runs HourAt measures satisfy the declarative hour pattern. */
  lemma HourRuns(s: string, p: nat, w: Width, j: nat, q: nat)
    requires p + j < |s| && j == Run(s, p, Digit) && q == p + j + 1 + Run(s, p + j + 1, Space)
    requires Fits(w, j) && LowerChar(s[p + j]) == 'h'
    ensures HourShape(s, p, w, j, q)
  {
    RunFacts(s, p, Digit);
    RunFacts(s, p + j + 1, Space);
  }

  lemma HourAtSound(s: string, p: nat, w: Width)
    requires p <= |s| && HourAt(s, p, w).Some?
    ensures HourFormAt(s, p, w)
  {
    var j, q := HourAtParts(s, p, w);
    MinuteAtSound(s, q, w);
    var k: nat, a: nat, b: nat :| MinuteShape(s, q, w, k, a, b);
    assert HourShape(s, p, w, j, q) && MinuteShape(s, q, w, k, a, b);
  }

  lemma HourAtUnfold(s: string, p: nat, w: Width, j: nat, q: nat)
    requires p + j < q <= |s| && Run(s, p, Digit) == j && p + j + 1 + Run(s, p + j + 1, Space) == q
    requires Fits(w, j) && LowerChar(s[p + j]) == 'h' && MinuteAt(s, q, w).Some?
    ensures HourAt(s, p, w) == Some(Groups(s[p..p + j], MinuteAt(s, q, w).value))
  {
  }

  lemma HourAtComplete(s: string, p: nat, w: Width, j: nat, q: nat, k: nat, a: nat, b: nat)
    requires HourShape(s, p, w, j, q) && MinuteShape(s, q, w, k, a, b)
    ensures HourAt(s, p, w) == Some(Groups(s[p..p + j], s[q..q + k]))
  {
    HourShapeUnique(s, p, w, j, q, k, a, b);
    MinuteAtComplete(s, q, w, k, a, b);
    HourAtUnfold(s, p, w, j, q);
  }

  lemma HourAtAgrees(s: string, p: nat, w: Width)
    requires p <= |s|
    ensures HourAt(s, p, w).Some? <==> HourFormAt(s, p, w)
    ensures forall j: nat, q: nat, k: nat, a: nat, b: nat :: HourShape(s, p, w, j, q) && MinuteShape(s, q, w, k, a, b) ==>
              HourAt(s, p, w) == Some(Groups(s[p..p + j], s[q..q + k]))
  {
    if HourAt(s, p, w).Some? {
      HourAtSound(s, p, w);
    }
    forall j: nat, q: nat, k: nat, a: nat, b: nat | HourShape(s, p, w, j, q) && MinuteShape(s, q, w, k, a, b)
      ensures HourAt(s, p, w) == Some(Groups(s[p..p + j], s[q..q + k]))
    {
      HourAtComplete(s, p, w, j, q, k, a, b);
    }
  }

  lemma MatchAtIff(s: string, p: nat, w: Width)
    requires p <= |s|
    ensures MatchAt(s, p, w).Some? <==> MatchesAt(s, p, w)
  {
    HourAtAgrees(s, p, w);
    MinuteAtAgrees(s, p, w);
  }

  /** The matcher at one position agrees with the declarative reading, groups included:
      the hour form wins whenever it is possible. */
  lemma MatchAtAgrees(s: string, p: nat, w: Width)
    requires p <= |s|
    ensures MatchAt(s, p, w).Some? <==> MatchesAt(s, p, w)
    ensures forall j: nat, q: nat, k: nat, a: nat, b: nat :: HourShape(s, p, w, j, q) && MinuteShape(s, q, w, k, a, b) ==>
              MatchAt(s, p, w) == Some(Groups(s[p..p + j], s[q..q + k]))
    ensures !HourFormAt(s, p, w) ==>
              forall k: nat, a: nat, b: nat :: MinuteShape(s, p, w, k, a, b) ==> MatchAt(s, p, w) == Some(Groups([], s[p..p + k]))
  {
    HourAtAgrees(s, p, w);
    MinuteAtAgrees(s, p, w);
  }

  lemma {:induction false} LeftmostFinds(at: nat -> Option<Groups>, p: nat, n: nat)
    requires p <= n
    ensures Leftmost(at, p, n).None? <==> forall i :: p <= i <= n ==> at(i).None?
    ensures Leftmost(at, p, n).Some? ==>
              var m := Leftmost(at, p, n).value;
              p <= m.index <= n && at(m.index) == Some(m.groups)
              && forall i :: p <= i < m.index ==> at(i).None?
    decreases n - p
  {
    if at(p).None? && p < n {
      LeftmostFinds(at, p + 1, n);
    }
  }

  /** Regex.Match finds a match iff the pattern matches somewhere; the match is the
      leftmost one and its groups are those the matcher assigns at that position. */
  lemma FirstMatchAgrees(s: string, w: Width)
    ensures FirstMatch(s, w).None? <==> forall i :: 0 <= i <= |s| ==> !MatchesAt(s, i, w)
    ensures FirstMatch(s, w).Some? ==>
              var m := FirstMatch(s, w).value;
              m.index <= |s| && MatchesAt(s, m.index, w) && MatchAt(s, m.index, w) == Some(m.groups)
              && forall i :: 0 <= i < m.index ==> !MatchesAt(s, i, w)
  {
    LeftmostFinds(MatchAtFn(s, w), 0, |s|);
    forall i | 0 <= i <= |s| ensures MatchAtFn(s, w)(i).None? <==> !MatchesAt(s, i, w) {
      MatchAtIff(s, i, w);
    }
  }

  lemma MinuteAtDigits(s: string, q: nat, w: Width)
    requires q <= |s| && MinuteAt(s, q, w).Some?
    ensures AllDigits(MinuteAt(s, q, w).value) && Fits(w, |MinuteAt(s, q, w).value|)
  {
    RunFacts(s, q, Digit);
    assert MinuteAt(s, q, w).value == s[q..q + Run(s, q, Digit)];
  }

  lemma HourAtDigits(s: string, p: nat, w: Width)
    requires p <= |s| && HourAt(s, p, w).Some?
    ensures AllDigits(HourAt(s, p, w).value.hour) && Fits(w, |HourAt(s, p, w).value.hour|)
    ensures AllDigits(HourAt(s, p, w).value.minute) && Fits(w, |HourAt(s, p, w).value.minute|)
  {
    var j, q := HourAtParts(s, p, w);
    MinuteAtDigits(s, q, w);
  }

  /** Every captured group is a digit string of the width the pattern allows. */
  lemma MatchAtGroupsAreDigits(s: string, p: nat, w: Width)
    requires p <= |s| && MatchAt(s, p, w).Some?
    ensures var g := MatchAt(s, p, w).value;
            AllDigits(g.hour) && AllDigits(g.minute) && Fits(w, |g.minute|)
            && (g.hour == [] || Fits(w, |g.hour|))
  {
    if HourAt(s, p, w).Some? {
      HourAtDigits(s, p, w);
    } else {
      MinuteAtDigits(s, p, w);
    }
  }
}
