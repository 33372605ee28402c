/** The English parser of Mudae's command replies: a duration "[Nh] M[**] min"
    with unbounded digit groups, and the "roulette is limited" notice. */
module MudaeOutputParser {
  import opened Base
  import opened Strings
  import opened TimeRegex

  /** TimeSpan.MaxValue in whole seconds: `new TimeSpan(h, m, s)` throws beyond it. */
  const TimeSpanMaxSeconds: int := 922_337_203_685

  /** The outcome of a call: a returned flag with the out-parameter, or an exception. */
  datatype TimeResult = Returned(ok: bool, time: Ticks) | Threw

  /** int.TryParse on a captured group: fails on the empty group and on overflow. */
  function ParseGroup(g: string): (r: Option<int>)
    ensures r.Some? <==> g != [] && AllDigits(g) && DigitsValue(g) <= Int32Max
    ensures r.Some? ==> r.value == DigitsValue(g)
  {
    if AllDigits(g) then ParseInt32Digits(g) else None
  }

  /** `new TimeSpan(hours, minutes, 0)`: throws when the total is out of range. */
  function NewTimeSpan(hours: int, minutes: int): (r: TimeResult)
    ensures var total := hours * 3600 + minutes * 60;
            r.Threw? <==> total > TimeSpanMaxSeconds || total < -TimeSpanMaxSeconds
    ensures r.Returned? ==> r.ok && r.time == hours * TicksPerHour + minutes * TicksPerMinute
  {
    var total := hours * 3600 + minutes * 60;
    if total > TimeSpanMaxSeconds || total < -TimeSpanMaxSeconds then Threw
    else Returned(true, total * TicksPerSecond)
  }

  /** The result for a match (or for none): the minute group decides success, and an
      hour group that does not parse reads as 0. */
  function TimeOf(m: Option<Match>): TimeResult {
    var minutes := ParseGroup(if m.Some? then m.value.groups.minute else []);
    if minutes.None? then Returned(false, 0)
    else
      var hours := ParseGroup(if m.Some? then m.value.groups.hour else []);
      NewTimeSpan(if hours.Some? then hours.value else 0, minutes.value)
  }

  /** EnglishMudaeOutputParser.TryParseTime. */
  function TryParseTime(s: string): TimeResult { TimeOf(FirstMatch(s, Unbounded)) }

  /** With no occurrence of the pattern the call returns false with the zero time. */
  lemma TryParseTimeNoMatch(s: string)
    requires forall i :: 0 <= i <= |s| ==> !MatchesAt(s, i, Unbounded)
    ensures TryParseTime(s) == Returned(false, 0)
  {
    FirstMatchAgrees(s, Unbounded);
  }

  /** The value an hour group reads as: its number, or 0 when absent or out of range. */
  function HourValue(g: string): nat {
    if g != [] && AllDigits(g) && DigitsValue(g) <= Int32Max then DigitsValue(g) else 0
  }

  /** At the leftmost occurrence: a minute group beyond int.MaxValue makes the call
      return false although the pattern matched; otherwise the duration is the hours
      and minutes of the groups, or an exception when it exceeds TimeSpan's range. */
  lemma TryParseTimeMatched(s: string)
    requires FirstMatch(s, Unbounded).Some?
    ensures var m := FirstMatch(s, Unbounded).value;
            var g := m.groups;
            MatchesAt(s, m.index, Unbounded) && AllDigits(g.minute) && g.minute != []
            && (DigitsValue(g.minute) > Int32Max ==> TryParseTime(s) == Returned(false, 0))
            && (DigitsValue(g.minute) <= Int32Max ==>
                  TryParseTime(s) == NewTimeSpan(HourValue(g.hour), DigitsValue(g.minute)))
  {
    FirstMatchAgrees(s, Unbounded);
    var m := FirstMatch(s, Unbounded).value;
    MatchAtGroupsAreDigits(s, m.index, Unbounded);
  }

  /** The call returns true exactly when the pattern occurs and its minute group fits
      an int; the time is then `hours` hours and `minutes` minutes. */
  lemma TryParseTimeSucceeds(s: string)
    ensures TryParseTime(s).Returned? && TryParseTime(s).ok ==>
              FirstMatch(s, Unbounded).Some?
              && (var g := FirstMatch(s, Unbounded).value.groups;
                  AllDigits(g.minute) && g.minute != [] && DigitsValue(g.minute) <= Int32Max
                  && TryParseTime(s).time == HourValue(g.hour) * TicksPerHour + DigitsValue(g.minute) * TicksPerMinute)
    ensures TryParseTime(s).Returned? && !TryParseTime(s).ok ==> TryParseTime(s).time == 0
  {
    if FirstMatch(s, Unbounded).Some? {
      TryParseTimeMatched(s);
    }
  }

  /** An hour count of 256204779 exceeds TimeSpan's range in seconds, so the call throws. */
  lemma NewTimeSpanThrows(minutes: nat)
    requires minutes <= Int32Max
    ensures NewTimeSpan(256_204_779, minutes).Threw?
    ensures NewTimeSpan(256_204_778, 0).Returned?
  {
  }

  // ------------------------------------------------------- roulette is limited

  /** The lower-case word `w` occurs at `i`, ignoring case. */
  predicate WordAt(s: string, i: nat, w: string) {
    i + |w| <= |s| && forall k :: 0 <= k < |w| ==> LowerChar(s[i + k]) == w[k]
  }

  /** `roulette\s+is\s+limited` matches at `i`: each `\s+` is the longest white-space run. */
  predicate LimitedAt(s: string, i: nat) {
    WordAt(s, i, "roulette")
    && (var b1 := Run(s, i + 8, Space);
        b1 >= 1 && WordAt(s, i + 8 + b1, "is")
        && (var b2 := Run(s, i + 10 + b1, Space);
            b2 >= 1 && WordAt(s, i + 10 + b1 + b2, "limited")))
  }

  /** The pattern read declaratively: runs of `b1` and `b2` white-space characters. */
  predicate LimitedShape(s: string, i: nat, b1: nat, b2: nat) {
    WordAt(s, i, "roulette") && b1 >= 1 && AllIn(s, i + 8, b1, Space) && WordAt(s, i + 8 + b1, "is")
    && b2 >= 1 && AllIn(s, i + 10 + b1, b2, Space) && WordAt(s, i + 10 + b1 + b2, "limited")
  }

  lemma LowerLetterNotSpace(c: char)
    requires 'a' <= LowerChar(c) <= 'z'
    ensures !IsWhiteSpace(c)
  {
  }

  lemma LimitedAtSound(s: string, i: nat)
    requires LimitedAt(s, i)
    ensures LimitedShape(s, i, Run(s, i + 8, Space), Run(s, i + 10 + Run(s, i + 8, Space), Space))
  {
    RunFacts(s, i + 8, Space);
    RunFacts(s, i + 10 + Run(s, i + 8, Space), Space);
  }

  /** Backtracking cannot shorten a white-space run: the next word starts with a letter. */
  lemma LimitedShapeForced(s: string, i: nat, b1: nat, b2: nat)
    requires LimitedShape(s, i, b1, b2)
    ensures Run(s, i + 8, Space) == b1 && Run(s, i + 10 + b1, Space) == b2
  {
    assert LowerChar(s[i + 8 + b1 + 0]) == "is"[0];
    LowerLetterNotSpace(s[i + 8 + b1]);
    RunIsMaximal(s, i + 8, b1, Space);
    assert LowerChar(s[i + 10 + b1 + b2 + 0]) == "limited"[0];
    LowerLetterNotSpace(s[i + 10 + b1 + b2]);
    RunIsMaximal(s, i + 10 + b1, b2, Space);
  }

  lemma LimitedShapeComplete(s: string, i: nat, b1: nat, b2: nat)
    requires LimitedShape(s, i, b1, b2)
    ensures LimitedAt(s, i)
  {
    LimitedShapeForced(s, i, b1, b2);
  }

  lemma LimitedAtAgrees(s: string, i: nat)
    ensures LimitedAt(s, i) <==> exists b1: nat, b2: nat :: LimitedShape(s, i, b1, b2)
  {
    if LimitedAt(s, i) {
      LimitedAtSound(s, i);
    }
    forall b1: nat, b2: nat | LimitedShape(s, i, b1, b2) ensures LimitedAt(s, i) {
      LimitedShapeComplete(s, i, b1, b2);
    }
  }

  /** The pattern occurs at `i` or later. */
  predicate LimitedFrom(s: string, i: nat)
    requires i <= |s|
    decreases |s| - i
  {
    LimitedAt(s, i) || (i < |s| && LimitedFrom(s, i + 1))
  }

  /** Regex.IsMatch for `roulette\s+is\s+limited`. */
  predicate RollLimited(s: string) { LimitedFrom(s, 0) }

  lemma {:induction false} LimitedFromAgrees(s: string, i: nat)
    requires i <= |s|
    ensures LimitedFrom(s, i) <==> exists j :: i <= j <= |s| && LimitedAt(s, j)
    decreases |s| - i
  {
    if i < |s| {
      LimitedFromAgrees(s, i + 1);
    }
  }

  /** RollLimited holds iff the notice occurs somewhere, in any case. */
  lemma RollLimitedSpec(s: string)
    ensures RollLimited(s) <==> exists j: nat, b1: nat, b2: nat :: j <= |s| && LimitedShape(s, j, b1, b2)
  {
    LimitedFromAgrees(s, 0);
    if RollLimited(s) {
      var j :| 0 <= j <= |s| && LimitedAt(s, j);
      LimitedAtAgrees(s, j);
      var b1: nat, b2: nat :| LimitedShape(s, j, b1, b2);
      assert j <= |s| && LimitedShape(s, j, b1, b2);
    }
    if exists j: nat, b1: nat, b2: nat :: j <= |s| && LimitedShape(s, j, b1, b2) {
      var j: nat, b1: nat, b2: nat :| j <= |s| && LimitedShape(s, j, b1, b2);
      LimitedAtAgrees(s, j);
      assert 0 <= j <= |s| && LimitedAt(s, j);
    }
  }

  /** TryParseRollLimited: `IsMatch(s) & TryParseTime(s, out resetTime)`; the `&` evaluates
      both sides, so the time is parsed (and may throw) whether or not the notice occurs. */
  function TryParseRollLimited(s: string): (r: TimeResult)
    ensures r.Threw? <==> TryParseTime(s).Threw?
    ensures r.Returned? ==> (r.ok <==> RollLimited(s) && TryParseTime(s).ok) && r.time == TryParseTime(s).time
  {
    var limited := RollLimited(s);
    var time := TryParseTime(s);
    if time.Threw? then Threw else Returned(limited && time.ok, time.time)
  }
}
