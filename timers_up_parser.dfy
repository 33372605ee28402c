/** The parser for Mudae's timer report (the reply to `$tu`): a report addressed
    to the bot's own user, one status line per timer, each line classified by the
    keywords it contains and written into the per-guild timer record in place. */
module TimersUpParser {
  import opened Base
  import opened Strings
  import opened TimeRegex

  // ------------------------------------------------------------ durations

  /** int.TryParse on a captured group: the empty group (an absent hour) reads as 0. */
  function GroupValue(g: string): (v: nat)
    requires AllDigits(g)
    ensures g == [] ==> v == 0
  {
    var r := ParseInt32Digits(g);
    if r.Some? then r.value else 0
  }

  /** `new TimeSpan(0, hours, minutes)` as the parser writes it: the hour group
      becomes minutes and the minute group becomes seconds. */
  function SpanAsWritten(hours: nat, minutes: nat): Ticks {
    (hours * 60 + minutes) * TicksPerSecond
  }

  /** The duration the report states: `hours` hours and `minutes` minutes. */
  function Span(hours: nat, minutes: nat): Ticks {
    hours * TicksPerHour + minutes * TicksPerMinute
  }

  /** Both groups of a match hold at most two ASCII digits, and the minute group one at least. */
  predicate WellFormed(g: Groups) {
    AllDigits(g.hour) && AllDigits(g.minute) && |g.hour| <= 2 && 1 <= |g.minute| <= 2
  }

  /** The duration in a match's groups, read with `span`. */
  function SpanOf(m: Option<Match>, span: (nat, nat) -> Ticks): Option<Ticks>
  {
    if m.Some? && WellFormed(m.value.groups)
    then Some(span(GroupValue(m.value.groups.hour), GroupValue(m.value.groups.minute)))
    else None
  }

  /** TryParseTime as written. */
  function TryParseTimeAsWritten(s: string): Option<Ticks> { SpanOf(FirstMatch(s, UpToTwo), SpanAsWritten) }

  /** TryParseTime with the hour and minute groups read as hours and minutes. */
  function TryParseTime(s: string): Option<Ticks> { SpanOf(FirstMatch(s, UpToTwo), Span) }

  lemma FirstMatchWellFormed(s: string)
    requires FirstMatch(s, UpToTwo).Some?
    ensures WellFormed(FirstMatch(s, UpToTwo).value.groups)
  {
    FirstMatchAgrees(s, UpToTwo);
    var m := FirstMatch(s, UpToTwo).value;
    MatchAtGroupsAreDigits(s, m.index, UpToTwo);
  }

  /** TryParseTime succeeds iff "[1-2 digits 'h' spaces] 1-2 digits stars spaces 'min'"
      occurs somewhere (in any case), and then reads the hours and minutes of the
      leftmost occurrence, an absent hour group counting as 0 hours. */
  lemma TryParseTimeSpec(s: string)
    ensures TryParseTime(s).Some? <==> exists i :: 0 <= i <= |s| && MatchesAt(s, i, UpToTwo)
    ensures TryParseTime(s).Some? ==>
              var m := FirstMatch(s, UpToTwo).value;
              MatchesAt(s, m.index, UpToTwo) && (forall i :: 0 <= i < m.index ==> !MatchesAt(s, i, UpToTwo))
              && WellFormed(m.groups)
              && TryParseTime(s).value == Span(GroupValue(m.groups.hour), GroupValue(m.groups.minute))
  {
    FirstMatchAgrees(s, UpToTwo);
    if FirstMatch(s, UpToTwo).Some? {
      FirstMatchWellFormed(s);
    }
  }

  lemma TwoDigitsAtMost99(g: string)
    requires AllDigits(g) && |g| <= 2
    ensures GroupValue(g) <= 99
  {
    if |g| == 2 {
      assert g[..1][..0] == [];
      assert DigitsValue(g) == DigitsValue(g[..1]) * 10 + DigitValue(g[1]);
      assert DigitsValue(g[..1]) == DigitValue(g[0]);
    }
    if |g| == 1 {
      assert g[..0] == [];
      assert DigitsValue(g) == DigitValue(g[0]);
    }
  }

  /** A parsed duration lies between 0 and 99 hours 99 minutes. */
  lemma TryParseTimeBounded(s: string)
    requires TryParseTime(s).Some?
    ensures 0 <= TryParseTime(s).value <= Span(99, 99)
  {
    var g := FirstMatch(s, UpToTwo).value.groups;
    TwoDigitsAtMost99(g.hour);
    TwoDigitsAtMost99(g.minute);
    var h, m := GroupValue(g.hour), GroupValue(g.minute);
    assert h * TicksPerHour <= 99 * TicksPerHour;
    assert m * TicksPerMinute <= 99 * TicksPerMinute;
  }

  /** Whenever the report states a non-zero duration, the parser as written reads a
      different one: hours are taken as minutes and minutes as seconds. */
  lemma SpanAsWrittenDiffers(m: Option<Match>)
    requires SpanOf(m, Span).Some? && SpanOf(m, Span).value != 0
    ensures SpanOf(m, SpanAsWritten).Some?
    ensures SpanOf(m, SpanAsWritten).value * 60 == SpanOf(m, Span).value
    ensures SpanOf(m, SpanAsWritten) != SpanOf(m, Span)
  {
  }

  /** The pattern matches "5min" at its start, with no hour group and minute group "5". */
  lemma ExampleMatch()
    ensures MatchAt("5min", 0, UpToTwo) == Some(Groups([], "5"))
  {
    var s := "5min";
    assert Run(s, 0, Digit) == 1 by { assert Run(s, 1, Digit) == 0; }
    assert HourAt(s, 0, UpToTwo).None? by { assert LowerChar(s[1]) == 'm'; }
    assert Run(s, 1, Star) == 0;
    assert Run(s, 1, Space) == 0;
    assert MinAt(s, 1);
    assert s[0..1] == "5";
  }

  /** "5min" is five minutes; the parser as written reads five seconds. */
  lemma SpanAsWrittenExample()
    ensures TryParseTimeAsWritten("5min") == Some(5 * TicksPerSecond)
    ensures TryParseTime("5min") == Some(5 * TicksPerMinute)
  {
    ExampleMatch();
    assert FirstMatch("5min", UpToTwo) == Some(Match(0, Groups([], "5")));
    assert DigitsValue("5") == 5 by { assert "5"[..0] == []; }
  }

  /** With both groups, "1h 30min" is read as 90 seconds instead of 90 minutes. */
  lemma SpanAsWrittenHourExample()
    ensures SpanOf(Some(Match(0, Groups("1", "30"))), SpanAsWritten) == Some(90 * TicksPerSecond)
    ensures SpanOf(Some(Match(0, Groups("1", "30"))), Span) == Some(90 * TicksPerMinute)
  {
    assert DigitsValue("30") == 30 by { assert "30"[..1] == "3"; assert "3"[..0] == []; }
    assert DigitsValue("1") == 1 by { assert "1"[..0] == []; }
  }

  // -------------------------------------------------------------- integers

  /** The index of the first digit at or after `i`, or |s| when there is none. */
  function FirstDigitFrom(s: string, i: nat): (j: nat)
    requires i <= |s|
    ensures i <= j <= |s|
    ensures forall k :: i <= k < j ==> !IsDigit(s[k])
    ensures j < |s| ==> IsDigit(s[j])
    decreases |s| - i
  {
    if i == |s| || IsDigit(s[i]) then i else FirstDigitFrom(s, i + 1)
  }

  /** The text of the first `\d+` match, or "" when there is none. */
  function FirstDigits(s: string): string {
    var i := FirstDigitFrom(s, 0);
    s[i..i + Run(s, i, Digit)]
  }

  /** FirstDigits is the leftmost maximal run of digits: it is empty exactly when `s`
      has no digit, and otherwise it starts at the first digit and stops before the
      next non-digit. */
  lemma FirstDigitsSpec(s: string)
    ensures AllDigits(FirstDigits(s))
    ensures FirstDigits(s) == [] <==> forall k :: 0 <= k < |s| ==> !IsDigit(s[k])
    ensures FirstDigits(s) != [] ==>
              var i := FirstDigitFrom(s, 0);
              var r := FirstDigits(s);
              i + |r| <= |s| && s[i..i + |r|] == r
              && (forall k :: 0 <= k < i ==> !IsDigit(s[k]))
              && (i + |r| == |s| || !IsDigit(s[i + |r|]))
  {
    var i := FirstDigitFrom(s, 0);
    RunFacts(s, i, Digit);
    if i < |s| {
      assert s[i..i + Run(s, i, Digit)][0] == s[i];
    }
  }

  /** TryParseInt: int.TryParse of the first digit run; None stands for `false` with value 0. */
  function TryParseInt(s: string): (r: Option<int>)
    ensures r.Some? ==> 0 <= r.value <= Int32Max
    ensures (forall i :: 0 <= i < |s| ==> !IsDigit(s[i])) ==> r == None
  {
    FirstDigitsSpec(s);
    ParseInt32Digits(FirstDigits(s))
  }

  /** The value a rolls-left or stock line stores: the parsed integer, or 0. */
  function IntOrZero(s: string): int {
    var r := TryParseInt(s);
    if r.Some? then r.value else 0
  }

  // ------------------------------------------------------------ the record

  /** The timer fields of the per-guild state this parser writes. Power and its
      consumption are counted in hundredths (the report gives them as percents). */
  datatype Timers = Timers(
    claimReset: Option<Ticks>,
    rollsLeft: int,
    rollsReset: Option<Ticks>,
    kakeraReset: Option<Ticks>,
    kakeraPower: int,
    kakeraConsumption: int,
    kakeraStock: int,
    kakeraDailyReset: Option<Ticks>,
    averageRollInterval: Ticks,
    lastUpdated: Option<Ticks>)

  /** What one line (or one part of a power line) writes: `Some(v)` for a field set to `v`. */
  datatype Effect = Effect(
    claimReset: Option<Option<Ticks>>,
    rollsLeft: Option<int>,
    rollsReset: Option<Option<Ticks>>,
    kakeraReset: Option<Option<Ticks>>,
    kakeraPower: Option<int>,
    kakeraConsumption: Option<int>,
    kakeraStock: Option<int>,
    kakeraDailyReset: Option<Option<Ticks>>)

  const NoEffect: Effect := Effect(None, None, None, None, None, None, None, None)

  function Override<T>(first: Option<T>, second: Option<T>): Option<T> {
    if second.Some? then second else first
  }

  /** `first` followed by `second`: the later write of a field wins. */
  function Then(first: Effect, second: Effect): Effect {
    Effect(
      Override(first.claimReset, second.claimReset),
      Override(first.rollsLeft, second.rollsLeft),
      Override(first.rollsReset, second.rollsReset),
      Override(first.kakeraReset, second.kakeraReset),
      Override(first.kakeraPower, second.kakeraPower),
      Override(first.kakeraConsumption, second.kakeraConsumption),
      Override(first.kakeraStock, second.kakeraStock),
      Override(first.kakeraDailyReset, second.kakeraDailyReset))
  }

  function Write<T>(prior: T, w: Option<T>): T { if w.Some? then w.value else prior }

  /** The record after the writes of `e`. */
  function Merge(t: Timers, e: Effect): Timers {
    t.(claimReset := Write(t.claimReset, e.claimReset),
       rollsLeft := Write(t.rollsLeft, e.rollsLeft),
       rollsReset := Write(t.rollsReset, e.rollsReset),
       kakeraReset := Write(t.kakeraReset, e.kakeraReset),
       kakeraPower := Write(t.kakeraPower, e.kakeraPower),
       kakeraConsumption := Write(t.kakeraConsumption, e.kakeraConsumption),
       kakeraStock := Write(t.kakeraStock, e.kakeraStock),
       kakeraDailyReset := Write(t.kakeraDailyReset, e.kakeraDailyReset))
  }

  lemma MergeThen(t: Timers, e1: Effect, e2: Effect)
    ensures Merge(Merge(t, e1), e2) == Merge(t, Then(e1, e2))
  {
  }

  /** Writing the same values twice is the same as writing them once. */
  lemma MergeTwice(t: Timers, e: Effect)
    ensures Merge(Merge(t, e), e) == Merge(t, e)
  {
  }

  // -------------------------------------------------------- classification

  datatype LineKind = ClaimLine | RollsLeftLine | RollsResetLine | KakeraReactLine
                    | KakeraPowerLine | KakeraStockLine | DailyKakeraLine | Unrecognised

  /** The first branch a (lower-cased) line takes. */
  function Classify(line: string): LineKind {
    if Contains(line, "claim") && Contains(line, "reset") then ClaimLine
    else if Contains(line, "rolls") && Contains(line, "left") then RollsLeftLine
    else if Contains(line, "rolls") && Contains(line, "reset") then RollsResetLine
    else if Contains(line, "react") && Contains(line, "kakera") then KakeraReactLine
    else if Contains(line, "power") && Contains(line, "kakera") then KakeraPowerLine
    else if Contains(line, "stock") && Contains(line, "kakera") then KakeraStockLine
    else if Contains(line, "$dk") then DailyKakeraLine
    else Unrecognised
  }

  /** A reset time: now plus the parsed duration, else now when the line contains
      `ready` ("now" or "ready"), else null. */
  function ResetTime(line: string, ready: string, now: Ticks): Option<Ticks> {
    var time := TryParseTime(line);
    if time.Some? then Some(now + time.value)
    else if ready != [] && Contains(line, ready) then Some(now)
    else None
  }

  /** Hundredths from a percentage part: the parsed integer, or 0. */
  function PartEffect(part: string): Effect {
    if Contains(part, "power") then NoEffect.(kakeraPower := Some(IntOrZero(part)))
    else if Contains(part, "consume") then NoEffect.(kakeraConsumption := Some(IntOrZero(part)))
    else NoEffect
  }

  function PartsEffect(parts: seq<string>): Effect
  {
    if parts == [] then NoEffect
    else Then(PartsEffect(parts[..|parts| - 1]), PartEffect(parts[|parts| - 1]))
  }

  /** The writes of one lower-cased line. */
  function LineEffect(line: string, now: Ticks): Effect {
    match Classify(line)
    case ClaimLine => NoEffect.(claimReset := Some(ResetTime(line, [], now)))
    case RollsLeftLine => NoEffect.(rollsLeft := Some(IntOrZero(line)))
    case RollsResetLine => NoEffect.(rollsReset := Some(ResetTime(line, [], now)))
    case KakeraReactLine => NoEffect.(kakeraReset := Some(ResetTime(line, "now", now)))
    case KakeraPowerLine => PartsEffect(SplitNonEmpty(line, {'('}))
    case KakeraStockLine => NoEffect.(kakeraStock := Some(IntOrZero(line)))
    case DailyKakeraLine => NoEffect.(kakeraDailyReset := Some(ResetTime(line, "ready", now)))
    case Unrecognised => NoEffect
  }

  /** The writes of each (lower-cased) line of a report, in order. */
  function LineEffects(lines: seq<string>, now: Ticks): (es: seq<Effect>)
    ensures |es| == |lines|
    ensures forall i :: 0 <= i < |lines| ==> es[i] == LineEffect(ToLower(lines[i]), now)
  {
    seq(|lines|, (i: int) requires 0 <= i < |lines| => LineEffect(ToLower(lines[i]), now))
  }

  /** The writes of a sequence of effects, one after another. */
  function Fold(es: seq<Effect>): Effect
  {
    if es == [] then NoEffect else Then(Fold(es[..|es| - 1]), es[|es| - 1])
  }

  function LinesEffect(lines: seq<string>, now: Ticks): Effect { Fold(LineEffects(lines, now)) }

  function FailedCount(lines: seq<string>): (n: nat)
    ensures n <= |lines|
  {
    if lines == [] then 0
    else FailedCount(lines[..|lines| - 1]) + if Classify(ToLower(lines[|lines| - 1])) == Unrecognised then 1 else 0
  }

  /** The report's lines: the trimmed content split at '\r' and '\n', empty lines dropped. */
  function ReportLines(content: string): seq<string> {
    SplitNonEmpty(Trim(content), {'\r', '\n'})
  }

  function Addressee(username: string): string { "**" + username + "**" }

  /** AverageRollInterval as written: the absolute RollsReset, in ticks, divided by RollsLeft. */
  function AverageIntervalAsWritten(t: Timers, now: Ticks): Ticks {
    if t.rollsLeft != 0 && t.rollsReset.Some? then TruncatingDiv(t.rollsReset.value, t.rollsLeft)
    else t.averageRollInterval
  }

  /** AverageRollInterval as the time left until the rolls reset divided by RollsLeft. */
  function AverageInterval(t: Timers, now: Ticks): Ticks {
    if t.rollsLeft != 0 && t.rollsReset.Some? then TruncatingDiv(t.rollsReset.value - now, t.rollsLeft)
    else t.averageRollInterval
  }

  datatype Outcome = Outcome(ok: bool, timers: Timers)

  /** After the lines: the new average roll interval, and the verdict, which holds when
      fewer than half (rounded down) of the `count` lines were unrecognised. */
  function Conclude(written: Timers, failed: nat, count: nat, now: Ticks): Outcome {
    var interval := written.(averageRollInterval := AverageInterval(written, now));
    var ok := failed < count / 2;
    Outcome(ok, if ok then interval.(lastUpdated := Some(now)) else interval)
  }

  /** TryParse: the verdict and the record after a report. */
  function Report(t: Timers, content: string, username: string, now: Ticks): Outcome {
    if !StartsWith(content, Addressee(username)) then Outcome(false, t)
    else
      var lines := ReportLines(content);
      Conclude(Merge(t, LinesEffect(lines, now)), FailedCount(lines), |lines|, now)
  }

  // ------------------------------------------------------------ properties

  /** A message not addressed to the bot's own user is rejected and changes nothing. */
  lemma ReportNeedsAddressee(t: Timers, content: string, username: string, now: Ticks)
    requires !StartsWith(content, Addressee(username))
    ensures Report(t, content, username, now) == Outcome(false, t)
  {
  }

  /** The verdict: fewer than half (rounded down) of the lines are unrecognised, so a
      report of zero or one line always fails; LastUpdated moves to now exactly on success. */
  lemma ReportVerdict(t: Timers, content: string, username: string, now: Ticks)
    requires StartsWith(content, Addressee(username))
    ensures var r := Report(t, content, username, now);
            var lines := ReportLines(content);
            (r.ok <==> FailedCount(lines) < |lines| / 2)
            && (|lines| <= 1 ==> !r.ok)
            && r.timers.lastUpdated == (if r.ok then Some(now) else t.lastUpdated)
  {
  }

  /** The field writes happen whatever the verdict: a rejected report still leaves them. */
  lemma ReportWritesPersist(t: Timers, content: string, username: string, now: Ticks)
    requires StartsWith(content, Addressee(username))
    ensures var r := Report(t, content, username, now).timers;
            var w := Merge(t, LinesEffect(ReportLines(content), now));
            r.claimReset == w.claimReset && r.rollsLeft == w.rollsLeft && r.rollsReset == w.rollsReset
            && r.kakeraReset == w.kakeraReset && r.kakeraPower == w.kakeraPower
            && r.kakeraConsumption == w.kakeraConsumption && r.kakeraStock == w.kakeraStock
            && r.kakeraDailyReset == w.kakeraDailyReset
  {
  }

  /** Parsing the same report twice gives the same record as parsing it once. */
  lemma ReportIdempotent(t: Timers, content: string, username: string, now: Ticks)
    ensures var r := Report(t, content, username, now);
            Report(r.timers, content, username, now) == r
  {
    if StartsWith(content, Addressee(username)) {
      var lines := ReportLines(content);
      ConcludeAgain(t, LinesEffect(lines, now), FailedCount(lines), |lines|, now);
    }
  }

  lemma ConcludeAgain(t: Timers, e: Effect, failed: nat, count: nat, now: Ticks)
    ensures var r := Conclude(Merge(t, e), failed, count, now);
            Conclude(Merge(r.timers, e), failed, count, now) == r
  {
    var w := Merge(t, e);
    var r := Conclude(w, failed, count, now);
    assert Merge(r.timers, e) == r.timers;
  }

  // ----------------------------------------------- which line writes which field

  /** The fields a line can write. */
  datatype Field = ClaimReset | RollsLeft | RollsReset | KakeraReset
                 | KakeraPower | KakeraConsumption | KakeraStock | KakeraDailyReset

  predicate Writes(e: Effect, f: Field) {
    match f
    case ClaimReset => e.claimReset.Some?
    case RollsLeft => e.rollsLeft.Some?
    case RollsReset => e.rollsReset.Some?
    case KakeraReset => e.kakeraReset.Some?
    case KakeraPower => e.kakeraPower.Some?
    case KakeraConsumption => e.kakeraConsumption.Some?
    case KakeraStock => e.kakeraStock.Some?
    case KakeraDailyReset => e.kakeraDailyReset.Some?
  }

  /** `e1` and `e2` agree on what they write to `f`. */
  predicate SameWrite(e1: Effect, e2: Effect, f: Field) {
    match f
    case ClaimReset => e1.claimReset == e2.claimReset
    case RollsLeft => e1.rollsLeft == e2.rollsLeft
    case RollsReset => e1.rollsReset == e2.rollsReset
    case KakeraReset => e1.kakeraReset == e2.kakeraReset
    case KakeraPower => e1.kakeraPower == e2.kakeraPower
    case KakeraConsumption => e1.kakeraConsumption == e2.kakeraConsumption
    case KakeraStock => e1.kakeraStock == e2.kakeraStock
    case KakeraDailyReset => e1.kakeraDailyReset == e2.kakeraDailyReset
  }

  /** `t1` and `t2` hold the same value in `f`. */
  predicate SameField(t1: Timers, t2: Timers, f: Field) {
    match f
    case ClaimReset => t1.claimReset == t2.claimReset
    case RollsLeft => t1.rollsLeft == t2.rollsLeft
    case RollsReset => t1.rollsReset == t2.rollsReset
    case KakeraReset => t1.kakeraReset == t2.kakeraReset
    case KakeraPower => t1.kakeraPower == t2.kakeraPower
    case KakeraConsumption => t1.kakeraConsumption == t2.kakeraConsumption
    case KakeraStock => t1.kakeraStock == t2.kakeraStock
    case KakeraDailyReset => t1.kakeraDailyReset == t2.kakeraDailyReset
  }

  /** The kind of line that writes a field. */
  function KindOf(f: Field): LineKind {
    match f
    case ClaimReset => ClaimLine
    case RollsLeft => RollsLeftLine
    case RollsReset => RollsResetLine
    case KakeraReset => KakeraReactLine
    case KakeraPower => KakeraPowerLine
    case KakeraConsumption => KakeraPowerLine
    case KakeraStock => KakeraStockLine
    case KakeraDailyReset => DailyKakeraLine
  }

  lemma {:induction false} PartsEffectWritesPower(parts: seq<string>, f: Field)
    requires Writes(PartsEffect(parts), f)
    ensures f == KakeraPower || f == KakeraConsumption
  {
    if parts != [] && !Writes(PartEffect(parts[|parts| - 1]), f) {
      PartsEffectWritesPower(parts[..|parts| - 1], f);
    }
  }

  /** A line writes a field only if it is of that field's kind; a line of a field's
      kind always writes it, except for the power line, whose parts decide. */
  lemma LineEffectWrites(line: string, now: Ticks, f: Field)
    ensures Writes(LineEffect(line, now), f) ==> Classify(line) == KindOf(f)
    ensures Classify(line) == KindOf(f) && KindOf(f) != KakeraPowerLine ==> Writes(LineEffect(line, now), f)
  {
    if Classify(line) == KakeraPowerLine && Writes(LineEffect(line, now), f) {
      PartsEffectWritesPower(SplitNonEmpty(line, {'('}), f);
    }
  }

  /** A fold writes a field only if one of its effects does. */
  lemma {:induction false} FoldUnwritten(es: seq<Effect>, f: Field)
    requires forall i :: 0 <= i < |es| ==> !Writes(es[i], f)
    ensures !Writes(Fold(es), f)
  {
    if es != [] {
      FoldUnwritten(es[..|es| - 1], f);
    }
  }

  /** The last effect writing a field decides it. */
  lemma {:induction false} FoldLastWriteWins(es: seq<Effect>, j: nat, f: Field)
    requires j < |es| && Writes(es[j], f)
    requires forall i :: j < i < |es| ==> !Writes(es[i], f)
    ensures SameWrite(Fold(es), es[j], f)
  {
    if j < |es| - 1 {
      FoldLastWriteWins(es[..|es| - 1], j, f);
    }
  }

  /** The fields an effect does not write keep their value. */
  lemma MergeUnwritten(t: Timers, e: Effect, f: Field)
    requires !Writes(e, f)
    ensures SameField(Merge(t, e), t, f)
  {
  }

  /** The steps after the loop touch none of the fields the lines write. */
  lemma ConcludeKeepsFields(w: Timers, failed: nat, count: nat, now: Ticks, f: Field)
    ensures SameField(Conclude(w, failed, count, now).timers, w, f)
  {
  }

  lemma SameFieldTrans(t1: Timers, t2: Timers, t3: Timers, f: Field)
    requires SameField(t1, t2, f) && SameField(t2, t3, f)
    ensures SameField(t1, t3, f)
  {
  }

  predicate HasKind(lines: seq<string>, k: LineKind) {
    exists i :: 0 <= i < |lines| && Classify(ToLower(lines[i])) == k
  }

  /** A report with no line of a field's kind leaves that field as it was. */
  lemma ReportKeepsUnwrittenField(t: Timers, content: string, username: string, now: Ticks, f: Field)
    requires !HasKind(ReportLines(content), KindOf(f))
    ensures SameField(Report(t, content, username, now).timers, t, f)
  {
    var lines := ReportLines(content);
    var es := LineEffects(lines, now);
    if StartsWith(content, Addressee(username)) {
      forall i | 0 <= i < |es| ensures !Writes(es[i], f) {
        LineEffectWrites(ToLower(lines[i]), now, f);
      }
      FoldUnwritten(es, f);
      var w := Merge(t, LinesEffect(lines, now));
      MergeUnwritten(t, LinesEffect(lines, now), f);
      ConcludeKeepsFields(w, FailedCount(lines), |lines|, now, f);
      SameFieldTrans(Report(t, content, username, now).timers, w, t, f);
    }
  }

  /** Where several lines of a field's kind occur, the last one decides the field. */
  lemma ReportLastLineWins(t: Timers, content: string, username: string, now: Ticks, j: nat, f: Field)
    requires StartsWith(content, Addressee(username))
    requires j < |ReportLines(content)| && Classify(ToLower(ReportLines(content)[j])) == KindOf(f)
    requires KindOf(f) != KakeraPowerLine
    requires forall i :: j < i < |ReportLines(content)| ==> Classify(ToLower(ReportLines(content)[i])) != KindOf(f)
    ensures SameField(Report(t, content, username, now).timers,
                      Merge(t, LineEffect(ToLower(ReportLines(content)[j]), now)), f)
  {
    var lines := ReportLines(content);
    var es := LineEffects(lines, now);
    LineEffectWrites(ToLower(lines[j]), now, f);
    forall i | j < i < |es| ensures !Writes(es[i], f) {
      LineEffectWrites(ToLower(lines[i]), now, f);
    }
    FoldLastWriteWins(es, j, f);
  }

  lemma MulPositive(x: int, b: int)
    requires b > 0 && x * b > 0
    ensures x > 0
  {
  }

  /** With the absolute RollsReset, the interval as written is at least a whole tick
      per roll longer than the intended one as soon as now is past RollsLeft ticks. */
  lemma AverageIntervalAsWrittenTooLarge(t: Timers, now: Ticks)
    requires t.rollsLeft > 0 && t.rollsReset.Some? && now >= t.rollsLeft && t.rollsReset.value >= now
    ensures AverageIntervalAsWritten(t, now) > AverageInterval(t, now)
  {
    var a, b := t.rollsReset.value, t.rollsLeft;
    var q1 := TruncatingDiv(a, b);
    var q2 := TruncatingDiv(a - now, b);
    TruncatingDivBounds(a, b);
    TruncatingDivBounds(a - now, b);
    assert q2 * b <= a - now && a < q1 * b + b;
    assert (q1 - q2) * b == q1 * b - q2 * b;
    MulPositive(q1 - q2, b);
  }

  /** The corrected interval spreads the rolls left over the time left until they reset:
      that many intervals fit into it, one more per roll does not; without a count or a
      reset time the previous average is kept. */
  lemma AverageIntervalSpec(t: Timers, now: Ticks)
    ensures t.rollsLeft > 0 && t.rollsReset.Some? && t.rollsReset.value >= now ==>
              var q := AverageInterval(t, now);
              0 <= q * t.rollsLeft <= t.rollsReset.value - now < q * t.rollsLeft + t.rollsLeft
    ensures t.rollsLeft == 0 || t.rollsReset.None? ==> AverageInterval(t, now) == t.averageRollInterval
  {
    if t.rollsLeft > 0 && t.rollsReset.Some? {
      TruncatingDivBounds(t.rollsReset.value - now, t.rollsLeft);
    }
  }

  // ------------------------------------------------------- the state object

  /** The per-guild state record the parser writes (the part of it this parser touches). */
  class TimerState {
    var claimReset: Option<Ticks>
    var rollsLeft: int
    var rollsReset: Option<Ticks>
    var kakeraReset: Option<Ticks>
    var kakeraPower: int
    var kakeraConsumption: int
    var kakeraStock: int
    var kakeraDailyReset: Option<Ticks>
    var averageRollInterval: Ticks
    var lastUpdated: Option<Ticks>

    function Snapshot(): Timers
      reads this
    {
      Timers(claimReset, rollsLeft, rollsReset, kakeraReset, kakeraPower, kakeraConsumption,
             kakeraStock, kakeraDailyReset, averageRollInterval, lastUpdated)
    }

    constructor (t: Timers)
      ensures Snapshot() == t
    {
      claimReset, rollsLeft, rollsReset, kakeraReset := t.claimReset, t.rollsLeft, t.rollsReset, t.kakeraReset;
      kakeraPower, kakeraConsumption, kakeraStock := t.kakeraPower, t.kakeraConsumption, t.kakeraStock;
      kakeraDailyReset, averageRollInterval, lastUpdated := t.kakeraDailyReset, t.averageRollInterval, t.lastUpdated;
    }
  }

  /** The power line: each '('-separated part naming "power" or "consume" sets that value. */
  method ApplyPowerLine(state: TimerState, line: string)
    modifies state
    ensures state.Snapshot() == Merge(old(state.Snapshot()), PartsEffect(SplitNonEmpty(line, {'('})))
  {
    var parts := SplitNonEmpty(line, {'('});
    var k := 0;
    while k < |parts|
      invariant 0 <= k <= |parts|
      invariant state.Snapshot() == Merge(old(state.Snapshot()), PartsEffect(parts[..k]))
    {
      var part := parts[k];
      ghost var before := state.Snapshot();
      if Contains(part, "power") {
        var value := TryParseInt(part);
        state.kakeraPower := if value.Some? then value.value else 0;
      } else if Contains(part, "consume") {
        var value := TryParseInt(part);
        state.kakeraConsumption := if value.Some? then value.value else 0;
      }
      assert state.Snapshot() == Merge(before, PartEffect(part));
      MergeThen(old(state.Snapshot()), PartsEffect(parts[..k]), PartEffect(part));
      assert parts[..k + 1][..k] == parts[..k];
      k := k + 1;
    }
    assert parts[..k] == parts;
  }

  /** One (lower-cased) line of the report: the first branch whose keywords it contains. */
  method ApplyLine(state: TimerState, line: string, now: Ticks) returns (recognised: bool)
    modifies state
    ensures state.Snapshot() == Merge(old(state.Snapshot()), LineEffect(line, now))
    ensures recognised <==> Classify(line) != Unrecognised
  {
    recognised := true;
    if Contains(line, "claim") && Contains(line, "reset") {
      ApplyClaimLine(state, line, now);
    } else if Contains(line, "rolls") && Contains(line, "left") {
      ApplyRollsLeftLine(state, line, now);
    } else if Contains(line, "rolls") && Contains(line, "reset") {
      ApplyRollsResetLine(state, line, now);
    } else {
      recognised := ApplyKakeraLine(state, line, now);
    }
  }

  /** The claim reset: now plus the parsed duration, else null. */
  method ApplyClaimLine(state: TimerState, line: string, now: Ticks)
    requires Classify(line) == ClaimLine
    modifies state
    ensures state.Snapshot() == Merge(old(state.Snapshot()), LineEffect(line, now))
  {
    var time := TryParseTime(line);
    state.claimReset := if time.Some? then Some(now + time.value) else None;
  }

  /** The rolls left: the parsed integer, or 0. */
  method ApplyRollsLeftLine(state: TimerState, line: string, now: Ticks)
    requires Classify(line) == RollsLeftLine
    modifies state
    ensures state.Snapshot() == Merge(old(state.Snapshot()), LineEffect(line, now))
  {
    var value := TryParseInt(line);
    state.rollsLeft := if value.Some? then value.value else 0;
  }

  /** The rolls reset: now plus the parsed duration, else null. */
  method ApplyRollsResetLine(state: TimerState, line: string, now: Ticks)
    requires Classify(line) == RollsResetLine
    modifies state
    ensures state.Snapshot() == Merge(old(state.Snapshot()), LineEffect(line, now))
  {
    var time := TryParseTime(line);
    state.rollsReset := if time.Some? then Some(now + time.value) else None;
  }

  /** The kakera and daily-kakera branches, tried once no claim or rolls branch applies. */
  method ApplyKakeraLine(state: TimerState, line: string, now: Ticks) returns (recognised: bool)
    requires !(Contains(line, "claim") && Contains(line, "reset"))
    requires !(Contains(line, "rolls") && (Contains(line, "left") || Contains(line, "reset")))
    modifies state
    ensures state.Snapshot() == Merge(old(state.Snapshot()), LineEffect(line, now))
    ensures recognised <==> Classify(line) != Unrecognised
  {
    recognised := true;
    if Contains(line, "react") && Contains(line, "kakera") {
      ApplyReactLine(state, line, now);
    } else if Contains(line, "power") && Contains(line, "kakera") {
      assert Classify(line) == KakeraPowerLine;
      ApplyPowerLine(state, line);
    } else if Contains(line, "stock") && Contains(line, "kakera") {
      ApplyStockLine(state, line, now);
    } else if Contains(line, "$dk") {
      ApplyDailyLine(state, line, now);
    } else {
      recognised := false;
    }
  }

  /** The kakera reaction reset, or now when the line says "now". */
  method ApplyReactLine(state: TimerState, line: string, now: Ticks)
    requires Classify(line) == KakeraReactLine
    modifies state
    ensures state.Snapshot() == Merge(old(state.Snapshot()), LineEffect(line, now))
  {
    var time := TryParseTime(line);
    state.kakeraReset := if time.Some? then Some(now + time.value)
                         else if Contains(line, "now") then Some(now) else None;
  }

  /** The kakera stock: the parsed integer, or 0. */
  method ApplyStockLine(state: TimerState, line: string, now: Ticks)
    requires Classify(line) == KakeraStockLine
    modifies state
    ensures state.Snapshot() == Merge(old(state.Snapshot()), LineEffect(line, now))
  {
    var value := TryParseInt(line);
    state.kakeraStock := if value.Some? then value.value else 0;
  }

  /** The daily kakera reset, or now when the line says "ready". */
  method ApplyDailyLine(state: TimerState, line: string, now: Ticks)
    requires Classify(line) == DailyKakeraLine
    modifies state
    ensures state.Snapshot() == Merge(old(state.Snapshot()), LineEffect(line, now))
  {
    var time := TryParseTime(line);
    state.kakeraDailyReset := if time.Some? then Some(now + time.value)
                              else if Contains(line, "ready") then Some(now) else None;
  }

  /** The loop over the report's lines: writes each line into `state` and counts
      the lines no branch recognises. */
  method ApplyLines(state: TimerState, lines: seq<string>, now: Ticks) returns (failed: nat)
    modifies state
    ensures state.Snapshot() == Merge(old(state.Snapshot()), LinesEffect(lines, now))
    ensures failed == FailedCount(lines)
  {
    ghost var es := LineEffects(lines, now);
    failed := 0;
    var i := 0;
    while i < |lines|
      invariant 0 <= i <= |lines|
      invariant state.Snapshot() == Merge(old(state.Snapshot()), Fold(es[..i]))
      invariant failed == FailedCount(lines[..i])
    {
      var recognised := ApplyLine(state, ToLower(lines[i]), now);
      if !recognised {
        failed := failed + 1;
      }
      MergeThen(old(state.Snapshot()), Fold(es[..i]), es[i]);
      assert es[..i + 1][..i] == es[..i];
      assert lines[..i + 1][..i] == lines[..i];
      i := i + 1;
    }
    assert es[..i] == es;
    assert lines[..i] == lines;
  }

  /** TryParse: reads the report into `state`; `now` is the clock reading. */
  method TryParse(state: TimerState, content: string, username: string, now: Ticks) returns (ok: bool)
    modifies state
    ensures Outcome(ok, state.Snapshot()) == Report(old(state.Snapshot()), content, username, now)
  {
    if !StartsWith(content, Addressee(username)) {
      return false;
    }
    var lines := ReportLines(content);
    var failed := ApplyLines(state, lines, now);
    ok := FinishReport(state, failed, |lines|, now);
  }

  /** The steps after the loop: the average roll interval, the verdict and LastUpdatedTime. */
  method FinishReport(state: TimerState, failed: nat, count: nat, now: Ticks) returns (ok: bool)
    modifies state
    ensures Outcome(ok, state.Snapshot()) == Conclude(old(state.Snapshot()), failed, count, now)
  {
    if state.rollsLeft != 0 && state.rollsReset.Some? {
      state.averageRollInterval := TruncatingDiv(state.rollsReset.value - now, state.rollsLeft);
    }
    ok := failed < count / 2;
    if ok {
      state.lastUpdated := Some(now);
    }
  }
}
