/** The per-guild Mudae state record: cooldown reset times, counters and flags,
    with kakera power in hundredths. */
module MudaeState {
  import opened Base

  datatype State = State(
    claimReset: Ticks,
    canClaim: bool,
    rollsLeft: int,
    rollsReset: Ticks,
    dailyReset: Ticks,
    canDaily: bool,
    kakeraReset: Ticks,
    kakeraPower: int,
    kakeraConsumption: int,
    kakeraStock: int,
    kakeraDailyReset: Ticks,
    canKakeraDaily: bool,
    // not serialised
    forceNextRefresh: bool,
    lastRefresh: Ticks)

  /** `new MudaeState()`: every reset time at DateTime.MaxValue, flags false, counters 0. */
  function Default(): (s: State)
    ensures s.claimReset == s.rollsReset == s.dailyReset == s.kakeraReset == s.kakeraDailyReset == DateTimeMaxValue
    ensures !s.canClaim && !s.canDaily && !s.canKakeraDaily && !s.forceNextRefresh
    ensures s.rollsLeft == 0 && s.kakeraStock == 0 && s.kakeraPower == 0 && s.kakeraConsumption == 0
    ensures s.lastRefresh == DateTimeMinValue
  {
    State(DateTimeMaxValue, false, 0, DateTimeMaxValue, DateTimeMaxValue, false, DateTimeMaxValue,
          0, 0, 0, DateTimeMaxValue, false, false, DateTimeMinValue)
  }

  /** CanKakera: some power left, and enough for one claim. */
  predicate CanKakera(s: State) {
    s.kakeraPower > 0 && s.kakeraPower - s.kakeraConsumption >= 0
  }

  /** The fields written to JSON, in declaration order (CanKakera is computed, not stored). */
  datatype Record = Record(
    claimReset: Ticks, canClaim: bool, rollsLeft: int, rollsReset: Ticks, dailyReset: Ticks,
    canDaily: bool, kakeraReset: Ticks, kakeraPower: int, kakeraConsumption: int,
    kakeraStock: int, kakeraDailyReset: Ticks, canKakeraDaily: bool)

  function Serialize(s: State): Record {
    Record(s.claimReset, s.canClaim, s.rollsLeft, s.rollsReset, s.dailyReset, s.canDaily,
           s.kakeraReset, s.kakeraPower, s.kakeraConsumption, s.kakeraStock, s.kakeraDailyReset,
           s.canKakeraDaily)
  }

  /** A new state with the record's fields; the ignored fields keep their defaults. */
  function Deserialize(r: Record): State {
    State(r.claimReset, r.canClaim, r.rollsLeft, r.rollsReset, r.dailyReset, r.canDaily,
          r.kakeraReset, r.kakeraPower, r.kakeraConsumption, r.kakeraStock, r.kakeraDailyReset,
          r.canKakeraDaily, Default().forceNextRefresh, Default().lastRefresh)
  }

  /** Clone: a JSON round trip. */
  function Clone(s: State): State { Deserialize(Serialize(s)) }

  /** Every serialised field is copied; ForceNextRefresh and LastRefresh come back at
      their defaults, so cloning again changes nothing and CanKakera is kept. */
  lemma CloneSpec(s: State)
    ensures Serialize(Clone(s)) == Serialize(s)
    ensures !Clone(s).forceNextRefresh && Clone(s).lastRefresh == DateTimeMinValue
    ensures Clone(Clone(s)) == Clone(s)
    ensures CanKakera(Clone(s)) <==> CanKakera(s)
  {
  }

  /** Deserialising a record and serialising it again gives the record back. */
  lemma SerializeDeserialize(r: Record)
    ensures Serialize(Deserialize(r)) == r
  {
  }

  /** A state is its own clone exactly when its ignored fields are at their defaults. */
  lemma CloneFixedPoints(s: State)
    ensures Clone(s) == s <==> !s.forceNextRefresh && s.lastRefresh == DateTimeMinValue
  {
  }
}
