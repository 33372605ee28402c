/** Shared vocabulary of the model: optional values, .NET time units, Discord ids
    and the fixed-width integer operations the C# code relies on. */
module Base {

  datatype Option<+T> = None | Some(value: T)

  /** DateTime and TimeSpan values, counted in 100-nanosecond ticks as .NET does. */
  type Ticks = int

  const TicksPerSecond: int := 10_000_000
  const TicksPerMinute: int := 60 * TicksPerSecond
  const TicksPerHour: int := 60 * TicksPerMinute

  /** DateTime.MinValue and DateTime.MaxValue. */
  const DateTimeMinValue: Ticks := 0
  const DateTimeMaxValue: Ticks := 3_155_378_975_999_999_999

  /** A Discord snowflake (C# ulong). */
  const ULongLimit: int := 0x1_0000_0000_0000_0000
  type Snowflake = x: int | 0 <= x < ULongLimit

  const Int32Max: int := 0x7fff_ffff
  const Int32Min: int := -0x8000_0000

  predicate IsInt32(x: int) { Int32Min <= x <= Int32Max }

  /** `--x` on a C# int (unchecked): wraps from int.MinValue to int.MaxValue. */
  function Decrement32(x: int): (r: int)
    requires IsInt32(x)
    ensures IsInt32(r)
    ensures x > Int32Min ==> r == x - 1
    ensures x == Int32Min ==> r == Int32Max
  {
    if x == Int32Min then Int32Max else x - 1
  }

  function Abs(x: int): nat { if x < 0 then -x else x }

  function TruncatingQuotient(a: int, b: int): int
    requires b > 0
  {
    if a >= 0 then a / b else -((-a) / b)
  }

  /** C# integer division `a / b`, which truncates toward zero (Dafny's `/` is
      Euclidean, which differs when an operand is negative). */
  function TruncatingDiv(a: int, b: int): int
    requires b != 0
  {
    if b > 0 then TruncatingQuotient(a, b) else -TruncatingQuotient(a, -b)
  }

  lemma EuclideanBounds(n: int, b: int)
    requires n >= 0 && b > 0
    ensures 0 <= (n / b) * b <= n < (n / b) * b + b
  {
    var m := n / b;
    assert n == m * b + n % b && 0 <= n % b < b;
    assert m >= 0;
  }

  lemma TruncatingQuotientBounds(a: int, b: int)
    requires b > 0
    ensures var q := TruncatingQuotient(a, b);
            (a >= 0 ==> 0 <= q * b <= a < q * b + b) && (a < 0 ==> a <= q * b <= 0 && q * b - b < a)
  {
    if a >= 0 {
      EuclideanBounds(a, b);
    } else {
      EuclideanBounds(-a, b);
      var m := (-a) / b;
      assert (-m) * b == -(m * b);
    }
  }

  /** `TruncatingDiv(a, b) * b` lies between 0 and `a`, less than one `|b|` away from `a`. */
  lemma TruncatingDivBounds(a: int, b: int)
    requires b != 0
    ensures var q := TruncatingDiv(a, b);
            (a >= 0 ==> 0 <= q * b <= a < q * b + Abs(b))
            && (a < 0 ==> a <= q * b <= 0 && q * b - Abs(b) < a)
  {
    if b > 0 {
      TruncatingQuotientBounds(a, b);
    } else {
      TruncatingQuotientBounds(a, -b);
      var q' := TruncatingQuotient(a, -b);
      assert (-q') * b == q' * (-b);
    }
  }

  /** Removes every entry of `m` whose value is `expired`: the purge loops
      over a dictionary's keys used by the claim table and the message cache. */
  method Purge<K, V>(m: map<K, V>, expired: V -> bool) returns (kept: map<K, V>)
    ensures kept.Keys <= m.Keys
    ensures forall k :: k in kept ==> kept[k] == m[k] && !expired(m[k])
    ensures forall k :: k in m && !expired(m[k]) ==> k in kept
  {
    kept := m;
    var todo := m.Keys;
    while todo != {}
      invariant todo <= m.Keys
      invariant kept.Keys <= m.Keys
      invariant forall k :: k in kept ==> kept[k] == m[k]
      invariant forall k :: k in kept && k !in todo ==> !expired(m[k])
      invariant forall k :: k in m && (k in todo || !expired(m[k])) ==> k in kept
      decreases todo
    {
      var k :| k in todo;
      if expired(kept[k]) {
        kept := kept - {k};
      }
      todo := todo - {k};
    }
  }
}
