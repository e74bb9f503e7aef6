/**
 * The pure decision logic of the driver: the direction-agnostic range test
 * (`isInRange`), the "all bounds configured" test (`distancesSet`), the
 * red -> yellow -> green classification of a distance, and the levels that
 * `checkRange` leaves on the three indicator outputs.
 */
module Ranges {
  import opened Wrappers
  import opened Header

  /** One zone's inclusive interval; `from` may be greater than `to`. */
  datatype Bounds = Bounds(from: Short, to: Short)

  /** The three configurable zones. */
  datatype ZoneConfig = ZoneConfig(red: Bounds, yellow: Bounds, green: Bounds)

  datatype Zone = Red | Yellow | Green

  /**
   * The level last commanded on an indicator output. `Unwritten` means the
   * driver has not written that output since it was constructed.
   */
  datatype Level = Unwritten | Low | High

  datatype Leds = Leds(red: Level, yellow: Level, green: Level)

  /** The header's default zones: 1-30 red, 30-50 yellow, 50-200 green. */
  const DefaultZones: ZoneConfig :=
    ZoneConfig(Bounds(DISTANCE_RED_FROM, DISTANCE_RED_TO),
               Bounds(DISTANCE_YELLOW_FROM, DISTANCE_YELLOW_TO),
               Bounds(DISTANCE_GREEN_FROM, DISTANCE_GREEN_TO))

  const AllOff: Leds := Leds(Low, Low, Low)

  function Min(a: int, b: int): int { if a <= b then a else b }
  function Max(a: int, b: int): int { if a <= b then b else a }

  /** The range test: inclusive, and the same whichever way round the bounds are given. */
  function IsInRange(distance: Short, from: Short, to: Short): (r: bool)
    ensures r <==> Min(from, to) <= distance <= Max(from, to)
  {
    if from <= to then distance >= from && distance <= to
    else distance <= from && distance >= to
  }

  lemma IsInRangeSymmetric(distance: Short, a: Short, b: Short)
    ensures IsInRange(distance, a, b) == IsInRange(distance, b, a)
    ensures IsInRange(a, a, b) && IsInRange(b, a, b)
  {
  }

  function BoundsOf(c: ZoneConfig, z: Zone): Bounds
  {
    match z
    case Red => c.red
    case Yellow => c.yellow
    case Green => c.green
  }

  function Contains(b: Bounds, d: Short): bool
  {
    IsInRange(d, b.from, b.to)
  }

  /** The six bounds, in the order red from/to, yellow from/to, green from/to. */
  function AllBounds(c: ZoneConfig): seq<Short>
  {
    [c.red.from, c.red.to, c.yellow.from, c.yellow.to, c.green.from, c.green.to]
  }

  /**
   * All six bounds are defined and strictly positive. Because the "undefined"
   * sentinel is negative, this is the same as: every bound is positive.
   */
  function DistancesSet(c: ZoneConfig): (r: bool)
    ensures r <==> forall i :: 0 <= i < |AllBounds(c)| ==> AllBounds(c)[i] > 0
    ensures r ==> forall z :: BoundsOf(c, z).from > 0 && BoundsOf(c, z).to > 0
  {
    var s := AllBounds(c);
    assert s[0] == c.red.from && s[1] == c.red.to && s[2] == c.yellow.from;
    assert s[3] == c.yellow.to && s[4] == c.green.from && s[5] == c.green.to;
    c.red.from != DISTANCE_UNDEF && c.red.from > 0 &&
    c.red.to != DISTANCE_UNDEF && c.red.to > 0 &&
    c.yellow.from != DISTANCE_UNDEF && c.yellow.from > 0 &&
    c.yellow.to != DISTANCE_UNDEF && c.yellow.to > 0 &&
    c.green.from != DISTANCE_UNDEF && c.green.from > 0 &&
    c.green.to != DISTANCE_UNDEF && c.green.to > 0
  }

  /** A single undefined or non-positive bound is enough to make the configuration unset. */
  lemma OneBadBoundUnsets(c: ZoneConfig, i: nat)
    requires i < 6
    requires AllBounds(c)[i] == DISTANCE_UNDEF || AllBounds(c)[i] <= 0
    ensures !DistancesSet(c)
  {
  }

  lemma DefaultZonesSet()
    ensures DistancesSet(DefaultZones)
  {
  }

  /** Priority of a zone when several contain the distance: red first, green last. */
  function Rank(z: Zone): nat
  {
    match z
    case Red => 0
    case Yellow => 1
    case Green => 2
  }

  /**
   * The zone `checkRange` lights for a (truncated) distance: the first of red,
   * yellow, green whose bounds contain it, or none.
   */
  function Classify(d: Short, c: ZoneConfig): (r: Option<Zone>)
    ensures r.Some? ==> Contains(BoundsOf(c, r.value), d)
    ensures r.Some? ==> forall z :: Rank(z) < Rank(r.value) ==> !Contains(BoundsOf(c, z), d)
    ensures r.None? <==> forall z :: !Contains(BoundsOf(c, z), d)
  {
    if IsInRange(d, c.red.from, c.red.to) then Some(Red)
    else if IsInRange(d, c.yellow.from, c.yellow.to) then Some(Yellow)
    else if IsInRange(d, c.green.from, c.green.to) then Some(Green)
    else None
  }

  /** A negative distance (such as an error sentinel) lies in no zone of a fully configured set. */
  lemma NegativeOutsideConfiguredZones(d: Short, c: ZoneConfig)
    requires DistancesSet(c) && d <= 0
    ensures Classify(d, c) == None
  {
  }

  /** Under the defaults the shared endpoints go to the higher-priority zone. */
  lemma DefaultSharedEndpoints()
    ensures Classify(30, DefaultZones) == Some(Red)
    ensures Classify(50, DefaultZones) == Some(Yellow)
    ensures Classify(25, DefaultZones) == Some(Red)
    ensures Classify(40, DefaultZones) == Some(Yellow)
    ensures Classify(200, DefaultZones) == Some(Green)
    ensures Classify(0, DefaultZones) == None && Classify(1000, DefaultZones) == None
  {
  }

  /** Inverted bounds still contain the values between them. */
  lemma InvertedBoundsMatch()
    ensures Classify(30, ZoneConfig(Bounds(50, 10), Bounds(60, 70), Bounds(80, 90))) == Some(Red)
  {
  }

  function Lit(l: Leds, z: Zone): Level
  {
    match z
    case Red => l.red
    case Yellow => l.yellow
    case Green => l.green
  }

  /** No two indicator outputs are High at once. */
  predicate AtMostOneLit(l: Leds)
  {
    (l.red == High ==> l.yellow != High && l.green != High) &&
    (l.yellow == High ==> l.green != High)
  }

  function OneHot(z: Zone): Leds
  {
    Leds(if z == Red then High else Low,
         if z == Yellow then High else Low,
         if z == Green then High else Low)
  }

  /**
   * The indicator levels after `checkRange` with signalling flag `signal`,
   * truncated distance `d`, zones `c` and previous levels `leds`.
   */
  function Drive(signal: bool, d: Short, c: ZoneConfig, leds: Leds): (r: Leds)
    ensures !signal ==> forall z :: Lit(r, z) == Low
    ensures signal && Classify(d, c).Some? ==>
      forall z :: Lit(r, z) == (if z == Classify(d, c).value then High else Low)
    ensures signal && Classify(d, c).None? ==> r == leds
    ensures AtMostOneLit(leds) ==> AtMostOneLit(r)
  {
    if !signal then AllOff
    else match Classify(d, c)
      case None => leds
      case Some(z) => OneHot(z)
  }
}
