/** Accelerometer samples and the rounding behind the duplicate test (accel_packet.hpp). */
module AccelPackets {

  type int64 = n: int | -0x8000_0000_0000_0000 <= n < 0x8000_0000_0000_0000

  datatype AccelPacket = AccelPacket(timestamp: int64, x: real, y: real, z: real)

  datatype AccelModule = AccelModule(timestamp: int64, magnitude: real)

  /** Rounding to the nearest integer with halves away from zero, over the reals. */
  function RoundHalfAway(v: real): (n: int)
    ensures -0.5 <= v - n as real <= 0.5
  {
    if v >= 0.0 then (v + 0.5).Floor else -((-v + 0.5).Floor)
  }

  function RoundAxisValue(v: real): int {
    RoundHalfAway(v * 1000.0)
  }

  /** Two samples are duplicates when every axis rounds to the same thousandth; timestamps are ignored. */
  predicate IsDuplicate(lhs: AccelPacket, rhs: AccelPacket) {
    && RoundAxisValue(lhs.x) == RoundAxisValue(rhs.x)
    && RoundAxisValue(lhs.y) == RoundAxisValue(rhs.y)
    && RoundAxisValue(lhs.z) == RoundAxisValue(rhs.z)
  }

  /** The definition of the rounding in ISO C: the nearest integer, and of two nearest ones the larger in magnitude. */
  ghost predicate IsNearestHalfAway(v: real, n: int) {
    && -0.5 <= v - n as real <= 0.5
    && (v - n as real == 0.5 ==> v < 0.0)
    && (v - n as real == -0.5 ==> v > 0.0)
  }

  lemma RoundingIsTheNearestInteger(v: real, n: int)
    ensures RoundHalfAway(v) == n <==> IsNearestHalfAway(v, n)
  {}

  /** One and the same integer is nearest to both. */
  ghost predicate SameNearest(v: real, w: real) {
    exists n :: IsNearestHalfAway(v, n) && IsNearestHalfAway(w, n)
  }

  /** Two samples are duplicates exactly if on each axis the same integer is nearest to a thousand times both. */
  lemma DuplicatesRoundAlike(p: AccelPacket, q: AccelPacket)
    ensures IsDuplicate(p, q) <==>
              && SameNearest(p.x * 1000.0, q.x * 1000.0)
              && SameNearest(p.y * 1000.0, q.y * 1000.0)
              && SameNearest(p.z * 1000.0, q.z * 1000.0)
  {
    hide IsNearestHalfAway, RoundHalfAway, SameNearest;
    RoundsAlike(p.x * 1000.0, q.x * 1000.0);
    RoundsAlike(p.y * 1000.0, q.y * 1000.0);
    RoundsAlike(p.z * 1000.0, q.z * 1000.0);
  }

  lemma RoundsAlike(v: real, w: real)
    ensures RoundHalfAway(v) == RoundHalfAway(w) <==> SameNearest(v, w)
  {
    forall n ensures (RoundHalfAway(v) == n <==> IsNearestHalfAway(v, n)) && (RoundHalfAway(w) == n <==> IsNearestHalfAway(w, n)) {
      RoundingIsTheNearestInteger(v, n);
      RoundingIsTheNearestInteger(w, n);
    }
    hide RoundHalfAway, IsNearestHalfAway;
    assert IsNearestHalfAway(v, RoundHalfAway(v));
  }

  lemma RoundingIsMonotoneAndOdd(v: real, w: real)
    ensures v <= w ==> RoundHalfAway(v) <= RoundHalfAway(w)
    ensures RoundHalfAway(-v) == -RoundHalfAway(v)
  {}

  ghost predicate WithinAThousandth(v: real, w: real) {
    -0.001 < v - w < 0.001
  }

  /** What the filter of consecutive duplicates rests on. */
  lemma DuplicationIsAnEquivalence(p: AccelPacket, q: AccelPacket, r: AccelPacket)
    ensures IsDuplicate(p, p) && (IsDuplicate(p, q) <==> IsDuplicate(q, p))
    ensures IsDuplicate(p, q) && IsDuplicate(q, r) ==> IsDuplicate(p, r)
  {}

  /** Samples judged duplicates differ by strictly less than a thousandth on every axis ... */
  lemma DuplicatesAreClose(p: AccelPacket, q: AccelPacket)
    requires IsDuplicate(p, q)
    ensures WithinAThousandth(p.x, q.x) && WithinAThousandth(p.y, q.y) && WithinAThousandth(p.z, q.z)
  {}

  /** ... and the bound is tight, and closeness alone is no duplicate: the grid cells have borders. */
  lemma ClosenessIsNotDuplication(eps: real)
    requires 0.0 < eps <= 0.001
    ensures exists p, q :: !IsDuplicate(p, q) && -eps < p.x - q.x < eps && p.y == q.y && p.z == q.z
    ensures exists p, q :: IsDuplicate(p, q) && p.x - q.x > 0.001 - eps
  {
    var p, q := AccelPacket(0, 0.0005, 0.0, 0.0), AccelPacket(0, 0.0005 - eps / 2.0, 0.0, 0.0);
    RoundingIsTheNearestInteger(p.x * 1000.0, 1);
    RoundingIsTheNearestInteger(q.x * 1000.0, 0);
    assert !IsDuplicate(p, q);
    var r, s := AccelPacket(0, 0.0015 - eps / 2.0, 0.0, 0.0), AccelPacket(0, 0.0005, 0.0, 0.0);
    RoundingIsTheNearestInteger(r.x * 1000.0, 1);
    RoundingIsTheNearestInteger(s.x * 1000.0, 1);
    assert IsDuplicate(r, s);
  }
}
