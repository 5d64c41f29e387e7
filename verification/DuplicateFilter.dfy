/**
 The duplicate filter of the server. The server compares each packet with the last packet it
 ACCEPTED; the promise is about CONSECUTIVE packets. That both agree rests on duplication being
 an equivalence (DuplicationIsAnEquivalence).
 */
module DuplicateFilter {
  import opened Basics
  import opened AccelPackets

  predicate Repeats(last: Option<AccelPacket>, p: AccelPacket) {
    last.Some? && IsDuplicate(p, last.value)
  }

  /** A packet repeats the last one accepted exactly if all its axes round to the same thousandth as that one's. */
  lemma RepetitionsRoundAlike(last: Option<AccelPacket>, p: AccelPacket)
    ensures Repeats(last, p) <==>
              && last.Some?
              && SameNearest(p.x * 1000.0, last.value.x * 1000.0)
              && SameNearest(p.y * 1000.0, last.value.y * 1000.0)
              && SameNearest(p.z * 1000.0, last.value.z * 1000.0)
  {
    hide IsDuplicate, SameNearest;
    if last.Some? { DuplicatesRoundAlike(p, last.value); }
  }

  /** What the server accepts from packets `ps` when `last` is the packet it accepted last. */
  function Accepted(last: Option<AccelPacket>, ps: seq<AccelPacket>): seq<AccelPacket>
    decreases |ps|
  {
    if ps == [] then []
    else if Repeats(last, ps[0]) then Accepted(last, ps[1..])
    else [ps[0]] + Accepted(Some(ps[0]), ps[1..])
  }

  /** The last accepted packet after `ps`. */
  function LastAccepted(last: Option<AccelPacket>, ps: seq<AccelPacket>): Option<AccelPacket>
    decreases |ps|
  {
    if ps == [] then last
    else LastAccepted(if Repeats(last, ps[0]) then last else Some(ps[0]), ps[1..])
  }

  /** The positions whose packet differs from its immediate predecessor (`before` precedes the first). */
  predicate Changes(before: Option<AccelPacket>, ps: seq<AccelPacket>, k: nat)
    requires k < |ps|
  {
    !Repeats(if k == 0 then before else Some(ps[k - 1]), ps[k])
  }

  /** The simple definition: keep exactly the packets that differ from their immediate predecessor. */
  function Consecutive(before: Option<AccelPacket>, ps: seq<AccelPacket>): seq<AccelPacket> {
    if ps == [] then []
    else
      var n := |ps| - 1;
      Consecutive(before, ps[..n]) + (if Changes(before, ps, n) then [ps[n]] else [])
  }

  lemma {:induction false} AcceptedConcat(last: Option<AccelPacket>, ps: seq<AccelPacket>, qs: seq<AccelPacket>)
    ensures Accepted(last, ps + qs) == Accepted(last, ps) + Accepted(LastAccepted(last, ps), qs)
    ensures LastAccepted(last, ps + qs) == LastAccepted(LastAccepted(last, ps), qs)
    decreases |ps|
  {
    if ps == [] {
      assert ps + qs == qs;
    } else {
      assert (ps + qs)[1..] == ps[1..] + qs;
      AcceptedConcat(if Repeats(last, ps[0]) then last else Some(ps[0]), ps[1..], qs);
    }
  }

  /** One more packet: the step the server takes. */
  lemma AcceptedAppend(last: Option<AccelPacket>, ps: seq<AccelPacket>, p: AccelPacket)
    ensures var now := LastAccepted(last, ps);
            && Accepted(last, ps + [p]) == Accepted(last, ps) + (if Repeats(now, p) then [] else [p])
            && LastAccepted(last, ps + [p]) == (if Repeats(now, p) then now else Some(p))
  {
    AcceptedConcat(last, ps, [p]);
    var now := LastAccepted(last, ps);
    assert [p][1..] == [];
    assert Accepted(now, [p]) == if Repeats(now, p) then [] else [p];
    assert Accepted(last, ps) + [] == Accepted(last, ps);
  }

  /** The carried packet is a duplicate of the packet received last, even when that one was dropped. */
  lemma {:induction false} LastAcceptedMatchesLastReceived(last: Option<AccelPacket>, ps: seq<AccelPacket>)
    requires ps != []
    ensures LastAccepted(last, ps).Some? && IsDuplicate(ps[|ps| - 1], LastAccepted(last, ps).value)
  {
    hide IsDuplicate;
    var n := |ps| - 1;
    DuplicationIsAnEquivalence(ps[n], ps[n], ps[n]);
    assert ps[..n] + [ps[n]] == ps;
    AcceptedAppend(last, ps[..n], ps[n]);
  }

  /** Filter equivalence: comparing with the last accepted packet keeps exactly the changes. */
  lemma {:induction false} AcceptedIsConsecutive(last: Option<AccelPacket>, ps: seq<AccelPacket>)
    ensures Accepted(last, ps) == Consecutive(last, ps)
  {
    if ps != [] {
      var n := |ps| - 1;
      assert ps[..n] + [ps[n]] == ps;
      AcceptedIsConsecutive(last, ps[..n]);
      AcceptedAppend(last, ps[..n], ps[n]);
      hide IsDuplicate;
      if n > 0 {
        LastAcceptedMatchesLastReceived(last, ps[..n]);
        assert ps[..n][n - 1] == ps[n - 1];
        var carried := LastAccepted(last, ps[..n]).value;
        DuplicationIsAnEquivalence(ps[n], carried, ps[n - 1]);
        DuplicationIsAnEquivalence(ps[n], ps[n - 1], carried);
        DuplicationIsAnEquivalence(ps[n - 1], carried, ps[n]);
      }
    }
  }

  predicate NoAdjacentDuplicates(before: Option<AccelPacket>, ps: seq<AccelPacket>) {
    forall k | 0 <= k < |ps| :: Changes(before, ps, k)
  }

  lemma {:induction false} AcceptedHasNoAdjacentDuplicates(last: Option<AccelPacket>, ps: seq<AccelPacket>)
    ensures NoAdjacentDuplicates(last, Accepted(last, ps))
    decreases |ps|
  {
    if ps != [] {
      if Repeats(last, ps[0]) {
        AcceptedHasNoAdjacentDuplicates(last, ps[1..]);
      } else {
        AcceptedHasNoAdjacentDuplicates(Some(ps[0]), ps[1..]);
        var rest, all := Accepted(Some(ps[0]), ps[1..]), Accepted(last, ps);
        forall k | 0 <= k < |all| ensures Changes(last, all, k) {
          if k > 0 { assert all[k] == rest[k - 1] && Changes(Some(ps[0]), rest, k - 1); }
        }
      }
    }
  }

  /** A sequence passes the filter unchanged exactly when it has no adjacent duplicates. */
  lemma {:induction false} FixedPointsOfTheFilter(last: Option<AccelPacket>, ps: seq<AccelPacket>)
    ensures Accepted(last, ps) == ps <==> NoAdjacentDuplicates(last, ps)
    decreases |ps|
  {
    AcceptedHasNoAdjacentDuplicates(last, ps);
    if NoAdjacentDuplicates(last, ps) && ps != [] {
      assert Changes(last, ps, 0);
      forall k | 0 <= k < |ps[1..]| ensures Changes(Some(ps[0]), ps[1..], k) {
        assert Changes(last, ps, k + 1);
      }
      FixedPointsOfTheFilter(Some(ps[0]), ps[1..]);
    }
  }

  lemma FilterIsIdempotent(last: Option<AccelPacket>, ps: seq<AccelPacket>)
    ensures Accepted(last, Accepted(last, ps)) == Accepted(last, ps)
  {
    AcceptedHasNoAdjacentDuplicates(last, ps);
    FixedPointsOfTheFilter(last, Accepted(last, ps));
  }
}
