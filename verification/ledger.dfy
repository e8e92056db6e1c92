/** How much of a ticket category the booking table currently holds.

    A booking holds its quantity while PENDING or CONFIRMED. The saga's central
    invariant is that, for every ticket, the remaining quota plus what the
    bookings hold never changes; this module defines the held total over the
    booking map and the one fact every conservation proof needs: how the total
    moves when a single row is inserted or overwritten. */
module Ledger {
  import opened Records

  /** The quantity one booking holds of ticket `t`. */
  function Hold(b: Booking, t: Uuid): int
  {
    if b.ticketId == t && b.status.Holds() then b.quantity else 0
  }

  /** The quantity all bookings together hold of ticket `t`. */
  ghost function HeldQty(bs: map<Uuid, Booking>, t: Uuid): int
    decreases |bs|
  {
    if bs == map[] then 0
    else
      var k :| k in bs;
      assert |bs - {k}| < |bs| by { assert (bs - {k}).Keys + {k} == bs.Keys; }
      Hold(bs[k], t) + HeldQty(bs - {k}, t)
  }

  lemma CardRemove(bs: map<Uuid, Booking>, k: Uuid)
    requires k in bs
    ensures |bs - {k}| == |bs| - 1
  {
    assert (bs - {k}).Keys + {k} == bs.Keys;
  }

  /** The total does not depend on which row is taken out first. */
  lemma {:induction false} HeldRemove(bs: map<Uuid, Booking>, k: Uuid, t: Uuid)
    requires k in bs
    ensures HeldQty(bs, t) == Hold(bs[k], t) + HeldQty(bs - {k}, t)
    decreases |bs|
  {
    var j :| j in bs && HeldQty(bs, t) == Hold(bs[j], t) + HeldQty(bs - {j}, t);
    if j != k {
      CardRemove(bs, j);
      CardRemove(bs, k);
      HeldRemove(bs - {j}, k, t);
      HeldRemove(bs - {k}, j, t);
      assert bs - {j} - {k} == bs - {k} - {j};
    }
  }

  /** Writing row `k` changes the total by what the new row holds minus what
      the old row (if any) held. */
  lemma HeldUpdate(bs: map<Uuid, Booking>, k: Uuid, b: Booking, t: Uuid)
    ensures HeldQty(bs[k := b], t)
         == HeldQty(bs, t) - (if k in bs then Hold(bs[k], t) else 0) + Hold(b, t)
  {
    HeldRemove(bs[k := b], k, t);
    assert bs[k := b] - {k} == bs - {k};
    if k in bs {
      HeldRemove(bs, k, t);
    } else {
      assert bs - {k} == bs;
    }
  }
}
