/**
 * The order stream `stream.orders` as seen by the consumer "c1" of group "g1":
 * the appended entries, how far the group has delivered, and the consumer's
 * pending list (entries delivered but not yet acknowledged), kept in id order.
 * An entry's id is its position in the stream; a read returns the id together
 * with the entry's fields, and so does a read of the pending list.
 */
module OrderStream {
  import opened Base

  /** `VoucherOrder` as the stream entry carries it. */
  datatype VoucherOrder = VoucherOrder(id: int, userId: int, voucherId: int)

  /** An entry as a read returns it: its stream id and its fields. */
  datatype Delivery = Delivery(id: nat, order: VoucherOrder)

  datatype Stream = Stream(entries: seq<VoucherOrder>, delivered: nat, pending: seq<Delivery>)

  /**
   * `p` lists deliveries of `entries` with strictly increasing ids, the first
   * above `lo` and all below `bound`, each carrying its entry's own fields.
   */
  predicate PendingWithin(p: seq<Delivery>, lo: int, entries: seq<VoucherOrder>, bound: nat)
    decreases |p|
  {
    || p == []
    || (&& lo < p[0].id < bound && p[0].id < |entries| && entries[p[0].id] == p[0].order
        && PendingWithin(p[1..], p[0].id, entries, bound))
  }

  /** Delivery never runs past the end, and the pending list holds delivered entries in id order. */
  predicate Valid(st: Stream) {
    st.delivered <= |st.entries| && PendingWithin(st.pending, -1, st.entries, st.delivered)
  }

  /** Every delivery of such a list lies between the bounds and matches its entry. */
  lemma {:induction false} WithinBounds(p: seq<Delivery>, lo: int, entries: seq<VoucherOrder>, bound: nat)
    requires PendingWithin(p, lo, entries, bound)
    ensures forall i :: 0 <= i < |p| ==> lo < p[i].id < bound && p[i].id < |entries| && entries[p[i].id] == p[i].order
    decreases |p|
  {
    if p != [] {
      WithinBounds(p[1..], p[0].id, entries, bound);
      forall i | 0 < i < |p|
        ensures lo < p[i].id < bound && p[i].id < |entries| && entries[p[i].id] == p[i].order
      {
        assert p[i] == p[1..][i - 1];
      }
    }
  }

  /** The entry at the bound may join the end, with the bound one higher. */
  lemma {:induction false} WithinAppend(p: seq<Delivery>, lo: int, entries: seq<VoucherOrder>, bound: nat)
    requires PendingWithin(p, lo, entries, bound) && lo < bound < |entries|
    ensures PendingWithin(p + [Delivery(bound, entries[bound])], lo, entries, bound + 1)
    decreases |p|
  {
    var d := Delivery(bound, entries[bound]);
    if p == [] {
      assert [d][1..] == [];
    } else {
      assert (p + [d])[1..] == p[1..] + [d];
      WithinAppend(p[1..], p[0].id, entries, bound);
    }
  }

  /** Appending entries keeps every delivery matching its entry. */
  lemma {:induction false} WithinGrow(p: seq<Delivery>, lo: int, entries: seq<VoucherOrder>, more: seq<VoucherOrder>, bound: nat)
    ensures PendingWithin(p, lo, entries, bound) ==> PendingWithin(p, lo, entries + more, bound)
    decreases |p|
  {
    if p != [] {
      WithinGrow(p[1..], p[0].id, entries, more, bound);
    }
  }

  /** XADD: a new entry at the end of the stream. */
  function Append(st: Stream, order: VoucherOrder): (r: Stream)
    ensures Valid(st) ==> Valid(r)
    ensures r.entries == st.entries + [order] && r.delivered == st.delivered && r.pending == st.pending
  {
    WithinGrow(st.pending, -1, st.entries, [order], st.delivered);
    st.(entries := st.entries + [order])
  }

  /**
   * XREADGROUP ... COUNT 1 STREAMS stream.orders `>`: the next entry never
   * delivered to the group, which joins the pending list; none at the end.
   */
  function ReadNew(st: Stream): (Option<Delivery>, Stream) {
    if st.delivered < |st.entries| then
      var d := Delivery(st.delivered, st.entries[st.delivered]);
      (Some(d), st.(delivered := st.delivered + 1, pending := st.pending + [d]))
    else (None, st)
  }

  /** XREADGROUP ... COUNT 1 STREAMS stream.orders `0`: the oldest pending entry, if any. */
  function ReadPending(st: Stream): (r: Option<Delivery>)
    ensures r.Some? <==> st.pending != []
  {
    if st.pending == [] then None else Some(st.pending[0])
  }

  /** `s` without the deliveries of id `id`. */
  function Remove(s: seq<Delivery>, id: nat): (r: seq<Delivery>)
    ensures forall d :: d in r <==> d in s && d.id != id
    ensures |r| <= |s|
  {
    if s == [] then []
    else if s[0].id == id then Remove(s[1..], id)
    else [s[0]] + Remove(s[1..], id)
  }

  /** Removing an id keeps the list ordered, bounded and matching. */
  lemma {:induction false} RemoveWithin(s: seq<Delivery>, id: nat, lo: int, entries: seq<VoucherOrder>, bound: nat)
    requires PendingWithin(s, lo, entries, bound)
    ensures PendingWithin(Remove(s, id), lo, entries, bound)
    decreases |s|
  {
    if s != [] {
      RemoveWithin(s[1..], id, s[0].id, entries, bound);
      var rest := Remove(s[1..], id);
      if s[0].id != id {
        assert ([s[0]] + rest)[1..] == rest;
      } else if rest != [] {
        // the first survivor lies above s[0], hence above lo
        assert rest[0] in rest;
      }
    }
  }

  /** XACK: the id leaves the pending list; acknowledging an id that is not pending changes nothing. */
  function Ack(st: Stream, id: nat): Stream {
    st.(pending := Remove(st.pending, id))
  }

  /** Reading a new entry delivers it exactly once, with its fields, and keeps the stream well formed. */
  lemma ReadNewEffect(st: Stream)
    requires Valid(st)
    ensures var (e, st') := ReadNew(st);
            && Valid(st')
            && (e.Some? <==> st.delivered < |st.entries|)
            && (e.Some? ==>
                  && e.value == Delivery(st.delivered, st.entries[st.delivered])
                  && st'.pending == st.pending + [e.value]
                  && forall i :: 0 <= i < |st.pending| ==> st.pending[i].id < e.value.id)
            && (e.None? ==> st' == st)
            && st'.entries == st.entries
            && st'.delivered == st.delivered + (if e.Some? then 1 else 0)
  {
    if st.delivered < |st.entries| {
      WithinAppend(st.pending, -1, st.entries, st.delivered);
      WithinBounds(st.pending, -1, st.entries, st.delivered);
    }
  }

  /** Acknowledging removes exactly the deliveries of the given id from the pending list. */
  lemma AckEffect(st: Stream, id: nat)
    requires Valid(st)
    ensures Valid(Ack(st, id))
    ensures forall d :: d in Ack(st, id).pending <==> d in st.pending && d.id != id
    ensures Ack(st, id).entries == st.entries && Ack(st, id).delivered == st.delivered
  {
    RemoveWithin(st.pending, id, -1, st.entries, st.delivered);
  }

  /** Acknowledging the oldest pending id drops exactly the head of the list. */
  lemma AckOldest(st: Stream)
    requires Valid(st) && st.pending != []
    ensures Ack(st, st.pending[0].id).pending == st.pending[1..]
  {
    WithinBounds(st.pending[1..], st.pending[0].id, st.entries, st.delivered);
    RemoveAbsent(st.pending[1..], st.pending[0].id);
  }

  /** Removing an id smaller than every id of the list changes nothing. */
  lemma {:induction false} RemoveAbsent(s: seq<Delivery>, id: nat)
    requires forall i :: 0 <= i < |s| ==> id < s[i].id
    ensures Remove(s, id) == s
    decreases |s|
  {
    if s != [] {
      RemoveAbsent(s[1..], id);
      assert [s[0]] + s[1..] == s;
    }
  }

  /** Removing the id of the last delivery, above every other id, leaves the rest. */
  lemma {:induction false} RemoveLast(s: seq<Delivery>, d: Delivery)
    requires forall i :: 0 <= i < |s| ==> s[i].id < d.id
    ensures Remove(s + [d], d.id) == s
    decreases |s|
  {
    if s == [] {
      assert [] + [d] == [d];
      assert [d][1..] == [];
    } else {
      assert (s + [d])[1..] == s[1..] + [d];
      RemoveLast(s[1..], d);
      assert [s[0]] + s[1..] == s;
    }
  }

  /** The stream of one consumer group, updated in place. */
  class OrderStreamLog {
    var entries: seq<VoucherOrder>
    var delivered: nat
    var pending: seq<Delivery>

    constructor ()
      ensures State() == Stream([], 0, [])
    {
      entries := [];
      delivered := 0;
      pending := [];
    }

    function State(): Stream
      reads this
    {
      Stream(entries, delivered, pending)
    }

    /** XADD of the admission script. */
    method Add(order: VoucherOrder)
      modifies this
      ensures State() == Append(old(State()), order)
    {
      entries := entries + [order];
    }

    /** Read with `ReadOffset.lastConsumed()`. */
    method ReadNext() returns (e: Option<Delivery>)
      modifies this
      ensures (e, State()) == ReadNew(old(State()))
    {
      if delivered < |entries| {
        var d := Delivery(delivered, entries[delivered]);
        e := Some(d);
        pending := pending + [d];
        delivered := delivered + 1;
      } else {
        e := None;
      }
    }

    /** Read with `ReadOffset.from("0")`. */
    method ReadOldestPending() returns (e: Option<Delivery>)
      ensures e == ReadPending(State())
    {
      e := if pending == [] then None else Some(pending[0]);
    }

    /** `acknowledge(queueName, "g1", id)`. */
    method Acknowledge(id: nat)
      modifies this
      ensures State() == Ack(old(State()), id)
    {
      pending := Remove(pending, id);
    }
  }
}
