/**
 * The watch aggregator (resolver.go): the merge loop that applies each
 * received batch of updates to the key-to-update table, last write wins, and
 * then publishes one full snapshot of addresses to the client connection.
 */
module Resolver {
  import opened Wrappers
  import opened Watch

  /** The merge table: each key maps to the last non-removing update seen for it. */
  type Table<M> = map<string, Update<M>>

  /** One address handed to the client connection. */
  datatype Address<M> = Address(addr: string, metadata: M)

  /**
   * What the merge loop's `select` observes next: a batch from the watch
   * channel, or the cancellation of its context. The end of a sequence of
   * events is the channel being closed.
   */
  datatype Event<M> = Received(batch: seq<Update<M>>) | Cancelled

  /** Every entry is stored under its own key and has a non-empty address. */
  ghost predicate TableOk<M>(t: Table<M>)
  {
    forall k :: k in t ==> t[k].key == k && t[k].endpoint.addr != ""
  }

  /** Applies one update: an empty address deletes the key, any other address upserts it. */
  function ApplyUpdate<M>(t: Table<M>, u: Update<M>): (r: Table<M>)
    ensures u.endpoint.addr == "" ==> u.key !in r
    ensures u.endpoint.addr == "" && u.key !in t ==> r == t
    ensures u.endpoint.addr != "" ==> u.key in r && r[u.key] == u
    ensures forall k :: k != u.key ==> (k in r <==> k in t)
    ensures forall k :: k != u.key && k in t ==> r[k] == t[k]
    ensures TableOk(t) ==> TableOk(r)
  {
    if u.endpoint.addr == "" then t - {u.key} else t[u.key := u]
  }

  /** Applies the updates of one batch in order. */
  function ApplyBatch<M>(t: Table<M>, ups: seq<Update<M>>): (r: Table<M>)
    ensures TableOk(t) ==> TableOk(r)
    decreases |ups|
  {
    if ups == [] then t else ApplyUpdate(ApplyBatch(t, ups[..|ups| - 1]), ups[|ups| - 1])
  }

  /** Applies a sequence of batches in order. */
  function ApplyBatches<M>(t: Table<M>, bs: seq<seq<Update<M>>>): (r: Table<M>)
    ensures TableOk(t) ==> TableOk(r)
    decreases |bs|
  {
    if bs == [] then t else ApplyBatch(ApplyBatches(t, bs[..|bs| - 1]), bs[|bs| - 1])
  }

  /** All updates of a sequence of batches, in the order they are applied. */
  function Flatten<M>(bs: seq<seq<Update<M>>>): seq<Update<M>>
    decreases |bs|
  {
    if bs == [] then [] else Flatten(bs[..|bs| - 1]) + bs[|bs| - 1]
  }

  /** The position of the latest update for `k` in `ups`, or -1 when there is none. */
  function LastIndexOf<M>(ups: seq<Update<M>>, k: string): (i: int)
    ensures -1 <= i < |ups|
    ensures i >= 0 ==> ups[i].key == k
    ensures forall j :: i < j < |ups| ==> ups[j].key != k
    decreases |ups|
  {
    if ups == [] then -1
    else if ups[|ups| - 1].key == k then |ups| - 1
    else LastIndexOf(ups[..|ups| - 1], k)
  }

  /**
   * Within a batch the latest update for a key decides it: the key is kept
   * as it was when no update names it, removed when the latest one has an
   * empty address, and mapped to the latest one otherwise.
   */
  lemma {:induction false} ApplyBatchLatest<M>(t: Table<M>, ups: seq<Update<M>>, k: string)
    ensures var i := LastIndexOf(ups, k); var r := ApplyBatch(t, ups);
      if i < 0 then (k in r <==> k in t) && (k in t ==> r[k] == t[k])
      else (k in r <==> ups[i].endpoint.addr != "") && (k in r ==> r[k] == ups[i])
    decreases |ups|
  {
    if ups != [] {
      var front := ups[..|ups| - 1];
      ApplyBatchLatest(t, front, k);
      if ups[|ups| - 1].key != k {
        assert LastIndexOf(ups, k) == LastIndexOf(front, k);
      }
    }
  }

  /** Keys that no update of a batch names keep their previous entries. */
  lemma {:induction false} UntouchedKeysKept<M>(t: Table<M>, ups: seq<Update<M>>, k: string)
    requires forall i :: 0 <= i < |ups| ==> ups[i].key != k
    ensures k in ApplyBatch(t, ups) <==> k in t
    ensures k in t ==> ApplyBatch(t, ups)[k] == t[k]
  {
    ApplyBatchLatest(t, ups, k);
  }

  /** Applying two batches one after the other is applying their concatenation. */
  lemma {:induction false} ApplyBatchAppend<M>(t: Table<M>, a: seq<Update<M>>, b: seq<Update<M>>)
    ensures ApplyBatch(t, a + b) == ApplyBatch(ApplyBatch(t, a), b)
    decreases |b|
  {
    if b == [] {
      assert a + b == a;
    } else {
      var front, last := b[..|b| - 1], b[|b| - 1];
      assert (a + b)[..|a + b| - 1] == a + front;
      assert (a + b)[|a + b| - 1] == last;
      calc {
        ApplyBatch(t, a + b);
        ApplyUpdate(ApplyBatch(t, a + front), last);
        { ApplyBatchAppend(t, a, front); }
        ApplyUpdate(ApplyBatch(ApplyBatch(t, a), front), last);
        ApplyBatch(ApplyBatch(t, a), b);
      }
    }
  }

  /** Batch boundaries do not matter to the table: only the order of all updates does. */
  lemma {:induction false} ApplyBatchesFlatten<M>(t: Table<M>, bs: seq<seq<Update<M>>>)
    ensures ApplyBatches(t, bs) == ApplyBatch(t, Flatten(bs))
    decreases |bs|
  {
    if bs != [] {
      ApplyBatchesFlatten(t, bs[..|bs| - 1]);
      ApplyBatchAppend(t, Flatten(bs[..|bs| - 1]), bs[|bs| - 1]);
    }
  }

  /**
   * The table after batches 1..n, starting from the empty table, holds
   * exactly the keys whose latest update had a non-empty address, each
   * mapped to that latest update.
   */
  lemma {:induction false} TableHoldsLatest<M>(bs: seq<seq<Update<M>>>, k: string)
    ensures var ups := Flatten(bs); var i := LastIndexOf(ups, k); var r := ApplyBatches(map[], bs);
      (k in r <==> i >= 0 && ups[i].endpoint.addr != "") && (k in r ==> r[k] == ups[i])
  {
    ApplyBatchesFlatten(map[], bs);
    ApplyBatchLatest(map[], Flatten(bs), k);
  }

  /** The address a table entry is published as. */
  function AddressOf<M>(u: Update<M>): Address<M>
  {
    Address(u.endpoint.addr, u.endpoint.metadata)
  }

  /** Some key of a non-empty table: the entry a snapshot takes out first. */
  ghost function PickKey<M>(t: Table<M>): (k: string)
    requires t != map[]
    ensures k in t
  {
    var k :| k in t; k
  }

  /** Taking one entry out of a table shrinks it by one. */
  lemma {:induction false} RemoveShrinks<M>(t: Table<M>, k: string)
    requires k in t
    ensures |t - {k}| == |t| - 1
  {
    assert (t - {k}).Keys == t.Keys - {k};
  }

  /** The published snapshot of a table, as a multiset: one address per entry. */
  ghost function Snapshot<M>(t: Table<M>): (s: multiset<Address<M>>)
    ensures |s| == |t|
    decreases |t|
  {
    if t == map[] then multiset{}
    else
      var k := PickKey(t);
      RemoveShrinks(t, k);
      Snapshot(t - {k}) + multiset{AddressOf(t[k])}
  }

  /** The snapshot takes out the picked entry first. */
  lemma {:induction false} SnapshotUnfold<M>(t: Table<M>)
    requires t != map[]
    ensures Snapshot(t) == Snapshot(t - {PickKey(t)}) + multiset{AddressOf(t[PickKey(t)])}
  {
  }

  /** Whichever entry is taken out first, the snapshot is that entry's address plus the rest's. */
  lemma {:induction false} SnapshotRemove<M>(t: Table<M>, k: string)
    requires k in t
    ensures Snapshot(t) == Snapshot(t - {k}) + multiset{AddressOf(t[k])}
    decreases |t|
  {
    var j := PickKey(t);
    if j != k {
      var tj, tk := t - {j}, t - {k};
      var both := tj - {k};
      RemoveShrinks(t, j);
      RemoveShrinks(t, k);
      assert k in tj && tj[k] == t[k];
      assert j in tk && tk[j] == t[j];
      assert tk - {j} == both;
      var aj, ak := AddressOf(t[j]), AddressOf(t[k]);
      calc {
        Snapshot(t);
        { SnapshotUnfold(t); }
        Snapshot(tj) + multiset{aj};
        { SnapshotRemove(tj, k); }
        Snapshot(both) + multiset{ak} + multiset{aj};
        Snapshot(both) + multiset{aj} + multiset{ak};
        { SnapshotRemove(tk, j); }
        Snapshot(tk) + multiset{ak};
      }
    }
  }

  /** An address is in the snapshot exactly when some entry is published as it. */
  lemma {:induction false} SnapshotMembers<M>(t: Table<M>, a: Address<M>)
    ensures a in Snapshot(t) <==> exists k :: k in t && AddressOf(t[k]) == a
    decreases |t|
  {
    if t != map[] {
      var k := PickKey(t);
      var rest := t - {k};
      SnapshotRemove(t, k);
      RemoveShrinks(t, k);
      SnapshotMembers(rest, a);
      if a in Snapshot(t) {
        if a != AddressOf(t[k]) {
          assert a in Snapshot(rest);
          var j :| j in rest && AddressOf(rest[j]) == a;
          assert j in t && AddressOf(t[j]) == a;
        }
      }
      if exists j :: j in t && AddressOf(t[j]) == a {
        var j :| j in t && AddressOf(t[j]) == a;
        if j != k {
          assert j in rest && AddressOf(rest[j]) == a;
        }
      }
    }
  }

  /** Every published address of a well-formed table is non-empty. */
  lemma {:induction false} SnapshotAddrsNonEmpty<M>(t: Table<M>, a: Address<M>)
    requires TableOk(t)
    requires a in Snapshot(t)
    ensures a.addr != ""
  {
    SnapshotMembers(t, a);
  }

  /** The batches the merge loop applies: those received before cancellation. */
  function Delivered<M>(events: seq<Event<M>>): (bs: seq<seq<Update<M>>>)
    ensures |bs| <= |events|
    ensures forall i :: 0 <= i < |bs| ==> events[i] == Received(bs[i])
    ensures |bs| < |events| ==> events[|bs|].Cancelled?
    decreases |events|
  {
    if events == [] || events[0].Cancelled? then []
    else [events[0].batch] + Delivered(events[1..])
  }

  /** A batch the merge loop receives before the end of the delivered prefix is the next delivered batch. */
  lemma {:induction false} DeliveredAt<M>(events: seq<Event<M>>, i: nat)
    requires i <= |Delivered(events)|
    requires i < |events| && events[i].Received?
    ensures i < |Delivered(events)| && events[i].batch == Delivered(events)[i]
  {
    var bs := Delivered(events);
    assert i < |bs| ==> events[i] == Received(bs[i]);
  }

  /** The merge loop stops at the end of the delivered batches: a closed channel or a cancellation. */
  lemma {:induction false} DeliveredEnds<M>(events: seq<Event<M>>, i: nat)
    requires i <= |Delivered(events)|
    requires !(i < |events| && events[i].Received?)
    ensures i == |Delivered(events)|
  {
    var bs := Delivered(events);
    assert i < |bs| ==> events[i] == Received(bs[i]);
  }

  /** The address lists handed to the client connection, each read as a multiset. */
  ghost function AsMultisets<M>(states: seq<seq<Address<M>>>): (r: seq<multiset<Address<M>>>)
    ensures |r| == |states|
    decreases |states|
  {
    if states == [] then [] else AsMultisets(states[..|states| - 1]) + [multiset(states[|states| - 1])]
  }

  /** The snapshot published after each batch, starting from the empty table. */
  ghost function SnapshotsAfter<M>(bs: seq<seq<Update<M>>>): (r: seq<multiset<Address<M>>>)
    ensures |r| == |bs|
    decreases |bs|
  {
    if bs == [] then [] else SnapshotsAfter(bs[..|bs| - 1]) + [Snapshot(ApplyBatches(map[], bs))]
  }

  /** The n-th published snapshot is that of the table after batches 1..n. */
  lemma {:induction false} SnapshotsAfterAt<M>(bs: seq<seq<Update<M>>>, i: nat)
    requires i < |bs|
    ensures SnapshotsAfter(bs)[i] == Snapshot(ApplyBatches(map[], bs[..i + 1]))
    decreases |bs|
  {
    if i < |bs| - 1 {
      var front := bs[..|bs| - 1];
      SnapshotsAfterAt(front, i);
      assert front[..i + 1] == bs[..i + 1];
    } else {
      assert bs[..i + 1] == bs;
    }
  }

  /** The latest update for `k` among `ups` is not a removal and is published as `a`. */
  ghost predicate LatestGives<M>(ups: seq<Update<M>>, k: string, a: Address<M>)
  {
    var i := LastIndexOf(ups, k);
    i >= 0 && ups[i].endpoint.addr != "" && AddressOf(ups[i]) == a
  }

  /**
   * The n-th published snapshot holds exactly the addresses of the keys whose
   * latest update in batches 1..n is not a removal.
   */
  lemma {:induction false} PublishedHoldsLatest<M>(bs: seq<seq<Update<M>>>, n: nat, a: Address<M>)
    requires 0 < n <= |bs|
    ensures a in SnapshotsAfter(bs)[n - 1] <==> exists k :: LatestGives(Flatten(bs[..n]), k, a)
  {
    var pre := bs[..n];
    var t := ApplyBatches(map[], pre);
    SnapshotsAfterAt(bs, n - 1);
    SnapshotMembers(t, a);
    if a in SnapshotsAfter(bs)[n - 1] {
      var k :| k in t && AddressOf(t[k]) == a;
      TableHoldsLatest(pre, k);
      assert LatestGives(Flatten(pre), k, a);
    }
    if exists k :: LatestGives(Flatten(pre), k, a) {
      var k :| LatestGives(Flatten(pre), k, a);
      TableHoldsLatest(pre, k);
      assert k in t && AddressOf(t[k]) == a;
    }
  }

  /** One more batch extends the table fold and the published snapshots by one step. */
  lemma {:induction false} PrefixStep<M>(bs: seq<seq<Update<M>>>, i: nat)
    requires i < |bs|
    ensures ApplyBatches(map[], bs[..i + 1]) == ApplyBatch(ApplyBatches(map[], bs[..i]), bs[i])
    ensures SnapshotsAfter(bs[..i + 1]) ==
      SnapshotsAfter(bs[..i]) + [Snapshot(ApplyBatch(ApplyBatches(map[], bs[..i]), bs[i]))]
  {
    assert bs[..i + 1][..i] == bs[..i];
  }

  /** Publishing one more address list extends the published multisets by one. */
  lemma {:induction false} PublishedExtend<M>(s0: seq<seq<Address<M>>>, before: seq<seq<Address<M>>>,
                                              after: seq<seq<Address<M>>>,
                                              snaps: seq<multiset<Address<M>>>, x: multiset<Address<M>>)
    requires |s0| <= |before| && before[..|s0|] == s0
    requires AsMultisets(before) == AsMultisets(s0) + snaps
    requires |after| == |before| + 1 && after[..|before|] == before
    requires multiset(after[|before|]) == x
    ensures after[..|s0|] == s0
    ensures AsMultisets(after) == AsMultisets(s0) + (snaps + [x])
  {
    assert after[..|s0|] == before[..|s0|];
  }

  /** Builds the address list for the client connection, one address per table entry. */
  method ConvertToGRPCAddress<M>(ups: Table<M>) returns (addrs: seq<Address<M>>)
    ensures |addrs| == |ups|
    ensures multiset(addrs) == Snapshot(ups)
  {
    addrs := [];
    var rest := ups;
    while rest != map[]
      invariant multiset(addrs) + Snapshot(rest) == Snapshot(ups)
      decreases |rest|
    {
      var k :| k in rest;
      var up := rest[k];
      SnapshotRemove(rest, k);
      addrs := addrs + [Address(up.endpoint.addr, up.endpoint.metadata)];
      assert (rest - {k}).Keys == rest.Keys - {k};
      rest := rest - {k};
    }
  }

  /** A resolver: the client and target it was built with, its merge table and what it published. */
  class Resolver<M> {
    const client: ClientRef
    const target: string
    /**
     * The batches waiting in the watch channel when the resolver was built.
     * `Watch` reads its batches from its own `events` argument instead: the
     * model does not connect the two.
     */
    var wch: seq<seq<Update<M>>>
    /** The merge table, written only by the merge loop. */
    var allUps: Table<M>
    /** Every address list passed to the client connection's `UpdateState`, in order. */
    var states: seq<seq<Address<M>>>

    constructor (client: ClientRef, target: string)
      ensures this.client == client && this.target == target
      ensures wch == [] && allUps == map[] && states == []
    {
      this.client := client;
      this.target := target;
      wch := [];
      allUps := map[];
      states := [];
    }

    /** Applies one received batch in order, then publishes exactly one full snapshot. */
    method ProcessBatch(ups: seq<Update<M>>)
      modifies this`allUps, this`states
      ensures allUps == ApplyBatch(old(allUps), ups)
      ensures |states| == |old(states)| + 1 && states[..|old(states)|] == old(states)
      ensures multiset(states[|states| - 1]) == Snapshot(allUps)
    {
      var i := 0;
      while i < |ups|
        invariant 0 <= i <= |ups|
        invariant allUps == ApplyBatch(old(allUps), ups[..i])
        invariant states == old(states)
      {
        var up := ups[i];
        if up.endpoint.addr == "" {
          allUps := allUps - {up.key};
        } else {
          allUps := allUps[up.key := up];
        }
        assert ups[..i + 1][..i] == ups[..i];
        i := i + 1;
      }
      assert ups[..|ups|] == ups;
      var addrs := ConvertToGRPCAddress(allUps);
      states := states + [addrs];
      assert states[..|old(states)|] == old(states);
    }

    /**
     * The merge loop: starts from an empty table and processes received
     * batches until the channel closes or the context is cancelled, one
     * publish per batch and none after cancellation.
     */
    method Watch(events: seq<Event<M>>)
      modifies this`allUps, this`states
      ensures allUps == ApplyBatches(map[], Delivered(events))
      ensures TableOk(allUps)
      ensures |states| == |old(states)| + |Delivered(events)|
      ensures states[..|old(states)|] == old(states)
      ensures AsMultisets(states) == AsMultisets(old(states)) + SnapshotsAfter(Delivered(events))
    {
      ghost var bs := Delivered(events);
      ghost var n0 := |states|;
      allUps := map[];
      var i := 0;
      while i < |events| && events[i].Received?
        invariant 0 <= i <= |bs|
        invariant allUps == ApplyBatches(map[], bs[..i])
        invariant |states| == n0 + i
        invariant states[..n0] == old(states)
        invariant AsMultisets(states) == AsMultisets(old(states)) + SnapshotsAfter(bs[..i])
      {
        DeliveredAt(events, i);
        ghost var before := states;
        ProcessBatch(events[i].batch);
        ghost var snap := Snapshot(allUps);
        assert allUps == ApplyBatch(ApplyBatches(map[], bs[..i]), bs[i]);
        PrefixStep(bs, i);
        PublishedExtend(old(states), before, states, SnapshotsAfter(bs[..i]), snap);
        i := i + 1;
      }
      DeliveredEnds(events, i);
      assert bs[..|bs|] == bs;
    }

    /** A re-resolution hint, which this resolver ignores. */
    method ResolveNow()
    {
    }
  }

  /**
   * All instances of one service share one key, so the initial listing of a
   * service collapses to a single table entry: the last listed instance.
   */
  lemma {:induction false} SingleServiceCollapses<M>(insts: seq<Instance<M>>, s: string)
    requires |insts| > 0
    requires forall i :: 0 <= i < |insts| ==> insts[i].serviceName == s
    requires insts[|insts| - 1].ip != ""
    ensures ApplyBatch(map[], InstanceUpdates(insts)) == map[s := InstanceUpdate(insts[|insts| - 1])]
  {
    var ups := InstanceUpdates(insts);
    var r := ApplyBatch(map[], ups);
    var last := InstanceUpdate(insts[|insts| - 1]);
    ApplyBatchLatest(map[], ups, s);
    assert s in r && r[s] == last;
    forall k | k in r
      ensures k == s
    {
      ApplyBatchLatest(map[], ups, k);
    }
    assert r.Keys == {s};
  }

  /** The updates a callback sends, batch after batch, are the instances' updates in order. */
  lemma {:induction false} CallbackUpdatesInOrder<M>(services: seq<Instance<M>>)
    ensures Flatten(CallbackBatches(services)) == InstanceUpdates(services)
    decreases |services|
  {
    if services != [] {
      var front := services[..|services| - 1];
      CallbackUpdatesInOrder(front);
      var bs := CallbackBatches(services);
      assert bs[..|bs| - 1] == CallbackBatches(front);
    }
  }

  /**
   * A callback removes nothing it is not told about: when every reported
   * instance has an address, no key leaves the table, so an instance that
   * disappears from the registry keeps its entry.
   */
  lemma {:induction false} CallbackNeverRemoves<M>(t: Table<M>, services: seq<Instance<M>>, k: string)
    requires forall i :: 0 <= i < |services| ==> services[i].ip != ""
    requires k in t
    ensures k in ApplyBatches(t, CallbackBatches(services))
  {
    var ups := InstanceUpdates(services);
    CallbackUpdatesInOrder(services);
    ApplyBatchesFlatten(t, CallbackBatches(services));
    ApplyBatchLatest(t, ups, k);
  }

  /**
   * A listed key that a later batch removes while adding another leaves only
   * the new one: initial `a`, then a removal of `a` and an address for `b`.
   */
  lemma {:induction false} RemoveThenAddScenario<M>(m: M)
    ensures var a := Update("a", Endpoint("10.0.0.1:9000", m));
            var gone := Update("a", Endpoint("", m));
            var b := Update("b", Endpoint("10.0.0.2:9000", m));
            ApplyBatches(map[], [[a], [gone, b]]) == map["b" := b]
  {
    var a := Update("a", Endpoint("10.0.0.1:9000", m));
    var gone := Update("a", Endpoint("", m));
    var b := Update("b", Endpoint("10.0.0.2:9000", m));
    assert [[a], [gone, b]][..1] == [[a]];
    assert [[a]][..0] == [];
    assert [a][..0] == [];
    assert [gone, b][..1] == [gone];
    assert [gone][..0] == [];
    assert ApplyBatch(map[], [a]) == map["a" := a];
    assert ApplyBatches(map[], [[a]]) == map["a" := a];
    assert ApplyBatch(map["a" := a], [gone]) == map[];
  }
}
