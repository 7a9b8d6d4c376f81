/** The in-memory holdings/snapshots store: two maps keyed by the hex form of
    each record's identifier. Every operation runs as one atomic step (the
    reader/writer lock that makes it so is not modelled). */
module MemoryRepository {
  import opened Models

  /** The values of m whose owner is u, with multiplicity. */
  ghost function OwnedBy<V>(m: map<string, V>, owner: V -> string, u: string): multiset<V>
    decreases |m|
  {
    if m == map[] then multiset{}
    else
      var k :| k in m;
      assert (m - {k}).Keys == m.Keys - {k};
      OwnedBy(m - {k}, owner, u) + OwnedAt(m[k], owner, u)
  }

  /** The contribution of one value to OwnedBy. */
  function OwnedAt<V>(v: V, owner: V -> string, u: string): multiset<V> {
    if owner(v) == u then multiset{v} else multiset{}
  }

  lemma RemoveKeySize<V>(m: map<string, V>, k: string)
    requires k in m
    ensures |m - {k}| == |m| - 1
  {
    assert (m - {k}).Keys == m.Keys - {k};
  }

  /** OwnedBy does not depend on the key chosen first: any key can be split off. */
  lemma {:induction false} OwnedByRemove<V>(m: map<string, V>, owner: V -> string, u: string, k: string)
    requires k in m
    ensures OwnedBy(m, owner, u) == OwnedBy(m - {k}, owner, u) + OwnedAt(m[k], owner, u)
    decreases |m|
  {
    var j :| j in m && OwnedBy(m, owner, u) == OwnedBy(m - {j}, owner, u) + OwnedAt(m[j], owner, u);
    if j != k {
      RemoveKeySize(m, j);
      RemoveKeySize(m, k);
      var mj, mk := m - {j}, m - {k};
      var rest := mj - {k};
      assert rest == mk - {j};
      assert mj[k] == m[k] && mk[j] == m[j];
      OwnedByRemove(mj, owner, u, k);
      OwnedByRemove(mk, owner, u, j);
      var a, b := OwnedAt(m[j], owner, u), OwnedAt(m[k], owner, u);
      calc {
        OwnedBy(m, owner, u);
        OwnedBy(mj, owner, u) + a;
        OwnedBy(rest, owner, u) + b + a;
        OwnedBy(mk, owner, u) + b;
      }
    }
  }

  /** Adding a fresh key adds exactly its value's contribution. */
  lemma OwnedByAdd<V>(m: map<string, V>, owner: V -> string, u: string, k: string, v: V)
    requires k !in m
    ensures OwnedBy(m[k := v], owner, u) == OwnedBy(m, owner, u) + OwnedAt(v, owner, u)
  {
    var m' := m[k := v];
    assert m' - {k} == m;
    OwnedByRemove(m', owner, u, k);
  }

  /** A value is owned by u in m exactly when some key maps to it and its owner is u. */
  lemma {:induction false} OwnedByMember<V>(m: map<string, V>, owner: V -> string, u: string, v: V)
    ensures v in OwnedBy(m, owner, u) <==> owner(v) == u && exists k :: k in m && m[k] == v
    decreases |m|
  {
    if m != map[] {
      var k :| k in m;
      assert (m - {k}).Keys == m.Keys - {k};
      OwnedByRemove(m, owner, u, k);
      OwnedByMember(m - {k}, owner, u, v);
      if owner(v) == u && (exists j :: j in m && m[j] == v) {
        var j :| j in m && m[j] == v;
        if j != k {
          assert j in m - {k};
        }
      }
    }
  }

  /** Every stored holding sits under the hex form of its own non-zero id. */
  ghost predicate HoldingsKeyed(m: map<string, Holding>) {
    forall k | k in m :: !IsZero(m[k].id) && k == Hex(m[k].id)
  }

  /** Every stored snapshot sits under the hex form of its own non-zero id. */
  ghost predicate SnapshotsKeyed(m: map<string, Snapshot>) {
    forall k | k in m :: !IsZero(m[k].id) && k == Hex(m[k].id)
  }

  /** Storing a holding under its hex key leaves every entry with another id
      in place: in a well-keyed map distinct ids never share a key. */
  lemma CreateKeepsOtherIds(m: map<string, Holding>, stored: Holding)
    requires HoldingsKeyed(m) && !IsZero(stored.id)
    ensures forall k | k in m && m[k].id != stored.id ::
      k in m[Hex(stored.id) := stored] && m[Hex(stored.id) := stored][k] == m[k]
  {
    forall k | k in m && m[k].id != stored.id
      ensures k != Hex(stored.id)
    {
      HexInjective(m[k].id, stored.id);
    }
  }

  /** The same for snapshots. */
  lemma CreateKeepsOtherSnapshotIds(m: map<string, Snapshot>, stored: Snapshot)
    requires SnapshotsKeyed(m) && !IsZero(stored.id)
    ensures forall k | k in m && m[k].id != stored.id ::
      k in m[Hex(stored.id) := stored] && m[Hex(stored.id) := stored][k] == m[k]
  {
    forall k | k in m && m[k].id != stored.id
      ensures k != Hex(stored.id)
    {
      HexInjective(m[k].id, stored.id);
    }
  }

  /** The holdings left after deleting key id on behalf of user u. */
  function Deleted(m: map<string, Holding>, id: string, u: string): (r: map<string, Holding>)
    ensures id in r <==> id in m && m[id].userId != u
    ensures id in r ==> r[id] == m[id]
    ensures forall k | k != id :: (k in r <==> k in m) && (k in r ==> r[k] == m[k])
  {
    if id in m && m[id].userId == u then m - {id} else m
  }

  /** Deleting the same (id, user) twice is the same as deleting it once. */
  lemma DeleteIdempotent(m: map<string, Holding>, id: string, u: string)
    ensures Deleted(Deleted(m, id, u), id, u) == Deleted(m, id, u)
  {
  }

  /** A holding that was just stored is deleted by its owner using its hex key,
      and the store is left as it was apart from that key. */
  lemma CreateThenDelete(m: map<string, Holding>, h: Holding)
    ensures Deleted(m[Hex(h.id) := h], Hex(h.id), h.userId) == m - {Hex(h.id)}
  {
  }

  /** A holding that was just stored is listed for its owner. */
  lemma CreatedIsListed(m: map<string, Holding>, h: Holding)
    ensures h in OwnedBy(m[Hex(h.id) := h], HoldingUser, h.userId)
  {
    var m' := m[Hex(h.id) := h];
    assert Hex(h.id) in m' && m'[Hex(h.id)] == h;
    OwnedByMember(m', HoldingUser, h.userId, h);
  }

  /** A holding that belongs to another user is never listed for u. */
  lemma ForeignNotListed(m: map<string, Holding>, u: string, h: Holding)
    requires h.userId != u
    ensures h !in OwnedBy(m, HoldingUser, u)
  {
    OwnedByMember(m, HoldingUser, u, h);
  }

  class MemoryPortfolioRepository {
    var holdings: map<string, Holding>
    var snapshots: map<string, Snapshot>

    ghost predicate Valid()
      reads this
    {
      HoldingsKeyed(holdings) && SnapshotsKeyed(snapshots)
    }

    constructor ()
      ensures Valid()
      ensures holdings == map[] && snapshots == map[]
    {
      holdings := map[];
      snapshots := map[];
    }

    /** The holdings owned by userId, in unspecified order, each as often as it is stored. */
    method ListHoldings(userId: string) returns (result: seq<Holding>)
      ensures multiset(result) == OwnedBy(holdings, HoldingUser, userId)
    {
      result := [];
      var pending := holdings.Keys;
      ghost var done: map<string, Holding> := map[];
      while pending != {}
        invariant pending <= holdings.Keys
        invariant done.Keys == holdings.Keys - pending
        invariant forall k | k in done :: done[k] == holdings[k]
        invariant multiset(result) == OwnedBy(done, HoldingUser, userId)
        decreases |pending|
      {
        var k :| k in pending;
        var h := holdings[k];
        if h.userId == userId {
          result := result + [h];
        }
        OwnedByAdd(done, HoldingUser, userId, k, h);
        done := done[k := h];
        pending := pending - {k};
      }
      assert done == holdings;
    }

    /** Stores holding under the hex form of its id, generating the id (newId,
        which the id generator guarantees non-zero) only when none is set. */
    method CreateHolding(holding: Holding, newId: ObjectId) returns (stored: Holding)
      requires Valid()
      requires !IsZero(newId)
      modifies this
      ensures Valid()
      ensures !IsZero(stored.id)
      ensures IsZero(holding.id) ==> stored.id == newId
      ensures !IsZero(holding.id) ==> stored.id == holding.id
      ensures stored == holding.(id := stored.id)
      ensures holdings == old(holdings)[Hex(stored.id) := stored]
      ensures forall k | k in old(holdings) && old(holdings)[k].id != stored.id ::
        k in holdings && holdings[k] == old(holdings)[k]
      ensures snapshots == old(snapshots)
    {
      stored := holding;
      if IsZero(stored.id) {
        stored := stored.(id := newId);
      }
      CreateKeepsOtherIds(holdings, stored);
      holdings := holdings[Hex(stored.id) := stored];
    }

    /** Removes the holding under key id if, and only if, it belongs to userId;
        otherwise nothing happens. There is no error outcome. */
    method DeleteHolding(id: string, userId: string)
      requires Valid()
      modifies this
      ensures Valid()
      ensures holdings == Deleted(old(holdings), id, userId)
      ensures snapshots == old(snapshots)
    {
      if id !in holdings {
        return;
      }
      var holding := holdings[id];
      if holding.userId != userId {
        return;
      }
      holdings := holdings - {id};
    }

    /** The snapshots owned by userId, in unspecified order, each as often as it is stored. */
    method ListSnapshots(userId: string) returns (result: seq<Snapshot>)
      ensures multiset(result) == OwnedBy(snapshots, SnapshotUser, userId)
    {
      result := [];
      var pending := snapshots.Keys;
      ghost var done: map<string, Snapshot> := map[];
      while pending != {}
        invariant pending <= snapshots.Keys
        invariant done.Keys == snapshots.Keys - pending
        invariant forall k | k in done :: done[k] == snapshots[k]
        invariant multiset(result) == OwnedBy(done, SnapshotUser, userId)
        decreases |pending|
      {
        var k :| k in pending;
        var s := snapshots[k];
        if s.userId == userId {
          result := result + [s];
        }
        OwnedByAdd(done, SnapshotUser, userId, k, s);
        done := done[k := s];
        pending := pending - {k};
      }
      assert done == snapshots;
    }

    /** Stores snapshot under the hex form of its id, generating the id only when
        none is set and stamping it with now only when its timestamp is unset. */
    method CreateSnapshot(snapshot: Snapshot, newId: ObjectId, now: DateTime) returns (stored: Snapshot)
      requires Valid()
      requires !IsZero(newId)
      modifies this
      ensures Valid()
      ensures !IsZero(stored.id)
      ensures IsZero(snapshot.id) ==> stored.id == newId
      ensures !IsZero(snapshot.id) ==> stored.id == snapshot.id
      ensures snapshot.timestamp == 0 ==> stored.timestamp == now
      ensures snapshot.timestamp != 0 ==> stored.timestamp == snapshot.timestamp
      ensures stored.userId == snapshot.userId && stored.totalValue == snapshot.totalValue
      ensures snapshots == old(snapshots)[Hex(stored.id) := stored]
      ensures forall k | k in old(snapshots) && old(snapshots)[k].id != stored.id ::
        k in snapshots && snapshots[k] == old(snapshots)[k]
      ensures holdings == old(holdings)
    {
      stored := snapshot;
      if IsZero(stored.id) {
        stored := stored.(id := newId);
      }
      if stored.timestamp == 0 {
        stored := stored.(timestamp := now);
      }
      CreateKeepsOtherSnapshotIds(snapshots, stored);
      snapshots := snapshots[Hex(stored.id) := stored];
    }
  }
}
