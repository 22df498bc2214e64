// The in-memory JSON store (JSONStorage in db.go). Its mutex and the file
// written by `persist` are not modelled: each method is one atomic step, and
// whether the file write succeeded is an input `writeOk` (the tables are
// updated before the write, so a failed write only changes what is returned).
module Store {
  import opened Models

  /** JSONStorage.Data: profiles by user id, orders by order id, and the next order id. */
  datatype Data = Data(profiles: map<int, Profile>, orders: map<int, Order>, nextId: int)

  /** InitJSONStorage sets NextID to 1, so order ids start at 1. */
  const FirstId := 1

  /** The tables InitJSONStorage starts from when there is no file to load. */
  function Empty(): Data {
    Data(map[], map[], FirstId)
  }

  // ---------------------------------------------------------------- invariant

  /** At most one order per creator. */
  ghost predicate OnePerCreator(orders: map<int, Order>) {
    forall a, b :: a in orders && b in orders && orders[a].creatorId == orders[b].creatorId ==> a == b
  }

  /** Every order is stored under its own id. */
  ghost predicate KeysAreIds(orders: map<int, Order>) {
    forall k :: k in orders ==> orders[k].id == k
  }

  /** Every id in use was handed out before: it lies in [FirstId, nextId). */
  ghost predicate KeysIssued(orders: map<int, Order>, nextId: int) {
    forall k :: k in orders ==> FirstId <= k < nextId
  }

  /** Every profile is stored under its own user id. */
  ghost predicate ProfilesKeyed(profiles: map<int, Profile>) {
    forall u :: u in profiles ==> profiles[u].userId == u
  }

  ghost predicate Inv(d: Data) {
    && FirstId <= d.nextId
    && ProfilesKeyed(d.profiles)
    && OnePerCreator(d.orders)
    && KeysAreIds(d.orders)
    && KeysIssued(d.orders, d.nextId)
  }

  // ---------------------------------------------------------------- operations, as functions of the tables

  /** CreateOrUpdateProfile: an upsert keyed on the user id. */
  function PutProfile(d: Data, p: Profile): Data {
    d.(profiles := d.profiles[p.userId := p])
  }

  function LookupProfile(d: Data, userId: int): Result<Profile> {
    if userId in d.profiles then Ok(d.profiles[userId]) else Err(NotFound)
  }

  predicate HasOrderBy(orders: map<int, Order>, creatorId: int) {
    exists k :: k in orders && orders[k].creatorId == creatorId
  }

  /**
   * CreateOrder: refused when the creator already has an order; otherwise the
   * order is stored under NextID with its id set to that key, the key is
   * returned and NextID moves on by one.
   */
  function InsertOrder(d: Data, o: Order): (Data, Result<int>) {
    if HasOrderBy(d.orders, o.creatorId) then (d, Err(CreatorHasOrder))
    else (d.(orders := d.orders[d.nextId := o.(id := d.nextId)], nextId := d.nextId + 1), Ok(d.nextId))
  }

  function LookupOrder(d: Data, id: int): Result<Order> {
    if id in d.orders then Ok(d.orders[id]) else Err(NotFound)
  }

  /** GetOrderByCreator: one of the creator's orders (the only one, under Inv). */
  ghost function OrderOf(d: Data, creatorId: int): Result<Order> {
    if HasOrderBy(d.orders, creatorId) then
      var k :| k in d.orders && d.orders[k].creatorId == creatorId;
      Ok(d.orders[k])
    else Err(NotFound)
  }

  /** DeleteOrderByID: Go's `delete`, a no-op on an absent key. */
  function RemoveOrder(d: Data, id: int): Data {
    d.(orders := d.orders - {id})
  }

  /** UpdateOrder: writes at o.id whether or not that key exists. */
  function ReplaceOrder(d: Data, o: Order): Data {
    d.(orders := d.orders[o.id := o])
  }

  /** IncrementComplaint: a read-modify-write of one order's counter, returning the new count. */
  function BumpComplaints(d: Data, id: int): (Data, Result<int>) {
    if id !in d.orders then (d, Err(NotFound))
    else
      var od := d.orders[id].(complaints := d.orders[id].complaints + 1);
      (d.(orders := d.orders[id := od]), Ok(od.complaints))
  }

  /** The keys whose orders are in category `cat`: what ListOrdersByCategory collects. */
  ghost function CategoryKeys(orders: map<int, Order>, cat: string): set<int> {
    set k | k in orders && orders[k].category == cat
  }

  /** What UpdateOrder's argument must satisfy for the invariant to survive it. */
  ghost predicate FitsInvariant(d: Data, o: Order) {
    && FirstId <= o.id < d.nextId
    && forall k :: k in d.orders && k != o.id ==> d.orders[k].creatorId != o.creatorId
  }

  // ---------------------------------------------------------------- properties

  /** A non-empty key set has an element to pick (used by the table scans). */
  lemma NonEmptyHasKey(s: set<int>)
    requires s != {}
    ensures exists k :: k in s
  {
    if forall k :: k !in s {
      assert false;
    }
  }

  lemma ValueHasKey(m: map<int, Order>, o: Order)
    requires o in m.Values
    ensures exists k :: k in m && m[k] == o
  {
    if forall k :: k in m ==> m[k] != o {
      assert false;
    }
  }

  /** The upsert is read back exactly, the profiles of other users and all orders are untouched. */
  lemma PutThenLookup(d: Data, p: Profile, other: int)
    ensures LookupProfile(PutProfile(d, p), p.userId) == Ok(p)
    ensures other != p.userId ==> LookupProfile(PutProfile(d, p), other) == LookupProfile(d, other)
    ensures PutProfile(d, p).orders == d.orders && PutProfile(d, p).nextId == d.nextId
  {
  }

  /** Writing two profiles for one user keeps only the latest. */
  lemma PutTwiceKeepsLatest(d: Data, p1: Profile, p2: Profile)
    requires p1.userId == p2.userId
    ensures PutProfile(PutProfile(d, p1), p2) == PutProfile(d, p2)
  {
  }

  /** A creator who already has an order is refused and nothing changes; otherwise the order is stored. */
  lemma InsertOrderOutcome(d: Data, o: Order)
    ensures InsertOrder(d, o).1.Err? <==> HasOrderBy(d.orders, o.creatorId)
    ensures InsertOrder(d, o).1.Err? ==> InsertOrder(d, o).0 == d && InsertOrder(d, o).1.error == CreatorHasOrder
    ensures InsertOrder(d, o).1.Ok? ==>
      var (d', r) := InsertOrder(d, o);
      && r.value == d.nextId
      && d'.nextId == d.nextId + 1
      && d'.orders.Keys == d.orders.Keys + {r.value}
      && d'.orders[r.value] == o.(id := r.value)
      && d'.profiles == d.profiles
      && (forall k :: k in d.orders && k != r.value ==> k in d'.orders && d'.orders[k] == d.orders[k])
  {
  }

  /** Ids are never reused: a new id is above every id in use, and afterwards the creator has exactly that order. */
  lemma InsertOrderFreshId(d: Data, o: Order)
    requires Inv(d) && InsertOrder(d, o).1.Ok?
    ensures forall k :: k in d.orders ==> k < InsertOrder(d, o).1.value
    ensures InsertOrder(d, o).1.value !in d.orders
    ensures OrderOf(InsertOrder(d, o).0, o.creatorId) == Ok(o.(id := InsertOrder(d, o).1.value))
  {
    var (d', r) := InsertOrder(d, o);
    assert HasOrderBy(d'.orders, o.creatorId) by {
      assert d'.orders[r.value].creatorId == o.creatorId;
    }
    InsertOrderKeepsInv(d, o);
    OrderOfIsTheOne(d', o.creatorId, r.value);
  }

  lemma InsertOrderKeepsInv(d: Data, o: Order)
    requires Inv(d)
    ensures Inv(InsertOrder(d, o).0)
  {
    var (d', r) := InsertOrder(d, o);
    if r.Ok? {
      forall a, b | a in d'.orders && b in d'.orders && d'.orders[a].creatorId == d'.orders[b].creatorId
        ensures a == b
      {
        if a != b && (a == d.nextId || b == d.nextId) {
          assert false;
        }
      }
    }
  }

  /** Under the invariant the creator's order is unique: any order of that creator is the one OrderOf gives. */
  lemma OrderOfIsTheOne(d: Data, creatorId: int, k: int)
    requires Inv(d) && k in d.orders && d.orders[k].creatorId == creatorId
    ensures OrderOf(d, creatorId) == Ok(d.orders[k])
  {
  }

  /** Deleting removes exactly that key and nothing else; afterwards the id is not found. */
  lemma RemoveOrderOutcome(d: Data, id: int)
    ensures RemoveOrder(d, id).orders.Keys == d.orders.Keys - {id}
    ensures forall k :: k in RemoveOrder(d, id).orders ==> RemoveOrder(d, id).orders[k] == d.orders[k]
    ensures LookupOrder(RemoveOrder(d, id), id) == Err(NotFound)
    ensures id !in d.orders ==> RemoveOrder(d, id) == d
    ensures RemoveOrder(d, id).profiles == d.profiles && RemoveOrder(d, id).nextId == d.nextId
  {
  }

  lemma RemoveOrderKeepsInv(d: Data, id: int)
    requires Inv(d)
    ensures Inv(RemoveOrder(d, id))
  {
  }

  /**
   * A missing id is an error that changes nothing; otherwise only that order's
   * counter goes up by one, and the new count is returned.
   */
  lemma BumpComplaintsOutcome(d: Data, id: int)
    ensures BumpComplaints(d, id).1.Err? <==> id !in d.orders
    ensures id !in d.orders ==> BumpComplaints(d, id).0 == d
    ensures id in d.orders ==>
      var (d', r) := BumpComplaints(d, id);
      && r.value == d.orders[id].complaints + 1
      && d'.orders.Keys == d.orders.Keys
      && d'.orders[id] == d.orders[id].(complaints := r.value)
      && (forall k :: k in d.orders && k != id ==> d'.orders[k] == d.orders[k])
      && d'.profiles == d.profiles && d'.nextId == d.nextId
  {
  }

  lemma BumpComplaintsKeepsInv(d: Data, id: int)
    requires Inv(d)
    ensures Inv(BumpComplaints(d, id).0)
  {
  }

  /** Given the invariant, UpdateOrder keeps it exactly when its argument fits it. */
  lemma ReplaceOrderInv(d: Data, o: Order)
    requires Inv(d)
    ensures Inv(ReplaceOrder(d, o)) <==> FitsInvariant(d, o)
  {
    var d' := ReplaceOrder(d, o);
    if FitsInvariant(d, o) {
      forall a, b | a in d'.orders && b in d'.orders && d'.orders[a].creatorId == d'.orders[b].creatorId
        ensures a == b
      {
      }
    } else if FirstId <= o.id < d.nextId {
      var k :| k in d.orders && k != o.id && d.orders[k].creatorId == o.creatorId;
      assert k in d'.orders && o.id in d'.orders && d'.orders[k].creatorId == d'.orders[o.id].creatorId;
    } else {
      assert o.id in d'.orders;
    }
  }

  /** UpdateOrder checks nothing: one call gives a second order to a creator who already has one. */
  lemma ReplaceOrderCanBreakInv()
    ensures var d := Data(map[], map[1 := Order(1, 7, "design", "a", "", 0)], 2);
            var o := Order(5, 7, "design", "b", "", 0);
            Inv(d) && !Inv(ReplaceOrder(d, o))
  {
    var d := Data(map[], map[1 := Order(1, 7, "design", "a", "", 0)], 2);
    var o := Order(5, 7, "design", "b", "", 0);
    assert 5 in ReplaceOrder(d, o).orders;
  }

  // ---------------------------------------------------------------- the store object

  class JSONStorage {
    var profiles: map<int, Profile>
    var orders: map<int, Order>
    var nextId: int

    function Snapshot(): Data
      reads this
    {
      Data(profiles, orders, nextId)
    }

    ghost predicate Valid()
      reads this
    {
      Inv(Snapshot())
    }

    /** InitJSONStorage with no file on disk. */
    constructor ()
      ensures Snapshot() == Empty() && Valid()
    {
      profiles := map[];
      orders := map[];
      nextId := FirstId;
    }

    method CreateOrUpdateProfile(p: Profile, writeOk: bool) returns (r: Result<()>)
      modifies this
      ensures Snapshot() == PutProfile(old(Snapshot()), p)
      ensures r == if writeOk then Ok(()) else Err(WriteFailed)
      ensures old(Valid()) ==> Valid()
    {
      profiles := profiles[p.userId := p];
      r := if writeOk then Ok(()) else Err(WriteFailed);
    }

    method GetProfile(userId: int) returns (r: Result<Profile>)
      ensures r == LookupProfile(Snapshot(), userId)
      ensures r.Ok? <==> userId in profiles
      ensures r.Err? ==> r.error == NotFound
      ensures Valid() && r.Ok? ==> r.value.userId == userId
    {
      if userId in profiles {
        r := Ok(profiles[userId]);
      } else {
        r := Err(NotFound);
      }
    }

    /** Scans every stored order for the creator before inserting. */
    method CreateOrder(o: Order) returns (r: Result<int>)
      modifies this
      ensures (Snapshot(), r) == InsertOrder(old(Snapshot()), o)
      ensures old(Valid()) ==> Valid()
    {
      var remaining := orders.Keys;
      while remaining != {}
        invariant Snapshot() == old(Snapshot())
        invariant remaining <= orders.Keys
        invariant forall k :: k in orders && k !in remaining ==> orders[k].creatorId != o.creatorId
        decreases remaining
      {
        NonEmptyHasKey(remaining);
        var k :| k in remaining;
        if orders[k].creatorId == o.creatorId {
          assert HasOrderBy(orders, o.creatorId);
          return Err(CreatorHasOrder);
        }
        remaining := remaining - {k};
      }
      assert !HasOrderBy(orders, o.creatorId);
      ghost var before := Snapshot();
      var id := nextId;
      orders := orders[id := o.(id := id)];
      nextId := nextId + 1;
      r := Ok(id);
      if Inv(before) {
        InsertOrderKeepsInv(before, o);
      }
    }

    /** Returns the first order of the creator met while scanning the table. */
    method GetOrderByCreator(creatorId: int) returns (r: Result<Order>)
      ensures r.Ok? <==> HasOrderBy(orders, creatorId)
      ensures r.Ok? ==> r.value.creatorId == creatorId && r.value in orders.Values
      ensures r.Err? ==> r.error == NotFound
      ensures Valid() ==> r == OrderOf(Snapshot(), creatorId)
    {
      var remaining := orders.Keys;
      while remaining != {}
        invariant remaining <= orders.Keys
        invariant forall k :: k in orders && k !in remaining ==> orders[k].creatorId != creatorId
        decreases remaining
      {
        NonEmptyHasKey(remaining);
        var k :| k in remaining;
        if orders[k].creatorId == creatorId {
          r := Ok(orders[k]);
          if Valid() {
            OrderOfIsTheOne(Snapshot(), creatorId, k);
          }
          return;
        }
        remaining := remaining - {k};
      }
      r := Err(NotFound);
    }

    method GetOrderByID(id: int) returns (r: Result<Order>)
      ensures r == LookupOrder(Snapshot(), id)
    {
      if id in orders {
        r := Ok(orders[id]);
      } else {
        r := Err(NotFound);
      }
    }

    method DeleteOrderByID(id: int, writeOk: bool) returns (r: Result<()>)
      modifies this
      ensures Snapshot() == RemoveOrder(old(Snapshot()), id)
      ensures r == if writeOk then Ok(()) else Err(WriteFailed)
      ensures old(Valid()) ==> Valid()
    {
      orders := orders - {id};
      r := if writeOk then Ok(()) else Err(WriteFailed);
    }

    method UpdateOrder(o: Order, writeOk: bool) returns (r: Result<()>)
      modifies this
      ensures Snapshot() == ReplaceOrder(old(Snapshot()), o)
      ensures r == if writeOk then Ok(()) else Err(WriteFailed)
      ensures old(Valid()) ==> (Valid() <==> FitsInvariant(old(Snapshot()), o))
    {
      ghost var before := Snapshot();
      orders := orders[o.id := o];
      r := if writeOk then Ok(()) else Err(WriteFailed);
      if Inv(before) {
        ReplaceOrderInv(before, o);
      }
    }

    /** `reporterId` is accepted and not used: nothing stops one user from complaining repeatedly. */
    method IncrementComplaint(orderId: int, reporterId: int) returns (r: Result<int>)
      modifies this
      ensures (Snapshot(), r) == BumpComplaints(old(Snapshot()), orderId)
      ensures old(Valid()) ==> Valid()
    {
      if orderId !in orders {
        return Err(NotFound);
      }
      var od := orders[orderId];
      od := od.(complaints := od.complaints + 1);
      orders := orders[orderId := od];
      r := Ok(od.complaints);
    }

    /**
     * Collects the orders of one category in the table's iteration order:
     * each matching key contributes its order exactly once. `keys` records
     * which key each element came from.
     */
    method ListOrdersByCategory(cat: string) returns (out: seq<Order>, ghost keys: seq<int>)
      ensures |keys| == |out|
      ensures forall i :: 0 <= i < |out| ==> keys[i] in orders && out[i] == orders[keys[i]]
      ensures forall i, j :: 0 <= i < j < |keys| ==> keys[i] != keys[j]
      ensures forall k :: k in keys <==> k in CategoryKeys(orders, cat)
      ensures forall o :: o in out <==> o in orders.Values && o.category == cat
    {
      out, keys := [], [];
      var remaining := orders.Keys;
      while remaining != {}
        invariant remaining <= orders.Keys
        invariant |keys| == |out|
        invariant forall i :: 0 <= i < |out| ==> keys[i] in orders && out[i] == orders[keys[i]]
        invariant forall i, j :: 0 <= i < j < |keys| ==> keys[i] != keys[j]
        invariant forall k :: k in keys <==> k in orders && k !in remaining && orders[k].category == cat
        decreases remaining
      {
        NonEmptyHasKey(remaining);
        var k :| k in remaining;
        if orders[k].category == cat {
          out, keys := out + [orders[k]], keys + [k];
        }
        remaining := remaining - {k};
      }
      forall o | o in orders.Values && o.category == cat
        ensures o in out
      {
        ValueHasKey(orders, o);
        var k :| k in orders && orders[k] == o;
        var i :| 0 <= i < |keys| && keys[i] == k;
        assert out[i] == o;
      }
      forall o | o in out
        ensures o in orders.Values && o.category == cat
      {
        var i :| 0 <= i < |out| && out[i] == o;
        assert keys[i] in keys;
      }
    }
  }
}
