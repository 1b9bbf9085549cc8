/** The stock ledger of the main dashboard page: three in-memory lists
    (materials, orders, transactions), the four handlers that replace them,
    and the counters and reorder suggestions derived from them. */
module Ledger {
  import opened ArrayOps

  datatype Material = Material(
    id: int,
    name: string,
    description: string,
    quantity: int,
    minQuantity: int,
    amount: real)

  /** Index.tsx knows three order statuses. */
  datatype OrderStatus = Pending | Completed | Cancelled

  datatype Order = Order(
    id: int,
    materialId: int,
    materialName: string,
    quantity: int,
    timestamp: string,
    customer: string,
    amount: real,
    status: OrderStatus,
    isAutomatic: bool)

  datatype Kind = Receipt | WriteOff

  datatype Transaction = Transaction(
    id: int,
    materialId: int,
    materialName: string,
    kind: Kind,
    timestamp: string,
    quantity: int)

  /** What a handler reported: the error toast (invalid form), a silent
      return (the selected material no longer exists), or success. */
  datatype Outcome = Invalid | NotFound | Done

  // ---------------------------------------------------------------------
  // Quantities

  /** The quantity after one receipt or write-off of `n`, floored at 0. */
  function Adjusted(q: int, kind: Kind, n: int): (r: int)
    ensures r >= 0
    ensures kind == Receipt && q + n >= 0 ==> r == q + n
    ensures kind == Receipt && q + n <= 0 ==> r == 0
    ensures kind == WriteOff && n <= q ==> r == q - n
    ensures kind == WriteOff && n >= q ==> r == 0
  {
    var next := if kind == Receipt then q + n else q - n;
    if next < 0 then 0 else next
  }

  /** A receipt of `n` followed by a write-off of `n` restores a
      non-negative quantity. */
  lemma ReceiptThenWriteOff(q: int, n: int)
    requires q >= 0 && n >= 0
    ensures Adjusted(Adjusted(q, Receipt, n), WriteOff, n) == q
  {
  }

  /** The material list after a transaction: the `materials.map` that
      adjusts every material carrying `id` and keeps the others. */
  function Restock(ms: seq<Material>, id: int, kind: Kind, n: int): (r: seq<Material>)
    ensures |r| == |ms|
    ensures forall i :: 0 <= i < |ms| && ms[i].id != id ==> r[i] == ms[i]
    ensures forall i :: 0 <= i < |ms| && ms[i].id == id ==>
              r[i] == ms[i].(quantity := Adjusted(ms[i].quantity, kind, n))
  {
    if ms == [] then []
    else
      var m := ms[0];
      var head := if m.id == id then m.(quantity := Adjusted(m.quantity, kind, n)) else m;
      [head] + Restock(ms[1..], id, kind, n)
  }

  /** Every quantity is non-negative: the invariant the handlers keep. */
  ghost predicate NonNegative(ms: seq<Material>)
  {
    forall i :: 0 <= i < |ms| ==> ms[i].quantity >= 0
  }

  lemma RestockKeepsNonNegative(ms: seq<Material>, id: int, kind: Kind, n: int)
    requires NonNegative(ms)
    ensures NonNegative(Restock(ms, id, kind, n))
  {
  }

  /** Receipt of `n` then write-off of `n` against the same id gives back
      the material list unchanged. */
  lemma {:induction false} RestockRoundTrip(ms: seq<Material>, id: int, n: int)
    requires NonNegative(ms) && n >= 0
    ensures Restock(Restock(ms, id, Receipt, n), id, WriteOff, n) == ms
  {
    var once := Restock(ms, id, Receipt, n);
    var twice := Restock(once, id, WriteOff, n);
    forall i | 0 <= i < |ms| ensures twice[i] == ms[i] {
      if ms[i].id == id {
        ReceiptThenWriteOff(ms[i].quantity, n);
      }
    }
  }

  // ---------------------------------------------------------------------
  // Lookups and list edits

  /** `materials.find(m => m.id === id)`. */
  function Lookup(ms: seq<Material>, id: int): (r: Option<Material>)
    ensures r.None? <==> forall i :: 0 <= i < |ms| ==> ms[i].id != id
    ensures r.Some? ==> r.value in ms && r.value.id == id
    ensures r.Some? ==> exists i :: 0 <= i < |ms| && ms[i] == r.value &&
                                    forall j :: 0 <= j < i ==> ms[j].id != id
  {
    Find(ms, (m: Material) => m.id == id)
  }

  /** A material's key for deletion. */
  function Id(m: Material): int
  {
    m.id
  }

  lemma DeleteKeepsNonNegative(ms: seq<Material>, id: int)
    requires NonNegative(ms)
    ensures NonNegative(WithoutKey(ms, Id, id))
  {
    var r := WithoutKey(ms, Id, id);
    forall i | 0 <= i < |r| ensures r[i].quantity >= 0 {
      assert r[i] in ms;
    }
  }

  // ---------------------------------------------------------------------
  // Derived values

  predicate IsLow(m: Material)
  {
    m.quantity < m.minQuantity
  }

  predicate IsPending(o: Order)
  {
    o.status == Pending
  }

  /** The materials listed under the automatic-reorder card: every copy
      of a low-stock material, in list order, and nothing else. */
  function LowStock(ms: seq<Material>): (r: seq<Material>)
    ensures IsSubsequence(r, ms)
    ensures forall m :: m in r <==> m in ms && m.quantity < m.minQuantity
    ensures forall m :: multiset(r)[m] == if m.quantity < m.minQuantity then multiset(ms)[m] else 0
  {
    FilterExact(ms, IsLow);
    Filter(ms, IsLow)
  }

  /** `lowStockCount`: the number of positions holding a material below
      its minimum. */
  function LowStockCount(ms: seq<Material>): (r: nat)
    ensures r == |set i | 0 <= i < |ms| && ms[i].quantity < ms[i].minQuantity|
    ensures r <= |ms|
    ensures r == 0 <==> forall m :: m in ms ==> m.quantity >= m.minQuantity
  {
    FilterCountsPositions(ms, IsLow);
    assert Passing(ms, IsLow) == set i | 0 <= i < |ms| && ms[i].quantity < ms[i].minQuantity;
    |LowStock(ms)|
  }

  /** `pendingOrders`: the number of positions holding a pending order. */
  function PendingCount(os: seq<Order>): (r: nat)
    ensures r == |set i | 0 <= i < |os| && os[i].status == Pending|
    ensures r <= |os|
    ensures r == 0 <==> forall o :: o in os ==> o.status != Pending
  {
    FilterCountsPositions(os, IsPending);
    assert Passing(os, IsPending) == set i | 0 <= i < |os| && os[i].status == Pending;
    |Filter(os, IsPending)|
  }

  /** The quantity suggested for a low-stock material. */
  function Suggestion(m: Material): (r: int)
    requires IsLow(m)
    ensures r > 100
    ensures m.quantity + r == m.minQuantity + 100
  {
    m.minQuantity - m.quantity + 100
  }

  datatype Reorder = Reorder(material: Material, suggested: int)

  /** The automatic-reorder card: each low-stock material with its
      suggested order quantity, in list order. */
  function ReorderSuggestions(ms: seq<Material>): (r: seq<Reorder>)
    ensures |r| == LowStockCount(ms)
    ensures forall i :: 0 <= i < |r| ==> r[i].material == LowStock(ms)[i]
    ensures forall i :: 0 <= i < |r| ==>
              r[i].material.quantity + r[i].suggested == r[i].material.minQuantity + 100
    ensures forall i :: 0 <= i < |r| ==> r[i].material in ms && IsLow(r[i].material)
    ensures forall i :: 0 <= i < |r| ==> r[i].suggested > 100
  {
    var low := LowStock(ms);
    seq(|low|, i requires 0 <= i < |low| => Reorder(low[i], Suggestion(low[i])))
  }

  /** Receiving the suggested quantity lifts a (non-negative) low-stock
      material 100 units above its minimum, so it is no longer low. */
  lemma SuggestionClearsLowStock(m: Material)
    requires IsLow(m) && m.quantity >= 0
    ensures Adjusted(m.quantity, Receipt, Suggestion(m)) == m.minQuantity + 100
    ensures !IsLow(m.(quantity := Adjusted(m.quantity, Receipt, Suggestion(m))))
  {
  }

  /** Position by position, a material low after a receipt was low before. */
  lemma ReceiptKeepsHigh(ms: seq<Material>, id: int, n: int)
    requires n >= 0
    ensures forall i :: 0 <= i < |ms| && IsLow(Restock(ms, id, Receipt, n)[i]) ==> IsLow(ms[i])
  {
  }

  /** A receipt never raises the low-stock count. */
  lemma LowStockAfterReceipt(ms: seq<Material>, id: int, n: int)
    requires n >= 0
    ensures LowStockCount(Restock(ms, id, Receipt, n)) <= LowStockCount(ms)
  {
    var up := Restock(ms, id, Receipt, n);
    ReceiptKeepsHigh(ms, id, n);
    FilterCountMonotone(ms, up, IsLow);
    assert LowStockCount(up) == |Filter(up, IsLow)| && LowStockCount(ms) == |Filter(ms, IsLow)|;
  }

  /** Position by position, on non-negative quantities a material low
      before a write-off is low after it. */
  lemma WriteOffKeepsLow(ms: seq<Material>, id: int, n: int)
    requires NonNegative(ms) && n >= 0
    ensures forall i :: 0 <= i < |ms| && IsLow(ms[i]) ==> IsLow(Restock(ms, id, WriteOff, n)[i])
  {
  }

  /** A write-off never lowers the low-stock count. */
  lemma LowStockAfterWriteOff(ms: seq<Material>, id: int, n: int)
    requires NonNegative(ms) && n >= 0
    ensures LowStockCount(ms) <= LowStockCount(Restock(ms, id, WriteOff, n))
  {
    var down := Restock(ms, id, WriteOff, n);
    WriteOffKeepsLow(ms, id, n);
    FilterCountMonotone(down, ms, IsLow);
    assert LowStockCount(down) == |Filter(down, IsLow)| && LowStockCount(ms) == |Filter(ms, IsLow)|;
  }

  /** Deleting a material never raises the low-stock count. */
  lemma LowStockAfterDelete(ms: seq<Material>, id: int)
    ensures LowStockCount(WithoutKey(ms, Id, id)) <= LowStockCount(ms)
  {
    SubsequenceFilterCount(WithoutKey(ms, Id, id), ms, IsLow);
  }

  /** A new order arrives pending, so the pending counter rises by one. */
  lemma PendingAfterAppend(os: seq<Order>, o: Order)
    requires o.status == Pending
    ensures PendingCount(os + [o]) == PendingCount(os) + 1
  {
    FilterAppend(os, o, IsPending);
  }

  /** An order's amount: the unit price at creation times the quantity.
      For a positive quantity its sign is the price's (the page accepts a
      negative price). */
  function OrderAmount(m: Material, quantity: int): (r: real)
    ensures quantity > 0 ==> (r >= 0.0 <==> m.amount >= 0.0)
    ensures quantity == 0 ==> r == 0.0
  {
    m.amount * quantity as real
  }

  // ---------------------------------------------------------------------
  // The page state and its handlers

  class Dashboard {
    var materials: seq<Material>
    var orders: seq<Order>
    var transactions: seq<Transaction>

    ghost predicate Valid()
      reads this
    {
      NonNegative(materials)
    }

    /** The state the page starts from (its seed lists). */
    constructor (materials: seq<Material>, orders: seq<Order>, transactions: seq<Transaction>)
      requires NonNegative(materials)
      ensures Valid()
      ensures this.materials == materials && this.orders == orders && this.transactions == transactions
    {
      this.materials := materials;
      this.orders := orders;
      this.transactions := transactions;
    }

    /** `handleAddMaterial`: rejects an empty name or a negative quantity,
        otherwise appends the material with id `length + 1`. */
    method AddMaterial(name: string, description: string, quantity: int, minQuantity: int, amount: real)
      returns (r: Outcome)
      requires Valid()
      modifies this
      ensures Valid()
      ensures r != NotFound
      ensures r == Invalid <==> name == "" || quantity < 0
      ensures r == Done ==>
        materials == old(materials) + [Material(|old(materials)| + 1, name, description, quantity, minQuantity, amount)]
      ensures r == Invalid ==> materials == old(materials)
      ensures orders == old(orders) && transactions == old(transactions)
    {
      if name == "" || quantity < 0 {
        return Invalid;
      }
      var material := Material(|materials| + 1, name, description, quantity, minQuantity, amount);
      materials := materials + [material];
      r := Done;
    }

    /** `handleDeleteMaterial`: drops every material with the id; orders
        and transactions keep their name snapshots. */
    method DeleteMaterial(id: int)
      requires Valid()
      modifies this
      ensures Valid()
      ensures materials == WithoutKey(old(materials), Id, id)
      ensures orders == old(orders) && transactions == old(transactions)
    {
      DeleteKeepsNonNegative(materials, id);
      materials := WithoutKey(materials, Id, id);
    }

    /** `handleAddOrder`: a pending order priced at the material's current
        unit price; stock is not touched. */
    method AddOrder(materialId: int, quantity: int, customer: string, now: string)
      returns (r: Outcome)
      requires Valid()
      modifies this
      ensures Valid()
      ensures r == Invalid <==> materialId == 0 || quantity <= 0
      ensures r == NotFound <==> r != Invalid && Lookup(old(materials), materialId).None?
      ensures r == Done ==>
        var m := Lookup(old(materials), materialId).value;
        orders == old(orders) + [Order(|old(orders)| + 1, materialId, m.name, quantity, now, customer,
                                       OrderAmount(m, quantity), Pending, false)]
      ensures r != Done ==> orders == old(orders)
      ensures materials == old(materials) && transactions == old(transactions)
    {
      if materialId == 0 || quantity <= 0 {
        return Invalid;
      }
      var found := Lookup(materials, materialId);
      if found.None? {
        return NotFound;
      }
      var material := found.value;
      var order := Order(|orders| + 1, materialId, material.name, quantity, now, customer,
                         OrderAmount(material, quantity), Pending, false);
      orders := orders + [order];
      r := Done;
    }

    /** `handleAddTransaction`: records the movement newest-first with a
        snapshot of the material's name and applies it to the quantity. */
    method AddTransaction(materialId: int, kind: Kind, quantity: int, now: string)
      returns (r: Outcome)
      requires Valid()
      modifies this
      ensures Valid()
      ensures r == Invalid <==> materialId == 0 || quantity <= 0
      ensures r == NotFound <==> r != Invalid && Lookup(old(materials), materialId).None?
      ensures r == Done ==>
        var m := Lookup(old(materials), materialId).value;
        && transactions == [Transaction(|old(transactions)| + 1, materialId, m.name, kind, now, quantity)]
                           + old(transactions)
        && materials == Restock(old(materials), materialId, kind, quantity)
      ensures r != Done ==> materials == old(materials) && transactions == old(transactions)
      ensures orders == old(orders)
    {
      if materialId == 0 || quantity <= 0 {
        return Invalid;
      }
      var found := Lookup(materials, materialId);
      if found.None? {
        return NotFound;
      }
      var transaction := Transaction(|transactions| + 1, materialId, found.value.name, kind, now, quantity);
      transactions := [transaction] + transactions;
      RestockKeepsNonNegative(materials, materialId, kind, quantity);
      materials := Restock(materials, materialId, kind, quantity);
      r := Done;
    }
  }

  /** A caller's view: ids are `length + 1`, so after deleting material 1
      from materials 1 and 2, the next material added also gets id 2. */
  method IdsCanRepeatAfterDelete(d: Dashboard, first: Material, second: Material)
    requires d.Valid() && d.materials == [first, second] && first.id == 1 && second.id == 2
    modifies d
    ensures |d.materials| == 2 && d.materials[0] == second
    ensures d.materials[0].id == d.materials[1].id == 2
  {
    d.DeleteMaterial(1);
    var left := d.materials;
    assert first !in left && second in left;
    assert IsSubsequence(left, [second]) by {
      assert left != [] ==> left[0] != first;
    }
    assert left == [second];
    var r := d.AddMaterial("c", "", 0, 0, 0.0);
  }

  /** A caller's view: a receipt and a matching write-off of the same
      material leave the whole material list as it was. */
  method ReceiptWriteOffScenario(d: Dashboard, id: int, n: int)
    requires d.Valid() && id != 0 && n > 0
    modifies d
    ensures d.materials == old(d.materials)
  {
    RestockRoundTrip(d.materials, id, n);
    var first := d.AddTransaction(id, Receipt, n, "t1");
    var second := d.AddTransaction(id, WriteOff, n, "t2");
  }
}
