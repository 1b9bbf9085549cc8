/** The orders page: its own order list, order creation against a fixed
    price catalogue, the status badges, and the manual/automatic split. */
module OrderBook {
  import opened ArrayOps

  datatype Status = Pending | Processing | Completed | Cancelled

  datatype Order = Order(
    id: int,
    materialId: int,
    materialName: string,
    quantity: int,
    customer: string,
    amount: real,
    status: Status,
    timestamp: int,
    isAuto: bool)

  /** An entry of the page's fixed price list. */
  datatype CatalogueItem = CatalogueItem(id: int, name: string, price: real)

  /** The price list the page hard-codes. */
  const PriceList: seq<CatalogueItem> := [
    CatalogueItem(1, "Гайка М8", 2.5),
    CatalogueItem(2, "Болт М10", 5.0),
    CatalogueItem(3, "Шайба М8", 1.2),
    CatalogueItem(4, "Саморез 4x50", 0.8),
    CatalogueItem(5, "Винт М6", 3.5)
  ]

  /** The new-order form as typed: every field is raw text. */
  datatype OrderDraft = OrderDraft(materialName: string, quantity: string, customer: string)

  datatype Outcome = Invalid | NotFound | Done

  /** `materials.find(m => m.name === name)`. */
  function LookupByName(items: seq<CatalogueItem>, name: string): (r: Option<CatalogueItem>)
    ensures r.None? <==> forall i :: 0 <= i < |items| ==> items[i].name != name
    ensures r.Some? ==> r.value in items && r.value.name == name
    ensures r.Some? ==> exists i :: 0 <= i < |items| && items[i] == r.value &&
                                    forall j :: 0 <= j < i ==> items[j].name != name
  {
    Find(items, (c: CatalogueItem) => c.name == name)
  }

  /** An order's amount: catalogue price times quantity. Every price in
      the list is positive, so the amount's sign is the quantity's. */
  function OrderAmount(item: CatalogueItem, quantity: int): (r: real)
    ensures item.price > 0.0 ==> (r > 0.0 <==> quantity > 0) && (r == 0.0 <==> quantity == 0)
  {
    item.price * quantity as real
  }

  /** `getStatusLabel`: each label belongs to exactly one status. */
  function StatusLabel(s: Status): (r: string)
    ensures r == "Ожидает" <==> s == Pending
    ensures r == "В работе" <==> s == Processing
    ensures r == "Завершен" <==> s == Completed
    ensures r == "Отменен" <==> s == Cancelled
  {
    match s
    case Pending => "Ожидает"
    case Processing => "В работе"
    case Completed => "Завершен"
    case Cancelled => "Отменен"
  }

  /** `getStatusColor`: each colour belongs to exactly one status. */
  function StatusColor(s: Status): (r: string)
    ensures r == "bg-yellow-500" <==> s == Pending
    ensures r == "bg-blue-500" <==> s == Processing
    ensures r == "bg-green-500" <==> s == Completed
    ensures r == "bg-gray-500" <==> s == Cancelled
  {
    match s
    case Pending => "bg-yellow-500"
    case Processing => "bg-blue-500"
    case Completed => "bg-green-500"
    case Cancelled => "bg-gray-500"
  }

  /** Each status has its own label and its own colour. */
  lemma StatusBadgesDistinct(s: Status, t: Status)
    requires s != t
    ensures StatusLabel(s) != StatusLabel(t)
    ensures StatusColor(s) != StatusColor(t)
  {
    match s
    case Pending => assert StatusColor(s)[3] == 'y';
    case Processing => assert StatusColor(s)[3] == 'b';
    case Completed => assert StatusColor(s)[3] == 'g' && StatusColor(s)[5] == 'e';
    case Cancelled => assert StatusColor(s)[3] == 'g' && StatusColor(s)[5] == 'a';
  }

  predicate IsManual(o: Order)
  {
    !o.isAuto
  }

  predicate IsAuto(o: Order)
  {
    o.isAuto
  }

  /** `manualOrders`. */
  function ManualOrders(os: seq<Order>): (r: seq<Order>)
    ensures IsSubsequence(r, os)
    ensures forall o :: o in r <==> o in os && !o.isAuto
  {
    Filter(os, IsManual)
  }

  /** `autoOrders`. */
  function AutoOrders(os: seq<Order>): (r: seq<Order>)
    ensures IsSubsequence(r, os)
    ensures forall o :: o in r <==> o in os && o.isAuto
  {
    Filter(os, IsAuto)
  }

  /** The two tabs split the order list: every order is in exactly one. */
  lemma ManualAutoPartition(os: seq<Order>)
    ensures |ManualOrders(os)| + |AutoOrders(os)| == |os|
    ensures multiset(ManualOrders(os)) + multiset(AutoOrders(os)) == multiset(os)
    ensures forall o :: o in os ==> (o in ManualOrders(os) <==> o !in AutoOrders(os))
  {
    FilterPartition(os, IsManual, IsAuto);
  }

  /** An order appended by the form shows up last in the manual tab and
      leaves the automatic tab as it was. */
  lemma NewOrderIsManual(os: seq<Order>, o: Order)
    requires !o.isAuto
    ensures ManualOrders(os + [o]) == ManualOrders(os) + [o]
    ensures AutoOrders(os + [o]) == AutoOrders(os)
  {
    FilterAppend(os, o, IsManual);
    FilterAppend(os, o, IsAuto);
  }

  class OrdersPage {
    /** The page looks orders up in its hard-coded price list. */
    const catalogue: seq<CatalogueItem> := PriceList
    var orders: seq<Order>

    /** The state the page starts from (its seed list). */
    constructor (orders: seq<Order>)
      ensures this.orders == orders
    {
      this.orders := orders;
    }

    /** `handleAddOrder`: all three fields must be non-empty text, and the
        material is looked up by name in the price list. `quantity` is the
        number the page parses from the draft's quantity text; it is not
        checked to be positive. `now` is the clock reading. */
    method AddOrder(draft: OrderDraft, quantity: int, now: int) returns (r: Outcome)
      modifies this
      ensures r == Invalid <==> draft.materialName == "" || draft.quantity == "" || draft.customer == ""
      ensures r == NotFound <==> r != Invalid && LookupByName(catalogue, draft.materialName).None?
      ensures r == Done ==>
        var item := LookupByName(catalogue, draft.materialName).value;
        orders == old(orders) + [Order(|old(orders)| + 1, item.id, item.name, quantity, draft.customer,
                                       OrderAmount(item, quantity), Pending, now, false)]
      ensures r != Done ==> orders == old(orders)
    {
      if draft.materialName == "" || draft.quantity == "" || draft.customer == "" {
        return Invalid;
      }
      var found := LookupByName(catalogue, draft.materialName);
      if found.None? {
        return NotFound;
      }
      var item := found.value;
      var order := Order(|orders| + 1, item.id, item.name, quantity, draft.customer,
                         OrderAmount(item, quantity), Pending, now, false);
      orders := orders + [order];
      r := Done;
    }
  }

  /** A caller's view: a completed form with a quantity of zero is still
      accepted, and the new order lands in the manual tab. */
  method ZeroQuantityScenario(page: OrdersPage, now: int)
    modifies page
    ensures |page.orders| == |old(page.orders)| + 1
    ensures page.orders[..|old(page.orders)|] == old(page.orders)
    ensures ManualOrders(page.orders) == ManualOrders(old(page.orders)) + [page.orders[|old(page.orders)|]]
    ensures page.orders[|old(page.orders)|].quantity == 0
  {
    assert PriceList[0].name == "Гайка М8";
    var r := page.AddOrder(OrderDraft("Гайка М8", "0", "ИП Петров"), 0, now);
    assert r == Done;
    NewOrderIsManual(old(page.orders), page.orders[|old(page.orders)|]);
  }
}
