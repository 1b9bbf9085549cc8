/** The materials page: its own list of materials, the add and delete
    handlers, and the three-level stock badge. */
module Catalogue {
  import opened ArrayOps

  datatype Material = Material(
    id: int,
    name: string,
    description: string,
    amount: real,
    stock: int,
    minStock: int)

  /** The add-material form as typed: every field is raw text. */
  datatype MaterialDraft = MaterialDraft(
    name: string,
    description: string,
    amount: string,
    stock: string,
    minStock: string)

  /** The badge shown next to a material: its label and its colour class.
      (`label` is a Dafny keyword, so the label field is named `text`.) */
  datatype Badge = Badge(text: string, color: string)

  const Critical := Badge("Критично", "bg-red-500")
  const Low := Badge("Низкий", "bg-yellow-500")
  const Normal := Badge("Норма", "bg-green-500")

  /** A material's key for deletion. */
  function Id(m: Material): int
  {
    m.id
  }

  /** `(stock / minStock) * 100 < bound` in exact arithmetic is the integer
      test `100 * stock < bound * minStock`. */
  lemma PercentageBelow(stock: int, minStock: int, bound: int)
    requires minStock > 0
    ensures (stock as real / minStock as real) * 100.0 < bound as real <==> 100 * stock < bound * minStock
  {
    var x := stock as real / minStock as real;
    assert x * minStock as real == stock as real;
    if x * 100.0 < bound as real {
      assert x * 100.0 * minStock as real < bound as real * minStock as real;
    } else {
      assert x * 100.0 * minStock as real >= bound as real * minStock as real;
    }
  }

  /** `getStockStatus`: the stock as a percentage of the minimum, below 50
      critical, below 100 low, otherwise normal. */
  function GetStockStatus(stock: int, minStock: int): (r: Badge)
    requires minStock > 0
    ensures r == Critical || r == Low || r == Normal
    ensures r == Critical <==> 2 * stock < minStock
    ensures r == Low <==> minStock <= 2 * stock && stock < minStock
    ensures r == Normal <==> minStock <= stock
  {
    PercentageBelow(stock, minStock, 50);
    PercentageBelow(stock, minStock, 100);
    var percentage := (stock as real / minStock as real) * 100.0;
    if percentage < 50.0 then Critical
    else if percentage < 100.0 then Low
    else Normal
  }

  /** How alarming a badge is: 2 critical, 1 low, 0 normal. */
  function Urgency(b: Badge): nat
  {
    if b == Critical then 2 else if b == Low then 1 else 0
  }

  /** More stock against the same minimum never makes the badge more alarming. */
  lemma StatusMonotone(stock: int, more: int, minStock: int)
    requires minStock > 0 && stock <= more
    ensures Urgency(GetStockStatus(more, minStock)) <= Urgency(GetStockStatus(stock, minStock))
  {
  }

  /** The badge is anything but normal exactly when the stock is under its
      minimum: the same low-stock test the dashboard counts. */
  lemma StatusFlagsLowStock(stock: int, minStock: int)
    requires minStock > 0
    ensures GetStockStatus(stock, minStock) != Normal <==> stock < minStock
  {
  }

  class MaterialsPage {
    var materials: seq<Material>

    /** The state the page starts from (its seed list). */
    constructor (materials: seq<Material>)
      ensures this.materials == materials
    {
      this.materials := materials;
    }

    /** `handleAddMaterial`: every field but the description must be
        non-empty text; `amount`, `stock` and `minStock` are the numbers the
        page parses from the corresponding draft fields. */
    method AddMaterial(draft: MaterialDraft, amount: real, stock: int, minStock: int) returns (added: bool)
      modifies this
      ensures added <==> draft.name != "" && draft.amount != "" && draft.stock != "" && draft.minStock != ""
      ensures added ==>
        materials == old(materials) + [Material(|old(materials)| + 1, draft.name, draft.description, amount, stock, minStock)]
      ensures !added ==> materials == old(materials)
    {
      if draft.name == "" || draft.amount == "" || draft.stock == "" || draft.minStock == "" {
        return false;
      }
      var material := Material(|materials| + 1, draft.name, draft.description, amount, stock, minStock);
      materials := materials + [material];
      added := true;
    }

    /** `handleDeleteMaterial`. */
    method DeleteMaterial(id: int)
      modifies this
      ensures materials == WithoutKey(old(materials), Id, id)
    {
      materials := WithoutKey(materials, Id, id);
    }
  }
}
