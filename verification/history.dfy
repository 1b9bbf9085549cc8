/** The transaction history page: a fixed list searched by material name
    and filtered by kind, the per-kind totals, and the kind badges. */
module History {
  import opened ArrayOps

  datatype Kind = Incoming | Outgoing

  datatype Transaction = Transaction(
    id: int,
    materialId: int,
    materialName: string,
    kind: Kind,
    quantity: int,
    timestamp: int)

  /** The kind selector: every kind, or one of them. */
  datatype TypeFilter = AllTypes | OnlyKind(kind: Kind)

  // ---------------------------------------------------------------------
  // Text search

  /** Lower case for the Latin and Cyrillic capitals; every other
      character is left alone. */
  function LowerChar(c: char): char
  {
    if 'A' <= c <= 'Z' then (c as int + 32) as char
    else if 'А' <= c <= 'Я' then (c as int + 32) as char
    else if 'Ѐ' <= c <= 'Џ' then (c as int + 80) as char
    else c
  }

  /** `toLowerCase`, character by character. */
  function Lower(s: string): (r: string)
    ensures |r| == |s|
  {
    seq(|s|, i requires 0 <= i < |s| => LowerChar(s[i]))
  }

  /** The needle sits in the hay starting at position `i`. */
  ghost predicate OccursAt(hay: string, needle: string, i: int)
  {
    0 <= i && i + |needle| <= |hay| && hay[i..i + |needle|] == needle
  }

  /** Past the first position, an occurrence in the hay is an occurrence in
      its tail, one position earlier. */
  lemma OccursInTail(hay: string, needle: string)
    requires hay != []
    ensures forall i :: i != 0 ==> (OccursAt(hay, needle, i) <==> OccursAt(hay[1..], needle, i - 1))
  {
    forall i | i != 0 && OccursAt(hay, needle, i) ensures OccursAt(hay[1..], needle, i - 1) {
      assert hay[1..][i - 1..i - 1 + |needle|] == hay[i..i + |needle|];
    }
    forall i | i != 0 && OccursAt(hay[1..], needle, i - 1) ensures OccursAt(hay, needle, i) {
      assert hay[1..][i - 1..i - 1 + |needle|] == hay[i..i + |needle|];
    }
  }

  /** `hay.includes(needle)`, searched as a prefix of some suffix: it holds
      exactly when the needle occurs at some position. */
  function Contains(hay: string, needle: string): (r: bool)
    ensures r <==> exists i :: OccursAt(hay, needle, i)
    decreases |hay|
  {
    if needle <= hay then
      assert OccursAt(hay, needle, 0);
      true
    else if hay == [] then
      assert forall i :: !OccursAt(hay, needle, i);
      false
    else
      OccursInTail(hay, needle);
      assert !OccursAt(hay, needle, 0);
      var found := Contains(hay[1..], needle);
      assert found ==> exists i :: OccursAt(hay[1..], needle, i) && OccursAt(hay, needle, i + 1);
      found
  }

  /** The empty query occurs in every name. */
  lemma ContainsEmpty(hay: string)
    ensures Contains(hay, "")
  {
  }

  /** The test the page applies to each transaction. */
  predicate Matches(t: Transaction, query: string, filter: TypeFilter)
  {
    Contains(Lower(t.materialName), Lower(query)) && (filter == AllTypes || filter == OnlyKind(t.kind))
  }

  /** `filteredTransactions`: an order-preserving selection of the list,
      keeping exactly the transactions whose lower-cased name contains the
      lower-cased query and whose kind the selector admits. */
  function FilteredTransactions(ts: seq<Transaction>, query: string, filter: TypeFilter): (r: seq<Transaction>)
    ensures IsSubsequence(r, ts)
    ensures forall t :: t in r <==>
              t in ts && Contains(Lower(t.materialName), Lower(query)) &&
              (filter.AllTypes? || filter.kind == t.kind)
    ensures forall t :: multiset(r)[t] == if Matches(t, query, filter) then multiset(ts)[t] else 0
  {
    var keep := (t: Transaction) => Matches(t, query, filter);
    FilterExact(ts, keep);
    Filter(ts, keep)
  }

  /** An empty search with every kind admitted shows the whole list. */
  lemma EmptySearchShowsAll(ts: seq<Transaction>)
    ensures FilteredTransactions(ts, "", AllTypes) == ts
  {
    assert Lower("") == "";
    forall i | 0 <= i < |ts| ensures Matches(ts[i], "", AllTypes) {
      ContainsEmpty(Lower(ts[i].materialName));
    }
  }

  predicate IsIncoming(t: Transaction)
  {
    t.kind == Incoming
  }

  predicate IsOutgoing(t: Transaction)
  {
    t.kind == Outgoing
  }

  /** Choosing one kind in the selector is the same as taking the rows of
      that kind out of the all-kinds result, in the same order. */
  lemma {:induction false} KindSelectsFromAll(ts: seq<Transaction>, query: string)
    ensures FilteredTransactions(ts, query, OnlyKind(Incoming)) == Filter(FilteredTransactions(ts, query, AllTypes), IsIncoming)
    ensures FilteredTransactions(ts, query, OnlyKind(Outgoing)) == Filter(FilteredTransactions(ts, query, AllTypes), IsOutgoing)
  {
    if ts != [] {
      KindSelectsFromAll(ts[1..], query);
      var all := FilteredTransactions(ts, query, AllTypes);
      var rest := FilteredTransactions(ts[1..], query, AllTypes);
      if Matches(ts[0], query, AllTypes) {
        assert all == [ts[0]] + rest;
        assert all[1..] == rest;
      } else {
        assert all == rest;
      }
    }
  }

  /** For one query, the incoming and outgoing results share nothing and
      together hold exactly the rows of the all-kinds result. */
  lemma KindResultsPartitionAll(ts: seq<Transaction>, query: string)
    ensures
      var all := FilteredTransactions(ts, query, AllTypes);
      var incoming := FilteredTransactions(ts, query, OnlyKind(Incoming));
      var outgoing := FilteredTransactions(ts, query, OnlyKind(Outgoing));
      && |incoming| + |outgoing| == |all|
      && multiset(incoming) + multiset(outgoing) == multiset(all)
      && (forall t :: !(t in incoming && t in outgoing))
  {
    KindSelectsFromAll(ts, query);
    FilterPartition(FilteredTransactions(ts, query, AllTypes), IsIncoming, IsOutgoing);
  }

  // ---------------------------------------------------------------------
  // Totals

  /** The `reduce` that adds up quantities; a sum of non-negative
      quantities is non-negative. */
  function SumQuantities(ts: seq<Transaction>): (r: int)
    ensures (forall i :: 0 <= i < |ts| ==> ts[i].quantity >= 0) ==> r >= 0
  {
    if ts == [] then 0 else ts[0].quantity + SumQuantities(ts[1..])
  }

  /** `totalIncoming`: nothing when there is no receipt, never negative
      when no quantity is. */
  function TotalIncoming(ts: seq<Transaction>): (r: int)
    ensures (forall i :: 0 <= i < |ts| ==> ts[i].kind != Incoming) ==> r == 0
    ensures (forall i :: 0 <= i < |ts| ==> ts[i].quantity >= 0) ==> r >= 0
  {
    SumQuantities(Filter(ts, IsIncoming))
  }

  /** `totalOutgoing`: nothing when there is no write-off, never negative
      when no quantity is. */
  function TotalOutgoing(ts: seq<Transaction>): (r: int)
    ensures (forall i :: 0 <= i < |ts| ==> ts[i].kind != Outgoing) ==> r == 0
    ensures (forall i :: 0 <= i < |ts| ==> ts[i].quantity >= 0) ==> r >= 0
  {
    SumQuantities(Filter(ts, IsOutgoing))
  }

  /** The two totals add up to the quantity of every transaction. */
  lemma {:induction false} TotalsAddUp(ts: seq<Transaction>)
    ensures TotalIncoming(ts) + TotalOutgoing(ts) == SumQuantities(ts)
  {
    if ts != [] {
      TotalsAddUp(ts[1..]);
      var inc := Filter(ts[1..], IsIncoming);
      var out := Filter(ts[1..], IsOutgoing);
      if IsIncoming(ts[0]) {
        assert Filter(ts, IsIncoming) == [ts[0]] + inc;
        assert ([ts[0]] + inc)[1..] == inc;
        assert Filter(ts, IsOutgoing) == out;
      } else {
        assert Filter(ts, IsOutgoing) == [ts[0]] + out;
        assert ([ts[0]] + out)[1..] == out;
        assert Filter(ts, IsIncoming) == inc;
      }
    }
  }

  // ---------------------------------------------------------------------
  // Badges

  /** `getTypeLabel`: each label belongs to exactly one kind. */
  function TypeLabel(k: Kind): (r: string)
    ensures r == "Поступление" <==> k == Incoming
    ensures r == "Списание" <==> k == Outgoing
  {
    match k
    case Incoming => "Поступление"
    case Outgoing => "Списание"
  }

  /** `getTypeIcon`: each icon belongs to exactly one kind. */
  function TypeIcon(k: Kind): (r: string)
    ensures r == "ArrowDownCircle" <==> k == Incoming
    ensures r == "ArrowUpCircle" <==> k == Outgoing
  {
    match k
    case Incoming => "ArrowDownCircle"
    case Outgoing => "ArrowUpCircle"
  }

  /** `getTypeColor`: each colour belongs to exactly one kind. */
  function TypeColor(k: Kind): (r: string)
    ensures r == "text-green-600 bg-green-50" <==> k == Incoming
    ensures r == "text-red-600 bg-red-50" <==> k == Outgoing
  {
    match k
    case Incoming => "text-green-600 bg-green-50"
    case Outgoing => "text-red-600 bg-red-50"
  }

  /** The two kinds get different labels, icons and colours. */
  lemma TypeBadgesDistinct()
    ensures TypeLabel(Incoming) != TypeLabel(Outgoing)
    ensures TypeIcon(Incoming) != TypeIcon(Outgoing)
    ensures TypeColor(Incoming) != TypeColor(Outgoing)
  {
    assert TypeIcon(Incoming)[5] == 'D';
    assert TypeColor(Incoming)[5] == 'g';
  }
}
