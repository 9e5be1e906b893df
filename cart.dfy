/**
  The shopping cart document. Its lines are identified by the triple
  (product, colour, size); adding a triple that is already there merges it into
  the existing line, with the quantity capped at 10 per line. The pre-save hook
  recomputes the stored totals from the lines, and merging a guest cart is
  addItem applied to each guest line in turn.
*/
module CartModel {
  import opened Common

  type UserId = nat
  type ProductId = nat
  /** The generated identifier of a line (its subdocument id). */
  type LineId = nat

  /** The largest quantity one line may hold; also the schema's bound. */
  const MaxLineQuantity: int := 10

  datatype LineItem = LineItem(
    id: LineId,
    product: ProductId,
    color: string,
    size: string,
    quantity: int,
    unitPrice: int,
    totalPrice: int,
    addedAt: int)

  /** The arguments of addItem, and the shape of one guest-cart line. */
  datatype ItemInput = ItemInput(product: ProductId, color: string, size: string, quantity: int, unitPrice: int)

  datatype Totals = Totals(subtotal: int, itemCount: int)

  function LinePrice(l: LineItem): int { l.totalPrice }

  function LineQuantity(l: LineItem): int { l.quantity }

  /** The cartTotal virtual, which is also the subtotal the pre-save hook stores. */
  function CartTotal(items: seq<LineItem>): int
  {
    Sum(items, LinePrice)
  }

  /** The totalItems virtual, which is also the itemCount the pre-save hook stores. */
  function TotalItems(items: seq<LineItem>): int
  {
    Sum(items, LineQuantity)
  }

  predicate HasKey(l: LineItem, product: ProductId, color: string, size: string)
  {
    l.product == product && l.color == color && l.size == size
  }

  /** The findIndex addItem runs: the first line with the triple, or -1. */
  function FindLine(items: seq<LineItem>, product: ProductId, color: string, size: string): int
  {
    FindIndex(items, (l: LineItem) => HasKey(l, product, color, size))
  }

  /** The subdocument lookup `items.id(itemId)`, as an index, or -1. */
  function FindLineById(items: seq<LineItem>, id: LineId): int
  {
    FindIndex(items, (l: LineItem) => l.id == id)
  }

  function LineIds(items: seq<LineItem>): set<LineId>
  {
    set l | l in items :: l.id
  }

  predicate UniqueIds(items: seq<LineItem>)
  {
    forall i, j :: 0 <= i < j < |items| ==> items[i].id != items[j].id
  }

  /** No two lines share a (product, colour, size) triple. */
  predicate UniqueKeys(items: seq<LineItem>)
  {
    forall i, j :: 0 <= i < j < |items| ==> !HasKey(items[j], items[i].product, items[i].color, items[i].size)
  }

  /** The schema's bounds on a line's quantity. */
  predicate QuantitiesInRange(items: seq<LineItem>)
  {
    forall i :: 0 <= i < |items| ==> 1 <= items[i].quantity <= MaxLineQuantity
  }

  /** Identifiers that are distinct from each other and from every line's. */
  predicate FreshIds(items: seq<LineItem>, ids: seq<LineId>)
  {
    && (forall j :: 0 <= j < |ids| ==> ids[j] !in LineIds(items))
    && (forall i, j :: 0 <= i < j < |ids| ==> ids[i] != ids[j])
  }

  /** The line addItem pushes for a triple the cart does not hold yet. */
  function NewLine(input: ItemInput, id: LineId, now: int): LineItem
  {
    var q := Min(input.quantity, MaxLineQuantity);
    LineItem(id, input.product, input.color, input.size, q, input.unitPrice, q * input.unitPrice, now)
  }

  /** The lines after addItem, before its save. */
  function AddItemLines(items: seq<LineItem>, input: ItemInput, newId: LineId, now: int): seq<LineItem>
  {
    var k := FindLine(items, input.product, input.color, input.size);
    if k >= 0 then
      var q := Min(items[k].quantity + input.quantity, MaxLineQuantity);
      items[k := items[k].(quantity := q, totalPrice := q * input.unitPrice)]
    else
      items + [NewLine(input, newId, now)]
  }

  /** The lines after updateItemQuantity has found the line at index k, before its save. */
  function UpdateQuantityLines(items: seq<LineItem>, k: nat, quantity: int): seq<LineItem>
    requires k < |items|
  {
    if quantity <= 0 then items[..k] + items[k + 1..]
    else
      var q := Min(quantity, MaxLineQuantity);
      items[k := items[k].(quantity := q, totalPrice := q * items[k].unitPrice)]
  }

  /** addItem applied to each guest line in order; ids[i] is the id a pushed line i would get. */
  function MergeLines(items: seq<LineItem>, guests: seq<ItemInput>, ids: seq<LineId>, now: int): seq<LineItem>
    requires |ids| == |guests|
    decreases |guests|
  {
    if guests == [] then items
    else
      var n := |guests| - 1;
      AddItemLines(MergeLines(items, guests[..n], ids[..n], now), guests[n], ids[n], now)
  }

  // ---------------------------------------------------------------------------
  // What addItem, updateItemQuantity and removeItem do to the lines
  // ---------------------------------------------------------------------------

  /**
    Adding a triple the cart holds keeps the number of lines; that line's
    quantity becomes the capped sum and its total is priced at the argument's
    unit price, while the stored unit price and every other line stay as they were.
  */
  lemma AddItemMergesExisting(items: seq<LineItem>, input: ItemInput, newId: LineId, now: int)
    requires exists i :: 0 <= i < |items| && HasKey(items[i], input.product, input.color, input.size)
    ensures var r := AddItemLines(items, input, newId, now);
      var k := FindLine(items, input.product, input.color, input.size);
      && 0 <= k < |items| == |r|
      && HasKey(items[k], input.product, input.color, input.size)
      && r[k].quantity == Min(items[k].quantity + input.quantity, MaxLineQuantity)
      && r[k].totalPrice == r[k].quantity * input.unitPrice
      && r[k].unitPrice == items[k].unitPrice
      && r[k].id == items[k].id && r[k].addedAt == items[k].addedAt
      && HasKey(r[k], input.product, input.color, input.size)
      && (forall j :: 0 <= j < |r| && j != k ==> r[j] == items[j])
  {
  }

  /** Adding a triple the cart does not hold appends exactly one capped line. */
  lemma AddItemAppendsNew(items: seq<LineItem>, input: ItemInput, newId: LineId, now: int)
    requires NoLineHasKey(items, input.product, input.color, input.size)
    ensures var r := AddItemLines(items, input, newId, now);
      && |r| == |items| + 1
      && r[..|items|] == items
      && r[|items|].quantity == Min(input.quantity, MaxLineQuantity)
      && r[|items|].totalPrice == r[|items|].quantity * input.unitPrice
      && r[|items|].unitPrice == input.unitPrice
      && r[|items|].id == newId
      && HasKey(r[|items|], input.product, input.color, input.size)
  {
  }

  /** addItem keeps the triples unique and, for a quantity of at least 1, the quantities within 1..10. */
  lemma AddItemKeepsInvariants(items: seq<LineItem>, input: ItemInput, newId: LineId, now: int)
    ensures var r := AddItemLines(items, input, newId, now);
      && (UniqueKeys(items) ==> UniqueKeys(r))
      && (QuantitiesInRange(items) && input.quantity >= 1 ==> QuantitiesInRange(r))
      && (UniqueIds(items) && newId !in LineIds(items) ==> UniqueIds(r))
      && LineIds(r) <= LineIds(items) + {newId}
  {
    var k := FindLine(items, input.product, input.color, input.size);
    if k >= 0 {
      var q := Min(items[k].quantity + input.quantity, MaxLineQuantity);
      MergeLineKeepsInvariants(items, k, q, q * input.unitPrice);
    } else {
      AppendLineKeepsInvariants(items, NewLine(input, newId, now));
    }
  }

  /** Changing the quantity and total of a line changes no id and no triple. */
  lemma MergeLineKeepsInvariants(items: seq<LineItem>, k: nat, q: int, total: int)
    requires k < |items|
    ensures var r := items[k := items[k].(quantity := q, totalPrice := total)];
      && (UniqueKeys(items) ==> UniqueKeys(r))
      && (QuantitiesInRange(items) && 1 <= q <= MaxLineQuantity ==> QuantitiesInRange(r))
      && (UniqueIds(items) ==> UniqueIds(r))
      && LineIds(r) <= LineIds(items)
  {
    var r := items[k := items[k].(quantity := q, totalPrice := total)];
    forall l | l in r ensures l.id in LineIds(items) {
      var j :| 0 <= j < |r| && r[j] == l;
      assert r[j].id == items[j].id;
    }
  }

  predicate NoLineHasKey(items: seq<LineItem>, product: ProductId, color: string, size: string)
  {
    forall i :: 0 <= i < |items| ==> !HasKey(items[i], product, color, size)
  }

  /** Appending a line whose triple and id are new keeps triples and ids unique. */
  lemma AppendLineKeepsInvariants(items: seq<LineItem>, line: LineItem)
    ensures var r := items + [line];
      && (UniqueKeys(items) && NoLineHasKey(items, line.product, line.color, line.size) ==> UniqueKeys(r))
      && (QuantitiesInRange(items) && 1 <= line.quantity <= MaxLineQuantity ==> QuantitiesInRange(r))
      && (UniqueIds(items) && line.id !in LineIds(items) ==> UniqueIds(r))
      && LineIds(r) <= LineIds(items) + {line.id}
  {
    var r := items + [line];
    forall l | l in r ensures l.id in LineIds(items) + {line.id} {
      var j :| 0 <= j < |r| && r[j] == l;
      if j < |items| { assert items[j] == l; }
    }
    if UniqueIds(items) && line.id !in LineIds(items) {
      forall i | 0 <= i < |items| ensures items[i].id != line.id {
        assert items[i] in items;
      }
    }
  }

  /** After addItem the cart holds a line with the argument's triple. */
  lemma AddItemFindsInput(items: seq<LineItem>, input: ItemInput, newId: LineId, now: int)
    ensures FindLine(AddItemLines(items, input, newId, now), input.product, input.color, input.size) >= 0
  {
    var r := AddItemLines(items, input, newId, now);
    var k := FindLine(items, input.product, input.color, input.size);
    if k >= 0 {
      assert HasKey(r[k], input.product, input.color, input.size);
    } else {
      assert HasKey(r[|items|], input.product, input.color, input.size);
    }
  }

  /**
    The item count moves by the quantity the line actually gained: the difference
    of the capped quantities for a merge, the capped quantity for a new line.
    For a positive request it never grows by more than was asked.
  */
  lemma AddItemItemCount(items: seq<LineItem>, input: ItemInput, newId: LineId, now: int)
    ensures var r := AddItemLines(items, input, newId, now);
      var k := FindLine(items, input.product, input.color, input.size);
      && (k >= 0 ==> TotalItems(r) == TotalItems(items) - items[k].quantity + r[k].quantity)
      && (k < 0 ==> TotalItems(r) == TotalItems(items) + Min(input.quantity, MaxLineQuantity))
      && (input.quantity >= 0 ==> TotalItems(r) <= TotalItems(items) + input.quantity)
  {
    var r := AddItemLines(items, input, newId, now);
    var k := FindLine(items, input.product, input.color, input.size);
    if k >= 0 {
      SumUpdate(items, k, r[k], LineQuantity);
    } else {
      SumConcat(items, [NewLine(input, newId, now)], LineQuantity);
      SumSingleton(NewLine(input, newId, now), LineQuantity);
    }
  }

  /**
    With a positive quantity, updateItemQuantity sets the line's quantity within
    1..10 and prices it at its own stored unit price; with zero or less it removes
    that line and only that line. Either way the other lines keep their order.
  */
  lemma UpdateQuantityEffect(items: seq<LineItem>, k: nat, quantity: int)
    requires k < |items|
    ensures var r := UpdateQuantityLines(items, k, quantity);
      && (quantity <= 0 ==>
            |r| == |items| - 1 && r[..k] == items[..k] && r[k..] == items[k + 1..]
            && TotalItems(r) == TotalItems(items) - items[k].quantity
            && CartTotal(r) == CartTotal(items) - items[k].totalPrice)
      && (quantity > 0 ==>
            |r| == |items| && 1 <= r[k].quantity <= MaxLineQuantity
            && r[k].quantity == Min(quantity, MaxLineQuantity)
            && r[k].totalPrice == r[k].quantity * r[k].unitPrice
            && r[k].unitPrice == items[k].unitPrice && r[k].id == items[k].id
            && HasKey(r[k], items[k].product, items[k].color, items[k].size)
            && r[k].addedAt == items[k].addedAt
            && (forall j :: 0 <= j < |r| && j != k ==> r[j] == items[j])
            && TotalItems(r) == TotalItems(items) - items[k].quantity + r[k].quantity
            && CartTotal(r) == CartTotal(items) - items[k].totalPrice + r[k].totalPrice)
  {
    if quantity > 0 {
      var r := UpdateQuantityLines(items, k, quantity);
      SumUpdate(items, k, r[k], LineQuantity);
      SumUpdate(items, k, r[k], LinePrice);
    }
    if quantity <= 0 {
      var r := UpdateQuantityLines(items, k, quantity);
      assert r[..k] == items[..k];
      assert r[k..] == items[k + 1..];
      SumRemove(items, k, LineQuantity);
      SumRemove(items, k, LinePrice);
    }
  }

  /** updateItemQuantity keeps the ids and triples unique and the quantities in range. */
  lemma UpdateQuantityKeepsInvariants(items: seq<LineItem>, k: nat, quantity: int)
    requires k < |items|
    ensures var r := UpdateQuantityLines(items, k, quantity);
      && (UniqueIds(items) ==> UniqueIds(r))
      && (UniqueKeys(items) ==> UniqueKeys(r))
      && (QuantitiesInRange(items) ==> QuantitiesInRange(r))
      && LineIds(r) <= LineIds(items)
  {
    if quantity <= 0 {
      RemoveLineKeepsInvariants(items, k);
    } else {
      SetQuantityKeepsInvariants(items, k, Min(quantity, MaxLineQuantity));
    }
  }

  /** Dropping one line keeps every property that holds of all pairs or all lines. */
  lemma RemoveLineKeepsInvariants(items: seq<LineItem>, k: nat)
    requires k < |items|
    ensures var r := items[..k] + items[k + 1..];
      && (UniqueIds(items) ==> UniqueIds(r))
      && (UniqueKeys(items) ==> UniqueKeys(r))
      && (QuantitiesInRange(items) ==> QuantitiesInRange(r))
      && LineIds(r) <= LineIds(items)
  {
    var r := items[..k] + items[k + 1..];
    forall j | 0 <= j < |r| ensures r[j] == items[if j < k then j else j + 1] {
    }
    forall l | l in r ensures l.id in LineIds(items) {
      var j :| 0 <= j < |r| && r[j] == l;
      assert l == items[if j < k then j else j + 1];
    }
  }

  /** Setting one line's quantity (and its total) within 1..10 changes no id and no triple. */
  lemma SetQuantityKeepsInvariants(items: seq<LineItem>, k: nat, q: int)
    requires k < |items| && 1 <= q <= MaxLineQuantity
    ensures var r := items[k := items[k].(quantity := q, totalPrice := q * items[k].unitPrice)];
      && (UniqueIds(items) ==> UniqueIds(r))
      && (UniqueKeys(items) ==> UniqueKeys(r))
      && (QuantitiesInRange(items) ==> QuantitiesInRange(r))
      && LineIds(r) <= LineIds(items)
  {
    var r := items[k := items[k].(quantity := q, totalPrice := q * items[k].unitPrice)];
    forall l | l in r ensures l.id in LineIds(items) {
      var j :| 0 <= j < |r| && r[j] == l;
      assert l.id == items[j].id;
    }
  }

  /** With unique ids, removing the line found by id leaves no line with that id. */
  lemma RemoveByIdRemovesIt(items: seq<LineItem>, id: LineId)
    requires UniqueIds(items)
    requires FindLineById(items, id) >= 0
    ensures var k := FindLineById(items, id);
      var r := items[..k] + items[k + 1..];
      && id !in LineIds(r)
      && LineIds(r) == LineIds(items) - {id}
  {
    var k := FindLineById(items, id);
    var r := items[..k] + items[k + 1..];
    assert forall j :: 0 <= j < |r| ==> r[j] == items[if j < k then j else j + 1];
    forall l | l in r ensures l.id in LineIds(items) - {id} {
      var j :| 0 <= j < |r| && r[j] == l;
      assert l == items[if j < k then j else j + 1];
    }
    forall x | x in LineIds(items) - {id} ensures x in LineIds(r) {
      var l :| l in items && l.id == x;
      var j :| 0 <= j < |items| && items[j] == l;
      assert j != k;
      assert l == r[if j < k then j else j - 1];
    }
  }

  /** Merging a guest cart keeps the triples unique and, for positive guest quantities, the quantities in range. */
  lemma {:induction false} MergeKeepsInvariants(items: seq<LineItem>, guests: seq<ItemInput>, ids: seq<LineId>, now: int)
    requires |ids| == |guests|
    ensures var r := MergeLines(items, guests, ids, now);
      && (UniqueKeys(items) ==> UniqueKeys(r))
      && (QuantitiesInRange(items) && (forall i :: 0 <= i < |guests| ==> guests[i].quantity >= 1) ==> QuantitiesInRange(r))
    decreases |guests|
  {
    if guests != [] {
      var n := |guests| - 1;
      var mid := MergeLines(items, guests[..n], ids[..n], now);
      MergeKeepsInvariants(items, guests[..n], ids[..n], now);
      AddItemKeepsInvariants(mid, guests[n], ids[n], now);
      if QuantitiesInRange(items) && (forall i :: 0 <= i < |guests| ==> guests[i].quantity >= 1) {
        assert forall i :: 0 <= i < n ==> guests[..n][i].quantity >= 1;
      }
    }
  }

  /** After a merge the cart holds a line for every guest line's triple. */
  lemma {:induction false} MergeHoldsEveryGuest(items: seq<LineItem>, guests: seq<ItemInput>, ids: seq<LineId>, now: int)
    requires |ids| == |guests|
    ensures forall i :: 0 <= i < |guests| ==>
      FindLine(MergeLines(items, guests, ids, now), guests[i].product, guests[i].color, guests[i].size) >= 0
    decreases |guests|
  {
    if guests != [] {
      var n := |guests| - 1;
      var mid := MergeLines(items, guests[..n], ids[..n], now);
      var r := AddItemLines(mid, guests[n], ids[n], now);
      assert r == MergeLines(items, guests, ids, now);
      MergeHoldsEveryGuest(items, guests[..n], ids[..n], now);
      AddItemFindsInput(mid, guests[n], ids[n], now);
      forall i | 0 <= i < |guests|
        ensures FindLine(r, guests[i].product, guests[i].color, guests[i].size) >= 0
      {
        if i < n {
          assert guests[..n][i] == guests[i];
          AddItemKeepsKey(mid, guests[n], ids[n], now, guests[i]);
        }
      }
    }
  }

  /** addItem never loses a triple the cart held. */
  lemma AddItemKeepsKey(items: seq<LineItem>, input: ItemInput, newId: LineId, now: int, key: ItemInput)
    requires FindLine(items, key.product, key.color, key.size) >= 0
    ensures FindLine(AddItemLines(items, input, newId, now), key.product, key.color, key.size) >= 0
  {
    var r := AddItemLines(items, input, newId, now);
    var j := FindLine(items, key.product, key.color, key.size);
    assert HasKey(r[j], key.product, key.color, key.size);
  }

  /** One more guest line is one more addItem on the lines merged so far. */
  lemma MergeLinesStep(items: seq<LineItem>, guests: seq<ItemInput>, ids: seq<LineId>, i: nat, now: int)
    requires |ids| == |guests| && i < |guests|
    ensures MergeLines(items, guests[..i + 1], ids[..i + 1], now)
         == AddItemLines(MergeLines(items, guests[..i], ids[..i], now), guests[i], ids[i], now)
  {
    assert guests[..i + 1][..i] == guests[..i];
    assert ids[..i + 1][..i] == ids[..i];
  }

  /** Ids still unused before step i stay unused after it, except the one step i consumed. */
  lemma FreshIdsStep(before: seq<LineItem>, after: seq<LineItem>, ids: seq<LineId>, i: nat)
    requires i < |ids|
    requires forall j :: i <= j < |ids| ==> ids[j] !in LineIds(before)
    requires forall a, b :: 0 <= a < b < |ids| ==> ids[a] != ids[b]
    requires LineIds(after) <= LineIds(before) + {ids[i]}
    ensures forall j :: i + 1 <= j < |ids| ==> ids[j] !in LineIds(after)
  {
  }

  /** The cart document. Every method ends with the save that runs the pre-save hook. */
  class Cart {
    var user: UserId
    var items: seq<LineItem>
    var totals: Totals
    var lastUpdated: int

    /** Ids and triples are unique, and the stored totals are those of the lines. */
    ghost predicate Valid()
      reads this
    {
      && UniqueIds(items)
      && UniqueKeys(items)
      && totals == Totals(CartTotal(items), TotalItems(items))
    }

    /** A new, empty cart for the user, as stored by its first save. */
    constructor (user: UserId, now: int)
      ensures Valid()
      ensures this.user == user && items == [] && totals == Totals(0, 0) && lastUpdated == now
    {
      this.user := user;
      items := [];
      totals := Totals(0, 0);
      lastUpdated := now;
    }

    /** The pre-save hook: recompute subtotal and itemCount from the lines and stamp the time. */
    method Save(now: int)
      modifies this`totals, this`lastUpdated
      ensures totals.subtotal == CartTotal(items) && totals.itemCount == TotalItems(items)
      ensures lastUpdated == now
    {
      totals := Totals(CartTotal(items), TotalItems(items));
      lastUpdated := now;
    }

    method AddItem(product: ProductId, color: string, size: string, quantity: int, unitPrice: int,
                   newId: LineId, now: int)
      requires Valid() && newId !in LineIds(items)
      modifies this`items, this`totals, this`lastUpdated
      ensures Valid() && lastUpdated == now
      ensures items == AddItemLines(old(items), ItemInput(product, color, size, quantity, unitPrice), newId, now)
      ensures LineIds(items) <= old(LineIds(items)) + {newId}
    {
      ghost var before := items;
      var k := FindLine(items, product, color, size);
      if k > -1 {
        var existing := items[k];
        var q := Min(existing.quantity + quantity, MaxLineQuantity);
        items := items[k := existing.(quantity := q, totalPrice := q * unitPrice)];
      } else {
        var q := Min(quantity, MaxLineQuantity);
        items := items + [LineItem(newId, product, color, size, q, unitPrice, q * unitPrice, now)];
      }
      AddItemKeepsInvariants(before, ItemInput(product, color, size, quantity, unitPrice), newId, now);
      Save(now);
    }

    method UpdateItemQuantity(itemId: LineId, quantity: int, now: int) returns (r: Outcome)
      requires Valid()
      modifies this`items, this`totals, this`lastUpdated
      ensures Valid()
      ensures var k := FindLineById(old(items), itemId);
        && (k < 0 ==> r == Fail(ItemNotFound) && items == old(items) && lastUpdated == old(lastUpdated))
        && (k >= 0 ==> r == Pass && items == UpdateQuantityLines(old(items), k, quantity) && lastUpdated == now)
    {
      var k := FindLineById(items, itemId);
      if k < 0 {
        return Fail(ItemNotFound);
      }
      UpdateQuantityKeepsInvariants(items, k, quantity);
      if quantity <= 0 {
        items := items[..k] + items[k + 1..];
      } else {
        var q := Min(quantity, MaxLineQuantity);
        items := items[k := items[k].(quantity := q, totalPrice := q * items[k].unitPrice)];
      }
      Save(now);
      r := Pass;
    }

    method RemoveItem(itemId: LineId, now: int) returns (r: Outcome)
      requires Valid()
      modifies this`items, this`totals, this`lastUpdated
      ensures Valid()
      ensures var k := FindLineById(old(items), itemId);
        && (k < 0 ==> r == Fail(ItemNotFound) && items == old(items) && lastUpdated == old(lastUpdated))
        && (k >= 0 ==> r == Pass && items == old(items)[..k] + old(items)[k + 1..] && lastUpdated == now
                       && LineIds(items) == old(LineIds(items)) - {itemId})
    {
      var k := FindLineById(items, itemId);
      if k < 0 {
        return Fail(ItemNotFound);
      }
      UpdateQuantityKeepsInvariants(items, k, 0);
      RemoveByIdRemovesIt(items, itemId);
      items := items[..k] + items[k + 1..];
      Save(now);
      r := Pass;
    }

    method ClearCart(now: int)
      requires Valid()
      modifies this`items, this`totals, this`lastUpdated
      ensures Valid()
      ensures items == [] && totals == Totals(0, 0) && lastUpdated == now
    {
      items := [];
      Save(now);
    }

    /**
      The merge loop of mergeGuestCart, run on the user's cart (fetching or
      creating that cart is a database call). ids[i] is the id the line pushed
      for guest line i would receive.
    */
    method MergeGuestCart(guests: seq<ItemInput>, ids: seq<LineId>, now: int)
      requires Valid() && |ids| == |guests| && FreshIds(items, ids)
      modifies this`items, this`totals, this`lastUpdated
      ensures Valid()
      ensures items == MergeLines(old(items), guests, ids, now)
      ensures lastUpdated == if guests == [] then old(lastUpdated) else now
    {
      var i := 0;
      while i < |guests|
        invariant 0 <= i <= |guests|
        invariant Valid()
        invariant items == MergeLines(old(items), guests[..i], ids[..i], now)
        invariant forall j :: i <= j < |ids| ==> ids[j] !in LineIds(items)
        invariant forall a, b :: 0 <= a < b < |ids| ==> ids[a] != ids[b]
        invariant lastUpdated == if i == 0 then old(lastUpdated) else now
      {
        ghost var before := items;
        var g := guests[i];
        AddItem(g.product, g.color, g.size, g.quantity, g.unitPrice, ids[i], now);
        MergeLinesStep(old(items), guests, ids, i, now);
        FreshIdsStep(before, items, ids, i);
        i := i + 1;
      }
      assert guests[..i] == guests;
      assert ids[..i] == ids;
    }
  }
}
