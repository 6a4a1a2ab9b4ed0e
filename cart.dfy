/** The cart state machine of src/contexts/CartContext.js: line items keyed
    by `id`, the reducer `cartReducer`, the guest/server merge `mergeCarts`
    and the guest-cart reader `loadGuestCartFromStorage`. */
module Cart {

  import opened Wrappers
  import opened Seqs
  import opened Catalog

  /** A line item: the product's fields spread out, plus `quantity`.
      Its key is the product's `id`. */
  datatype Item = Item(product: Product, quantity: int) {
    const id: string := product.id
  }

  /** `{ items, isLoading, error }`. */
  datatype CartState = CartState(items: seq<Item>, isLoading: bool, error: Option<string>)

  /** `initialState`: no items, loading, no error. */
  const InitialState: CartState := CartState([], true, None)

  /** The reducer's actions; `Unhandled` is any other `type`. */
  datatype Action =
    | OperationStart
    | OperationSuccess
    | OperationFailure(error: string)
    | SetCartItems(items: seq<Item>)
    | AddItem(product: Product, quantity: int)
    | UpdateQuantity(productId: string, quantity: int)
    | RemoveItem(productId: string)
    | ClearCart
    | Unhandled(actionType: string)
  {
    /** The three status actions, which only touch `isLoading` and `error`. */
    predicate IsStatus() {
      OperationStart? || OperationSuccess? || OperationFailure?
    }
  }

  // ---------------------------------------------------------------------
  // Keys, uniqueness, quantities
  // ---------------------------------------------------------------------

  /** The ids of the items, in order. */
  function Ids(items: seq<Item>): (ids: seq<string>)
    ensures |ids| == |items|
    ensures forall k :: 0 <= k < |items| ==> ids[k] == items[k].id
  {
    if items == [] then [] else Ids(items[..|items| - 1]) + [items[|items| - 1].id]
  }

  /** No two line items share an id. */
  predicate Unique(items: seq<Item>)
  {
    forall i, j :: 0 <= i < j < |items| ==> items[i].id != items[j].id
  }

  /** Every line item has a positive quantity. */
  predicate AllPositive(items: seq<Item>)
  {
    forall k :: 0 <= k < |items| ==> items[k].quantity > 0
  }

  /** The total quantity held under `id`. */
  function QtyOf(items: seq<Item>, id: string): int
  {
    if items == [] then 0
    else
      var last := items[|items| - 1];
      QtyOf(items[..|items| - 1], id) + (if last.id == id then last.quantity else 0)
  }

  lemma {:induction false} QtyOfAppend(items: seq<Item>, x: Item, id: string)
    ensures QtyOf(items + [x], id) == QtyOf(items, id) + (if x.id == id then x.quantity else 0)
  {
    assert (items + [x])[..|items|] == items;
  }

  /** Replacing one item by one with the same id shifts that id's total by
      the difference in quantity and leaves every other id's total alone. */
  lemma {:induction false} QtyOfUpdate(items: seq<Item>, k: int, x: Item, id: string)
    requires 0 <= k < |items| && x.id == items[k].id
    ensures QtyOf(items[k := x], id)
         == QtyOf(items, id) + (if x.id == id then x.quantity - items[k].quantity else 0)
  {
    var n := |items| - 1;
    if k < n {
      assert items[k := x][..n] == items[..n][k := x];
      QtyOfUpdate(items[..n], k, x, id);
    } else {
      assert items[k := x][..n] == items[..n];
    }
  }

  /** `items.findIndex(item => item.id === id)`. */
  function FindIndex(items: seq<Item>, id: string): (r: int)
    ensures -1 <= r < |items|
    ensures r == -1 <==> id !in Ids(items)
    ensures r >= 0 ==> items[r].id == id && forall k :: 0 <= k < r ==> items[k].id != id
  {
    if items == [] then -1
    else if items[0].id == id then 0
    else
      var r := FindIndex(items[1..], id);
      IdsHead(items);
      if r == -1 then -1 else r + 1
  }

  // ---------------------------------------------------------------------
  // The item-changing cases of the reducer
  // ---------------------------------------------------------------------

  /** ADD_ITEM: the first item with the product's id has its quantity
      increased in place; when there is none, `{...product, quantity}` is
      appended. */
  function AddLine(items: seq<Item>, product: Product, quantity: int): (r: seq<Item>)
    ensures |r| == |items| + (if product.id in Ids(items) then 0 else 1)
    ensures product.id !in Ids(items) ==> r == items + [Item(product, quantity)]
  {
    var k := FindIndex(items, product.id);
    if k > -1 then items[k := items[k].(quantity := items[k].quantity + quantity)]
    else items + [Item(product, quantity)]
  }

  /** ADD_ITEM touches only the first item with the product's id, whose
      quantity grows by the added amount; every item keeps its product
      fields (the stored copy, not the one passed in). */
  lemma AddLineEntries(items: seq<Item>, product: Product, quantity: int)
    ensures var r := AddLine(items, product, quantity);
      var k := FindIndex(items, product.id);
      && (forall j :: 0 <= j < |items| ==> r[j].product == items[j].product)
      && (forall j :: 0 <= j < |items| && j != k ==> r[j] == items[j])
      && (k >= 0 ==> r[k].quantity == items[k].quantity + quantity)
  {
  }

  /** ADD_ITEM keeps the list of keys, or appends the new key. */
  lemma AddLineKeys(items: seq<Item>, product: Product, quantity: int)
    ensures var r := AddLine(items, product, quantity);
      Ids(r) == if product.id in Ids(items) then Ids(items) else Ids(items) + [product.id]
  {
    var r := AddLine(items, product, quantity);
    if product.id !in Ids(items) {
      assert r[..|items|] == items;
    } else {
      assert forall j :: 0 <= j < |r| ==> Ids(r)[j] == Ids(items)[j];
    }
  }

  /** ADD_ITEM adds the quantity to its product's total and to no other. */
  lemma AddLineQty(items: seq<Item>, product: Product, quantity: int, id: string)
    ensures QtyOf(AddLine(items, product, quantity), id)
         == QtyOf(items, id) + (if id == product.id then quantity else 0)
  {
    var k := FindIndex(items, product.id);
    if k > -1 {
      QtyOfUpdate(items, k, items[k].(quantity := items[k].quantity + quantity), id);
    } else {
      QtyOfAppend(items, Item(product, quantity), id);
    }
  }

  /** ADD_ITEM never creates a second item with the same id. */
  lemma AddLineUnique(items: seq<Item>, product: Product, quantity: int)
    requires Unique(items)
    ensures Unique(AddLine(items, product, quantity))
  {
    AddLineEntries(items, product, quantity);
    if product.id !in Ids(items) {
      assert forall j :: 0 <= j < |items| ==> Ids(items)[j] == items[j].id;
    }
  }

  /** The `map` step of UPDATE_QUANTITY: every item with that id gets
      `Math.max(0, quantity)`. */
  function SetQuantity(items: seq<Item>, id: string, quantity: int): (r: seq<Item>)
    ensures |r| == |items|
    ensures forall k :: 0 <= k < |items| ==>
      r[k] == if items[k].id == id then items[k].(quantity := if quantity > 0 then quantity else 0) else items[k]
  {
    if items == [] then []
    else
      var x := items[0];
      [if x.id == id then x.(quantity := if quantity > 0 then quantity else 0) else x]
        + SetQuantity(items[1..], id, quantity)
  }

  /** UPDATE_QUANTITY: set the quantity, then keep only positive items. */
  function UpdateLines(items: seq<Item>, id: string, quantity: int): (r: seq<Item>)
    ensures forall x :: x in r ==> x.quantity > 0
  {
    FilterMembers(SetQuantity(items, id, quantity), (x: Item) => x.quantity > 0);
    Filter(SetQuantity(items, id, quantity), (x: Item) => x.quantity > 0)
  }

  /** REMOVE_ITEM: every item with that id is dropped. */
  function RemoveLines(items: seq<Item>, id: string): (r: seq<Item>)
    ensures forall x :: x in r <==> x in items && x.id != id
  {
    FilterMembers(items, (x: Item) => x.id != id);
    Filter(items, (x: Item) => x.id != id)
  }

  // ---------------------------------------------------------------------
  // The reducer
  // ---------------------------------------------------------------------

  /** `cartReducer(state, action)`; an unknown action type throws. */
  function Reduce(state: CartState, action: Action): (r: Result<CartState>)
    ensures r.Err? <==> action.Unhandled?
    ensures r.Err? ==> r.message == "Unhandled action type: " + action.actionType
    ensures r.Ok? && action.IsStatus() ==> r.value.items == state.items
    ensures r.Ok? && !action.IsStatus() && !action.SetCartItems? ==>
              r.value.isLoading == state.isLoading && r.value.error == state.error
  {
    match action
    case OperationStart => Ok(state.(isLoading := true, error := None))
    case OperationSuccess => Ok(state.(isLoading := false, error := None))
    case OperationFailure(e) => Ok(state.(isLoading := false, error := Some(e)))
    case SetCartItems(items) => Ok(state.(items := items, isLoading := false, error := None))
    case AddItem(product, quantity) => Ok(state.(items := AddLine(state.items, product, quantity)))
    case UpdateQuantity(id, quantity) => Ok(state.(items := UpdateLines(state.items, id, quantity)))
    case RemoveItem(id) => Ok(state.(items := RemoveLines(state.items, id)))
    case ClearCart => Ok(state.(items := []))
    case Unhandled(t) => Err("Unhandled action type: " + t)
  }

  lemma IdsMember(items: seq<Item>, id: string)
    ensures id in Ids(items) <==> exists x :: x in items && x.id == id
  {
    if id in Ids(items) {
      var k :| 0 <= k < |items| && Ids(items)[k] == id;
      assert items[k] in items;
    }
  }

  /** After UPDATE_QUANTITY with a quantity that is not positive, the target
      is gone; with a positive one, the target is there exactly when it
      was before and holds exactly that quantity. */
  lemma UpdateQuantityTarget(items: seq<Item>, id: string, quantity: int)
    ensures var r := UpdateLines(items, id, quantity);
      && (quantity <= 0 ==> id !in Ids(r))
      && (quantity > 0 ==> (id in Ids(r) <==> id in Ids(items)))
      && (forall x :: x in r && x.id == id ==> x.quantity == quantity)
  {
    TargetQuantity(items, id, quantity);
    if quantity > 0 {
      TargetPresence(items, id, quantity);
    } else {
      IdsMember(UpdateLines(items, id, quantity), id);
    }
  }

  lemma TargetQuantity(items: seq<Item>, id: string, quantity: int)
    ensures forall x :: x in UpdateLines(items, id, quantity) && x.id == id ==> x.quantity == quantity
  {
    var mapped := SetQuantity(items, id, quantity);
    FilterMembers(mapped, (x: Item) => x.quantity > 0);
    forall x | x in UpdateLines(items, id, quantity) && x.id == id ensures x.quantity == quantity {
      var k :| 0 <= k < |mapped| && mapped[k] == x;
    }
  }

  lemma TargetPresence(items: seq<Item>, id: string, quantity: int)
    requires quantity > 0
    ensures id in Ids(UpdateLines(items, id, quantity)) <==> id in Ids(items)
  {
    if id in Ids(items) {
      var k :| 0 <= k < |items| && Ids(items)[k] == id;
      TargetKept(items, id, quantity, k);
    }
    var r := UpdateLines(items, id, quantity);
    if id in Ids(r) {
      var j :| 0 <= j < |r| && Ids(r)[j] == id;
      TargetCameFrom(items, id, quantity, j);
    }
  }

  lemma TargetKept(items: seq<Item>, id: string, quantity: int, k: int)
    requires quantity > 0 && 0 <= k < |items| && items[k].id == id
    ensures id in Ids(UpdateLines(items, id, quantity))
  {
    var mapped := SetQuantity(items, id, quantity);
    var r := UpdateLines(items, id, quantity);
    FilterMembers(mapped, (x: Item) => x.quantity > 0);
    assert mapped[k] in r;
    var j :| 0 <= j < |r| && r[j] == mapped[k];
    assert Ids(r)[j] == id;
  }

  lemma TargetCameFrom(items: seq<Item>, id: string, quantity: int, j: int)
    requires 0 <= j < |UpdateLines(items, id, quantity)| && UpdateLines(items, id, quantity)[j].id == id
    ensures id in Ids(items)
  {
    var mapped := SetQuantity(items, id, quantity);
    var r := UpdateLines(items, id, quantity);
    FilterMembers(mapped, (x: Item) => x.quantity > 0);
    assert r[j] in mapped;
    var k :| 0 <= k < |mapped| && mapped[k] == r[j];
    assert Ids(items)[k] == id;
  }

  /** UPDATE_QUANTITY keeps every other item exactly when its quantity is
      positive, and the survivors keep their relative order. */
  lemma UpdateQuantityOthers(items: seq<Item>, id: string, quantity: int)
    ensures var r := UpdateLines(items, id, quantity);
      && (forall x: Item :: x.id != id ==> (x in r <==> x in items && x.quantity > 0))
      && SubSeq(Ids(r), Ids(items))
  {
    var mapped := SetQuantity(items, id, quantity);
    var r := UpdateLines(items, id, quantity);
    FilterMembers(mapped, (x: Item) => x.quantity > 0);
    forall x: Item | x.id != id ensures x in r <==> x in items && x.quantity > 0 {
      if x in items {
        var k :| 0 <= k < |items| && items[k] == x;
        assert mapped[k] == x;
      }
      if x in mapped {
        var k :| 0 <= k < |mapped| && mapped[k] == x;
        assert items[k] == x;
      }
    }
    FilterIsSubSeq(mapped, (x: Item) => x.quantity > 0);
    IdsOfSubSeq(r, mapped);
    assert Ids(mapped) == Ids(items);
  }

  lemma {:induction false} IdsCons(x: Item, items: seq<Item>)
    ensures Ids([x] + items) == [x.id] + Ids(items)
  {
    var l := [x] + items;
    assert |Ids(l)| == |[x.id] + Ids(items)|;
    forall k | 0 <= k < |l| ensures Ids(l)[k] == ([x.id] + Ids(items))[k] {
      if k > 0 { assert l[k] == items[k - 1]; }
    }
  }

  lemma IdsHead(items: seq<Item>)
    requires items != []
    ensures Ids(items) == [items[0].id] + Ids(items[1..])
  {
    IdsCons(items[0], items[1..]);
    assert [items[0]] + items[1..] == items;
  }

  /** Keys of a subsequence form a subsequence of the keys. */
  lemma {:induction false} IdsOfSubSeq(a: seq<Item>, b: seq<Item>)
    requires SubSeq(a, b)
    ensures SubSeq(Ids(a), Ids(b))
    decreases |b|
  {
    if a != [] {
      IdsCons(b[0], b[1..]);
      assert [b[0]] + b[1..] == b;
      IdsCons(a[0], a[1..]);
      assert [a[0]] + a[1..] == a;
      if a[0] == b[0] {
        IdsOfSubSeq(a[1..], b[1..]);
        assert Ids(a)[1..] == Ids(a[1..]);
      } else {
        IdsOfSubSeq(a, b[1..]);
        SubSeqSkip(Ids(a), b[0].id, Ids(b[1..]));
      }
    }
  }

  /** After REMOVE_ITEM no item with that id remains, the others keep
      their order, and removing again changes nothing. */
  lemma RemoveEffect(items: seq<Item>, id: string)
    ensures var r := RemoveLines(items, id);
      && id !in Ids(r)
      && SubSeq(r, items)
      && RemoveLines(r, id) == r
  {
    IdsMember(RemoveLines(items, id), id);
    FilterIsSubSeq(items, (x: Item) => x.id != id);
    FilterIdempotent(items, (x: Item) => x.id != id);
  }

  /** CLEAR_CART empties the items, keeps `isLoading` and `error`, and a
      second CLEAR_CART changes nothing. */
  lemma ClearCartEffect(state: CartState)
    ensures Reduce(state, ClearCart) == Ok(CartState([], state.isLoading, state.error))
    ensures Reduce(Reduce(state, ClearCart).value, ClearCart) == Reduce(state, ClearCart)
  {
  }

  /** CART_OPERATION_FAILURE ends loading and records the message, items untouched. */
  lemma FailureEffect(state: CartState, e: string)
    ensures Reduce(state, OperationFailure(e)) == Ok(CartState(state.items, false, Some(e)))
  {
  }

  /** A well-formed cart (unique ids, positive quantities) stays well-formed
      under every action whose payload is well-formed: ADD_ITEM with a
      positive quantity, SET_CART_ITEMS with a well-formed list. */
  lemma ReducePreservesWellFormed(state: CartState, action: Action)
    requires Unique(state.items) && AllPositive(state.items)
    requires action.AddItem? ==> action.quantity > 0
    requires action.SetCartItems? ==> Unique(action.items) && AllPositive(action.items)
    requires !action.Unhandled?
    ensures Unique(Reduce(state, action).value.items)
    ensures AllPositive(Reduce(state, action).value.items)
  {
    var items := state.items;
    match action
    case AddItem(product, quantity) =>
      AddLineEntries(items, product, quantity);
      AddLineUnique(items, product, quantity);
    case UpdateQuantity(id, quantity) =>
      UpdateKeepsWellFormed(items, id, quantity);
    case RemoveItem(id) =>
      RemoveKeepsWellFormed(items, id);
    case _ =>
  }

  lemma UpdateKeepsWellFormed(items: seq<Item>, id: string, quantity: int)
    requires Unique(items)
    ensures Unique(UpdateLines(items, id, quantity)) && AllPositive(UpdateLines(items, id, quantity))
  {
    var r := UpdateLines(items, id, quantity);
    UniqueSetQuantity(items, id, quantity);
    FilterIsSubSeq(SetQuantity(items, id, quantity), (x: Item) => x.quantity > 0);
    UniqueSubSeq(r, SetQuantity(items, id, quantity));
    assert forall k :: 0 <= k < |r| ==> r[k] in r;
  }

  lemma RemoveKeepsWellFormed(items: seq<Item>, id: string)
    requires Unique(items) && AllPositive(items)
    ensures Unique(RemoveLines(items, id)) && AllPositive(RemoveLines(items, id))
  {
    var r := RemoveLines(items, id);
    RemoveEffect(items, id);
    UniqueSubSeq(r, items);
    forall k | 0 <= k < |r| ensures r[k].quantity > 0 {
      assert r[k] in items;
    }
  }

  /** A subsequence of a list with unique ids has unique ids. */
  lemma {:induction false} UniqueSubSeq(a: seq<Item>, b: seq<Item>)
    requires SubSeq(a, b) && Unique(b)
    ensures Unique(a)
    decreases |b|
  {
    if a != [] {
      if a[0] == b[0] {
        UniqueSubSeq(a[1..], b[1..]);
        forall j | 0 < j < |a| ensures a[0].id != a[j].id {
          SubSeqMember(a[1..], b[1..], j - 1);
        }
      } else {
        UniqueSubSeq(a, b[1..]);
      }
    }
  }

  lemma {:induction false} SubSeqMember(a: seq<Item>, b: seq<Item>, j: int)
    requires SubSeq(a, b) && 0 <= j < |a|
    ensures a[j] in b
    decreases |b|
  {
    if a[0] == b[0] {
      if j > 0 { SubSeqMember(a[1..], b[1..], j - 1); }
    } else {
      SubSeqMember(a, b[1..], j);
    }
  }

  /** Setting a quantity keeps every id where it was. */
  lemma UniqueSetQuantity(items: seq<Item>, id: string, quantity: int)
    requires Unique(items)
    ensures Unique(SetQuantity(items, id, quantity))
  {
  }

  // ---------------------------------------------------------------------
  // mergeCarts
  // ---------------------------------------------------------------------

  /** The guest items folded one by one into the server items, each as
      ADD_ITEM does. */
  function MergeAll(server: seq<Item>, guest: seq<Item>): seq<Item>
  {
    if guest == [] then server
    else
      var last := guest[|guest| - 1];
      AddLine(MergeAll(server, guest[..|guest| - 1]), last.product, last.quantity)
  }

  /** `mergeCarts(serverItems, guestItems)`: a copy of the server list,
      updated in place for each guest item. */
  method MergeCarts(serverItems: seq<Item>, guestItems: seq<Item>) returns (merged: seq<Item>)
    ensures merged == MergeAll(serverItems, guestItems)
  {
    merged := serverItems;
    for i := 0 to |guestItems|
      invariant merged == MergeAll(serverItems, guestItems[..i])
    {
      var guestItem := guestItems[i];
      assert guestItems[..i + 1][..i] == guestItems[..i];
      AddLineOf(merged, guestItem);
      var existingItemIndex := FindIndex(merged, guestItem.id);
      if existingItemIndex > -1 {
        merged := merged[existingItemIndex := merged[existingItemIndex].(
          quantity := merged[existingItemIndex].quantity + guestItem.quantity)];
      } else {
        merged := merged + [guestItem];
      }
    }
    assert guestItems[..|guestItems|] == guestItems;
  }

  /** ADD_ITEM of a whole line item, spelled out as `mergeCarts` does it. */
  lemma AddLineOf(items: seq<Item>, x: Item)
    ensures FindIndex(items, x.id) == -1 ==> AddLine(items, x.product, x.quantity) == items + [x]
    ensures var k := FindIndex(items, x.id);
      k > -1 ==> AddLine(items, x.product, x.quantity) == items[k := items[k].(quantity := items[k].quantity + x.quantity)]
  {
    assert x == Item(x.product, x.quantity);
  }

  /** The keys of `ids` missing from `seen`, each once, in order of first
      appearance. */
  function NewIds(seen: seq<string>, ids: seq<string>): seq<string>
  {
    if ids == [] then []
    else
      var before := NewIds(seen, ids[..|ids| - 1]);
      var x := ids[|ids| - 1];
      if x in seen || x in before then before else before + [x]
  }

  /** Every key `NewIds` lists comes from `ids`, is not in `seen`, and is
      listed once. */
  lemma {:induction false} NewIdsFresh(seen: seq<string>, ids: seq<string>)
    ensures forall x :: x in NewIds(seen, ids) ==> x in ids && x !in seen
    ensures forall i, j :: 0 <= i < j < |NewIds(seen, ids)| ==> NewIds(seen, ids)[i] != NewIds(seen, ids)[j]
    decreases |ids|
  {
    if ids != [] {
      var n := |ids| - 1;
      NewIdsFresh(seen, ids[..n]);
      assert forall x :: x in ids[..n] ==> x in ids;
    }
  }

  /** The merged list starts with the server's keys, in order, followed by
      each guest key the server did not have, once, in guest order. */
  lemma {:induction false} MergeKeys(server: seq<Item>, guest: seq<Item>)
    ensures Ids(MergeAll(server, guest)) == Ids(server) + NewIds(Ids(server), Ids(guest))
    decreases |guest|
  {
    if guest == [] {
      assert Ids(server) + [] == Ids(server);
    } else {
      var n := |guest| - 1;
      var g := guest[n];
      var m := MergeAll(server, guest[..n]);
      MergeKeys(server, guest[..n]);
      AddLineKeys(m, g.product, g.quantity);
      NewIdsSnoc(Ids(server), Ids(guest[..n]), g.id);
      assert Ids(guest) == Ids(guest[..n]) + [g.id];
      MergeKeysStep(Ids(server), NewIds(Ids(server), Ids(guest[..n])), g.id, Ids(m),
                    Ids(AddLine(m, g.product, g.quantity)));
    }
  }

  lemma NewIdsSnoc(seen: seq<string>, ids: seq<string>, x: string)
    ensures NewIds(seen, ids + [x]) ==
      var before := NewIds(seen, ids);
      if x in seen || x in before then before else before + [x]
  {
    assert (ids + [x])[..|ids|] == ids;
  }

  /** The arithmetic of one merge step on key lists. */
  lemma MergeKeysStep(seen: seq<string>, before: seq<string>, x: string, keys: seq<string>, next: seq<string>)
    requires keys == seen + before
    requires next == if x in keys then keys else keys + [x]
    ensures next == seen + (if x in seen || x in before then before else before + [x])
  {
    if x !in keys {
      assert (seen + before) + [x] == seen + (before + [x]);
    }
  }

  /** Each key's total in the merged list is its server total plus its
      guest total. */
  lemma {:induction false} MergeQty(server: seq<Item>, guest: seq<Item>, id: string)
    ensures QtyOf(MergeAll(server, guest), id) == QtyOf(server, id) + QtyOf(guest, id)
    decreases |guest|
  {
    if guest != [] {
      var n := |guest| - 1;
      var g := guest[n];
      MergeQty(server, guest[..n], id);
      AddLineQty(MergeAll(server, guest[..n]), g.product, g.quantity, id);
    }
  }

  /** The server items stay in front, with their own product fields, and
      a server list without repeated keys gives a merged list without
      repeated keys. */
  lemma {:induction false} MergeServerPrefix(server: seq<Item>, guest: seq<Item>)
    ensures var r := MergeAll(server, guest);
      && |r| >= |server|
      && (forall k :: 0 <= k < |server| ==> r[k].product == server[k].product)
      && (Unique(server) ==> Unique(r))
    decreases |guest|
  {
    if guest != [] {
      var n := |guest| - 1;
      var g := guest[n];
      var m := MergeAll(server, guest[..n]);
      MergeServerPrefix(server, guest[..n]);
      AddLineEntries(m, g.product, g.quantity);
      if Unique(server) {
        AddLineUnique(m, g.product, g.quantity);
      }
    }
  }

  // ---------------------------------------------------------------------
  // loadGuestCartFromStorage
  // ---------------------------------------------------------------------

  /** What `localStorage` holds under the guest-cart key, once read:
      text that does not parse, or a record whose `items` may be missing. */
  datatype Stored = Unparsable | Parsed(items: Option<seq<Item>>)

  /** What the persistence effect writes: `JSON.stringify({ items })`. */
  function SaveGuestCart(items: seq<Item>): Option<Stored>
  {
    Some(Parsed(Some(items)))
  }

  /** `loadGuestCartFromStorage().items`: the stored items, or an empty list
      when the key is absent, the text is corrupt or `items` is missing. */
  function LoadGuestCart(stored: Option<Stored>): (items: seq<Item>)
    ensures items != [] ==> stored == Some(Parsed(Some(items)))
    ensures forall xs :: stored == Some(Parsed(Some(xs))) ==> items == xs
  {
    match stored
    case None => []
    case Some(Unparsable) => []
    case Some(Parsed(None)) => []
    case Some(Parsed(Some(xs))) => xs
  }

  /** Reading back what was saved gives the same list. */
  lemma GuestRoundTrip(items: seq<Item>)
    ensures LoadGuestCart(SaveGuestCart(items)) == items
  {
  }
}
