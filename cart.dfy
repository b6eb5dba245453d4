/** The client's cart: a list of lines from a single restaurant plus that
    restaurant's identity. Adding an item from another restaurant is refused
    unless forced, in which case the cart starts over. */
module CartContext {
  import opened Js
  import opened Prices

  /** One line of the cart. */
  datatype CartLine = CartLine(
    restaurantId: string,
    restaurantName: string,
    restaurantCountry: string,
    itemId: string,
    name: string,
    price: real,
    qty: int)

  /** `{ id, name, country }` of the restaurant the cart belongs to. */
  datatype CartRestaurant = CartRestaurant(id: string, name: string, country: string)

  /** The menu entry handed to `add`: its possible id fields, its name and its price. */
  datatype MenuPick = MenuPick(
    itemId: Option<string>,
    id: Option<string>,
    underscoreId: Option<string>,
    name: Option<string>,
    price: PriceInput)

  /** The `meta` argument of `add`. */
  datatype Meta = Meta(name: Option<string>, country: Option<string>)

  /** `{ ok: true }`, or the refusal `DIFF_RESTAURANT` with both restaurants. */
  datatype AddResult = Added | DiffRestaurant(currentRestaurant: CartRestaurant, newRestaurant: CartRestaurant)

  datatype CartState = CartState(items: seq<CartLine>, restaurant: Option<CartRestaurant>)

  // ---------------------------------------------------------------------------
  // Lines and their sums

  /** `stableItemId`: the first truthy of `itemId`, `id` and `_id`, else the name. */
  function StableItemId(p: MenuPick): (r: string)
    ensures Truthy(p.itemId) ==> r == p.itemId.value
    ensures !Truthy(p.itemId) && Truthy(p.id) ==> r == p.id.value
    ensures !Truthy(p.itemId) && !Truthy(p.id) && Truthy(p.underscoreId) ==> r == p.underscoreId.value
    ensures !Truthy(p.itemId) && !Truthy(p.id) && !Truthy(p.underscoreId) ==> r == OrElse(p.name, "")
  {
    if Truthy(p.itemId) then p.itemId.value
    else if Truthy(p.id) then p.id.value
    else if Truthy(p.underscoreId) then p.underscoreId.value
    else OrElse(p.name, "")
  }

  /** An entry that carries any id keeps its cart id when its name or price change. */
  lemma StableItemIdIgnoresName(p: MenuPick, name: Option<string>, price: PriceInput)
    requires Truthy(p.itemId) || Truthy(p.id) || Truthy(p.underscoreId)
    ensures StableItemId(p.(name := name, price := price)) == StableItemId(p)
  {
  }

  /** The quantity of item `k` in the cart, summed over its lines. */
  function QtyOf(items: seq<CartLine>, k: string): int {
    if items == [] then 0
    else QtyShare(items[0], k) + QtyOf(items[1..], k)
  }

  /** `itemCount`: the sum of the quantities; with every quantity at least 1 it is
      at least the number of lines. */
  function ItemCount(items: seq<CartLine>): (n: int)
    ensures (forall i :: 0 <= i < |items| ==> items[i].qty >= 1) ==> n >= |items|
  {
    if items == [] then 0 else items[0].qty + ItemCount(items[1..])
  }

  /** The share of one line in the total. */
  function LineTotal(x: CartLine): real {
    x.price * x.qty as real
  }

  /** `total`: the sum of price times quantity; never negative when no price or
      quantity is. */
  function CartTotal(items: seq<CartLine>): (t: real)
    ensures (forall i :: 0 <= i < |items| ==> items[i].price >= 0.0 && items[i].qty >= 0) ==> t >= 0.0
  {
    if items == [] then 0.0 else LineTotal(items[0]) + CartTotal(items[1..])
  }

  /** The share of line `x` in the quantity of item `k`. */
  function QtyShare(x: CartLine, k: string): int {
    if x.itemId == k then x.qty else 0
  }

  /** Replacing one line changes the quantity of an item by the difference of the
      two lines' shares. */
  lemma {:induction false} QtyOfUpdate(items: seq<CartLine>, i: nat, x: CartLine, k: string)
    requires i < |items|
    ensures QtyOf(items[i := x], k) == QtyOf(items, k) - QtyShare(items[i], k) + QtyShare(x, k)
  {
    if i > 0 {
      QtyOfUpdate(items[1..], i - 1, x, k);
      assert items[i := x][1..] == items[1..][i - 1 := x];
    }
  }

  lemma {:induction false} ItemCountUpdate(items: seq<CartLine>, i: nat, x: CartLine)
    requires i < |items|
    ensures ItemCount(items[i := x]) == ItemCount(items) - items[i].qty + x.qty
  {
    if i > 0 {
      ItemCountUpdate(items[1..], i - 1, x);
      assert items[i := x][1..] == items[1..][i - 1 := x];
    }
  }

  lemma {:induction false} CartTotalUpdate(items: seq<CartLine>, i: nat, x: CartLine)
    requires i < |items|
    ensures CartTotal(items[i := x]) == CartTotal(items) - LineTotal(items[i]) + LineTotal(x)
  {
    if i > 0 {
      CartTotalUpdate(items[1..], i - 1, x);
      assert items[i := x][1..] == items[1..][i - 1 := x];
    }
  }

  /** Appending a line adds its share to each sum. */
  lemma {:induction false} QtyOfAppend(items: seq<CartLine>, x: CartLine, k: string)
    ensures QtyOf(items + [x], k) == QtyOf(items, k) + QtyShare(x, k)
  {
    if items == [] {
      assert [] + [x] == [x];
      assert [x][1..] == [];
    } else {
      QtyOfAppend(items[1..], x, k);
      assert (items + [x])[1..] == items[1..] + [x];
    }
  }

  lemma {:induction false} ItemCountAppend(items: seq<CartLine>, x: CartLine)
    ensures ItemCount(items + [x]) == ItemCount(items) + x.qty
  {
    if items == [] {
      assert [] + [x] == [x];
      assert [x][1..] == [];
    } else {
      ItemCountAppend(items[1..], x);
      assert (items + [x])[1..] == items[1..] + [x];
    }
  }

  lemma {:induction false} CartTotalAppend(items: seq<CartLine>, x: CartLine)
    ensures CartTotal(items + [x]) == CartTotal(items) + LineTotal(x)
  {
    if items == [] {
      assert [] + [x] == [x];
      assert [x][1..] == [];
    } else {
      CartTotalAppend(items[1..], x);
      assert (items + [x])[1..] == items[1..] + [x];
    }
  }

  /** An item no line carries has quantity 0. */
  lemma {:induction false} QtyOfAbsent(items: seq<CartLine>, k: string)
    requires forall i :: 0 <= i < |items| ==> items[i].itemId != k
    ensures QtyOf(items, k) == 0
  {
    if items != [] {
      QtyOfAbsent(items[1..], k);
    }
  }

  // ---------------------------------------------------------------------------
  // The invariant

  predicate UniqueIds(items: seq<CartLine>) {
    forall i, j :: 0 <= i < j < |items| ==> items[i].itemId != items[j].itemId
  }

  /** The cart's invariant: it has a restaurant exactly when it has lines, every
      line belongs to that restaurant, no item has two lines, and every quantity
      is at least 1. */
  predicate CartValid(st: CartState) {
    && (st.restaurant.None? <==> st.items == [])
    && (st.restaurant.Some? ==> forall i :: 0 <= i < |st.items| ==> st.items[i].restaurantId == st.restaurant.value.id)
    && UniqueIds(st.items)
    && forall i :: 0 <= i < |st.items| ==> st.items[i].qty >= 1
  }

  lemma UniqueCons(x: CartLine, t: seq<CartLine>)
    requires forall j :: 0 <= j < |t| ==> t[j].itemId != x.itemId
    requires UniqueIds(t)
    ensures UniqueIds([x] + t)
  {
    var s := [x] + t;
    forall i, j | 0 <= i < j < |s| ensures s[i].itemId != s[j].itemId {
      assert s[j] == t[j - 1];
      if i > 0 {
        assert s[i] == t[i - 1];
      }
    }
  }

  /** With unique ids, the quantity of an item is the quantity of its line. */
  lemma {:induction false} QtyOfUnique(items: seq<CartLine>, k: string)
    requires UniqueIds(items)
    ensures QtyOf(items, k) == if IndexOfItem(items, k) >= 0 then items[IndexOfItem(items, k)].qty else 0
  {
    if items != [] {
      assert UniqueIds(items[1..]) by {
        forall i, j | 0 <= i < j < |items| - 1 ensures items[1..][i].itemId != items[1..][j].itemId {
          assert items[1..][i] == items[i + 1] && items[1..][j] == items[j + 1];
        }
      }
      if items[0].itemId == k {
        forall j | 0 <= j < |items[1..]| ensures items[1..][j].itemId != k {
          assert items[1..][j] == items[j + 1];
        }
        QtyOfAbsent(items[1..], k);
      } else {
        QtyOfUnique(items[1..], k);
      }
    }
  }

  // ---------------------------------------------------------------------------
  // The operations on the state

  /** `items.findIndex(x => x.itemId === id)`: the first line of the item, or -1. */
  function IndexOfItem(items: seq<CartLine>, id: string): (r: int)
    ensures -1 <= r < |items|
    ensures r >= 0 ==> items[r].itemId == id && forall j :: 0 <= j < r ==> items[j].itemId != id
    ensures r < 0 ==> forall j :: 0 <= j < |items| ==> items[j].itemId != id
  {
    if items == [] then -1
    else if items[0].itemId == id then 0
    else
      var r := IndexOfItem(items[1..], id);
      if r < 0 then -1 else r + 1
  }

  /** The restaurant `add` is asked to use: `{ id: restId, name: meta.name || "",
      country: meta.country || "" }`. */
  function Requested(restId: string, meta: Meta): CartRestaurant {
    CartRestaurant(restId, OrElse(meta.name, ""), OrElse(meta.country, ""))
  }

  /** `a || b || ""` for a stored name `a` and an optional fallback `b`. */
  function Fallback(a: string, b: Option<string>): (r: string)
    ensures a != "" ==> r == a
    ensures a == "" ==> r == OrElse(b, "")
  {
    if a != "" then a else OrElse(b, "")
  }

  /** A new line of quantity 1. */
  function NewLine(restId: string, restName: string, restCountry: string, pick: MenuPick): (l: CartLine)
    ensures l.restaurantId == restId && l.itemId == StableItemId(pick) && l.qty == 1
    ensures l.price == ToPrice(pick.price) && l.name == OrElse(pick.name, "")
  {
    CartLine(restId, restName, restCountry, StableItemId(pick), OrElse(pick.name, ""), ToPrice(pick.price), 1)
  }

  /** A cart holding just the picked item, from the requested restaurant. */
  function StartOver(restId: string, pick: MenuPick, meta: Meta): (st: CartState)
    ensures CartValid(st) && st.restaurant == Some(Requested(restId, meta))
    ensures |st.items| == 1 && st.items[0].itemId == StableItemId(pick) && st.items[0].qty == 1
  {
    CartState([NewLine(restId, OrElse(meta.name, ""), OrElse(meta.country, ""), pick)], Some(Requested(restId, meta)))
  }

  /** `add`: an empty cart, or a forced add from another restaurant, starts over;
      an unforced add from another restaurant is refused and changes nothing; an
      add from the cart's restaurant raises the item's line by 1 or appends a new
      line, taking the name and country of the cart's restaurant when it has them. */
  function AddSpec(st: CartState, restId: string, pick: MenuPick, meta: Meta, force: bool): (r: (AddResult, CartState))
    ensures r.0.DiffRestaurant? <==>
      !force && st.restaurant.Some? && st.items != [] && st.restaurant.value.id != restId
    ensures r.0.DiffRestaurant? ==>
      r.1 == st && r.0.currentRestaurant == st.restaurant.value && r.0.newRestaurant == Requested(restId, meta)
    ensures r.0.Added? ==> r.1.restaurant.Some? && r.1.restaurant.value.id == restId
    ensures st.restaurant.Some? && st.items != [] && st.restaurant.value.id == restId ==>
      r.0.Added? && r.1.restaurant == st.restaurant
    ensures st.restaurant.None? || st.items == [] || (force && st.restaurant.value.id != restId) ==>
      r.1 == StartOver(restId, pick, meta)
  {
    if st.restaurant.None? || st.items == [] then (Added, StartOver(restId, pick, meta))
    else
      var rest := st.restaurant.value;
      if rest.id != restId then
        if force then (Added, StartOver(restId, pick, meta))
        else (DiffRestaurant(rest, Requested(restId, meta)), st)
      else
        var idx := IndexOfItem(st.items, StableItemId(pick));
        if idx >= 0 then
          (Added, st.(items := st.items[idx := st.items[idx].(qty := st.items[idx].qty + 1)]))
        else
          (Added, st.(items := st.items + [NewLine(restId, Fallback(rest.name, meta.name), Fallback(rest.country, meta.country), pick)]))
  }

  /** `add` keeps the invariant. */
  lemma AddPreservesValid(st: CartState, restId: string, pick: MenuPick, meta: Meta, force: bool)
    requires CartValid(st)
    ensures CartValid(AddSpec(st, restId, pick, meta, force).1)
  {
    var st' := AddSpec(st, restId, pick, meta, force).1;
    if st.restaurant.Some? && st.items != [] && st.restaurant.value.id == restId {
      var idx := IndexOfItem(st.items, StableItemId(pick));
      if idx < 0 {
        assert st'.items == st.items + [st'.items[|st.items|]];
        forall i, j | 0 <= i < j < |st'.items| ensures st'.items[i].itemId != st'.items[j].itemId {
          assert st'.items[i] == st.items[i];
        }
      }
    }
  }

  /** The price `add` charges for the picked item: that of its line when the cart
      has one, otherwise the picked price. */
  function AddedPrice(items: seq<CartLine>, pick: MenuPick): real {
    var idx := IndexOfItem(items, StableItemId(pick));
    if idx >= 0 then items[idx].price else ToPrice(pick.price)
  }

  /** The lines after an add to the cart's own restaurant (or to an empty cart):
      the item's line raised by 1, or a new line of quantity 1 at the end. */
  lemma AddShape(st: CartState, restId: string, pick: MenuPick, meta: Meta, force: bool) returns (idx: int, line: CartLine)
    requires CartValid(st) && (st.restaurant.Some? ==> st.restaurant.value.id == restId)
    ensures idx == IndexOfItem(st.items, StableItemId(pick))
    ensures idx >= 0 ==> line == st.items[idx].(qty := st.items[idx].qty + 1)
                         && AddSpec(st, restId, pick, meta, force).1.items == st.items[idx := line]
    ensures idx < 0 ==>
      var rest := if st.items == [] then Requested(restId, meta) else st.restaurant.value;
      && line == NewLine(restId, Fallback(rest.name, meta.name), Fallback(rest.country, meta.country), pick)
      && line.itemId == StableItemId(pick) && line.qty == 1 && line.price == ToPrice(pick.price)
      && AddSpec(st, restId, pick, meta, force).1.items == st.items + [line]
  {
    idx := IndexOfItem(st.items, StableItemId(pick));
    var st' := AddSpec(st, restId, pick, meta, force).1;
    if idx >= 0 {
      line := st.items[idx].(qty := st.items[idx].qty + 1);
    } else {
      line := st'.items[|st.items|];
      if st.items == [] {
        assert st'.items == [] + [line];
      } else {
        assert st'.items == st.items + [line];
      }
    }
  }

  /** An add to the cart's own restaurant (or to an empty cart) raises the picked
      item by exactly 1 and leaves every other item as it was ... */
  lemma AddRaisesItem(st: CartState, restId: string, pick: MenuPick, meta: Meta, force: bool, k: string)
    requires CartValid(st) && (st.restaurant.Some? ==> st.restaurant.value.id == restId)
    ensures QtyOf(AddSpec(st, restId, pick, meta, force).1.items, k) ==
      QtyOf(st.items, k) + (if k == StableItemId(pick) then 1 else 0)
  {
    var idx, line := AddShape(st, restId, pick, meta, force);
    if idx >= 0 {
      QtyOfUpdate(st.items, idx, line, k);
    } else {
      QtyOfAppend(st.items, line, k);
    }
  }

  /** ... so the count grows by 1 ... */
  lemma AddCountsOne(st: CartState, restId: string, pick: MenuPick, meta: Meta, force: bool)
    requires CartValid(st) && (st.restaurant.Some? ==> st.restaurant.value.id == restId)
    ensures ItemCount(AddSpec(st, restId, pick, meta, force).1.items) == ItemCount(st.items) + 1
  {
    var idx, line := AddShape(st, restId, pick, meta, force);
    if idx >= 0 {
      ItemCountUpdate(st.items, idx, line);
    } else {
      ItemCountAppend(st.items, line);
    }
  }

  /** ... and the total by one unit of the item's price. */
  lemma AddChargesOneUnit(st: CartState, restId: string, pick: MenuPick, meta: Meta, force: bool)
    requires CartValid(st) && (st.restaurant.Some? ==> st.restaurant.value.id == restId)
    ensures CartTotal(AddSpec(st, restId, pick, meta, force).1.items) == CartTotal(st.items) + AddedPrice(st.items, pick)
  {
    var idx, line := AddShape(st, restId, pick, meta, force);
    if idx >= 0 {
      CartTotalUpdate(st.items, idx, line);
      LineTotalOneMore(st.items[idx]);
    } else {
      CartTotalAppend(st.items, line);
    }
  }

  /** One more unit on a line adds its price to the line's total. */
  lemma LineTotalOneMore(x: CartLine)
    ensures LineTotal(x.(qty := x.qty + 1)) == LineTotal(x) + x.price
  {
    assert (x.qty + 1) as real == x.qty as real + 1.0;
  }

  /** `items.map(x => x.itemId === id ? { ...x, qty: x.qty - 1 } : x)`. */
  function Decrement(items: seq<CartLine>, id: string): (r: seq<CartLine>)
    ensures |r| == |items|
    ensures forall i :: 0 <= i < |items| ==>
      r[i] == if items[i].itemId == id then items[i].(qty := items[i].qty - 1) else items[i]
  {
    seq(|items|, i requires 0 <= i < |items| => if items[i].itemId == id then items[i].(qty := items[i].qty - 1) else items[i])
  }

  /** `.filter(keep)`: the lines `keep` accepts, in their order. */
  function KeepLines(items: seq<CartLine>, keep: CartLine -> bool): (r: seq<CartLine>)
    ensures |r| <= |items|
    ensures forall i :: 0 <= i < |r| ==> r[i] in items && keep(r[i])
    ensures forall i :: 0 <= i < |items| && keep(items[i]) ==> items[i] in r
    ensures |items| == 1 ==> r == (if keep(items[0]) then items else [])
  {
    if items == [] then []
    else (if keep(items[0]) then [items[0]] else []) + KeepLines(items[1..], keep)
  }

  /** The filter works line by line, so the lines it keeps stay in order. */
  lemma {:induction false} KeepLinesAppend(a: seq<CartLine>, b: seq<CartLine>, keep: CartLine -> bool)
    ensures KeepLines(a + b, keep) == KeepLines(a, keep) + KeepLines(b, keep)
  {
    if a != [] {
      assert (a + b)[1..] == a[1..] + b;
      KeepLinesAppend(a[1..], b, keep);
    } else {
      assert a + b == b;
    }
  }

  /** Filtering keeps ids unique. */
  lemma {:induction false} KeepLinesUnique(items: seq<CartLine>, keep: CartLine -> bool)
    requires UniqueIds(items)
    ensures UniqueIds(KeepLines(items, keep))
  {
    if items != [] {
      var t := items[1..];
      assert UniqueIds(t) by {
        forall i, j | 0 <= i < j < |t| ensures t[i].itemId != t[j].itemId {
          assert t[i] == items[i + 1] && t[j] == items[j + 1];
        }
      }
      KeepLinesUnique(t, keep);
      var r := KeepLines(t, keep);
      if keep(items[0]) {
        forall j | 0 <= j < |r| ensures r[j].itemId != items[0].itemId {
          var m :| 0 <= m < |t| && t[m] == r[j];
          assert t[m] == items[m + 1];
        }
        UniqueCons(items[0], r);
      }
    }
  }

  /** Dropping lines whose quantity is 0 changes no item's quantity ... */
  lemma {:induction false} KeepLinesQty(items: seq<CartLine>, keep: CartLine -> bool, k: string)
    requires forall i :: 0 <= i < |items| && !keep(items[i]) ==> QtyShare(items[i], k) == 0
    ensures QtyOf(KeepLines(items, keep), k) == QtyOf(items, k)
  {
    if items != [] {
      KeepLinesQty(items[1..], keep, k);
      var r := KeepLines(items, keep);
      if keep(items[0]) {
        assert r[1..] == KeepLines(items[1..], keep);
      } else {
        assert r == KeepLines(items[1..], keep);
      }
    }
  }

  /** ... and not the count. */
  lemma {:induction false} KeepLinesCount(items: seq<CartLine>, keep: CartLine -> bool)
    requires forall i :: 0 <= i < |items| && !keep(items[i]) ==> items[i].qty == 0
    ensures ItemCount(KeepLines(items, keep)) == ItemCount(items)
  {
    if items != [] {
      KeepLinesCount(items[1..], keep);
      var r := KeepLines(items, keep);
      if keep(items[0]) {
        assert r[1..] == KeepLines(items[1..], keep);
      } else {
        assert r == KeepLines(items[1..], keep);
      }
    }
  }

  /** Removing an item's lines takes away exactly its quantity from the count. */
  lemma {:induction false} KeepLinesWithoutCount(items: seq<CartLine>, keep: CartLine -> bool, id: string)
    requires forall x :: keep(x) <==> x.itemId != id
    ensures ItemCount(KeepLines(items, keep)) == ItemCount(items) - QtyOf(items, id)
  {
    if items != [] {
      KeepLinesWithoutCount(items[1..], keep, id);
      var r := KeepLines(items, keep);
      if keep(items[0]) {
        assert r[1..] == KeepLines(items[1..], keep);
      } else {
        assert r == KeepLines(items[1..], keep);
      }
    }
  }

  /** `dec`: lowers the item's line by 1 and drops lines that reach 0; the cart
      loses its restaurant when it becomes empty. */
  function DecSpec(st: CartState, id: string): (r: CartState)
    ensures r.items == KeepLines(Decrement(st.items, id), (x: CartLine) => x.qty > 0)
    ensures r.restaurant == if r.items == [] then None else st.restaurant
  {
    var next := KeepLines(Decrement(st.items, id), (x: CartLine) => x.qty > 0);
    CartState(next, if next == [] then None else st.restaurant)
  }

  /** `removeItem`: drops every line of the item; the cart loses its restaurant
      when it becomes empty. */
  function RemoveSpec(st: CartState, id: string): (r: CartState)
    ensures r.items == KeepLines(st.items, (x: CartLine) => x.itemId != id)
    ensures r.restaurant == if r.items == [] then None else st.restaurant
  {
    var next := KeepLines(st.items, (x: CartLine) => x.itemId != id);
    CartState(next, if next == [] then None else st.restaurant)
  }

  /** `dec` keeps the invariant. */
  lemma DecPreservesValid(st: CartState, id: string)
    requires CartValid(st)
    ensures CartValid(DecSpec(st, id))
  {
    var d := Decrement(st.items, id);
    assert UniqueIds(d);
    KeepLinesUnique(d, (x: CartLine) => x.qty > 0);
  }

  /** `removeItem` keeps the invariant. */
  lemma RemovePreservesValid(st: CartState, id: string)
    requires CartValid(st)
    ensures CartValid(RemoveSpec(st, id))
  {
    KeepLinesUnique(st.items, (x: CartLine) => x.itemId != id);
  }

  /** With unique ids, `Decrement` changes at most the item's one line. */
  lemma DecrementOneLine(items: seq<CartLine>, id: string)
    requires UniqueIds(items)
    ensures var idx := IndexOfItem(items, id);
      Decrement(items, id) == if idx >= 0 then items[idx := items[idx].(qty := items[idx].qty - 1)] else items
  {
  }

  /** `dec` lowers the item by 1 when it is in the cart and leaves every other item
      as it was ... */
  lemma DecLowersItem(st: CartState, id: string, k: string)
    requires CartValid(st)
    ensures QtyOf(DecSpec(st, id).items, k) ==
      if k == id && QtyOf(st.items, id) > 0 then QtyOf(st.items, k) - 1 else QtyOf(st.items, k)
  {
    var d := Decrement(st.items, id);
    KeepLinesQty(d, (x: CartLine) => x.qty > 0, k);
    QtyOfUnique(st.items, id);
    DecrementOneLine(st.items, id);
    var idx := IndexOfItem(st.items, id);
    if idx >= 0 {
      QtyOfUpdate(st.items, idx, st.items[idx].(qty := st.items[idx].qty - 1), k);
    }
  }

  /** ... so the count drops by 1 exactly when the item was there. */
  lemma DecCountsOne(st: CartState, id: string)
    requires CartValid(st)
    ensures ItemCount(DecSpec(st, id).items) == ItemCount(st.items) - (if QtyOf(st.items, id) > 0 then 1 else 0)
  {
    var d := Decrement(st.items, id);
    KeepLinesCount(d, (x: CartLine) => x.qty > 0);
    QtyOfUnique(st.items, id);
    DecrementOneLine(st.items, id);
    var idx := IndexOfItem(st.items, id);
    if idx >= 0 {
      ItemCountUpdate(st.items, idx, st.items[idx].(qty := st.items[idx].qty - 1));
    }
  }

  /** `removeItem` takes the item out entirely and leaves every other item. */
  lemma RemoveCounts(st: CartState, id: string, k: string)
    ensures QtyOf(RemoveSpec(st, id).items, k) == if k == id then 0 else QtyOf(st.items, k)
    ensures ItemCount(RemoveSpec(st, id).items) == ItemCount(st.items) - QtyOf(st.items, id)
  {
    var r := RemoveSpec(st, id).items;
    if k == id {
      QtyOfAbsent(r, k);
    } else {
      KeepLinesQty(st.items, (x: CartLine) => x.itemId != id, k);
    }
    KeepLinesWithoutCount(st.items, (x: CartLine) => x.itemId != id, id);
  }

  /** Decrementing an item the cart holds once leaves exactly the cart that
      `removeItem` leaves. */
  lemma DecOfSingleIsRemove(st: CartState, id: string)
    requires CartValid(st) && QtyOf(st.items, id) == 1
    ensures DecSpec(st, id) == RemoveSpec(st, id)
  {
    QtyOfUnique(st.items, id);
    var idx := IndexOfItem(st.items, id);
    forall i | 0 <= i < |st.items| && st.items[i].itemId == id ensures st.items[i].qty == 1 {
      assert i == idx;
    }
    DecAsRemove(st.items, id);
  }

  /** When the item's lines all hold 1 and no line holds 0, dropping the lines
      that reach 0 after a decrement drops exactly the item's lines. */
  lemma {:induction false} DecAsRemove(items: seq<CartLine>, id: string)
    requires forall i :: 0 <= i < |items| ==> items[i].qty >= 1
    requires forall i :: 0 <= i < |items| && items[i].itemId == id ==> items[i].qty == 1
    ensures KeepLines(Decrement(items, id), (x: CartLine) => x.qty > 0)
         == KeepLines(items, (x: CartLine) => x.itemId != id)
  {
    if items != [] {
      assert Decrement(items, id)[1..] == Decrement(items[1..], id);
      DecAsRemove(items[1..], id);
    }
  }

  // ---------------------------------------------------------------------------
  // The provider's state

  /** The cart held by the provider: its two state variables. Loading and saving
      them in the browser's storage is not part of this model. */
  class Cart {
    var items: seq<CartLine>
    var restaurant: Option<CartRestaurant>

    function State(): CartState
      reads this
    {
      CartState(items, restaurant)
    }

    predicate Valid()
      reads this
    {
      CartValid(State())
    }

    constructor()
      ensures State() == CartState([], None) && Valid()
    {
      items := [];
      restaurant := None;
    }

    /** `clear`. */
    method Clear()
      modifies this
      ensures State() == CartState([], None) && Valid()
    {
      items := [];
      restaurant := None;
    }

    /** The `findIndex` of `add`: the first line of item `id`, or -1. */
    method FindLine(id: string) returns (idx: int)
      ensures -1 <= idx < |items|
      ensures idx >= 0 ==> items[idx].itemId == id && forall j :: 0 <= j < idx ==> items[j].itemId != id
      ensures idx < 0 ==> forall j :: 0 <= j < |items| ==> items[j].itemId != id
      ensures idx == IndexOfItem(items, id)
    {
      idx := 0;
      while idx < |items|
        invariant 0 <= idx <= |items|
        invariant forall j :: 0 <= j < idx ==> items[j].itemId != id
      {
        if items[idx].itemId == id {
          return;
        }
        idx := idx + 1;
      }
      idx := -1;
    }

    method Add(restId: string, pick: MenuPick, meta: Meta, force: bool) returns (r: AddResult)
      modifies this
      ensures (r, State()) == AddSpec(old(State()), restId, pick, meta, force)
      ensures old(Valid()) ==> Valid()
    {
      if Valid() {
        AddPreservesValid(State(), restId, pick, meta, force);
      }
      var newItemId := StableItemId(pick);
      var priceNum := ToPrice(pick.price);
      if restaurant.None? || |items| == 0 {
        items := [CartLine(restId, OrElse(meta.name, ""), OrElse(meta.country, ""), newItemId, OrElse(pick.name, ""), priceNum, 1)];
        restaurant := Some(Requested(restId, meta));
        return Added;
      }
      if restaurant.value.id != restId {
        if force {
          items := [CartLine(restId, OrElse(meta.name, ""), OrElse(meta.country, ""), newItemId, OrElse(pick.name, ""), priceNum, 1)];
          restaurant := Some(Requested(restId, meta));
          return Added;
        }
        return DiffRestaurant(restaurant.value, Requested(restId, meta));
      }
      var idx := FindLine(newItemId);
      if idx >= 0 {
        items := items[idx := items[idx].(qty := items[idx].qty + 1)];
      } else {
        var name := if restaurant.value.name != "" then restaurant.value.name else OrElse(meta.name, "");
        var country := if restaurant.value.country != "" then restaurant.value.country else OrElse(meta.country, "");
        items := items + [CartLine(restId, name, country, newItemId, OrElse(pick.name, ""), priceNum, 1)];
      }
      return Added;
    }

    method Dec(id: string)
      modifies this
      ensures State() == DecSpec(old(State()), id)
      ensures old(Valid()) ==> Valid()
    {
      if Valid() {
        DecPreservesValid(State(), id);
      }
      var next := KeepLines(Decrement(items, id), (x: CartLine) => x.qty > 0);
      items := next;
      restaurant := if next == [] then None else restaurant;
    }

    method RemoveItem(id: string)
      modifies this
      ensures State() == RemoveSpec(old(State()), id)
      ensures old(Valid()) ==> Valid()
    {
      if Valid() {
        RemovePreservesValid(State(), id);
      }
      var next := KeepLines(items, (x: CartLine) => x.itemId != id);
      items := next;
      restaurant := if next == [] then None else restaurant;
    }
  }
}
