/** The cart store of src/context/CartContext.tsx: the reducer over the
    list of cart lines, the two totals, and the provider that holds the
    current list and dispatches actions to the reducer. */
module CartContext {
  import opened Types
  import Seqs

  datatype CartAction =
    | AddToCart(laptop: Laptop)
    | RemoveFromCart(laptopId: string)
    | UpdateQuantity(laptopId: string, quantity: int)
    | ClearCart

  /** `state.find(item => item.laptop.id === id)` finds a line. */
  predicate HasLine(items: seq<CartItem>, id: string) {
    exists i :: 0 <= i < |items| && items[i].laptop.id == id
  }

  /** `state.filter(item => item.laptop.id !== id)`. */
  function WithoutLaptop(items: seq<CartItem>, id: string): (r: seq<CartItem>) {
    Seqs.Filter((item: CartItem) => item.laptop.id != id, items)
  }

  /** `state.map(...)` setting the quantity of the lines with this id. */
  function WithQuantity(items: seq<CartItem>, id: string, quantity: int): (r: seq<CartItem>) {
    Seqs.Map((item: CartItem) => if item.laptop.id == id then item.(quantity := quantity) else item, items)
  }

  /** `state.map(...)` adding one to the lines with this id. */
  function Incremented(items: seq<CartItem>, id: string): (r: seq<CartItem>) {
    Seqs.Map((item: CartItem) => if item.laptop.id == id then item.(quantity := item.quantity + 1) else item, items)
  }

  /** `cartReducer`. */
  function CartReducer(state: seq<CartItem>, action: CartAction): (r: seq<CartItem>) {
    match action
    case AddToCart(laptop) =>
      if HasLine(state, laptop.id) then Incremented(state, laptop.id)
      else state + [CartItem(laptop, 1)]
    case RemoveFromCart(id) => WithoutLaptop(state, id)
    case UpdateQuantity(id, quantity) =>
      if quantity <= 0 then WithoutLaptop(state, id)
      else WithQuantity(state, id, quantity)
    case ClearCart => []
  }

  /** The state after dispatching `actions` in order. */
  function Run(state: seq<CartItem>, actions: seq<CartAction>): (r: seq<CartItem>)
    decreases |actions|
  {
    if |actions| == 0 then state else Run(CartReducer(state, actions[0]), actions[1..])
  }

  /** At most one line per laptop id. */
  predicate UniqueIds(items: seq<CartItem>) {
    forall i, j :: 0 <= i < j < |items| ==> items[i].laptop.id != items[j].laptop.id
  }

  predicate PositiveQuantities(items: seq<CartItem>) {
    forall i :: 0 <= i < |items| ==> items[i].quantity >= 1
  }

  /** The invariant every cart reachable from the empty one keeps. */
  predicate WellFormed(items: seq<CartItem>) {
    UniqueIds(items) && PositiveQuantities(items)
  }

  function LineQuantity(item: CartItem): (r: int) { item.quantity }

  function LineTotal(item: CartItem): (r: int) { item.laptop.price * item.quantity }

  /** `items.reduce((total, item) => total + weight(item), 0)`. */
  function Sum(items: seq<CartItem>, weight: CartItem -> int): (r: int) {
    if |items| == 0 then 0 else Sum(items[..|items| - 1], weight) + weight(items[|items| - 1])
  }

  /** `getTotalItems`. */
  function TotalItems(items: seq<CartItem>): (r: int) {
    Sum(items, LineQuantity)
  }

  /** `getTotalPrice`. */
  function TotalPrice(items: seq<CartItem>): (r: int) {
    Sum(items, LineTotal)
  }

  // ---------------------------------------------------------------- sums

  lemma SumSnoc(items: seq<CartItem>, x: CartItem, weight: CartItem -> int)
    ensures Sum(items + [x], weight) == Sum(items, weight) + weight(x)
  {
    assert (items + [x])[..|items|] == items;
  }

  /** Replacing one line changes the sum by the difference of the weights. */
  lemma {:induction false} SumUpdate(items: seq<CartItem>, i: nat, x: CartItem, weight: CartItem -> int)
    requires i < |items|
    ensures Sum(items[i := x], weight) == Sum(items, weight) - weight(items[i]) + weight(x)
    decreases |items|
  {
    var n := |items| - 1;
    if i == n {
      assert items[i := x][..n] == items[..n];
    } else {
      assert items[i := x][..n] == items[..n][i := x];
      SumUpdate(items[..n], i, x, weight);
    }
  }

  /** With positive quantities there are at least as many units as lines. */
  lemma {:induction false} TotalItemsAtLeastLines(items: seq<CartItem>)
    requires PositiveQuantities(items)
    ensures TotalItems(items) >= |items|
    decreases |items|
  {
    if |items| > 0 {
      var n := |items| - 1;
      assert PositiveQuantities(items[..n]);
      TotalItemsAtLeastLines(items[..n]);
    }
  }

  /** With prices of 0 or more and positive quantities, the price total is
      not negative. */
  lemma {:induction false} TotalPriceNonNegative(items: seq<CartItem>)
    requires PositiveQuantities(items)
    requires forall i :: 0 <= i < |items| ==> items[i].laptop.price >= 0
    ensures TotalPrice(items) >= 0
    decreases |items|
  {
    if |items| > 0 {
      var n := |items| - 1;
      assert PositiveQuantities(items[..n]);
      TotalPriceNonNegative(items[..n]);
    }
  }

  /** Both totals of the empty cart, and of a cleared one, are 0. */
  lemma ClearCartEmpties(state: seq<CartItem>)
    ensures CartReducer(state, ClearCart) == []
    ensures TotalItems(CartReducer(state, ClearCart)) == 0
    ensures TotalPrice(CartReducer(state, ClearCart)) == 0
  {
  }

  // ---------------------------------------------------------------- actions

  lemma UniqueIndex(items: seq<CartItem>, i: nat, j: nat)
    requires UniqueIds(items) && i < |items| && j < |items|
    requires items[i].laptop.id == items[j].laptop.id
    ensures i == j
  {
  }

  /** ADD_TO_CART of a laptop not in the cart appends a line of quantity 1
      after the unchanged lines, whatever the cart holds. */
  lemma AddNewToCart(state: seq<CartItem>, laptop: Laptop)
    requires !HasLine(state, laptop.id)
    ensures CartReducer(state, AddToCart(laptop)) == state + [CartItem(laptop, 1)]
    ensures CartReducer(state, AddToCart(laptop))[..|state|] == state
  {
  }

  /** ADD_TO_CART of a laptop already in the cart adds one to that line and
      changes nothing else. */
  lemma AddToCartSpec(state: seq<CartItem>, laptop: Laptop)
    requires UniqueIds(state)
    ensures forall i :: 0 <= i < |state| && state[i].laptop.id == laptop.id ==>
      CartReducer(state, AddToCart(laptop)) == state[i := state[i].(quantity := state[i].quantity + 1)]
  {
    forall i | 0 <= i < |state| && state[i].laptop.id == laptop.id
      ensures CartReducer(state, AddToCart(laptop)) == state[i := state[i].(quantity := state[i].quantity + 1)]
    {
      var r := CartReducer(state, AddToCart(laptop));
      var e := state[i := state[i].(quantity := state[i].quantity + 1)];
      assert |r| == |e|;
      forall k | 0 <= k < |r| ensures r[k] == e[k] {
        if state[k].laptop.id == laptop.id {
          UniqueIndex(state, i, k);
        }
      }
    }
  }

  /** ADD_TO_CART on the line at `i` adds one unit and that laptop's price. */
  lemma AddExistingTotals(state: seq<CartItem>, laptop: Laptop, i: nat)
    requires UniqueIds(state) && i < |state| && state[i].laptop.id == laptop.id
    ensures TotalItems(CartReducer(state, AddToCart(laptop))) == TotalItems(state) + 1
    ensures TotalPrice(CartReducer(state, AddToCart(laptop))) == TotalPrice(state) + state[i].laptop.price
  {
    AddToCartSpec(state, laptop);
    var x := state[i].(quantity := state[i].quantity + 1);
    assert CartReducer(state, AddToCart(laptop)) == state[i := x];
    SumUpdate(state, i, x, LineQuantity);
    SumUpdate(state, i, x, LineTotal);
    assert LineTotal(x) == LineTotal(state[i]) + state[i].laptop.price;
  }

  /** ADD_TO_CART raises the unit count by exactly one, and the price total
      by the price of the laptop the matching line holds (or of the new one). */
  lemma AddToCartTotals(state: seq<CartItem>, laptop: Laptop)
    requires UniqueIds(state)
    ensures TotalItems(CartReducer(state, AddToCart(laptop))) == TotalItems(state) + 1
    ensures forall i :: 0 <= i < |state| && state[i].laptop.id == laptop.id ==>
      TotalPrice(CartReducer(state, AddToCart(laptop))) == TotalPrice(state) + state[i].laptop.price
    ensures !HasLine(state, laptop.id) ==>
      TotalPrice(CartReducer(state, AddToCart(laptop))) == TotalPrice(state) + laptop.price
  {
    if HasLine(state, laptop.id) {
      var i :| 0 <= i < |state| && state[i].laptop.id == laptop.id;
      AddExistingTotals(state, laptop, i);
      forall j | 0 <= j < |state| && state[j].laptop.id == laptop.id
        ensures TotalPrice(CartReducer(state, AddToCart(laptop))) == TotalPrice(state) + state[j].laptop.price
      {
        AddExistingTotals(state, laptop, j);
      }
    } else {
      SumSnoc(state, CartItem(laptop, 1), LineQuantity);
      SumSnoc(state, CartItem(laptop, 1), LineTotal);
    }
  }

  /** REMOVE_FROM_CART keeps exactly the lines of other laptops, in order;
      it does nothing when the laptop is absent, and twice is once. */
  lemma RemoveFromCartSpec(state: seq<CartItem>, id: string)
    ensures var r := CartReducer(state, RemoveFromCart(id));
      && Seqs.IsSubsequence(r, state)
      && (forall x: CartItem :: x in r <==> x in state && x.laptop.id != id)
      && (forall x: CartItem :: x.laptop.id != id ==> multiset(r)[x] == multiset(state)[x])
      && !HasLine(r, id)
      && (!HasLine(state, id) ==> r == state)
      && CartReducer(r, RemoveFromCart(id)) == r
  {
    var r := CartReducer(state, RemoveFromCart(id));
    assert forall i :: 0 <= i < |r| ==> r[i] in r;
    Seqs.FilterIdempotent((item: CartItem) => item.laptop.id != id, state);
    if !HasLine(state, id) {
      Seqs.FilterAll((item: CartItem) => item.laptop.id != id, state);
    }
  }

  /** UPDATE_QUANTITY with a quantity of 0 or less is REMOVE_FROM_CART; with a
      positive one it sets exactly the matching line's quantity, in place. */
  lemma UpdateQuantitySpec(state: seq<CartItem>, id: string, quantity: int)
    ensures quantity <= 0 ==>
      CartReducer(state, UpdateQuantity(id, quantity)) == CartReducer(state, RemoveFromCart(id))
    ensures quantity > 0 ==>
      var r := CartReducer(state, UpdateQuantity(id, quantity));
      && |r| == |state|
      && (forall i :: 0 <= i < |state| ==> r[i].laptop == state[i].laptop)
      && (forall i :: 0 <= i < |state| ==>
            r[i].quantity == if state[i].laptop.id == id then quantity else state[i].quantity)
    ensures !HasLine(state, id) ==> CartReducer(state, UpdateQuantity(id, quantity)) == state
  {
    if !HasLine(state, id) {
      Seqs.FilterAll((item: CartItem) => item.laptop.id != id, state);
      var r := WithQuantity(state, id, quantity);
      assert |r| == |state|;
      assert forall i :: 0 <= i < |state| ==> r[i] == state[i];
    }
  }

  // ---------------------------------------------------------------- invariant

  lemma WithoutLaptopWellFormed(state: seq<CartItem>, id: string)
    requires WellFormed(state)
    ensures WellFormed(WithoutLaptop(state, id))
  {
    var r := WithoutLaptop(state, id);
    SubsequenceKeepsUnique(r, state);
    assert forall i :: 0 <= i < |r| ==> r[i] in r;
  }

  /** A subsequence of a cart with unique ids has unique ids. */
  lemma {:induction false} SubsequenceKeepsUnique(r: seq<CartItem>, s: seq<CartItem>)
    requires Seqs.IsSubsequence(r, s) && UniqueIds(s)
    ensures UniqueIds(r)
    decreases |s|
  {
    if |r| > 0 {
      assert UniqueIds(s[1..]);
      if r[0] == s[0] && Seqs.IsSubsequence(r[1..], s[1..]) {
        SubsequenceKeepsUnique(r[1..], s[1..]);
        Seqs.SubsequenceMembers(r[1..], s[1..]);
        forall j | 0 < j < |r| ensures r[0].laptop.id != r[j].laptop.id {
          assert r[j] == r[1..][j - 1];
          assert r[j] in s[1..];
          var k :| 0 <= k < |s[1..]| && s[1..][k] == r[j];
          assert s[k + 1] == r[j];
        }
      } else {
        SubsequenceKeepsUnique(r, s[1..]);
      }
    }
  }

  /** Every action keeps at most one line per laptop and positive quantities. */
  lemma ReducerKeepsWellFormed(state: seq<CartItem>, action: CartAction)
    requires WellFormed(state)
    ensures WellFormed(CartReducer(state, action))
  {
    match action
    case AddToCart(laptop) =>
      AddToCartSpec(state, laptop);
      if HasLine(state, laptop.id) {
        var i :| 0 <= i < |state| && state[i].laptop.id == laptop.id;
        assert CartReducer(state, action) == state[i := state[i].(quantity := state[i].quantity + 1)];
      }
    case RemoveFromCart(id) =>
      WithoutLaptopWellFormed(state, id);
    case UpdateQuantity(id, quantity) =>
      if quantity <= 0 {
        WithoutLaptopWellFormed(state, id);
      } else {
        UpdateQuantitySpec(state, id, quantity);
      }
    case ClearCart =>
  }

  /** Starting from any well-formed cart, in particular the empty one the
      provider starts with, every sequence of actions keeps it well formed. */
  lemma {:induction false} RunKeepsWellFormed(state: seq<CartItem>, actions: seq<CartAction>)
    requires WellFormed(state)
    ensures WellFormed(Run(state, actions))
    decreases |actions|
  {
    if |actions| > 0 {
      ReducerKeepsWellFormed(state, actions[0]);
      RunKeepsWellFormed(CartReducer(state, actions[0]), actions[1..]);
    }
  }

  /** From an empty cart: add, add again, then set the quantity to 0. */
  lemma AddAddThenZero(laptop: Laptop)
    ensures CartReducer([], AddToCart(laptop)) == [CartItem(laptop, 1)]
    ensures TotalItems([CartItem(laptop, 1)]) == 1
    ensures CartReducer([CartItem(laptop, 1)], AddToCart(laptop)) == [CartItem(laptop, 2)]
    ensures CartReducer([CartItem(laptop, 2)], UpdateQuantity(laptop.id, 0)) == []
  {
    AddToCartSpec([CartItem(laptop, 1)], laptop);
    SumSnoc([], CartItem(laptop, 1), LineQuantity);
    assert [] + [CartItem(laptop, 1)] == [CartItem(laptop, 1)];
  }

  // ---------------------------------------------------------------- provider

  /** `CartProvider`: holds `items`, starting empty, and dispatches. */
  class CartStore {
    var items: seq<CartItem>

    ghost predicate Valid()
      reads this
    {
      WellFormed(items)
    }

    constructor ()
      ensures items == [] && Valid()
    {
      items := [];
    }

    method AddToCart(laptop: Laptop)
      requires Valid()
      modifies this
      ensures Valid()
      ensures items == CartReducer(old(items), CartAction.AddToCart(laptop))
    {
      ReducerKeepsWellFormed(items, CartAction.AddToCart(laptop));
      items := CartReducer(items, CartAction.AddToCart(laptop));
    }

    method RemoveFromCart(laptopId: string)
      requires Valid()
      modifies this
      ensures Valid()
      ensures items == CartReducer(old(items), CartAction.RemoveFromCart(laptopId))
    {
      ReducerKeepsWellFormed(items, CartAction.RemoveFromCart(laptopId));
      items := CartReducer(items, CartAction.RemoveFromCart(laptopId));
    }

    method UpdateQuantity(laptopId: string, quantity: int)
      requires Valid()
      modifies this
      ensures Valid()
      ensures items == CartReducer(old(items), CartAction.UpdateQuantity(laptopId, quantity))
    {
      ReducerKeepsWellFormed(items, CartAction.UpdateQuantity(laptopId, quantity));
      items := CartReducer(items, CartAction.UpdateQuantity(laptopId, quantity));
    }

    method ClearCart()
      requires Valid()
      modifies this
      ensures Valid()
      ensures items == []
    {
      items := CartReducer(items, CartAction.ClearCart);
    }

    /** `getTotalItems`: at least one unit per line, and 0 only for the
        empty cart. */
    function GetTotalItems(): (r: int)
      requires Valid()
      reads this
      ensures r >= |items|
      ensures r == 0 <==> items == []
    {
      TotalItemsAtLeastLines(items);
      TotalItems(items)
    }

    /** `getTotalPrice`: 0 for the empty cart, and never negative when no
        laptop has a negative price. */
    function GetTotalPrice(): (r: int)
      requires Valid()
      reads this
      ensures items == [] ==> r == 0
      ensures (forall i :: 0 <= i < |items| ==> items[i].laptop.price >= 0) ==> r >= 0
    {
      if forall i :: 0 <= i < |items| ==> items[i].laptop.price >= 0 then
        TotalPriceNonNegative(items);
        TotalPrice(items)
      else
        TotalPrice(items)
    }
  }
}
