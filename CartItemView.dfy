/** The cart line component of src/components/Cart/CartItem.tsx: the
    quantity guard behind the minus and plus buttons, the remove button, and
    when the per-unit price is shown. */
module CartItemView {
  import opened Types
  import CartContext

  /** The action `handleQuantityChange(n)` dispatches, if any. */
  function QuantityChange(item: CartItem, n: int): (r: Option<CartContext.CartAction>)
    ensures r.None? <==> n < 1
    ensures r.Some? ==> r.value.UpdateQuantity? && r.value.laptopId == item.laptop.id && r.value.quantity == n
  {
    if n < 1 then None else Some(CartContext.UpdateQuantity(item.laptop.id, n))
  }

  /** The cart after an optional dispatch. */
  function Apply(items: seq<CartItem>, action: Option<CartContext.CartAction>): (r: seq<CartItem>) {
    if action.Some? then CartContext.CartReducer(items, action.value) else items
  }

  /** The argument of the minus button. */
  function Minus(item: CartItem): (r: int) { item.quantity - 1 }

  /** The argument of the plus button. */
  function Plus(item: CartItem): (r: int) { item.quantity + 1 }

  /** The minus button never takes a line out of the cart: at quantity 1 it
      does nothing, above 1 it sets the quantity one lower and keeps every
      line in place. */
  lemma MinusKeepsLine(items: seq<CartItem>, k: nat)
    requires CartContext.WellFormed(items) && k < |items|
    ensures var r := Apply(items, QuantityChange(items[k], Minus(items[k])));
      && |r| == |items|
      && r[k].laptop == items[k].laptop
      && r[k].quantity == (if items[k].quantity == 1 then 1 else items[k].quantity - 1)
      && CartContext.WellFormed(r)
    ensures items[k].quantity == 1 ==> Apply(items, QuantityChange(items[k], Minus(items[k]))) == items
  {
    var item := items[k];
    if item.quantity > 1 {
      CartContext.UpdateQuantitySpec(items, item.laptop.id, item.quantity - 1);
      CartContext.ReducerKeepsWellFormed(items, CartContext.UpdateQuantity(item.laptop.id, item.quantity - 1));
    }
  }

  /** The plus button adds exactly one unit to this line and one to the
      cart's unit count. */
  lemma PlusAddsOne(items: seq<CartItem>, k: nat)
    requires CartContext.WellFormed(items) && k < |items|
    ensures var r := Apply(items, QuantityChange(items[k], Plus(items[k])));
      && r == items[k := items[k].(quantity := items[k].quantity + 1)]
      && CartContext.TotalItems(r) == CartContext.TotalItems(items) + 1
  {
    var item := items[k];
    var r := Apply(items, QuantityChange(item, Plus(item)));
    var e := items[k := item.(quantity := item.quantity + 1)];
    CartContext.UpdateQuantitySpec(items, item.laptop.id, item.quantity + 1);
    assert |r| == |e|;
    forall j | 0 <= j < |r| ensures r[j] == e[j] {
      if items[j].laptop.id == item.laptop.id {
        CartContext.UniqueIndex(items, j, k);
      }
    }
    assert r == e;
    CartContext.SumUpdate(items, k, item.(quantity := item.quantity + 1), CartContext.LineQuantity);
  }

  /** `handleRemove` dispatches the removal of exactly this line's laptop. */
  method HandleRemove(store: CartContext.CartStore, item: CartItem)
    requires store.Valid()
    modifies store
    ensures store.Valid()
    ensures store.items == CartContext.CartReducer(old(store.items), CartContext.RemoveFromCart(item.laptop.id))
  {
    store.RemoveFromCart(item.laptop.id);
  }

  /** `handleQuantityChange`: below 1 nothing happens; otherwise the new
      quantity goes to the store unchanged. */
  method HandleQuantityChange(store: CartContext.CartStore, item: CartItem, newQuantity: int)
    requires store.Valid()
    modifies store
    ensures store.Valid()
    ensures store.items == Apply(old(store.items), QuantityChange(item, newQuantity))
  {
    if newQuantity < 1 {
      return;
    }
    store.UpdateQuantity(item.laptop.id, newQuantity);
  }

  /** The "each" line under the line total. */
  predicate ShowsUnitPrice(item: CartItem) {
    item.quantity > 1
  }

  /** For a priced laptop on a cart line, the unit price is shown exactly when
      the line total differs from it. */
  lemma UnitPriceShownWhenTotalDiffers(item: CartItem)
    requires item.laptop.price > 0 && item.quantity >= 1
    ensures ShowsUnitPrice(item) <==> CartContext.LineTotal(item) != item.laptop.price
  {
    if item.quantity > 1 {
      assert item.laptop.price * item.quantity >= item.laptop.price * 2;
    }
  }
}
