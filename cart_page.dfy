/**
 * The cart page's derivations: the cart's entries joined with the catalog,
 * the subtotal, shipping and total in cents, the guards in front of
 * `updateCartItemQuantity` and checkout, and which view the page shows.
 * The cart itself is an input: the operations that change it are not part
 * of the shown hook.
 */
module CartPage {
  import opened Wrappers
  import opened JsText
  import opened JsArray
  import opened MockData
  import AuthActions

  datatype CartItem = CartItem(medicineId: string, quantity: int)

  /** A cart entry with its catalog record and line total. */
  datatype CartDisplayItem = CartDisplayItem(medicine: Medicine, quantity: int, itemTotal: int)

  /** `m => m.id === id` */
  function MatchesMedicineId(id: string): Medicine -> bool {
    (m: Medicine) => m.id == id
  }

  /** Some catalog record carries this id. */
  predicate InCatalog(catalog: seq<Medicine>, id: string) {
    exists i :: 0 <= i < |catalog| && catalog[i].id == id
  }

  /** One entry of `detailedCartItems` before the `null`s are filtered out. */
  function Detail(catalog: seq<Medicine>, item: CartItem): (r: Option<CartDisplayItem>)
    ensures r.None? <==> !InCatalog(catalog, item.medicineId)
    ensures r.Some? ==>
      && r.value.medicine in catalog && r.value.medicine.id == item.medicineId
      && r.value.quantity == item.quantity
      && r.value.itemTotal == r.value.medicine.price * item.quantity
  {
    match Find(catalog, MatchesMedicineId(item.medicineId))
    case None => None
    case Some(m) => Some(CartDisplayItem(m, item.quantity, m.price * item.quantity))
  }

  /** The entry's contribution to `detailedCartItems`: itself, detailed, or nothing. */
  function DetailSeq(catalog: seq<Medicine>, item: CartItem): (r: seq<CartDisplayItem>)
    ensures |r| <= 1
    ensures r == [] <==> !InCatalog(catalog, item.medicineId)
  {
    var d := Detail(catalog, item);
    if d.Some? then [d.value] else []
  }

  /** `detailedCartItems`: entries whose medicine is in the catalog, in cart order. */
  function DetailedCartItems(catalog: seq<Medicine>, cart: seq<CartItem>): (r: seq<CartDisplayItem>)
    ensures |r| <= |cart|
    ensures forall i :: 0 <= i < |r| ==> r[i].medicine in catalog && r[i].itemTotal == r[i].medicine.price * r[i].quantity
  {
    if cart == [] then []
    else DetailSeq(catalog, cart[0]) + DetailedCartItems(catalog, cart[1..])
  }

  /** Joining a concatenated cart joins each part, in order: an entry is kept or dropped on its own. */
  lemma {:induction false} DetailedCartItemsAppend(catalog: seq<Medicine>, a: seq<CartItem>, b: seq<CartItem>)
    ensures DetailedCartItems(catalog, a + b) == DetailedCartItems(catalog, a) + DetailedCartItems(catalog, b)
  {
    if a == [] {
      assert a + b == b;
    } else {
      assert (a + b)[0] == a[0];
      assert (a + b)[1..] == a[1..] + b;
      DetailedCartItemsAppend(catalog, a[1..], b);
      calc {
        DetailedCartItems(catalog, a + b);
        DetailSeq(catalog, a[0]) + DetailedCartItems(catalog, a[1..] + b);
        DetailSeq(catalog, a[0]) + (DetailedCartItems(catalog, a[1..]) + DetailedCartItems(catalog, b));
      }
    }
  }

  /** An entry whose medicine id is not in the catalog disappears. */
  lemma UnknownItemDropped(catalog: seq<Medicine>, cart: seq<CartItem>, item: CartItem)
    requires !InCatalog(catalog, item.medicineId)
    ensures DetailedCartItems(catalog, cart + [item]) == DetailedCartItems(catalog, cart)
  {
    DetailedCartItemsAppend(catalog, cart, [item]);
    assert [item][1..] == [];
  }

  /** When every entry is in the catalog, nothing is dropped and the order and quantities are the cart's. */
  lemma {:induction false} DetailedCartItemsAllKnown(catalog: seq<Medicine>, cart: seq<CartItem>)
    requires forall k :: 0 <= k < |cart| ==> InCatalog(catalog, cart[k].medicineId)
    ensures var r := DetailedCartItems(catalog, cart);
      |r| == |cart| && forall k :: 0 <= k < |r| ==> r[k].medicine.id == cart[k].medicineId && r[k].quantity == cart[k].quantity
  {
    if cart != [] {
      assert forall k :: 0 <= k < |cart[1..]| ==> cart[1..][k] == cart[k + 1];
      DetailedCartItemsAllKnown(catalog, cart[1..]);
      assert Detail(catalog, cart[0]).Some?;
    }
  }

  function ItemTotalOf(item: CartDisplayItem): int {
    item.itemTotal
  }

  /** `cartSubtotal`: the sum of the line totals. */
  function CartSubtotal(items: seq<CartDisplayItem>): (r: int)
    ensures items == [] ==> r == 0
    ensures (forall i :: 0 <= i < |items| ==> items[i].itemTotal >= 0) ==> r >= 0
  {
    var _ := if forall i :: 0 <= i < |items| ==> ItemTotalOf(items[i]) >= 0 then SumOfNonNegative(items, ItemTotalOf); 0 else 0;
    SumOf(items, ItemTotalOf)
  }

  lemma CartSubtotalAppend(a: seq<CartDisplayItem>, b: seq<CartDisplayItem>)
    ensures CartSubtotal(a + b) == CartSubtotal(a) + CartSubtotal(b)
    ensures CartSubtotal([]) == 0
  {
    SumOfAppend(a, b, ItemTotalOf);
  }

  /** A cart whose lines all cost something has a positive subtotal. */
  lemma {:induction false} CartSubtotalPositive(items: seq<CartDisplayItem>)
    requires items != []
    requires forall i :: 0 <= i < |items| ==> items[i].itemTotal > 0
    ensures CartSubtotal(items) > 0
  {
    var init := items[..|items| - 1];
    assert ItemTotalOf(items[|items| - 1]) > 0;
    assert CartSubtotal(items) == CartSubtotal(init) + ItemTotalOf(items[|items| - 1]);
    if init != [] {
      CartSubtotalPositive(init);
    }
  }

  /** Shipping costs 5.00 exactly when there is something to pay for. */
  function ShippingCost(subtotal: int): (r: int)
    ensures r == 500 <==> subtotal > 0
    ensures r == 0 <==> subtotal <= 0
  {
    if subtotal > 0 then 500 else 0
  }

  function CartTotal(subtotal: int): (r: int)
    ensures subtotal > 0 ==> r == subtotal + 500
    ensures subtotal <= 0 ==> r == subtotal
  {
    subtotal + ShippingCost(subtotal)
  }

  /** A cart of paid-for lines costs its subtotal plus 5.00; an empty one costs nothing. */
  lemma CartTotalOfLines(items: seq<CartDisplayItem>)
    requires forall i :: 0 <= i < |items| ==> items[i].itemTotal > 0
    ensures items == [] ==> CartTotal(CartSubtotal(items)) == 0
    ensures items != [] ==> CartTotal(CartSubtotal(items)) == CartSubtotal(items) + 500
  {
    if items != [] {
      CartSubtotalPositive(items);
    }
  }

  /** `handleQuantityChange`: the new quantity reaches `updateCartItemQuantity` only when it is not negative. */
  function ForwardedQuantity(newQuantity: int): (r: Option<int>)
    ensures r.Some? <==> newQuantity >= 0
    ensures r.Some? ==> r.value == newQuantity
  {
    if newQuantity >= 0 then Some(newQuantity) else None
  }

  /** `parseInt(text) || 0`, with `None` for a text that is not a number. */
  function QuantityFromInput(parsed: Option<int>): (q: int)
    ensures parsed.None? ==> q == 0
    ensures parsed.Some? ==> q == parsed.value
  {
    if parsed.Some? then parsed.value else 0
  }

  /** The minus button is disabled at quantity one or below. */
  predicate DecrementDisabled(quantity: int) {
    quantity <= 1
  }

  /** Text that is not a number sets the quantity to zero; the minus button never does. */
  lemma QuantityInputs(quantity: int)
    ensures ForwardedQuantity(QuantityFromInput(None)) == Some(0)
    ensures !DecrementDisabled(quantity) ==> ForwardedQuantity(quantity - 1) == Some(quantity - 1) && quantity - 1 >= 1
    ensures quantity >= 0 ==> ForwardedQuantity(quantity + 1) == Some(quantity + 1)
  {
  }

  const ProfileRedirect := "/profile?redirect=/cart"

  /** What "Proceed to Checkout" does: send the user to the profile page, or place the order (clear the cart and go home). */
  datatype CheckoutDecision = AddressRequired(redirectTo: string) | PlaceOrder

  /** `handleProceedToCheckout`: an order needs a signed-in user with an address that is not blank. */
  function ProceedToCheckout(currentUser: Option<AuthActions.User>): (d: CheckoutDecision)
    ensures d.PlaceOrder? <==>
      currentUser.Some? && currentUser.value.address.Some? && !IsBlank(currentUser.value.address.value)
    ensures d.AddressRequired? ==> d.redirectTo == ProfileRedirect
  {
    if currentUser.None? || currentUser.value.address.None? || currentUser.value.address.value == "" then
      AddressRequired(ProfileRedirect)
    else
      TrimEmptyIffBlank(currentUser.value.address.value);
      if Trim(currentUser.value.address.value) == "" then AddressRequired(ProfileRedirect) else PlaceOrder
  }

  /** The cart after checkout: cleared only when the order is placed. */
  function CartAfterCheckout(currentUser: Option<AuthActions.User>, cart: seq<CartItem>): (r: seq<CartItem>)
    ensures ProceedToCheckout(currentUser).PlaceOrder? ==> r == []
    ensures ProceedToCheckout(currentUser).AddressRequired? ==> r == cart
  {
    if ProceedToCheckout(currentUser).PlaceOrder? then [] else cart
  }

  datatype CartView = Spinner | LoginPrompt | EmptyCart | CartContents

  /** The page's early returns, in order: loading, then logged out, then an empty list, then the cart. */
  function SelectCartView(isLoadingAuth: bool, isLoggedIn: bool, items: seq<CartDisplayItem>): (v: CartView)
    ensures v == Spinner <==> isLoadingAuth
    ensures v == LoginPrompt <==> !isLoadingAuth && !isLoggedIn
    ensures v == EmptyCart <==> !isLoadingAuth && isLoggedIn && items == []
    ensures v == CartContents <==> !isLoadingAuth && isLoggedIn && items != []
  {
    if isLoadingAuth then Spinner
    else if !isLoggedIn && !isLoadingAuth then LoginPrompt
    else if |items| == 0 then EmptyCart
    else CartContents
  }
}
