/**
 * The shopping cart of the meal browser: a list of (meal, qty) lines
 * updated by `addToCart` and `updateQty`, its total, the checkout
 * guards, and the availability filter applied to the meals on load.
 */
module Cart {
  import opened Domain
  import opened Seqs

  /** Every line is from the same cook as the first line. */
  ghost predicate SingleCook(cart: seq<CartItem>) {
    forall k :: 0 <= k < |cart| ==> cart[k].meal.cookId == cart[0].meal.cookId
  }

  /** No meal appears on two lines. */
  ghost predicate UniqueMeals(cart: seq<CartItem>) {
    forall i, j :: 0 <= i < j < |cart| ==> cart[i].meal.id != cart[j].meal.id
  }

  ghost predicate PositiveQuantities(cart: seq<CartItem>) {
    forall k :: 0 <= k < |cart| ==> cart[k].qty > 0
  }

  /** The three invariants the cart keeps. */
  ghost predicate WellFormed(cart: seq<CartItem>) {
    SingleCook(cart) && UniqueMeals(cart) && PositiveQuantities(cart)
  }

  ghost predicate HasMeal(cart: seq<CartItem>, mealId: nat) {
    exists k :: 0 <= k < |cart| && cart[k].meal.id == mealId
  }

  /** Each line for `mealId` gets one more portion; other lines are kept. */
  function Bumped(cart: seq<CartItem>, mealId: nat): (r: seq<CartItem>)
    ensures |r| == |cart|
    ensures forall k :: 0 <= k < |cart| ==>
              r[k] == if cart[k].meal.id == mealId then cart[k].(qty := cart[k].qty + 1) else cart[k]
  {
    seq(|cart|, k requires 0 <= k < |cart| =>
      if cart[k].meal.id == mealId then cart[k].(qty := cart[k].qty + 1) else cart[k])
  }

  /**
   * addToCart. A meal already in the cart gets one more portion. A meal
   * from another cook than the cart's asks to clear the cart: declined
   * (`replaceConfirmed` false) leaves the cart, accepted starts a new
   * cart with that meal. Otherwise the meal is appended with one portion.
   */
  function AddToCart(cart: seq<CartItem>, meal: Meal, replaceConfirmed: bool): (r: seq<CartItem>)
    ensures r != []
    ensures HasMeal(r, meal.id) || r == cart
    ensures |r| <= |cart| + 1
  {
    var line := CartItem(meal, 1);
    assert [line][0] == (cart + [line])[|cart|] == line;
    if HasMealLine(cart, meal.id) then Bumped(cart, meal.id)
    else if |cart| > 0 && cart[0].meal.cookId != meal.cookId then
      if replaceConfirmed then [line] else cart
    else cart + [line]
  }

  /** `prev.find(item => item.meal.id === meal.id)` found a line. */
  predicate HasMealLine(cart: seq<CartItem>, mealId: nat) {
    FindIndex(cart, (item: CartItem) => item.meal.id == mealId).Some?
  }

  lemma HasMealLineIff(cart: seq<CartItem>, mealId: nat)
    ensures HasMealLine(cart, mealId) <==> HasMeal(cart, mealId)
  {
    var f := FindIndex(cart, (item: CartItem) => item.meal.id == mealId);
    if f.Some? {
      assert cart[f.value].meal.id == mealId;
    }
  }

  /** Adding a meal already in a well-formed cart raises only its line's quantity by one. */
  lemma {:induction false} AddExistingBumpsOneLine(cart: seq<CartItem>, meal: Meal, replaceConfirmed: bool, k: nat)
    requires WellFormed(cart)
    requires k < |cart| && cart[k].meal.id == meal.id
    ensures var r := AddToCart(cart, meal, replaceConfirmed);
            && |r| == |cart|
            && r[k] == cart[k].(qty := cart[k].qty + 1)
            && forall j :: 0 <= j < |cart| && j != k ==> r[j] == cart[j]
  {
    HasMealLineIff(cart, meal.id);
  }

  /** A new meal from the cart's cook (or into an empty cart) is appended with quantity one. */
  lemma {:induction false} AddNewAppends(cart: seq<CartItem>, meal: Meal, replaceConfirmed: bool)
    requires !HasMeal(cart, meal.id)
    requires cart == [] || cart[0].meal.cookId == meal.cookId
    ensures AddToCart(cart, meal, replaceConfirmed) == cart + [CartItem(meal, 1)]
  {
    HasMealLineIff(cart, meal.id);
  }

  /** A new meal from another cook either leaves the cart (declined) or replaces it (accepted). */
  lemma {:induction false} AddOtherCookReplacesOrKeeps(cart: seq<CartItem>, meal: Meal, replaceConfirmed: bool)
    requires !HasMeal(cart, meal.id)
    requires cart != [] && cart[0].meal.cookId != meal.cookId
    ensures AddToCart(cart, meal, replaceConfirmed) == if replaceConfirmed then [CartItem(meal, 1)] else cart
  {
    HasMealLineIff(cart, meal.id);
  }

  /** addToCart keeps the cart from one cook, with distinct meals and positive quantities. */
  lemma {:induction false} AddToCartWellFormed(cart: seq<CartItem>, meal: Meal, replaceConfirmed: bool)
    requires WellFormed(cart)
    ensures WellFormed(AddToCart(cart, meal, replaceConfirmed))
  {
    HasMealLineIff(cart, meal.id);
    var r := AddToCart(cart, meal, replaceConfirmed);
    if !HasMeal(cart, meal.id) && !(|cart| > 0 && cart[0].meal.cookId != meal.cookId) {
      assert r == cart + [CartItem(meal, 1)];
      forall i, j | 0 <= i < j < |r| ensures r[i].meal.id != r[j].meal.id {
        if j == |cart| {
          assert r[i] == cart[i];
        }
      }
    }
  }

  /** Bumping a meal that has exactly one line raises the total by that line's price. */
  lemma {:induction false} BumpedTotal(cart: seq<CartItem>, mealId: nat, k: nat)
    requires UniqueMeals(cart)
    requires k < |cart| && cart[k].meal.id == mealId
    ensures CartTotal(Bumped(cart, mealId)) == CartTotal(cart) + cart[k].meal.price
  {
    var n := |cart| - 1;
    var init, last := cart[..n], cart[n];
    var bumped := Bumped(cart, mealId);
    assert bumped[..n] == Bumped(init, mealId);
    if k == n {
      assert Bumped(init, mealId) == init by {
        forall j | 0 <= j < n ensures init[j].meal.id != mealId {
          assert cart[j].meal.id != cart[n].meal.id;
        }
      }
    } else {
      assert cart[k].meal.id != cart[n].meal.id;
      BumpedTotal(init, mealId, k);
    }
  }

  /**
   * Adding a meal to a well-formed cart raises the cart total by one
   * portion's price, unless it is declined or replaces the cart.
   */
  lemma {:induction false} AddToCartTotal(cart: seq<CartItem>, meal: Meal, replaceConfirmed: bool)
    requires WellFormed(cart)
    ensures var r := AddToCart(cart, meal, replaceConfirmed);
            && (HasMeal(cart, meal.id) ==> exists k :: 0 <= k < |cart| && cart[k].meal.id == meal.id &&
                                                   CartTotal(r) == CartTotal(cart) + cart[k].meal.price)
            && (!HasMeal(cart, meal.id) && (cart == [] || cart[0].meal.cookId == meal.cookId) ==>
                  CartTotal(r) == CartTotal(cart) + meal.price)
            && (!HasMeal(cart, meal.id) && cart != [] && cart[0].meal.cookId != meal.cookId ==>
                  CartTotal(r) == if replaceConfirmed then meal.price else CartTotal(cart))
  {
    HasMealLineIff(cart, meal.id);
    if HasMeal(cart, meal.id) {
      var k :| 0 <= k < |cart| && cart[k].meal.id == meal.id;
      BumpedTotal(cart, meal.id, k);
    } else if cart == [] || cart[0].meal.cookId == meal.cookId {
      CartTotalAppend(cart, CartItem(meal, 1));
    } else if replaceConfirmed {
      assert [CartItem(meal, 1)] == [] + [CartItem(meal, 1)];
      CartTotalAppend([], CartItem(meal, 1));
    }
  }

  /** The quantity change of one line, clamped at zero (`Math.max(0, qty + delta)`). */
  function Adjusted(item: CartItem, mealId: nat, delta: int): (r: CartItem)
    ensures r.meal == item.meal
    ensures item.meal.id == mealId ==> r.qty == if item.qty + delta > 0 then item.qty + delta else 0
    ensures item.meal.id != mealId ==> r == item
  {
    if item.meal.id == mealId then item.(qty := if item.qty + delta > 0 then item.qty + delta else 0)
    else item
  }

  function Positive(item: CartItem): bool { item.qty > 0 }

  /** updateQty: adjust the lines of `mealId` by `delta` (never below zero), then drop the empty lines. */
  function UpdateQty(cart: seq<CartItem>, mealId: nat, delta: int): (r: seq<CartItem>)
    ensures PositiveQuantities(r)
    ensures forall item :: item in r ==> item.meal.id != mealId ==> item in cart
  {
    var adjusted := AdjustedLines(cart, mealId, delta);
    var r := Filter(adjusted, Positive);
    assert forall item :: item in r ==> item in adjusted && item.qty > 0;
    assert forall k :: 0 <= k < |r| ==> r[k] in r;
    r
  }

  /** The lines `updateQty` computes before dropping the empty ones. */
  function AdjustedLines(cart: seq<CartItem>, mealId: nat, delta: int): (r: seq<CartItem>)
    ensures |r| == |cart|
    ensures forall k :: 0 <= k < |cart| ==> r[k] == Adjusted(cart[k], mealId, delta)
  {
    seq(|cart|, k requires 0 <= k < |cart| => Adjusted(cart[k], mealId, delta))
  }

  /** updateQty for a meal that is not in a cart of positive quantities leaves the cart as it is. */
  lemma UpdateQtyAbsentMeal(cart: seq<CartItem>, mealId: nat, delta: int)
    requires PositiveQuantities(cart) && !HasMeal(cart, mealId)
    ensures UpdateQty(cart, mealId, delta) == cart
  {
    assert AdjustedLines(cart, mealId, delta) == cart;
    FilterAll(cart, Positive);
  }

  /**
   * On a cart with distinct meals and positive quantities, updateQty
   * changes only the meal's line: it takes the new quantity in place, or
   * is removed when the quantity reaches zero.
   */
  lemma UpdateQtyChangesOneLine(cart: seq<CartItem>, mealId: nat, delta: int, k: nat)
    requires UniqueMeals(cart) && PositiveQuantities(cart)
    requires k < |cart| && cart[k].meal.id == mealId
    ensures UpdateQty(cart, mealId, delta) ==
              cart[..k] + (if cart[k].qty + delta > 0 then [cart[k].(qty := cart[k].qty + delta)] else []) + cart[k + 1..]
  {
    var adjusted := AdjustedLines(cart, mealId, delta);
    var before, line, after := cart[..k], adjusted[k], cart[k + 1..];
    forall j | 0 <= j < |cart| && j != k ensures adjusted[j] == cart[j] {
      if j < k {
        assert cart[j].meal.id != cart[k].meal.id;
      } else {
        assert cart[k].meal.id != cart[j].meal.id;
      }
    }
    assert adjusted[..k] == before;
    assert adjusted[k + 1..] == after;
    assert adjusted == adjusted[..k] + [line] + adjusted[k + 1..];
    FilterAroundOne(before, line, after, Positive);
  }

  /** updateQty keeps the cart from one cook with distinct meals, and every line it keeps has a positive quantity. */
  lemma {:induction false} UpdateQtyWellFormed(cart: seq<CartItem>, mealId: nat, delta: int)
    requires WellFormed(cart)
    ensures WellFormed(UpdateQty(cart, mealId, delta))
  {
    var adjusted := AdjustedLines(cart, mealId, delta);
    assert forall k :: 0 <= k < |adjusted| ==> adjusted[k].meal == cart[k].meal;
    FilterKeepsMeals(adjusted, Positive);
  }

  /** Filtering a list of lines keeps one cook and distinct meals. */
  lemma FilterKeepsMeals(s: seq<CartItem>, p: CartItem -> bool)
    requires SingleCook(s) && UniqueMeals(s)
    ensures SingleCook(Filter(s, p)) && UniqueMeals(Filter(s, p))
  {
    var r := Filter(s, p);
    assert forall k :: 0 <= k < |r| ==> r[k] in s;
    FilterKeepsUniqueMeals(s, p);
  }

  lemma {:induction false} FilterKeepsUniqueMeals(s: seq<CartItem>, p: CartItem -> bool)
    requires UniqueMeals(s)
    ensures UniqueMeals(Filter(s, p))
  {
    if s != [] {
      var init, last := s[..|s| - 1], s[|s| - 1];
      FilterKeepsUniqueMeals(init, p);
      if p(last) {
        var fi := Filter(init, p);
        assert forall y :: y in fi ==> y in init;
        assert forall y :: y in init ==> y.meal.id != last.meal.id;
        AppendUniqueMeal(fi, last);
      }
    }
  }

  lemma AppendUniqueMeal(a: seq<CartItem>, x: CartItem)
    requires UniqueMeals(a)
    requires forall y :: y in a ==> y.meal.id != x.meal.id
    ensures UniqueMeals(a + [x])
  {
    var r := a + [x];
    forall i, j | 0 <= i < j < |r| ensures r[i].meal.id != r[j].meal.id {
      if j == |a| {
        assert r[i] in a;
      }
    }
  }

  /** What the checkout button leads to. */
  datatype CheckoutStep =
    | Ignore                 // no user, or an empty cart
    | AskForPayment          // no payment method chosen
    | PlaceOrder(clientId: nat, cookId: nat, items: seq<CartItem>, paymentLabel: string)

  /** handleCheckout's guards: the order goes to the cook of the first line, paid as selected. */
  function Checkout(user: Option<User>, cart: seq<CartItem>, selectedPayment: string): (r: CheckoutStep)
    ensures r == Ignore <==> user.None? || cart == []
    ensures r == AskForPayment <==> user.Some? && cart != [] && selectedPayment == ""
    ensures r.PlaceOrder? ==>
              && r.clientId == user.value.id && r.cookId == cart[0].meal.cookId
              && r.items == cart && r.paymentLabel == selectedPayment != ""
  {
    if user.None? || cart == [] then Ignore
    else if selectedPayment == "" then AskForPayment
    else PlaceOrder(user.value.id, cart[0].meal.cookId, cart, selectedPayment)
  }

  /** On a single-cook cart, checkout orders from the cook of every line. */
  lemma CheckoutOrdersFromTheCartsCook(user: Option<User>, cart: seq<CartItem>, selectedPayment: string)
    requires SingleCook(cart)
    ensures var r := Checkout(user, cart, selectedPayment);
            r.PlaceOrder? ==> forall k :: 0 <= k < |cart| ==> cart[k].meal.cookId == r.cookId
  {
  }

  function IsAvailable(m: Meal): bool { m.available }

  /** The meals the browser shows: the stored ones with `available` set, in table order. */
  function VisibleMeals(meals: seq<Meal>): (r: seq<Meal>)
    ensures forall m :: m in r <==> m in meals && m.available
    ensures forall k :: 0 <= k < |r| ==> r[k].available
    ensures r == Filter(meals, IsAvailable)
  {
    var r := Filter(meals, IsAvailable);
    assert forall k :: 0 <= k < |r| ==> r[k] in r;
    r
  }
}
