/**
 * The food and order controllers: create, read, update and delete foods,
 * place an order from a cart, and set an order's status.
 */
module FoodController {
  import opened Wrappers
  import opened Model
  import opened Db

  // ---------------------------------------------------------------------------
  // Order total
  // ---------------------------------------------------------------------------

  /** The sum of the line prices, added up from the first line to the last. */
  function Sum(cart: seq<CartItem>): int
  {
    if cart == [] then 0 else Sum(cart[..|cart| - 1]) + cart[|cart| - 1].price
  }

  /** The total of two carts laid end to end is the sum of their totals. */
  lemma {:induction false} SumAppend(a: seq<CartItem>, b: seq<CartItem>)
    ensures Sum(a + b) == Sum(a) + Sum(b)
    decreases |b|
  {
    if b == [] {
      assert a + b == a;
    } else {
      var b' := b[..|b| - 1];
      assert (a + b)[..|a + b| - 1] == a + b';
      SumAppend(a, b');
    }
  }

  /** A line between two parts of a cart adds its price to their total. */
  lemma SumSplit(front: seq<CartItem>, x: CartItem, back: seq<CartItem>)
    ensures Sum(front + [x] + back) == Sum(front + back) + x.price
  {
    SumAppend(front + [x], back);
    SumAppend(front, [x]);
    SumAppend(front, back);
  }

  /** Taking one line out of a cart lowers the total by that line's price. */
  lemma SumRemove(b: seq<CartItem>, j: nat)
    requires j < |b|
    ensures Sum(b) == Sum(b[..j] + b[j + 1..]) + b[j].price
  {
    var front, back := b[..j], b[j + 1..];
    SplitAt(b, j);
    SumSplit(front, b[j], back);
  }

  /** A cart is the lines before `j`, line `j`, and the lines after it. */
  lemma SplitAt(b: seq<CartItem>, j: nat)
    requires j < |b|
    ensures b == b[..j] + [b[j]] + b[j + 1..]
  {
  }

  /** Taking one line out of a sequence takes one copy of it out of its multiset. */
  lemma MultisetRemove(b: seq<CartItem>, j: nat)
    requires j < |b|
    ensures multiset(b) == multiset(b[..j] + b[j + 1..]) + multiset{b[j]}
  {
    SplitAt(b, j);
  }

  /** The total does not depend on the order of the cart lines. */
  lemma {:induction false} SumPermutation(a: seq<CartItem>, b: seq<CartItem>)
    requires multiset(a) == multiset(b)
    ensures Sum(a) == Sum(b)
    decreases |a|
  {
    if a == [] {
      assert |b| == |multiset(b)| == 0;
    } else {
      var x := a[|a| - 1];
      var a' := a[..|a| - 1];
      assert a == a' + [x];
      assert multiset(a) == multiset(a') + multiset{x};
      assert x in multiset(b);
      var j :| 0 <= j < |b| && b[j] == x;
      var rest := b[..j] + b[j + 1..];
      MultisetRemove(b, j);
      assert multiset(a') == multiset(a) - multiset{x};
      assert multiset(rest) == multiset(b) - multiset{x};
      SumPermutation(a', rest);
      SumRemove(b, j);
    }
  }

  /** With no negative line price the total is not negative. */
  lemma {:induction false} SumNonNegative(cart: seq<CartItem>)
    requires forall i :: 0 <= i < |cart| ==> cart[i].price >= 0
    ensures Sum(cart) >= 0
    decreases |cart|
  {
    if cart != [] {
      SumNonNegative(cart[..|cart| - 1]);
    }
  }

  /** The loop of place-order that adds up `total` over the cart. */
  method CartTotal(cart: seq<CartItem>) returns (total: int)
    ensures total == Sum(cart)
  {
    total := 0;
    for i := 0 to |cart|
      invariant total == Sum(cart[..i])
    {
      assert cart[..i + 1][..i] == cart[..i];
      total := total + cart[i].price;
    }
    assert cart[..|cart|] == cart;
  }

  // ---------------------------------------------------------------------------
  // Food documents
  // ---------------------------------------------------------------------------

  /** A stored food seen as a request that supplies every one of its fields. */
  function FieldsOf(f: Food): FoodFields
  {
    FoodFields(Some(f.title), Some(f.description), Some(f.price), f.imageUrl, f.foodTags,
               f.category, f.code, f.isAvailable, Some(f.restaurant), f.rating)
  }

  /** The food that create stores for a validated request: it carries exactly the
      supplied fields, so reading its fields back gives the request. */
  function NewFood(input: FoodFields): (f: Food)
    requires input.Complete()
    ensures FieldsOf(f) == input
  {
    Food(input.title.value, input.description.value, input.price.value, input.imageUrl,
         input.foodTags, input.category, input.code, input.isAvailable,
         input.restaurant.value, input.rating)
  }

  /** The stored food after `findByIdAndUpdate` with the request's fields. */
  function MergeFood(f: Food, u: FoodFields): Food
  {
    Food(Overwrite(u.title, f.title), Overwrite(u.description, f.description),
         Overwrite(u.price, f.price), OverwriteOpt(u.imageUrl, f.imageUrl),
         OverwriteOpt(u.foodTags, f.foodTags), OverwriteOpt(u.category, f.category),
         OverwriteOpt(u.code, f.code), OverwriteOpt(u.isAvailable, f.isAvailable),
         Overwrite(u.restaurant, f.restaurant), OverwriteOpt(u.rating, f.rating))
  }

  /** An update that restates the stored fields, or that supplies none, leaves the
      record as it is; applying the same update twice is applying it once. */
  lemma MergeFoodLaws(f: Food, u: FoodFields)
    ensures MergeFood(f, FieldsOf(f)) == f
    ensures MergeFood(f, FoodFields(None, None, None, None, None, None, None, None, None, None)) == f
    ensures MergeFood(MergeFood(f, u), u) == MergeFood(f, u)
  {
  }

  /** `find({ restaurant })`: the foods whose restaurant is `rid`, and only those. */
  function FoodsOf(foods: map<Id, Food>, rid: Id): map<Id, Food>
  {
    map id | id in foods && foods[id].restaurant == rid :: foods[id]
  }

  /** Storing a food adds it to its own restaurant's foods and to no other's;
      removing one takes it out of every restaurant's foods and changes nothing else. */
  lemma FoodsOfAfterChange(foods: map<Id, Food>, id: Id, f: Food, rid: Id)
    requires id !in foods
    ensures FoodsOf(foods[id := f], rid) == if f.restaurant == rid then FoodsOf(foods, rid)[id := f] else FoodsOf(foods, rid)
    ensures FoodsOf(foods[id := f] - {id}, rid) == FoodsOf(foods, rid)
  {
    assert foods[id := f] - {id} == foods;
  }

  // ---------------------------------------------------------------------------
  // Controllers
  // ---------------------------------------------------------------------------

  /** createfoodController. */
  method CreateFood(db: Store, input: FoodFields) returns (r: Response)
    requires db.Valid()
    modifies db
    ensures db.Valid()
    ensures !input.Complete() ==> r == Fail(404, "Please provide all fields") && unchanged(db)
    ensures input.price == Some(0) ==> r == Fail(404, "Please provide all fields")
    ensures input.Complete() ==>
      var id := old(db.nextId);
      && id !in old(db.foods)
      && db.State() == old(db.State()).(foods := old(db.foods)[id := NewFood(input)])
      && db.nextId == id + 1
      && r == Ok(200, "Food created successfully", FoodBody(id, NewFood(input)))
  {
    if !input.Complete() {
      return Fail(404, "Please provide all fields");
    }
    var food := NewFood(input);
    var id := db.NewId();
    db.foods := db.foods[id := food];
    r := Ok(200, "Food created successfully", FoodBody(id, food));
  }

  /** getAllfoodController: every food; its "No food found" branch cannot run. */
  method GetAllFoods(db: Store) returns (r: Response)
    ensures r == Ok(200, "Foods fetched successfully", FoodsBody(db.foods))
  {
    var found := Some(db.foods);  // find() resolves to an array, never to null
    if !TruthyRef(found) {
      assert false;
    }
    r := Ok(200, "Foods fetched successfully", FoodsBody(found.value));
  }

  /** getSingleFoodController. */
  method GetSingleFood(db: Store, foodId: Option<Id>) returns (r: Response)
    ensures foodId.None? ==> r == Fail(404, "Please provide valid food id")
    ensures foodId.Some? && foodId.value !in db.foods ==> r == Fail(404, "No food found with this id")
    ensures Has(db.foods, foodId) ==> r == Ok(200, "Food fetched successfully", FoodBody(foodId.value, db.foods[foodId.value]))
  {
    if !TruthyRef(foodId) {
      return Fail(404, "Please provide valid food id");
    }
    if foodId.value !in db.foods {
      return Fail(404, "No food found with this id");
    }
    r := Ok(200, "Food fetched successfully", FoodBody(foodId.value, db.foods[foodId.value]));
  }

  /** getFoodbyRestaurantController: exactly the foods of that restaurant, possibly
      none; its "No food found with this id" branch cannot run. */
  method GetFoodsByRestaurant(db: Store, restaurantId: Option<Id>) returns (r: Response)
    ensures restaurantId.None? ==> r == Fail(404, "Please provide valid restaurant id")
    ensures restaurantId.Some? ==>
      && r.Response? && r.status == 200 && r.body.FoodsBody?
      && (forall id :: id in r.body.foods <==> id in db.foods && db.foods[id].restaurant == restaurantId.value)
      && (forall id :: id in r.body.foods ==> r.body.foods[id] == db.foods[id])
      && r == Ok(200, "Food based on restaurant fetched successfully", FoodsBody(FoodsOf(db.foods, restaurantId.value)))
  {
    if !TruthyRef(restaurantId) {
      return Fail(404, "Please provide valid restaurant id");
    }
    var found := Some(FoodsOf(db.foods, restaurantId.value));  // an array, never null
    if !TruthyRef(found) {
      assert false;
    }
    r := Ok(200, "Food based on restaurant fetched successfully", FoodsBody(found.value));
  }

  /** updateFoodController: only the food with that id changes. */
  method UpdateFood(db: Store, foodId: Option<Id>, input: FoodFields) returns (r: Response)
    requires db.Valid()
    modifies db
    ensures db.Valid()
    ensures foodId.None? ==> r == Fail(404, "Please provide valid food id") && unchanged(db)
    ensures foodId.Some? && foodId.value !in old(db.foods) ==> r == Fail(404, "No food found with this id") && unchanged(db)
    ensures Has(old(db.foods), foodId) ==>
      && db.State() == old(db.State()).(foods := old(db.foods)[foodId.value := MergeFood(old(db.foods)[foodId.value], input)])
      && db.nextId == old(db.nextId)
      && r == Ok(200, "Food updated successfully", NoBody)
  {
    if !TruthyRef(foodId) {
      return Fail(404, "Please provide valid food id");
    }
    if foodId.value !in db.foods {
      return Fail(404, "No food found with this id");
    }
    var id := foodId.value;
    db.foods := db.foods[id := MergeFood(db.foods[id], input)];
    r := Ok(200, "Food updated successfully", NoBody);
  }

  /** deletefoodController: a known id removes that food and sends no response at
      all; the second "No food found" check tests the food found before, so it cannot fire. */
  method DeleteFood(db: Store, foodId: Option<Id>) returns (r: Response)
    requires db.Valid()
    modifies db
    ensures db.Valid()
    ensures foodId.None? ==> r == Fail(404, "Please provide valid food id") && unchanged(db)
    ensures foodId.Some? && foodId.value !in old(db.foods) ==> r == Fail(404, "No food found with this id") && unchanged(db)
    ensures Has(old(db.foods), foodId) ==>
      && db.State() == old(db.State()).(foods := old(db.foods) - {foodId.value})
      && db.nextId == old(db.nextId)
      && r == NoResponse
  {
    if !TruthyRef(foodId) {
      return Fail(404, "Please provide valid food id");
    }
    if foodId.value !in db.foods {
      return Fail(404, "No food found with this id");
    }
    var food := Some(db.foods[foodId.value]);
    db.foods := db.foods - {foodId.value};
    if !TruthyRef(food) {
      assert false;
    }
    r := NoResponse;
  }

  /** orderStatusController: sets the status of the order with that id if there is
      one, and answers 200 whether or not there is. */
  method UpdateOrderStatus(db: Store, orderId: Option<Id>, status: Option<string>) returns (r: Response)
    requires db.Valid()
    modifies db
    ensures db.Valid()
    ensures orderId.None? ==> r == Fail(404, "Please provide valid order id") && unchanged(db)
    ensures orderId.Some? ==> r == Ok(200, "Order Status Updated", NoBody)
    ensures orderId.Some? && orderId.value !in old(db.orders) ==> unchanged(db)
    ensures Has(old(db.orders), orderId) ==>
      && db.State() == old(db.State()).(orders := old(db.orders)[orderId.value :=
           old(db.orders)[orderId.value].(status := OverwriteOpt(status, old(db.orders)[orderId.value].status))])
      && db.nextId == old(db.nextId)
  {
    if !TruthyRef(orderId) {
      return Fail(404, "Please provide valid order id");
    }
    var id := orderId.value;
    if id in db.orders {
      db.orders := db.orders[id := db.orders[id].(status := OverwriteOpt(status, db.orders[id].status))];
    }
    r := Ok(200, "Order Status Updated", NoBody);
  }

  /** placeOrderController: one new order with the cart verbatim, the sum of its
      prices as payment and the request's `id` as buyer. An empty cart is accepted. */
  method PlaceOrder(db: Store, cart: Option<seq<CartItem>>, buyer: Option<Id>) returns (r: Response)
    requires db.Valid()
    modifies db
    ensures db.Valid()
    ensures cart.None? ==> r == Fail(404, "Please provide cart and payment details") && unchanged(db)
    ensures cart.Some? ==>
      var id := old(db.nextId);
      var order := Order(cart.value, Sum(cart.value), buyer, None);
      && id !in old(db.orders)
      && db.State() == old(db.State()).(orders := old(db.orders)[id := order])
      && db.nextId == id + 1
      && r == Ok(200, "Order placed successfully", OrderBody(id, order))
  {
    if !TruthyRef(cart) {
      return Fail(404, "Please provide cart and payment details");
    }
    var total := CartTotal(cart.value);
    var order := Order(cart.value, total, buyer, None);
    var id := db.NewId();
    db.orders := db.orders[id := order];
    r := Ok(200, "Order placed successfully", OrderBody(id, order));
  }
}
