/** The restaurant controllers: create, list, read by id and delete. */
module RestaurantController {
  import opened Wrappers
  import opened Model
  import opened Db

  /** A stored restaurant seen as a request that supplies every one of its fields. */
  function FieldsOf(r: Restaurant): RestaurantFields
  {
    RestaurantFields(Some(r.title), r.imageUrl, r.foods, r.time, r.pickup, r.delivery,
                     r.isOpen, r.logoUrl, r.rating, r.ratingCount, r.code, Some(r.address))
  }

  /** The restaurant that create stores for a validated request: exactly the
      supplied fields, so reading its fields back gives the request. */
  function NewRestaurant(input: RestaurantFields): (r: Restaurant)
    requires input.Complete()
    ensures FieldsOf(r) == input
  {
    Restaurant(input.title.value, input.imageUrl, input.foods, input.time, input.pickup,
               input.delivery, input.isOpen, input.logoUrl, input.rating, input.ratingCount,
               input.code, input.address.value)
  }

  /** createResturantController: a missing title or address is answered with 500. */
  method CreateRestaurant(db: Store, input: RestaurantFields) returns (r: Response)
    requires db.Valid()
    modifies db
    ensures db.Valid()
    ensures !input.Complete() ==> r == Fail(500, "Please Provide title and address") && unchanged(db)
    ensures input.Complete() ==>
      var id := old(db.nextId);
      && id !in old(db.restaurants)
      && db.State() == old(db.State()).(restaurants := old(db.restaurants)[id := NewRestaurant(input)])
      && db.nextId == id + 1
      && r == Ok(200, "New Resturant Created Successfully", NoBody)
  {
    if !input.Complete() {
      return Fail(500, "Please Provide title and address");
    }
    var restaurant := NewRestaurant(input);
    var id := db.NewId();
    db.restaurants := db.restaurants[id := restaurant];
    r := Ok(200, "New Resturant Created Successfully", NoBody);
  }

  /** getAllResturantController: every restaurant and their number; the
      "Resturants Not Found" branch cannot run. */
  method GetAllRestaurants(db: Store) returns (r: Response)
    ensures r.Response? && r.status == 200 && r.body.RestaurantsBody?
    ensures r.body.restaurants == db.restaurants && r.body.totalCount == |r.body.restaurants|
    ensures r == Ok(200, "Resturants Found Successfully", RestaurantsBody(|db.restaurants|, db.restaurants))
  {
    var found := Some(db.restaurants);  // find({}) resolves to an array, never to null
    if !TruthyRef(found) {
      assert false;
    }
    r := Ok(200, "Resturants Found Successfully", RestaurantsBody(|found.value|, found.value));
  }

  /** getResturantByIdController: success is answered with 202. */
  method GetRestaurantById(db: Store, restaurantId: Option<Id>) returns (r: Response)
    ensures restaurantId.None? ==> r == Fail(404, "Please Provide Resturant Id")
    ensures restaurantId.Some? && restaurantId.value !in db.restaurants ==> r == Fail(404, "Resturant Not Found By Id")
    ensures Has(db.restaurants, restaurantId) ==>
      r == Ok(202, "Resturant Found Successfully By Id", RestaurantBody(restaurantId.value, db.restaurants[restaurantId.value]))
  {
    if !TruthyRef(restaurantId) {
      return Fail(404, "Please Provide Resturant Id");
    }
    if restaurantId.value !in db.restaurants {
      return Fail(404, "Resturant Not Found By Id");
    }
    r := Ok(202, "Resturant Found Successfully By Id", RestaurantBody(restaurantId.value, db.restaurants[restaurantId.value]));
  }

  /** deleteResturantController: answers 200 whether or not the id was stored;
      the foods of the restaurant stay. */
  method DeleteRestaurant(db: Store, restaurantId: Option<Id>) returns (r: Response)
    requires db.Valid()
    modifies db
    ensures db.Valid()
    ensures restaurantId.None? ==> r == Fail(404, "Resturnat Not Found, Please Provide Resturant Id") && unchanged(db)
    ensures restaurantId.Some? ==>
      && db.State() == old(db.State()).(restaurants := old(db.restaurants) - {restaurantId.value})
      && db.nextId == old(db.nextId)
      && r == Ok(200, "Resturant Deleted Successfully", NoBody)
  {
    if !TruthyRef(restaurantId) {
      return Fail(404, "Resturnat Not Found, Please Provide Resturant Id");
    }
    db.restaurants := db.restaurants - {restaurantId.value};
    r := Ok(200, "Resturant Deleted Successfully", NoBody);
  }
}
