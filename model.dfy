/**
 * The documents kept by the food-delivery backend, the request fields its
 * controllers read, the response envelopes they send, and the abstract
 * collaborators (password hashing, token signing) they call.
 */
module Model {
  import opened Wrappers

  /** A document id. The store draws fresh ids from a counter. */
  type Id = nat

  // ---------------------------------------------------------------------------
  // JavaScript truthiness of request fields
  // ---------------------------------------------------------------------------

  /** `!!s` for a string field: present and not the empty string. */
  predicate TruthyStr(v: Option<string>)
  {
    v.Some? && v.value != ""
  }

  /** `!!n` for a number field: present and not zero (so a price of 0 is falsy). */
  predicate TruthyNum(v: Option<int>)
  {
    v.Some? && v.value != 0
  }

  /** `!!x` for an object, an array or an id: present. An empty array is truthy. */
  predicate TruthyRef<T>(v: Option<T>)
  {
    v.Some?
  }

  // ---------------------------------------------------------------------------
  // How an update document is applied to a stored field
  // ---------------------------------------------------------------------------

  /** A field of an update document overwrites the stored value when it is present
      (even when it is "" or 0); an absent field leaves the stored value as it is. */
  function Overwrite<T>(supplied: Option<T>, current: T): T
  {
    if supplied.Some? then supplied.value else current
  }

  /** `Overwrite` for a field that is itself optional in the stored document. */
  function OverwriteOpt<T>(supplied: Option<T>, current: Option<T>): Option<T>
  {
    if supplied.Some? then supplied else current
  }

  /** `if (x) doc.field = x`: assignment guarded by the truthiness of the new value. */
  function AssignIfTruthy(supplied: Option<string>, current: string): string
  {
    if TruthyStr(supplied) then supplied.value else current
  }

  // ---------------------------------------------------------------------------
  // Documents
  // ---------------------------------------------------------------------------

  /** A food item; `price` is in the smallest currency unit. */
  datatype Food = Food(
    title: string,
    description: string,
    price: int,
    imageUrl: Option<string>,
    foodTags: Option<seq<string>>,
    category: Option<string>,
    code: Option<string>,
    isAvailable: Option<bool>,
    restaurant: Id,
    rating: Option<int>)

  /** The food fields a create or update request carries, each possibly undefined. */
  datatype FoodFields = FoodFields(
    title: Option<string>,
    description: Option<string>,
    price: Option<int>,
    imageUrl: Option<string>,
    foodTags: Option<seq<string>>,
    category: Option<string>,
    code: Option<string>,
    isAvailable: Option<bool>,
    restaurant: Option<Id>,
    rating: Option<int>)
  {
    /** The create-food validation: title, description, price and restaurant all truthy. */
    predicate Complete()
    {
      TruthyStr(title) && TruthyStr(description) && TruthyNum(price) && TruthyRef(restaurant)
    }
  }

  /** One line of a cart as the client sends it. */
  datatype CartItem = CartItem(food: Option<Id>, price: int)

  /** An order: the cart snapshot, the computed payment, the buyer, and a status
      that is `None` until a status update sets it (the schema default is not modelled). */
  datatype Order = Order(foods: seq<CartItem>, payment: int, buyer: Option<Id>, status: Option<string>)

  datatype Restaurant = Restaurant(
    title: string,
    imageUrl: Option<string>,
    foods: Option<seq<Id>>,
    time: Option<string>,
    pickup: Option<bool>,
    delivery: Option<bool>,
    isOpen: Option<bool>,
    logoUrl: Option<string>,
    rating: Option<int>,
    ratingCount: Option<int>,
    code: Option<string>,
    address: string)

  /** The restaurant fields a create request carries. */
  datatype RestaurantFields = RestaurantFields(
    title: Option<string>,
    imageUrl: Option<string>,
    foods: Option<seq<Id>>,
    time: Option<string>,
    pickup: Option<bool>,
    delivery: Option<bool>,
    isOpen: Option<bool>,
    logoUrl: Option<string>,
    rating: Option<int>,
    ratingCount: Option<int>,
    code: Option<string>,
    address: Option<string>)
  {
    /** The create-restaurant validation: title and address truthy. */
    predicate Complete()
    {
      TruthyStr(title) && TruthyStr(address)
    }
  }

  datatype Category = Category(title: string, imageUrl: Option<string>)

  /** A user account; `password` holds a hash, `answer` the security answer. */
  datatype User = User(
    username: string,
    email: string,
    password: string,
    address: string,
    phone: string,
    answer: string,
    isVerified: bool,
    verifyToken: Option<string>,
    profile: Option<string>)

  /** A user as sent to a client: every field except the password. */
  datatype UserView = UserView(
    username: string,
    email: string,
    address: string,
    phone: string,
    answer: string,
    isVerified: bool,
    verifyToken: Option<string>,
    profile: Option<string>)

  /** An admin account; `password` holds a hash. */
  datatype Admin = Admin(email: string, password: string)

  /** An admin as sent to a client after login: the password is blanked. */
  datatype AdminView = AdminView(email: string)

  // ---------------------------------------------------------------------------
  // Responses
  // ---------------------------------------------------------------------------

  /** The payload a response carries besides `success` and `message`. */
  datatype Body =
    | NoBody
    | FoodBody(foodId: Id, food: Food)
    | FoodsBody(foods: map<Id, Food>)
    | OrderBody(orderId: Id, order: Order)
    | UserBody(userId: Id, user: UserView)
    | RestaurantBody(restaurantId: Id, restaurant: Restaurant)
    | RestaurantsBody(totalCount: nat, restaurants: map<Id, Restaurant>)
    | CategoryBody(categoryId: Id, category: Category)
    | CategoriesBody(totalCategories: nat, categories: map<Id, Category>)
    | AdminBody(adminId: Id, admin: Admin)
    | LoginBody(token: string, adminId: Id, adminView: AdminView)

  /** What a controller sends: an envelope with an HTTP status, or nothing at all. */
  datatype Response =
    | Response(status: int, success: bool, message: string, body: Body)
    | NoResponse

  function Fail(status: int, message: string): Response
  {
    Response(status, false, message, NoBody)
  }

  function Ok(status: int, message: string, body: Body): Response
  {
    Response(status, true, message, body)
  }

  // ---------------------------------------------------------------------------
  // Collaborators
  // ---------------------------------------------------------------------------

  /** Password hashing and token signing, left uninterpreted: `hash` and `compare`
      stand for bcrypt's hash and compare, `sign` for signing a token that carries an id. */
  datatype Crypto = Crypto(hash: string -> string, compare: (string, string) -> bool, sign: Id -> string)

  /** The one property assumed of the hasher: a password matches its own hash. */
  ghost predicate Sound(c: Crypto)
  {
    forall p :: c.compare(p, c.hash(p))
  }
}
