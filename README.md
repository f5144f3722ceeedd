# Food-delivery backend controllers, modelled in Dafny

This project models the request handlers of a food-delivery REST backend:
- food and order handlers (`controllers/foodController.js`);
- user self-service handlers (`controllers/userController.js`);
- restaurant and category handlers (`controllers/restaurantController.js`, `controllers/categoryController.js`);
- admin registration and login (`controllers/adminController.js`).

The Express and Mongoose layers are stripped away. What remains is three things:
- field validation under JavaScript truthiness;
- operations on keyed tables;
- one arithmetic rule: an order's payment is the sum of its cart's prices.

Layout, one module per concern:

- `wrappers.dfy` (`Wrappers`): `Option`. `None` stands for an `undefined` request field.
- `model.dfy` (`Model`): the documents (food, order, restaurant, category, user, admin) and the request field bundles. It also holds truthiness (`TruthyStr` is present and non-empty, `TruthyNum` is present and non-zero, `TruthyRef` is present), the update rule, and the response envelope. `Response` carries a status, success, message and payload; `NoResponse` means the handler sends nothing.
  - It also defines `Crypto`, the uninterpreted collaborators. `hash` and `compare` stand for bcrypt; `sign` signs a token for an id. `Sound(c)` (a password matches its own hash) is assumed only where a contract says so.
- `store.dfy` (`Db`): the `Store` class. Each collection is a `map<Id, Record>` field, and one counter `nextId` supplies fresh ids. `Valid()` says every stored id is below the counter. `State()` bundles the tables, so a contract can say in one line that nothing else changed.
- `food_controller.dfy`, `user_controller.dfy`, `restaurant_controller.dfy`, `category_controller.dfy`, `admin_controller.dfy`: one method per handler. Each takes the store and the request fields and returns the `Response`. Its `ensures` give, for every branch of the handler:
  - the exact status code and message;
  - the exact new contents of the touched table;
  - that every other table and the counter are unchanged (`unchanged(db)` on error paths).
- `scenarios.dfy` (`Scenarios`): requests in sequence, proved from the handlers' contracts alone: create then read, delete then read, register then log in, register twice.

Choices made where the source leaves the behaviour to code that is not part of this model:
- `findByIdAndUpdate` with an `undefined` field leaves the stored value unchanged. A present field overwrites, even when it is `""` or `0`.
- Which document `findOne` returns when several match is not fixed. The model picks any match, and contracts say "some matching document".
- A `find` query resolves to an array, and an array is truthy even when empty. So the `if (!result)` checks after `find` are dead code. The model keeps each of them as a branch proved unreachable.
- `Order.status` is `None` until a status update sets it. The schema default is not part of this model.

Behaviour of the code worth knowing, which the model follows:
- `deleteResturantController` answers 200 for an id that does not exist.
- `orderStatusController` never checks that the order exists.
- `deleteCatController` can never answer "Category Not Found".
- An order's payment is summed from the prices in the client's cart, not from the food table. So a client can set any payment, including a negative one.
- A successful `deletefoodController` sends no response.
- `getUserController` hides the password but still returns the security answer.
- `adminController` returns the stored hash in its 201 payload.

## Model

| member | source | states |
|---|---|---|
| FoodController.SumAppend | controllers/foodController.js:404-408 | the total of two carts laid end to end is the sum of their totals |
| FoodController.SumPermutation | controllers/foodController.js:404-408 | the total depends only on the multiset of cart lines, not their order |
| FoodController.SumNonNegative | controllers/foodController.js:404-408 | with no negative line price, the total is not negative |
| FoodController.CartTotal | controllers/foodController.js:404-408 | the `total` accumulated over the cart equals `Sum(cart)` |
| FoodController.NewFood | controllers/foodController.js:51-62 | the created food carries exactly the supplied fields: reading them back gives the request |
| FoodController.MergeFoodLaws | controllers/foodController.js:253-268 | an update that restates the stored fields, or supplies none, changes nothing; applying an update twice equals applying it once |
| FoodController.FoodsOfAfterChange | controllers/foodController.js:185-197 | a new food shows up under its own restaurant only; removing it restores every restaurant's list |
| FoodController.CreateFood | controllers/foodController.js:44-67 | a falsy title, description, price (0 included) or restaurant gives 404 "Please provide all fields" and no change; otherwise exactly one food under a fresh id, returned with 200 |
| FoodController.GetAllFoods | controllers/foodController.js:93-104 | always 200 with the whole food table; "No food found" cannot be sent |
| FoodController.GetSingleFood | controllers/foodController.js:132-151 | missing id or unknown id gives 404 with its message; otherwise 200 with the stored food; nothing is modified |
| FoodController.GetFoodsByRestaurant | controllers/foodController.js:178-197 | missing id gives 404; otherwise 200 with exactly the foods of that restaurant, possibly none |
| FoodController.UpdateFood | controllers/foodController.js:227-272 | missing or unknown id gives 404 and no change; otherwise only that food is replaced by the merge of its fields with the request's, answered 200 |
| FoodController.DeleteFood | controllers/foodController.js:301-322 | missing or unknown id gives 404 and no change; otherwise exactly that food is removed and no response is sent |
| FoodController.UpdateOrderStatus | controllers/foodController.js:352-368 | any given id is answered 200; only a stored order's `status` is overwritten; an unknown id changes nothing |
| FoodController.PlaceOrder | controllers/foodController.js:397-419 | no cart gives 404 and no order; otherwise exactly one new order with the cart verbatim, payment `Sum(cart)` and buyer `req.body.id`, answered 200 |
| UserController.HidePassword | controllers/userController.js:33 | the view sent to the client loses only the password: together with the stored password it gives back the stored user |
| UserController.HidePasswordHidesOnlyPassword | controllers/userController.js:32-33 | two users have the same response view exactly when they differ at most in the password |
| UserController.EditProfileLaws | controllers/userController.js:80-85 | a profile update with no truthy username, address or phone (absent or empty strings) leaves the user unchanged, and repeating an update equals doing it once |
| UserController.UsersWithIgnoresPassword | controllers/userController.js:194-208 | storing a new password hash for a user leaves the set of users matching any email and security answer unchanged, so a reset never changes who a later reset finds |
| UserController.GetUser | controllers/userController.js:25-40 | unknown user gives 404; otherwise 200 with that user minus the password; nothing is modified |
| UserController.UpdateUser | controllers/userController.js:71-89 | unknown user gives 404 and no change; otherwise only that user's profile edit is saved, answered 200 |
| UserController.UpdatePassword | controllers/userController.js:119-156 | checked in order: 404 unknown user, 400 missing password, 402 old password not matching, each with no change; on success only the password becomes the new password's hash, which matches it when the hasher is sound |
| UserController.ResetPassword | controllers/userController.js:186-212 | 400 for a missing field, 400 when no user matches email and answer, both with no change; otherwise one matching user's password becomes the new hash, answered 200 |
| UserController.DeleteUser | controllers/userController.js:240-250 | the body's `_id` is looked up; unknown gives 404 and no change; otherwise exactly that user is removed, answered 200 |
| RestaurantController.NewRestaurant | controllers/restaurantController.js:55-68 | the created restaurant carries exactly the supplied fields |
| RestaurantController.CreateRestaurant | controllers/restaurantController.js:49-73 | falsy title or address gives 500 and no change; otherwise exactly one new restaurant, answered 200 with no payload |
| RestaurantController.GetAllRestaurants | controllers/restaurantController.js:100-113 | always 200 with every restaurant and `totalCount` equal to their number |
| RestaurantController.GetRestaurantById | controllers/restaurantController.js:141-162 | missing or unknown id gives 404; otherwise 202 with the stored record; nothing is modified |
| RestaurantController.DeleteRestaurant | controllers/restaurantController.js:189-201 | missing id gives 404; any given id gives 200, removing that restaurant if present and nothing else, its foods included |
| CategoryController.MergeCategoryLaws | controllers/categoryController.js:110-114 | an update that supplies neither title nor imageUrl leaves the category unchanged, and applying the same update twice equals applying it once |
| CategoryController.CreateCategory | controllers/categoryController.js:24-39 | falsy title gives 500 and no change; otherwise exactly one new category `{title, imageUrl}`, returned with 200 |
| CategoryController.GetAllCategories | controllers/categoryController.js:65-78 | always 200 with every category and `totalCategories` equal to their number |
| CategoryController.UpdateCategory | controllers/categoryController.js:108-124 | unknown or missing id gives 404 and no change; otherwise only that category's title and imageUrl are updated, answered 200 |
| CategoryController.DeleteCategory | controllers/categoryController.js:151-169 | "Category Not Found" is never sent; missing id gives 404; any given id gives 200, removing it if present and nothing else |
| AdminController.AdminsWithAfterInsert | controllers/adminController.js:43-46 | storing an admin under an unused id adds exactly that id to the admins with its email and leaves the admins with every other email as they were, so, when no admin had that email before, the registered admin is the one login finds |
| AdminController.RegisterAdmin | controllers/adminController.js:28-51 | falsy email or password gives 400 and no change; otherwise one new admin holding the password's hash, answered 201, with no duplicate-email check |
| AdminController.AdminLogin | controllers/adminController.js:83-119 | missing fields, unknown email and wrong password all give 500, told apart only by message; on success 200 with `sign(id)` and the admin without password; nothing is modified |
| Scenarios.CreateThenGetFood | controllers/foodController.js:51-151 | a created food is exactly what get-single returns for the new id |
| Scenarios.DeleteThenGetFood | controllers/foodController.js:308-322 | the delete sends nothing, and get-single then answers 404 |
| Scenarios.PlaceTwoLineOrder | controllers/foodController.js:404-418 | a cart of 1000 and 550 is paid 1550, and its lines are kept as sent |
| Scenarios.RegisterThenLogin | controllers/adminController.js:39-119 | with a sound hasher, a freshly registered email logs in with the same password and gets the token for the new id |
| Scenarios.RegisterTwice | controllers/adminController.js:43-46 | registering one email twice succeeds twice and leaves two admins with that email |

## Left out

- Express plumbing, routing and the route files: these are wiring. The authentication and admin-role middlewares they use are not part of this model.
- `controllers/authController .js` (user registration, login, email verification, forgot-password) is not part of this model.
- Mongoose internals are left out: the query engine, schema defaults, unique indexes and `ObjectId` casting. Ids are natural numbers drawn from a counter. Query results are maps, so the order of returned arrays is not modelled.
- The catch-all replies (500, or 400 in reset-password) for database, hashing or cast failures are not modelled. This includes the delete-food catch, which uses an undefined `error`.
- `profileImageController` and the `multer` upload configuration: file-system I/O and the clock.
- bcrypt's random salt and cost, jsonwebtoken's secret, and the 7-day expiry are left out. `hash`, `compare` and `sign` are uninterpreted functions.
- Prices and payments are integers, in the smallest currency unit. The model has no JavaScript floating point, and no string or missing prices (which JavaScript would concatenate or turn into `NaN`).
- `console.log` calls and async scheduling: each request runs to completion before the next.
- An undefined id is taken to find nothing, so the answer is 404 with no change. This applies to `findById`, `findByIdAndUpdate` and `findByIdAndDelete` called with an undefined id. What the database library really does with an undefined id is not part of this model; a filter `{ _id: undefined }` may match some document. This matters most for delete-user, which reads the body's `_id` while the request normally carries `id`.
- A cart line keeps only its `food` reference and its `price`. The order stores whatever objects the client sends as `foods`, so "the cart verbatim" holds in the model for these two fields only.
- AdminController.AdminLogin: the contract says the login uses some admin with the given email, not the first one in the collection's natural order. That order is not part of this model.
- UserController.ResetPassword: the contract says some user matching email and answer is updated, not the first one in natural order, for the same reason.
