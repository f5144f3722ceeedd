/** The document store: one table per collection, and a counter for fresh ids. */
module Db {
  import opened Wrappers
  import opened Model

  /** The contents of all tables at one moment. */
  datatype Tables = Tables(
    foods: map<Id, Food>,
    orders: map<Id, Order>,
    restaurants: map<Id, Restaurant>,
    categories: map<Id, Category>,
    users: map<Id, User>,
    admins: map<Id, Admin>)

  /** Every key of `m` is below `bound`. */
  ghost predicate Below<T>(m: map<Id, T>, bound: nat)
  {
    forall id :: id in m ==> id < bound
  }

  /** `findById(id)` finds a document: the id is given and is a key of the table. */
  predicate Has<T>(m: map<Id, T>, id: Option<Id>)
  {
    id.Some? && id.value in m
  }

  class Store {
    var foods: map<Id, Food>
    var orders: map<Id, Order>
    var restaurants: map<Id, Restaurant>
    var categories: map<Id, Category>
    var users: map<Id, User>
    var admins: map<Id, Admin>
    var nextId: nat

    /** Every id in use is below the counter, so the counter is always fresh. */
    ghost predicate Valid()
      reads this
    {
      && Below(foods, nextId) && Below(orders, nextId) && Below(restaurants, nextId)
      && Below(categories, nextId) && Below(users, nextId) && Below(admins, nextId)
    }

    ghost function State(): Tables
      reads this
    {
      Tables(foods, orders, restaurants, categories, users, admins)
    }

    /** No table holds a document with this id. */
    ghost predicate Unused(id: Id)
      reads this
    {
      id !in foods && id !in orders && id !in restaurants && id !in categories && id !in users && id !in admins
    }

    constructor ()
      ensures Valid() && nextId == 0
      ensures State() == Tables(map[], map[], map[], map[], map[], map[])
    {
      foods, orders, restaurants, categories, users, admins := map[], map[], map[], map[], map[], map[];
      nextId := 0;
    }

    /** Draws a fresh id, the way the database assigns `_id` to a new document. */
    method NewId() returns (id: Id)
      requires Valid()
      modifies this`nextId
      ensures id == old(nextId) && nextId == id + 1
      ensures Unused(id) && Valid()
    {
      id := nextId;
      nextId := nextId + 1;
    }
  }
}
