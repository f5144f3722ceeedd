/** The category controllers: create, list, update and delete. */
module CategoryController {
  import opened Wrappers
  import opened Model
  import opened Db

  /** The stored category after `findByIdAndUpdate` with `{ title, imageUrl }`. */
  function MergeCategory(cat: Category, title: Option<string>, imageUrl: Option<string>): Category
  {
    Category(Overwrite(title, cat.title), OverwriteOpt(imageUrl, cat.imageUrl))
  }

  /** An update that supplies no field leaves the category as it is; applying the
      same update twice is applying it once. */
  lemma MergeCategoryLaws(cat: Category, title: Option<string>, imageUrl: Option<string>)
    ensures MergeCategory(cat, None, None) == cat
    ensures MergeCategory(MergeCategory(cat, title, imageUrl), title, imageUrl) == MergeCategory(cat, title, imageUrl)
  {
  }

  /** createCatergoryController: a missing title is answered with 500. */
  method CreateCategory(db: Store, title: Option<string>, imageUrl: Option<string>) returns (r: Response)
    requires db.Valid()
    modifies db
    ensures db.Valid()
    ensures !TruthyStr(title) ==> r == Fail(500, "Please Provide title") && unchanged(db)
    ensures TruthyStr(title) ==>
      var id := old(db.nextId);
      && id !in old(db.categories)
      && db.State() == old(db.State()).(categories := old(db.categories)[id := Category(title.value, imageUrl)])
      && db.nextId == id + 1
      && r == Ok(200, "Category Created Successfully", CategoryBody(id, Category(title.value, imageUrl)))
  {
    if !TruthyStr(title) {
      return Fail(500, "Please Provide title");
    }
    var category := Category(title.value, imageUrl);
    var id := db.NewId();
    db.categories := db.categories[id := category];
    r := Ok(200, "Category Created Successfully", CategoryBody(id, category));
  }

  /** getAllCatController: every category and their number; the "No category
      found" branch cannot run. */
  method GetAllCategories(db: Store) returns (r: Response)
    ensures r.Response? && r.status == 200 && r.body.CategoriesBody?
    ensures r.body.categories == db.categories && r.body.totalCategories == |r.body.categories|
    ensures r == Ok(200, "Categories found successfully", CategoriesBody(|db.categories|, db.categories))
  {
    var found := Some(db.categories);  // find({}) resolves to an array, never to null
    if !TruthyRef(found) {
      assert false;
    }
    r := Ok(200, "Categories found successfully", CategoriesBody(|found.value|, found.value));
  }

  /** updateCatController: there is no separate check that an id was given; an
      unknown or missing id finds no category. */
  method UpdateCategory(db: Store, categoryId: Option<Id>, title: Option<string>, imageUrl: Option<string>)
    returns (r: Response)
    requires db.Valid()
    modifies db
    ensures db.Valid()
    ensures !Has(old(db.categories), categoryId) ==> r == Fail(404, "No category found with this Id") && unchanged(db)
    ensures Has(old(db.categories), categoryId) ==>
      && db.State() == old(db.State()).(categories := old(db.categories)[categoryId.value :=
           MergeCategory(old(db.categories)[categoryId.value], title, imageUrl)])
      && db.nextId == old(db.nextId)
      && r == Ok(200, "Category Updated Successfully", NoBody)
  {
    if !Has(db.categories, categoryId) {
      return Fail(404, "No category found with this Id");
    }
    var id := categoryId.value;
    db.categories := db.categories[id := MergeCategory(db.categories[id], title, imageUrl)];
    r := Ok(200, "Category Updated Successfully", NoBody);
  }

  /** deleteCatController: the existence check tests the array that `find` returns,
      which is truthy even when empty, so "Category Not Found" is never sent and
      any given id is answered with 200. */
  method DeleteCategory(db: Store, categoryId: Option<Id>) returns (r: Response)
    requires db.Valid()
    modifies db
    ensures db.Valid()
    ensures r != Fail(404, "Category Not Found")
    ensures categoryId.None? ==> r == Fail(404, "Id is required") && unchanged(db)
    ensures categoryId.Some? ==>
      && db.State() == old(db.State()).(categories := old(db.categories) - {categoryId.value})
      && db.nextId == old(db.nextId)
      && r == Ok(200, "Category Deleted Successfully", NoBody)
  {
    if !TruthyRef(categoryId) {
      return Fail(404, "Id is required");
    }
    // find({ id }) filters on a document field named `id`, which this model does
    // not keep; whatever it matches, it resolves to an array, possibly empty,
    // and only that array's truthiness is used
    var found: Option<map<Id, Category>> := Some(map[]);
    if !TruthyRef(found) {
      assert false;
    }
    db.categories := db.categories - {categoryId.value};
    r := Ok(200, "Category Deleted Successfully", NoBody);
  }
}
