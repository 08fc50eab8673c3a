/** The product catalogue: the three fixture record kinds, the id lookups, the
    join that gives every product its category and that category's owner, and
    the filter the product table is rendered from. */
module Catalogue {
  import opened Wrappers
  import opened Sequences
  import opened Text

  datatype User = User(id: int, name: string, sex: string)
  datatype Category = Category(id: int, title: string, icon: string, ownerId: int)
  datatype Product = Product(id: int, name: string, categoryId: int)

  /** An element of `productsRaw`: a product carrying its looked-up category, or `null`. */
  datatype RawEntry = RawEntry(id: int, name: string, categoryId: int, category: Option<Category>)

  /** An element of `products`. Its category is never `null`: building the owner
      dereferences it. Its owner is the category owner's user record, or `null`. */
  datatype Entry = Entry(id: int, name: string, categoryId: int, category: Category, owner: Option<User>)

  /** Why building `products` throws: the named product's category was not found,
      so reading the category's `ownerId` fails. */
  datatype JoinError = CategoryNotFound(productId: int)

  // ---------------------------------------------------------------- lookups

  /** `getProductCategory`: the first category with the given id, or `null`. */
  function GetProductCategory(categories: seq<Category>, categoryId: int): (r: Option<Category>)
    ensures r.None? <==> forall j :: 0 <= j < |categories| ==> categories[j].id != categoryId
    ensures r.Some? ==> r.value.id == categoryId
    ensures r.Some? ==> exists i :: 0 <= i < |categories| && categories[i] == r.value &&
                                    forall j :: 0 <= j < i ==> categories[j].id != categoryId
  {
    Find(categories, categoryId, (c: Category) => c.id)
  }

  /** `getProductUser`: the first user with the given id, or `null`. */
  function GetProductUser(users: seq<User>, userId: int): (r: Option<User>)
    ensures r.None? <==> forall j :: 0 <= j < |users| ==> users[j].id != userId
    ensures r.Some? ==> r.value.id == userId
    ensures r.Some? ==> exists i :: 0 <= i < |users| && users[i] == r.value &&
                                    forall j :: 0 <= j < i ==> users[j].id != userId
  {
    Find(users, userId, (u: User) => u.id)
  }

  predicate UniqueCategoryIds(categories: seq<Category>)
  {
    forall i, j :: 0 <= i < j < |categories| ==> categories[i].id != categories[j].id
  }

  /** With unique ids, the category lookup finds exactly the category carrying the id. */
  lemma CategoryLookupExact(categories: seq<Category>, i: nat)
    requires UniqueCategoryIds(categories)
    requires i < |categories|
    ensures GetProductCategory(categories, categories[i].id) == Some(categories[i])
  {
  }

  // ------------------------------------------------------------------- join

  /** `productsRaw`: every product copied with its category looked up by `categoryId`. */
  function ProductsRaw(products: seq<Product>, categories: seq<Category>): (r: seq<RawEntry>)
    ensures |r| == |products|
    ensures forall i :: 0 <= i < |products| ==>
      r[i].id == products[i].id && r[i].name == products[i].name &&
      r[i].categoryId == products[i].categoryId
    ensures forall i :: 0 <= i < |products| ==>
      r[i].category == GetProductCategory(categories, products[i].categoryId)
  {
    if |products| == 0 then []
    else
      var p := products[0];
      [RawEntry(p.id, p.name, p.categoryId, GetProductCategory(categories, p.categoryId))]
        + ProductsRaw(products[1..], categories)
  }

  /** `products`: every raw entry copied with the owner of its category looked up
      among the users. The first entry in order whose category is `null` makes
      the whole computation fail. */
  function ResolveOwners(raw: seq<RawEntry>, users: seq<User>): (r: Result<seq<Entry>, JoinError>)
    ensures r.Success? <==> forall i :: 0 <= i < |raw| ==> raw[i].category.Some?
    ensures r.Success? ==> |r.value| == |raw|
    ensures r.Success? ==> forall i :: 0 <= i < |raw| ==>
      r.value[i].id == raw[i].id && r.value[i].name == raw[i].name &&
      r.value[i].categoryId == raw[i].categoryId && raw[i].category == Some(r.value[i].category)
    ensures r.Success? ==> forall i :: 0 <= i < |raw| ==>
      r.value[i].owner == GetProductUser(users, r.value[i].category.ownerId)
    ensures r.Failure? ==>
      exists i :: 0 <= i < |raw| && raw[i].category.None? &&
        r.error == CategoryNotFound(raw[i].id) && forall j :: 0 <= j < i ==> raw[j].category.Some?
  {
    if |raw| == 0 then Success([])
    else
      match raw[0].category
      case None => Failure(CategoryNotFound(raw[0].id))
      case Some(c) =>
        match ResolveOwners(raw[1..], users)
        case Failure(e) =>
          assert forall j :: 0 <= j < |raw| - 1 ==> raw[1..][j] == raw[j + 1];
          Failure(e)
        case Success(rest) =>
          Success([Entry(raw[0].id, raw[0].name, raw[0].categoryId, c, GetProductUser(users, c.ownerId))] + rest)
  }

  /** The whole join, from the three fixture collections. It succeeds exactly when
      every product's category id is found; then it keeps the products' order and
      fields, and each owner is found through the product's category. */
  function Enrich(products: seq<Product>, categories: seq<Category>, users: seq<User>)
    : (r: Result<seq<Entry>, JoinError>)
    ensures r.Success? <==> forall i :: 0 <= i < |products| ==>
      exists k :: 0 <= k < |categories| && categories[k].id == products[i].categoryId
    ensures r.Success? ==> |r.value| == |products|
    ensures r.Success? ==> forall i :: 0 <= i < |products| ==>
      r.value[i].id == products[i].id && r.value[i].name == products[i].name &&
      r.value[i].categoryId == products[i].categoryId
    ensures r.Success? ==> forall i :: 0 <= i < |products| ==>
      Some(r.value[i].category) == GetProductCategory(categories, products[i].categoryId) &&
      r.value[i].owner == GetProductUser(users, r.value[i].category.ownerId)
    ensures r.Failure? ==>
      exists i :: 0 <= i < |products| &&
        GetProductCategory(categories, products[i].categoryId).None? &&
        r.error == CategoryNotFound(products[i].id) &&
        forall j :: 0 <= j < i ==> GetProductCategory(categories, products[j].categoryId).Some?
  {
    ResolveOwners(ProductsRaw(products, categories), users)
  }

  /** A category whose owner id names no user yields an entry whose owner is `null`. */
  lemma DanglingOwnerIsNull(products: seq<Product>, categories: seq<Category>, users: seq<User>, i: nat)
    requires Enrich(products, categories, users).Success?
    requires i < |products|
    requires forall u :: u in users ==> u.id != Enrich(products, categories, users).value[i].category.ownerId
    ensures Enrich(products, categories, users).value[i].owner == None
  {
  }

  // ----------------------------------------------------------------- filter

  /** The argument of `getPrepareProducts`. `sortField` is accepted and never used. */
  datatype Criteria = Criteria(sortField: string, query: string, selectedUser: Option<int>)

  /** `if (selectedUser)`: a JavaScript truth test, false for `null` and for the id 0. */
  predicate UserFilterActive(c: Criteria)
  {
    c.selectedUser.Some? && c.selectedUser.value != 0
  }

  /** `if (query)`: false for the empty string. */
  predicate QueryFilterActive(c: Criteria)
  {
    |c.query| > 0
  }

  predicate OwnedBy(p: Entry, userId: int)
  {
    p.owner.Some? && p.owner.value.id == userId
  }

  predicate NameMatches(p: Entry, query: string)
  {
    ContainsIgnoringCase(p.name, query)
  }

  predicate OwnersResolved(products: seq<Entry>)
  {
    forall i :: 0 <= i < |products| ==> products[i].owner.Some?
  }

  /** The user filter reads `product.owner.id` for every product; this is what
      keeps that read from throwing. */
  predicate CanFilter(products: seq<Entry>, c: Criteria)
  {
    UserFilterActive(c) ==> OwnersResolved(products)
  }

  /** A product passes the criteria when it passes every active filter. */
  predicate Matches(p: Entry, c: Criteria)
  {
    (UserFilterActive(c) ==> OwnedBy(p, c.selectedUser.value)) &&
    (QueryFilterActive(c) ==> NameMatches(p, c.query))
  }

  /** `getPrepareProducts`: the user filter, if active, then the query filter, if
      active. The result is the single filter by both conditions together, so it
      is the products passing every active filter, in their original order. */
  function GetPrepareProducts(products: seq<Entry>, c: Criteria): (r: seq<Entry>)
    requires CanFilter(products, c)
    ensures r == Filter(products, p => Matches(p, c))
    ensures IsSubsequence(r, products)
    ensures forall i :: 0 <= i < |r| ==> Matches(r[i], c)
    ensures forall i :: 0 <= i < |products| && Matches(products[i], c) ==> products[i] in r
  {
    var byUser :=
      if UserFilterActive(c) then
        var u := c.selectedUser.value;
        Filter(products, p => OwnedBy(p, u))
      else products;
    var byQuery :=
      if QueryFilterActive(c) then Filter(byUser, p => NameMatches(p, c.query)) else byUser;
    PrepareIsOneFilter(products, c);
    FilterIsSubsequence(products, p => Matches(p, c));
    byQuery
  }

  /** The two conditional filtering steps compose to one filter by `Matches`. */
  lemma PrepareIsOneFilter(products: seq<Entry>, c: Criteria)
    ensures (var byUser :=
               if UserFilterActive(c) then
                 var u := c.selectedUser.value;
                 Filter(products, p => OwnedBy(p, u))
               else products;
             if QueryFilterActive(c) then Filter(byUser, p => NameMatches(p, c.query)) else byUser)
            == Filter(products, p => Matches(p, c))
  {
    var matches := p => Matches(p, c);
    var named := p => NameMatches(p, c.query);
    if UserFilterActive(c) {
      var u := c.selectedUser.value;
      var owned := p => OwnedBy(p, u);
      if QueryFilterActive(c) {
        FilterFilter(products, owned, named);
        FilterExtensional(products, Both(owned, named), matches);
      } else {
        FilterExtensional(products, owned, matches);
      }
    } else if QueryFilterActive(c) {
      FilterExtensional(products, named, matches);
    } else {
      FilterKeepsAll(products, matches);
    }
  }

  /** Each product appears in the result exactly as often as in the input when it
      passes the criteria, and not at all otherwise. */
  lemma PrepareMultiplicity(products: seq<Entry>, c: Criteria, p: Entry)
    requires CanFilter(products, c)
    ensures multiset(GetPrepareProducts(products, c))[p] ==
            if Matches(p, c) then multiset(products)[p] else 0
  {
    FilterMultiplicity(products, q => Matches(q, c), p);
  }

  /** With no user selected and an empty query, the result is the input. */
  lemma NoCriteriaKeepsAll(products: seq<Entry>, sortField: string)
    ensures GetPrepareProducts(products, Criteria(sortField, "", None)) == products
  {
  }

  /** The result never depends on `sortField`. */
  lemma SortFieldIgnored(products: seq<Entry>, c: Criteria, sortField: string)
    requires CanFilter(products, c)
    ensures GetPrepareProducts(products, c.(sortField := sortField)) == GetPrepareProducts(products, c)
  {
  }

  /** Filtering a filtered list again with the same criteria changes nothing. */
  lemma PrepareIdempotent(products: seq<Entry>, c: Criteria)
    requires CanFilter(products, c)
    ensures CanFilter(GetPrepareProducts(products, c), c)
    ensures GetPrepareProducts(GetPrepareProducts(products, c), c) == GetPrepareProducts(products, c)
  {
    FilterIdempotent(products, p => Matches(p, c));
  }

  /** Selecting a user and typing a query keeps exactly the products that both
      selecting the user alone and typing the query alone keep. */
  lemma FiltersAreConjunctive(products: seq<Entry>, c: Criteria, p: Entry)
    requires CanFilter(products, c)
    ensures p in GetPrepareProducts(products, c) <==>
            p in GetPrepareProducts(products, c.(query := "")) &&
            p in GetPrepareProducts(products, c.(selectedUser := None))
  {
  }

  /** The worked example: product "Milk" in category "Drinks" owned by "Max" is
      joined with both records and is the one result of the query "milk". */
  lemma MilkExample()
    ensures var e := Enrich([Product(1, "Milk", 1)],
                            [Category(1, "Drinks", "\U{1F37A}", 1)],
                            [User(1, "Max", "m")]);
            e.Success? && |e.value| == 1 &&
            e.value[0].category.title == "Drinks" &&
            e.value[0].owner == Some(User(1, "Max", "m")) &&
            GetPrepareProducts(e.value, Criteria("sortField", "milk", None)) == e.value
  {
  }
}
