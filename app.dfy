/** The `App` component's filter state: the selected user and the search text,
    the handlers that change them, and what the component derives from them. */
module ProductTable {
  import opened Wrappers
  import opened Sequences
  import opened Catalogue

  /** Page load: the join of the three fixture collections becomes the
      component's product list, and the component starts unfiltered. A failing
      join throws at load time, before any component exists. */
  method Load(products: seq<Product>, categories: seq<Category>, users: seq<User>) returns (app: App)
    requires Enrich(products, categories, users).Success?
    ensures fresh(app)
    ensures app.products == Enrich(products, categories, users).value
    ensures app.selectedUser == None && app.searchQuery == ""
  {
    var joined := Enrich(products, categories, users);
    app := new App(joined.value);
  }

  class App {
    /** The joined catalogue the component renders. */
    const products: seq<Entry>
    /** `null` while "All" users are shown, else the id of the chosen user. */
    var selectedUser: Option<int>
    var searchQuery: string

    /** Initial state: no user selected and an empty search text. */
    constructor (products: seq<Entry>)
      ensures this.products == products
      ensures selectedUser == None && searchQuery == ""
    {
      this.products := products;
      selectedUser := None;
      searchQuery := "";
    }

    /** The criteria the component passes to the filter on every render. */
    function CurrentCriteria(): (c: Criteria)
      reads this
      ensures c.query == searchQuery && c.selectedUser == selectedUser
    {
      Criteria("sortField", searchQuery, selectedUser)
    }

    /** Rendering filters without throwing (see `CanFilter`). */
    predicate CanRender()
      reads this
    {
      CanFilter(products, CurrentCriteria())
    }

    /** `filterProducts`: the rows the table shows. Without an active filter they
        are all the products. */
    function FilterProducts(): (r: seq<Entry>)
      reads this
      requires CanRender()
      ensures var c := CurrentCriteria(); r == Filter(products, p => Matches(p, c))
      ensures IsSubsequence(r, products)
      ensures forall i :: 0 <= i < |r| ==> Matches(r[i], CurrentCriteria())
      ensures forall i :: 0 <= i < |products| && Matches(products[i], CurrentCriteria()) ==> products[i] in r
      ensures !UserFilterActive(CurrentCriteria()) && searchQuery == "" ==> r == products
    {
      GetPrepareProducts(products, CurrentCriteria())
    }

    /** The clear (x) button is shown exactly while the query filter is in force. */
    function ClearButtonVisible(): (r: bool)
      reads this
      ensures r <==> QueryFilterActive(CurrentCriteria())
    {
      |searchQuery| > 0
    }

    /** The "no matching" message is shown exactly when no product passes the criteria. */
    function NoMatchingMessageVisible(): (r: bool)
      reads this
      requires CanRender()
      ensures r <==> forall i :: 0 <= i < |products| ==> !Matches(products[i], CurrentCriteria())
    {
      var rows := FilterProducts();
      assert forall i :: 0 <= i < |rows| ==> rows[i] in products;
      |rows| == 0
    }

    /** `handleUserFilter`: clicking a user's link selects that user. */
    method HandleUserFilter(userId: int)
      modifies this
      ensures selectedUser == Some(userId)
      ensures searchQuery == old(searchQuery)
    {
      selectedUser := Some(userId);
    }

    /** The "All" users link: clears the user selection only. */
    method SelectAllUsers()
      modifies this
      ensures selectedUser == None
      ensures searchQuery == old(searchQuery)
      ensures CanRender()
      ensures FilterProducts() == GetPrepareProducts(products, old(CurrentCriteria()).(selectedUser := None))
    {
      selectedUser := None;
    }

    /** `handleSearchInputChange`: the search text becomes the input's value. */
    method HandleSearchInputChange(value: string)
      modifies this
      ensures searchQuery == value
      ensures selectedUser == old(selectedUser)
    {
      searchQuery := value;
    }

    /** The clear (x) button: empties the search text only, which hides the button. */
    method ClearSearch()
      modifies this
      ensures searchQuery == ""
      ensures selectedUser == old(selectedUser)
      ensures !ClearButtonVisible()
      ensures old(CanRender()) ==>
                CanRender() &&
                FilterProducts() == GetPrepareProducts(products, old(CurrentCriteria()).(query := ""))
    {
      searchQuery := "";
    }

    /** `handleResetFilters`: clears both criteria, so every product is shown. */
    method HandleResetFilters()
      modifies this
      ensures selectedUser == None && searchQuery == ""
      ensures CanRender() && FilterProducts() == products
      ensures !ClearButtonVisible()
    {
      selectedUser := None;
      searchQuery := "";
    }
  }
}
