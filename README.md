# Product catalogue: join and filter model

A Dafny model of the logic of a single-page product catalogue viewer. The viewer
holds three fixture collections (users, categories, products). It joins them so
that every product carries its category and that category's owning user. It then
shows the products that pass two filters: the selected owner, and a
case-insensitive search on the product name.

Modules:

- `Wrappers` (`wrappers.dfy`): `Option` for JavaScript's `null` lookups and `Result` for a computation that throws.
- `Sequences` (`sequences.dfy`): `Find` is `Array.prototype.find` by id and `Filter` is `Array.prototype.filter`. The module also holds the order, multiplicity and composition laws of filtering.
- `Text` (`text.dfy`): `toLowerCase` on ASCII letters, and `includes`. `includes` is proved equal to "occurs at some position".
- `Catalogue` (`catalogue.dfy`): the records, the two lookups `getProductCategory` and `getProductUser`, the `productsRaw`/`products` join, and the filter `getPrepareProducts`.
- `ProductTable` (`app.dfy`): class `App` holds the component's two pieces of state, `selectedUser` and `searchQuery`. It has one method per handler and functions for what is derived from the state.

Three places where the code throws or tests truthiness shape the model:

- Building `products` reads `product.category.ownerId` without a null check (src/App.jsx:41). A product whose `categoryId` matches no category therefore makes the join throw; it does not give an entry with a `null` category. `Enrich` returns `Failure(CategoryNotFound(id))`, naming the first such product in order.
- The user filter reads `product.owner.id` without a null check (src/App.jsx:21). A product with a `null` owner is therefore not quietly excluded: the filter throws. `GetPrepareProducts` requires every owner to be resolved while the user filter is active (`CanFilter`).
- `if (selectedUser)` is a JavaScript truth test (src/App.jsx:19), so a selected user with id `0` disables the user filter. `UserFilterActive` models this exactly.

## Model

| member | source | states |
|---|---|---|
| Sequences.FirstIndex | src/App.jsx:9 | the index found holds the key and no earlier element does; no index is returned exactly when no element holds the key |
| Sequences.Find | src/App.jsx:9 | `find` returns an element with the key that no earlier element has, and `null` exactly when no element has the key |
| Sequences.Filter | src/App.jsx:20-22 | `filter` is never longer than its input; every kept element is an input element that passes; every passing input element is kept |
| Sequences.FilterIsSubsequence | src/App.jsx:20-28 | a filter result is an order-preserving subsequence of its input |
| Sequences.FilterMultiplicity | src/App.jsx:20-28 | a filter keeps every copy of a passing element and drops every copy of a failing one |
| Sequences.FilterKeepsAll | src/App.jsx:17 | a filter that every element passes returns the input unchanged |
| Sequences.FilterFilter | src/App.jsx:19-29 | two successive filters equal one filter by the conjunction of both predicates |
| Sequences.FilterIdempotent | src/App.jsx:20-28 | filtering a filter result again by the same predicate changes nothing |
| Sequences.FilterExtensional | src/App.jsx:20-28 | a filter depends only on the truth values of its predicate |
| Text.LowerChar | src/App.jsx:27 | the lower-cased character is never an upper-case ASCII letter; upper-case letters move down by 32 and other characters are unchanged |
| Text.Lower | src/App.jsx:27 | `toLowerCase` keeps the length and lower-cases each position independently |
| Text.LowerIdempotent | src/App.jsx:27 | lower-casing twice is the same as lower-casing once |
| Text.Includes | src/App.jsx:27 | `includes` is true exactly when the substring occurs at some position of the string |
| Text.EmptyQueryMatches | src/App.jsx:25-29 | the empty query is contained in every name, so skipping the query filter for it changes nothing |
| Text.QueryCaseIrrelevant | src/App.jsx:27 | a query matches the same names as its lower-cased form |
| Text.AbleMatchesTable | src/App.jsx:27 | the query "ABLE" matches the name "Table" |
| Text.LongQueryNeverMatches | src/App.jsx:27 | a query longer than a name never matches it |
| Catalogue.GetProductCategory | src/App.jsx:8-10 | returns the first category with the id, and `null` exactly when no category has the id |
| Catalogue.GetProductUser | src/App.jsx:12-14 | returns the first user with the id, and `null` exactly when no user has the id |
| Catalogue.CategoryLookupExact | src/App.jsx:8-10 | when category ids are unique, looking up a category's id returns that very category |
| Catalogue.ProductsRaw | src/App.jsx:34-37 | same length and order as the products; entry i keeps product i's id, name and category id and carries the category lookup of that id |
| Catalogue.ResolveOwners | src/App.jsx:39-42 | succeeds exactly when every category is non-null; then keeps length, order and fields and sets owner to the user lookup of the category's `ownerId`; otherwise fails naming the first entry with a null category |
| Catalogue.Enrich | src/App.jsx:34-42 | the join succeeds exactly when every product's category id names a category; then entry i has product i's fields, its looked-up category and the owner looked up through that category; otherwise it fails naming a product whose category is missing |
| Catalogue.DanglingOwnerIsNull | src/App.jsx:41 | a category whose owner id names no user gives an entry whose owner is `null` |
| Catalogue.GetPrepareProducts | src/App.jsx:16-32 | equals one filter by "passes every active filter"; is an order-preserving subsequence of the input; every result passes the criteria and every input that passes is kept |
| Catalogue.PrepareIsOneFilter | src/App.jsx:19-29 | the conditional user filter followed by the conditional query filter equals the single filter by their conjunction |
| Catalogue.PrepareMultiplicity | src/App.jsx:16-31 | each product occurs in the result as often as in the input if it passes the criteria, and not at all otherwise |
| Catalogue.NoCriteriaKeepsAll | src/App.jsx:16-31 | with no selected user and an empty query the result is the input |
| Catalogue.SortFieldIgnored | src/App.jsx:16 | the result does not depend on `sortField` |
| Catalogue.PrepareIdempotent | src/App.jsx:16-31 | filtering the result again with the same criteria is allowed and returns the same list |
| Catalogue.FiltersAreConjunctive | src/App.jsx:19-29 | a product is in the result exactly when it is kept both by the user selection alone and by the query alone |
| Catalogue.MilkExample | src/App.jsx:34-42 | product "Milk" of category "Drinks" owned by "Max" is joined with both records, and the query "milk" returns it |
| ProductTable.Load | src/App.jsx:34-46 | when the join succeeds, the component is built over the joined products, with no selected user and an empty query |
| ProductTable.App.constructor | src/App.jsx:45-46 | the component starts with no selected user and an empty query |
| ProductTable.App.CurrentCriteria | src/App.jsx:61-65 | the filter is called with the component's query and selected user |
| ProductTable.App.FilterProducts | src/App.jsx:61-65 | the rendered rows are the filter of `products` by the current criteria: an order-preserving subsequence keeping every copy of each passing product and nothing else; all products when no filter is active |
| ProductTable.App.ClearButtonVisible | src/App.jsx:112 | the clear button is shown exactly while the query filter is in force |
| ProductTable.App.NoMatchingMessageVisible | src/App.jsx:164 | the "no products matching" message is shown exactly when no product passes the current criteria |
| ProductTable.App.HandleUserFilter | src/App.jsx:48-50 | selects the given user and leaves the query unchanged |
| ProductTable.App.SelectAllUsers | src/App.jsx:78 | clears the user selection only; the rows become the query-only filter of the products |
| ProductTable.App.HandleSearchInputChange | src/App.jsx:57-59 | the query becomes the input's value and the selected user is unchanged |
| ProductTable.App.ClearSearch | src/App.jsx:117 | empties the query only, hiding the clear button; the rows become the user-only filter of the products |
| ProductTable.App.HandleResetFilters | src/App.jsx:52-55 | clears both the user and the query, so the rows are all of `products` and the clear button is hidden |

## Left out

- Rendering: JSX markup, CSS classes, the React `useState` runtime and DOM event objects. State updates become assignments to the fields of `App`, and the input event becomes the string it carries.
- The highlight of the selected user's link (src/App.jsx:89). It is presentation only.
- The sort icons (src/App.jsx:180-220) and the category buttons (src/App.jsx:128-146). They have no handlers.
- The fixture modules `./api/users`, `./api/categories` and `./api/products` are not part of this model. Their contents are parameters of the join.
- Text.LowerChar: lower-cases only the ASCII letters A-Z, not the full Unicode case mapping of `toLowerCase`.
- Display of rows (src/App.jsx:227-245): the reads of `product.category.icon`, `product.category.title`, `product.owner.sex` and `product.owner.name`, including the throw on a `null` owner, and the colour chosen by `sex`.
- The join is computed once, at module load, as a module-level constant. The model computes it with `Enrich` in `ProductTable.Load`, which builds the `App` from the result; the throw at load time becomes `Load`'s requirement that the join succeeds.
