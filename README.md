# Akib Market shop front — a Dafny model of its logic

Akib Market is a React furniture shop front. Most of it is markup and
animation. This project models the deterministic logic inside its
components and proves properties about it:

- **Catalog query** of the products page. A five-part filter runs over the catalog: name search, category, availability, an inclusive price range and a minimum rating. A stable keyed sort follows. The result is then split into the "Available Now" and "Pre-Order" sections. The model also covers the price radios and the initial/reset filter record.
- **Cart store** of `App`. Lines are (product, quantity) with one line per product id. The operations are add-with-merge, remove, update (a quantity of 0 or less removes the line) and clear. The badge count is the sum of the quantities. The login state is kept here too.
- **Order totals** of the cart and checkout pages. Subtotal is Σ price × quantity. Shipping is 0 above 500 and 50 otherwise. Tax is 5%, and the total adds the three. The cart page's ±1 quantity requests are included.
- **Checkout wizard**: steps 1..3 with Back / Continue / Place Order, the order-placed flag, the delayed cart clearing and the card mask.
- **Quick search** of the navigation bar. It matches name or category, returns at most five results and nothing for a blank query. The model covers the result panel, the popular-search chips and the submit and result-click handlers.
- **Product details page and quick-view modal**:
  - lookup by route id and the not-found view;
  - related products and the savings badge;
  - the quantity selector clamped to at least 1;
  - the image gallery;
  - add-to-cart, and the modal's add-then-close.
- **Home page**: the featured products, and a quick-view whose add handler does nothing.
- **Hero slider**: the cyclic slide index.
- **Add-product form**: the image and feature list editors.
- **Login and signup**: the user record, the password-confirmation guard and the loading flag.

Amounts are exact `real`s. The catalog is a parameter: the product list
`src/data` provides is not part of this model. A timer completion (login,
signup, checkout redirect) is its own method, run as one step after the
method that starts the timer. Stateful components are classes whose methods
are specified by pure functions of the old state. Pure code is functions
and lemmas.

Files:

| file | module |
|---|---|
| `wrappers.dfy` | `Option` |
| `seqs.dfy` | order-preserving `Filter` (`Array.prototype.filter`) and `Take` (`slice(0, n)`) with their laws |
| `text.dfy` | ASCII `toLowerCase`, `includes`, `trim`, `split(sep)[0]` |
| `catalog.dfy` | the product record |
| `products_page.dfy` | `ProductsPage.jsx` query engine |
| `cart_store.dfy` | `App.jsx` store |
| `cart_page.dfy` | `Cart.jsx` totals and buttons |
| `checkout.dfy` | `Checkout.jsx` |
| `navbar.dfy` | `Navbar.jsx` quick search |
| `product_panel.dfy` | the quantity selector and gallery shared by `ProductDetails.jsx` and `QuickViewModal.jsx` |
| `product_details.dfy` | `ProductDetails.jsx` |
| `quick_view_modal.dfy` | `QuickViewModal.jsx` |
| `home.dfy` | `Home.jsx` |
| `hero_slider.dfy` | `HeroSlider.jsx` |
| `add_product.dfy` | `AddProduct.jsx` |
| `login.dfy` | `Login.jsx` |
| `signup.dfy` | `Signup.jsx` |

## Model

| member | source | states |
|---|---|---|
| Text.Lower | src/pages/ProductsPage.jsx:687-689 | lower-casing keeps the length, leaves no upper-case letter and changes only upper-case letters (each to its lower-case form) |
| Text.LowerIdempotent | src/pages/ProductsPage.jsx:687-689 | lower-casing an already lower-cased text changes nothing |
| Text.IncludesIff | src/pages/ProductsPage.jsx:687-689 | `includes` holds exactly when the needle starts at some position of the text |
| Text.IncludesEmpty | src/pages/ProductsPage.jsx:687-689 | the empty needle occurs in every text |
| Text.Includes | src/pages/ProductsPage.jsx:687-689 | `includes(t)`: a match means the needle is no longer than the text, and the empty needle always matches |
| Text.TrimEmptyIff | src/components/Navbar.jsx:36 | `trim()` is empty exactly when every character is ECMAScript white space |
| Text.Trim | src/components/Navbar.jsx:36 | `trim()` gives a contiguous run of the text, no longer than it |
| Text.BeforeFirst | src/pages/Login.jsx:19 | `split(sep)[0]` is a prefix without `sep`, followed in the text by `sep` unless it is the whole text |
| ProductsPage.SearchIgnoresCase | src/pages/ProductsPage.jsx:687-689 | the search is case-insensitive on both sides, ignores the category, and an empty search matches every product |
| ProductsPage.Matches | src/pages/ProductsPage.jsx:685-705 | the filter callback: the name search, category, status, inclusive price range and minimum rating tests all pass |
| ProductsPage.SortKey | src/pages/ProductsPage.jsx:706-719 | the key each comparator subtracts: price, −price, −rating, −id, or 0 for the `default` branch |
| ProductsPage.FilteredProducts | src/pages/ProductsPage.jsx:685-719 | `filteredProducts` is the filtered catalog reordered, a permutation of it sorted by the chosen key |
| ProductsPage.QueryMembership | src/pages/ProductsPage.jsx:685-705 | a product is in `filteredProducts` exactly when it is in the catalog and passes all five tests |
| ProductsPage.StableSort | src/pages/ProductsPage.jsx:706-719 | the sort returns a permutation of its input |
| ProductsPage.StableSortSorted | src/pages/ProductsPage.jsx:706-719 | the sort orders products by ascending comparator key |
| ProductsPage.QueryOrder | src/pages/ProductsPage.jsx:706-719 | the result is a permutation of the filtered catalog. Price-low is non-decreasing in price, price-high non-increasing, rating non-increasing, newest non-increasing in id. Featured keeps catalog order |
| ProductsPage.SortStable | src/pages/ProductsPage.jsx:706-719 | for every key, the products with that key keep their relative order through the sort |
| ProductsPage.QueryTiesKeepCatalogOrder | src/pages/ProductsPage.jsx:685-719 | products with equal sort keys appear in the result in catalog order |
| ProductsPage.FeaturedKeepsOrder | src/pages/ProductsPage.jsx:716-718 | the `default` comparator (always 0) leaves the order unchanged |
| ProductsPage.InitialFiltersShowCatalog | src/pages/ProductsPage.jsx:671-679 | with the initial filter record, which both reset buttons reinstall, and non-negative prices and ratings, the result is the whole catalog in catalog order |
| ProductsPage.SectionsPartitionResults | src/pages/ProductsPage.jsx:722-723 | the two sections hold only their status, share no product, and together hold the result exactly |
| ProductsPage.SelectPriceRange | src/pages/ProductsPage.jsx:215-221 | a price radio sets the two price bounds to the range's and leaves the other filter fields unchanged |
| ProductsPage.OnlySelectedRangeChecked | src/pages/ProductsPage.jsx:92-99 | after clicking a price radio, that radio and no other is checked |
| ProductsPage.InitialFiltersCheckAllPrices | src/pages/ProductsPage.jsx:671-679 | the initial record checks "All Prices" |
| ProductsPage.BoundaryPriceInTwoRanges | src/pages/ProductsPage.jsx:694-695 | both bounds are inclusive, so a price of exactly 500 passes "Under $500" and "$500 - $1000" |
| ProductsPage.ChairSearchExample | src/pages/ProductsPage.jsx:685-705 | searching "chair" over an accent chair and a utensil set lists only the chair |
| CartStore.Increase | src/App.jsx:24-28 | the merge map adds the quantity to the lines with the id and leaves the others and the length unchanged |
| CartStore.Assign | src/App.jsx:42-44 | the update map sets the quantity of the lines with the id and leaves the others and the length unchanged |
| CartStore.AddLine | src/App.jsx:21-32 | `addToCart` merges into the existing line by id, or appends `(product, quantity)` at the end; afterwards the id has a line |
| CartStore.RemoveLine | src/App.jsx:34-36 | `removeFromCart` leaves no line with the id and never lengthens the cart |
| CartStore.RemoveLineMembership | src/App.jsx:34-36 | the lines kept are exactly those with another id |
| CartStore.UpdateLine | src/App.jsx:38-46 | `updateQuantity` with a quantity of 0 or less is `removeFromCart`; otherwise it sets only that id's quantity |
| CartStore.Count | src/App.jsx:66 | `cartCount` is the sum of the quantities, at least the number of lines when every line holds a unit |
| CartStore.CountIncrease | src/App.jsx:24-28 | merging `q` units into the existing line raises the count by `q` |
| CartStore.CountAssign | src/App.jsx:42-44 | setting a line to `q` changes the count by `q` minus its old quantity |
| CartStore.CountRemove | src/App.jsx:34-36 | removing a line lowers the count by its quantity |
| CartStore.AddKeepsIdsUnique | src/App.jsx:21-32 | `addToCart` keeps one line per id |
| CartStore.RemoveKeepsIdsUnique | src/App.jsx:34-36 | `removeFromCart` keeps one line per id |
| CartStore.UpdateKeepsIdsUnique | src/App.jsx:38-46 | `updateQuantity` keeps one line per id |
| CartStore.AddRaisesCount | src/App.jsx:66 | the badge count (sum of quantities) rises by exactly the added quantity, whether the add merges or appends |
| CartStore.AddTwice | src/App.jsx:21-32 | adding `a` then `b` units of a product equals adding `a + b` once |
| CartStore.RemoveAbsentIsNoop | src/App.jsx:34-36 | removing an absent id leaves the cart unchanged |
| CartStore.UpdateAbsentIsNoop | src/App.jsx:38-46 | updating an absent id leaves the cart unchanged |
| CartStore.QuantitiesStayPositive | src/App.jsx:38-46 | with adds of at least one unit, no operation leaves a line with fewer than one unit |
| CartStore.Store.constructor | src/App.jsx:17-19 | the session starts with an empty cart, logged out, without a user |
| CartStore.Store.AddToCart | src/App.jsx:21-32 | the cart becomes `AddLine` of the old cart, the count rises by the quantity, one line per id is kept, the login state is unchanged |
| CartStore.Store.RemoveFromCart | src/App.jsx:34-36 | the cart becomes `RemoveLine` of the old cart; nothing else changes |
| CartStore.Store.UpdateQuantity | src/App.jsx:38-46 | the cart becomes `UpdateLine` of the old cart; nothing else changes |
| CartStore.Store.ClearCart | src/App.jsx:48-50 | the cart is empty and the count is 0; the login state is unchanged |
| CartStore.Store.HandleLogin | src/App.jsx:52-55 | logged in with the given user; the cart is unchanged |
| CartStore.Store.HandleLogout | src/App.jsx:57-60 | logged out without a user; the cart is unchanged |
| CartPage.TimesIsProduct | src/pages/Cart.jsx:7 | the line amount is price × quantity |
| CartPage.Subtotal | src/pages/Cart.jsx:7 | the subtotal adds price × quantity over the lines, using the price stored in each line |
| CartPage.Shipping | src/pages/Cart.jsx:8 | shipping is 0 exactly above 500, otherwise 50 |
| CartPage.Tax | src/pages/Cart.jsx:9 | tax is 5% of the subtotal |
| CartPage.OrderTotals | src/pages/Cart.jsx:7-10 | the summary's subtotal, shipping, tax and total, the total adding the other three |
| CartPage.MinusRequest | src/pages/Cart.jsx:85 | minus asks for one unit fewer, which removes the line exactly when it holds at most one unit |
| CartPage.PlusRequest | src/pages/Cart.jsx:92 | plus asks for one unit more, never a removal for a line with units |
| CartPage.LineAmounts | src/pages/Cart.jsx:102 | the amount shown beside each line is its price × quantity, in cart order; the checkout review step shows the same amounts |
| CartPage.SubtotalIsSumOfLineAmounts | src/pages/Cart.jsx:7 | the subtotal is the sum of the amounts shown beside the lines |
| CartPage.SubtotalNonNegative | src/pages/Cart.jsx:7 | non-negative prices and quantities give a non-negative subtotal |
| CartPage.SummaryRules | src/pages/Cart.jsx:7-10 | shipping is 0 exactly when the subtotal is above 500 and 50 otherwise; tax is 5% of the subtotal; the total is their sum and, for non-negative lines, at least the subtotal; the checkout summary uses the same definitions |
| CartPage.RenderCart | src/pages/Cart.jsx:12-34 | the empty view is shown exactly for the empty cart; otherwise one amount per line and the summary |
| CartPage.EmptyCartTotals | src/pages/Cart.jsx:7-34 | the empty cart has subtotal 0, shipping 50, tax 0, total 50, and shows the empty view |
| CartPage.SingleLineExample | src/pages/Cart.jsx:7-10 | 300 × 2 gives 600, free shipping, 30 tax, 630 total |
| CartPage.TwoLineExample | src/pages/Cart.jsx:7-10 | 100 × 1 and 50 × 3 give 250, 50 shipping, 12.5 tax, 312.5 total |
| CartPage.ShippingThreshold | src/pages/Cart.jsx:8 | a subtotal of exactly 500 pays shipping; 500.01 does not |
| CartPage.SubtotalAfterAdd | src/App.jsx:21-32 | adding a new product raises the subtotal by its line amount; adding to an existing line raises it by `q` units at the price stored in that line |
| CartPage.SubtotalIncrease | src/App.jsx:24-28 | merging `q` units raises the subtotal by `q` times the line's price |
| CartPage.MinusAtOneRemovesLine | src/pages/Cart.jsx:85 | minus on a line holding one unit removes the line |
| CartPage.MinusLowersCountByOne | src/pages/Cart.jsx:85 | minus lowers the badge count by exactly one |
| CartPage.PlusRaisesCountByOne | src/pages/Cart.jsx:92 | plus raises the badge count by exactly one |
| Checkout.LastFour | src/pages/Checkout.jsx:321 | `slice(-4)` is the last four characters, or the whole string when it is shorter |
| Checkout.LastFourExamples | src/pages/Checkout.jsx:321 | a sixteen-digit number shows "1234"; "12" and "" show themselves |
| Checkout.StepControls | src/pages/Checkout.jsx:339-365 | the controls of a step: Back when past step 1, Continue before step 3, Place Order from step 3 |
| Checkout.ControlsByStep | src/pages/Checkout.jsx:339-365 | Back is offered exactly after step 1; Place Order exactly on step 3; Continue exactly before it |
| Checkout.CheckoutPage.constructor | src/pages/Checkout.jsx:18-19 | the wizard starts at step 1 with no order placed |
| Checkout.CheckoutPage.Back | src/pages/Checkout.jsx:340-348 | Back moves one step back and keeps the step in 1..3 |
| Checkout.CheckoutPage.Continue | src/pages/Checkout.jsx:349-356 | Continue moves one step forward and keeps the step in 1..3 |
| Checkout.CheckoutPage.EditCardNumber | src/pages/Checkout.jsx:240-241 | typing changes only the card number |
| Checkout.CheckoutPage.PlaceOrder | src/pages/Checkout.jsx:40-42 | submitting on the review step sets `orderPlaced` |
| Checkout.CheckoutPage.RedirectTimerFires | src/pages/Checkout.jsx:43-46 | after an order is placed, the timer empties the cart and leaves the login state alone |
| Checkout.PlaceOrderSession | src/pages/Checkout.jsx:40-47 | Continue, Continue, Place Order and the timer leave the order placed on step 3 and the cart empty, whatever it held |
| Navbar.QuickSearch | src/components/Navbar.jsx:35-45 | at most five results, and none for a blank query |
| Navbar.QuickMatch | src/components/Navbar.jsx:37-39 | the lower-cased query occurs in the lower-cased name or the lower-cased category |
| Navbar.QuickSearchSound | src/components/Navbar.jsx:37-40 | every result is a catalog product whose lower-cased name or category contains the lower-cased query |
| Navbar.QuickSearchIsFirstMatches | src/components/Navbar.jsx:37-40 | for a non-blank query the results are the first min(5, matches) matches in catalog order |
| Navbar.QuickSearchMembership | src/components/Navbar.jsx:37-39 | with at most five matches, a product is listed exactly when it matches by name or category |
| Navbar.UntrimmedQueryMatters | src/components/Navbar.jsx:36-39 | matching uses the untrimmed query: "sofa" finds a sofa, "sofa " does not |
| Navbar.QuickSearchWiderThanPageSearch | src/components/Navbar.jsx:37-39 | the quick search matches the category and the products page does not: "living" finds a sofa in "Living Room" only here |
| Navbar.EmptyQueryFindsNothing | src/components/Navbar.jsx:42-44 | the empty query finds nothing |
| Navbar.Panel | src/components/Navbar.jsx:359-407 | the prompt with the popular searches exactly for a blank query; the list for results; "No Results" exactly for a non-blank query without results |
| Navbar.SearchPanel.constructor | src/components/Navbar.jsx:22 | the search starts closed with an empty query and no results |
| Navbar.SearchPanel.Open | src/components/Navbar.jsx:116 | the search icon opens the panel and keeps the query |
| Navbar.SearchPanel.Close | src/components/Navbar.jsx:349 | closing keeps the query and its results |
| Navbar.SearchPanel.Type | src/components/Navbar.jsx:342 | typing sets the query, and the results follow it: at most five, none when blank |
| Navbar.SearchPanel.ChoosePopular | src/components/Navbar.jsx:418-421 | a chip sets the query to exactly its term |
| Navbar.SearchPanel.Submit | src/components/Navbar.jsx:60-67 | a blank query changes nothing; otherwise the query goes to the products search and the panel closes with an empty query |
| Navbar.SearchPanel.ClickResult | src/components/Navbar.jsx:69-73 | a result click opens that catalog product and closes the panel with an empty query |
| Navbar.SearchPanel.ClearQuery | src/components/Navbar.jsx:65 | clearing the query clears the results |
| ProductPanel.StepDown | src/pages/ProductDetails.jsx:183 | minus gives max(1, q − 1), on the details page and in the quick-view modal alike |
| ProductPanel.StepUp | src/pages/ProductDetails.jsx:195 | plus adds one unit, on the details page and in the quick-view modal alike, and keeps the quantity at least 1 |
| ProductPanel.FromInput | src/pages/ProductDetails.jsx:191 | typed input gives the parsed number when it is at least 1, and 1 otherwise (NaN, 0, negatives), on the details page and in the quick-view modal alike |
| ProductPanel.StepsUndoEachOther | src/pages/ProductDetails.jsx:183-195 | minus undoes plus, plus undoes minus above one, and minus stays at one |
| ProductPanel.InputExamples | src/pages/ProductDetails.jsx:191 | re-entering a valid quantity keeps it; blank, 0 and −3 give 1 |
| ProductPanel.ShownImage | src/pages/ProductDetails.jsx:71 | the main picture is the product image or one of its images |
| ProductPanel.ShownImageCases | src/components/QuickViewModal.jsx:43 | a selected non-empty image is shown; an index outside the images falls back to the main image |
| ProductDetails.FindById | src/pages/ProductDetails.jsx:22 | the lookup is absent exactly when no product has the parsed id; otherwise it is the first product with that id |
| ProductDetails.ViewFor | src/pages/ProductDetails.jsx:27-44 | not found exactly when the lookup fails; otherwise the product and its related products |
| ProductDetails.RelatedProducts | src/pages/ProductDetails.jsx:42-44 | a prefix of the same-category other products in catalog order, of length exactly min(4, their number) |
| ProductDetails.NotRelatedToItself | src/pages/ProductDetails.jsx:42-44 | a product is never its own related product |
| ProductDetails.RelatedMembership | src/pages/ProductDetails.jsx:42-44 | with at most four candidates, the related products are exactly the other products of the category |
| ProductDetails.Savings | src/pages/ProductDetails.jsx:128-136 | the saving is shown exactly when the old price is present and not zero, and it plus the price is the old price |
| ProductDetails.DiscountSavesMoney | src/pages/ProductDetails.jsx:132-136 | an old price above the price shows a positive saving |
| ProductDetails.DetailsPage.constructor | src/pages/ProductDetails.jsx:23-24 | the first image is selected and the quantity is 1 |
| ProductDetails.DetailsPage.Minus | src/pages/ProductDetails.jsx:183 | minus steps down and keeps the quantity at least 1 |
| ProductDetails.DetailsPage.Plus | src/pages/ProductDetails.jsx:195 | plus steps up |
| ProductDetails.DetailsPage.Input | src/pages/ProductDetails.jsx:191 | typing sets the clamped quantity |
| ProductDetails.DetailsPage.SelectImage | src/pages/ProductDetails.jsx:81 | a thumbnail selects its image and keeps the quantity |
| ProductDetails.DetailsPage.AddToCart | src/pages/ProductDetails.jsx:209 | the store's cart becomes `AddLine` of the product and quantity; the count rises by the quantity |
| QuickViewModal.ListedFeatures | src/components/QuickViewModal.jsx:240 | a prefix of the features: all of them when there are four or fewer, exactly four otherwise |
| QuickViewModal.Render | src/components/QuickViewModal.jsx:9-240 | nothing for a missing product; otherwise the shown image, thumbnails exactly for more than one image, the quantity selector exactly for available products, and the listed features |
| QuickViewModal.QuickView.constructor | src/components/QuickViewModal.jsx:6-7 | the modal opens on the first image with quantity 1 |
| QuickViewModal.QuickView.Minus | src/components/QuickViewModal.jsx:177 | minus steps down and keeps the quantity at least 1 |
| QuickViewModal.QuickView.Plus | src/components/QuickViewModal.jsx:189 | plus steps up |
| QuickViewModal.QuickView.Input | src/components/QuickViewModal.jsx:185 | typing sets the clamped quantity |
| QuickViewModal.QuickView.SelectImage | src/components/QuickViewModal.jsx:53 | a thumbnail selects its image |
| QuickViewModal.QuickView.Close | src/components/QuickViewModal.jsx:30 | closing keeps the selection |
| QuickViewModal.QuickView.AddClicked | src/components/QuickViewModal.jsx:203-206 | the callback receives the product and the current quantity (at least 1), then the modal closes |
| Home.FeaturedProducts | src/pages/Home.jsx:16 | at most six featured products, each available and from the catalog, a prefix of the available ones |
| Home.FeaturedAreFirstAvailable | src/pages/Home.jsx:16 | with six or fewer available products all of them are featured; otherwise exactly six |
| Home.PreorderNeverFeatured | src/pages/Home.jsx:16 | a pre-order product is never featured |
| Home.HomePage.constructor | src/pages/Home.jsx:14 | no product is selected and no modal is mounted |
| Home.HomePage.OpenQuickView | src/pages/Home.jsx:76 | selecting a product mounts a fresh modal on it with quantity 1 |
| Home.HomePage.HandleAddToCart | src/pages/Home.jsx:42-44 | the add handler changes nothing |
| Home.HomePage.AddFromQuickView | src/pages/Home.jsx:186-192 | the modal's add button closes the modal and leaves the store's cart as it was |
| Home.HomePage.CloseQuickView | src/pages/Home.jsx:189 | closing unmounts the modal |
| HeroSlider.JsRem | src/components/HeroSlider.jsx:37 | JavaScript `%`: the ordinary remainder for non-negative operands, never below −n otherwise |
| HeroSlider.Next | src/components/HeroSlider.jsx:37 | the timer and the right arrow step forward cyclically and stay among the slides |
| HeroSlider.Prev | src/components/HeroSlider.jsx:127 | the left arrow steps back cyclically and stays among the slides |
| HeroSlider.StepsStayInRange | src/components/HeroSlider.jsx:127-134 | next and previous stay in 0..n−1, wrapping from n−1 to 0 and from 0 to n−1 |
| HeroSlider.PrevUndoesNext | src/components/HeroSlider.jsx:127-134 | previous after next, and next after previous, give back the index |
| HeroSlider.AdvanceCompose | src/components/HeroSlider.jsx:35-40 | a ticks then b ticks equal a + b ticks |
| HeroSlider.AdvanceClimbs | src/components/HeroSlider.jsx:35-40 | before the last slide, k ticks move k slides forward |
| HeroSlider.FullCycleReturns | src/components/HeroSlider.jsx:35-40 | n ticks return to the starting slide |
| HeroSlider.ExactlyOneVisible | src/components/HeroSlider.jsx:48-54 | exactly one slide, the current one, has opacity 1 |
| HeroSlider.Slider.constructor | src/components/HeroSlider.jsx:7 | the carousel starts at slide 0 |
| HeroSlider.Slider.NextSlide | src/components/HeroSlider.jsx:37 | the timer tick (and the right arrow) moves to the next slide and stays in range |
| HeroSlider.Slider.PrevSlide | src/components/HeroSlider.jsx:127 | the left arrow moves to the previous slide and stays in range |
| HeroSlider.Slider.GoTo | src/components/HeroSlider.jsx:146 | an indicator dot jumps to its slide |
| AddProduct.WithoutIndex | src/pages/AddProduct.jsx:30-32 | removing by index shortens the list by one exactly when the index is in range |
| AddProduct.WithoutIndexSplices | src/pages/AddProduct.jsx:44-46 | removing by index splices out exactly that element; an index out of range changes nothing |
| AddProduct.ProductForm.constructor | src/pages/AddProduct.jsx:20-22 | no images, one empty feature line, not submitted |
| AddProduct.ProductForm.UploadImages | src/pages/AddProduct.jsx:24-28 | the new addresses go after the existing ones, in file order |
| AddProduct.ProductForm.RemoveImage | src/pages/AddProduct.jsx:30-32 | exactly the image at the index is removed, the others keep their order |
| AddProduct.ProductForm.AddFeature | src/pages/AddProduct.jsx:34-36 | an empty line is appended; existing lines are unchanged |
| AddProduct.ProductForm.UpdateFeature | src/pages/AddProduct.jsx:38-42 | only the line at the index changes; the length is unchanged |
| AddProduct.ProductForm.RemoveFeature | src/pages/AddProduct.jsx:44-46 | exactly the line at the index is removed; the list never becomes empty, since the remove control needs two lines |
| AddProduct.ProductForm.Submit | src/pages/AddProduct.jsx:48-54 | submitting only sets `submitted` |
| Login.EmailName | src/pages/Login.jsx:19 | the name is a prefix of the email without `@`, followed in the email by `@` unless it is the whole email |
| Login.LoginUser | src/pages/Login.jsx:18-21 | the record holds the derived name and the email as typed |
| Login.EmailNameCases | src/pages/Login.jsx:19 | an email without `@` is its own name; an empty email gives an empty name |
| Login.EmailNameIgnoresDomain | src/pages/Login.jsx:19 | whatever follows the first `@` does not change the name |
| Login.LoginPage.constructor | src/pages/Login.jsx:7-9 | empty fields, not loading |
| Login.LoginPage.EditEmail | src/pages/Login.jsx:106 | typing changes only the email |
| Login.LoginPage.EditPassword | src/pages/Login.jsx:124 | typing changes only the password |
| Login.LoginPage.Submit | src/pages/Login.jsx:12-14 | submitting starts loading and captures the record of the email as submitted |
| Login.LoginPage.LoginTimerFires | src/pages/Login.jsx:17-22 | the timer logs in with the captured record, keeps the cart, and ends loading |
| Signup.SignupUser | src/pages/Signup.jsx:21-34 | no record exactly when the passwords differ; otherwise exactly name, email and phone |
| Signup.RecordOmitsPassword | src/pages/Signup.jsx:30-34 | the record is the same whatever the (matching) password is |
| Signup.SignupPage.constructor | src/pages/Signup.jsx:7-16 | empty form, not loading |
| Signup.SignupPage.Edit | src/pages/Signup.jsx:74 | editing changes only the form |
| Signup.SignupPage.Submit | src/pages/Signup.jsx:19-26 | a mismatch alerts and leaves loading off; otherwise loading starts with the record captured |
| Signup.SignupPage.SignupTimerFires | src/pages/Signup.jsx:29-35 | the timer logs in with the captured record, keeps the cart, and ends loading |

## Left out

- Rendering is not modelled: markup, styles, animation, icons and hover state. The views that decide what is shown are modelled as datatypes.
- Routing and navigation are not modelled: `navigate`, `Link` and the `/products?search=` URL. The products page never reads that URL; its search starts empty. The `/add-product` guard is only the predicate `CartStore.Store.MayAddProduct`.
- Timers are not modelled as time. Each `setTimeout` completion (login, signup, checkout redirect) is a separate method called after the one that starts it. The slider's `setInterval` tick is `NextSlide`. The add-product redirect is not modelled.
- The window scroll listener of the navigation bar is not modelled.
- `URL.createObjectURL` is not modelled: upload addresses are inputs.
- `alert` (the signup mismatch) is the returned `alerted` flag.
- Date formatting is not modelled.
- Numbers are exact `real`s: IEEE-754 rounding and the `toFixed(2)` display are not modelled.
- Text.Lower: only ASCII letters are lower-cased. Full Unicode `toLowerCase` (for example accented capitals) is not modelled.
- `parseInt` is not modelled: its result is an `Option<int>` input, with `None` for NaN.
- The product list module is not part of this model; the catalog is a parameter.
- Product fields that the modelled logic does not read (description, stock, badge, dimensions, expected date …) are not part of the product record.
- Form fields that only feed markup are not modelled: the checkout shipping and payment fields other than the card number, and the add-product detail fields. The required-field validation of the forms is not modelled either.
- The duplicate product card and quick-view modal inside the products page, the page's grid/list view mode and its quick-view selection are not modelled.
- The wishlist page only calls handlers that the application never passes, so it has no logic to model.
- ProductDetails.DetailsPage: the page keeps its `selectedImage` and `quantity` when the route id changes while it stays mounted; the model creates a page per product and does not capture that carry-over.
- ProductsPage.SortKey: any `sortBy` value other than the four named keys behaves like `Featured` (the comparator's `default` branch), so the model has only these five orders.
