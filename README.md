# e-fashion-nexus shopping core in Dafny

This project models the client-side shopping flow of the e-fashion-nexus storefront, a React and TypeScript single-page shop with a Supabase back end. The model covers:

- the in-memory cart held by the cart context (`CartStore`), and the cart page's buttons and totals (`CartPage`);
- the three-step checkout wizard, with its shipping and payment validation and its order total (`Checkout`);
- the product detail page: catalogue lookup, colour/size/quantity selection and "add to cart" (`ProductDetail`);
- the product listing page: price and colour filters, the stable price sort, colour toggling and the page title (`ProductListing`);
- the register and login forms: validation, submit gating and redirects (`Register`, `Login`);
- the Supabase-backed cart and order hooks, over an in-memory model of the tables they read and write (`Tables`, `RemoteCart`, `Orders`).

The email rule shared by the three forms, `^[^\s@]+@[^\s@]+\.[^\s@]+$`, is written as a character-level check, `EmailRule.IsValidEmail`. A separate regex-shaped definition, `EmailRule.MatchesEmailRegex`, is proved equivalent to it.

All money is in integer cents: a price of `39.99` is `3999`, and the `$100` free-shipping threshold is `10000`. The listing slider works in whole dollars, so its bound is compared against `100 * dollars`.

The model's design:

- Objects whose state the source updates in place are classes:
  - the cart provider;
  - the checkout wizard;
  - the detail, listing, register and login pages;
  - the database.
- Each method of these classes states its new state exactly, in terms of a pure function such as `CartStore.AddLine` or `ProductListing.SortByPrice`. The lemmas are proved about those functions.
- The listing sort is an in-place insertion sort on an `array`, proved equal to the functional stable sort `SortByPrice`.
- Database failures are boolean parameters. Each such parameter decides whether one Supabase call reports an error.
- The signed-in user is an `Option<string>` user id.

## Model

| member | source | states |
|---|---|---|
| CartStore.TotalsOfAppend | src/context/CartContext.tsx:43-48 | appending a line raises the item count by its quantity and the subtotal by price times quantity |
| CartStore.TotalsOfReplace | src/context/CartContext.tsx:43-48 | replacing one line changes the totals by exactly the difference of that line's quantity and value |
| CartStore.NoItemsIffEmpty | src/context/CartContext.tsx:43-48 | with positive quantities, the item count is 0 exactly when the cart is empty, and is at least the number of lines |
| CartStore.TotalItems | src/context/CartContext.tsx:44 | the item count: the sum of the lines' quantities; its laws are TotalsOfAppend, TotalsOfReplace and NoItemsIffEmpty |
| CartStore.Subtotal | src/context/CartContext.tsx:47 | the subtotal: the sum of price times quantity over the lines; its laws are TotalsOfAppend and TotalsOfReplace |
| CartStore.FindIndex | src/context/CartContext.tsx:54-56 | -1 exactly when no line has the same id, size and colour; otherwise the first matching index |
| CartStore.AddLine | src/context/CartContext.tsx:51-67 | after adding, the cart holds the item's key; the length grows by one exactly when the key was absent |
| CartStore.AddToPresentKey | src/context/CartContext.tsx:58-62 | adding an item whose id/size/colour is in the cart raises that line's quantity by one and changes nothing else |
| CartStore.AddToAbsentKey | src/context/CartContext.tsx:63-66 | adding a new id/size/colour appends one line with quantity 1 |
| CartStore.AddKeepsWellFormed | src/context/CartContext.tsx:51-67 | adding keeps lines unique by id/size/colour and quantities positive |
| CartStore.MergedPriceIsItemPrice | src/context/CartContext.tsx:58-62 | when existing lines carry the item's price, the unit price added is the item's price |
| CartStore.AddRaisesTotals | src/context/CartContext.tsx:51-67 | one add raises the item count by exactly 1 and the subtotal by the added unit's price |
| CartStore.RepeatedAdds | src/context/CartContext.tsx:51-67 | adding the same item n times to an empty cart gives one line of quantity n |
| CartStore.RemoveLines | src/context/CartContext.tsx:85-91 | a line stays exactly when it does not match the id, size and colour removed |
| CartStore.RemoveAbsentKey | src/context/CartContext.tsx:85-91 | removing a key that is not in the cart leaves the cart unchanged |
| CartStore.RemovePresentKey | src/context/CartContext.tsx:85-91 | in a cart with unique keys, removing line i's key deletes exactly line i |
| CartStore.RemoveKeepsWellFormed | src/context/CartContext.tsx:85-91 | removing keeps keys unique and quantities positive |
| CartStore.SetQuantity | src/context/CartContext.tsx:75-82 | each matching line gets the new quantity and every other line is unchanged |
| CartStore.UpdateQuantityLines | src/context/CartContext.tsx:70-83 | a quantity of 0 or less leaves no line with the key; a positive one keeps the length and gives exactly the matching lines the new quantity |
| CartStore.UpdateAbsentKey | src/context/CartContext.tsx:70-83 | updating a key that is not in the cart changes nothing |
| CartStore.UpdateKeepsWellFormed | src/context/CartContext.tsx:70-83 | updating keeps keys unique and quantities positive, because quantities of 0 or less remove the line |
| CartStore.UpdatePresentKeyTotals | src/context/CartContext.tsx:70-83 | setting line i to a positive quantity changes only that line, and the item count by the difference |
| CartStore.CartProvider.constructor | src/context/CartContext.tsx:26-37 | the provider starts from the saved cart, with totals that agree with it |
| CartStore.CartProvider.SyncTotals | src/context/CartContext.tsx:43-48 | the totals are recomputed from the cart and the cart is unchanged |
| CartStore.CartProvider.AddToCart | src/context/CartContext.tsx:51-67 | the cart becomes AddLine of the old cart; the item count rises by 1, the subtotal by the unit price, and well-formedness is kept |
| CartStore.CartProvider.RemoveFromCart | src/context/CartContext.tsx:85-91 | the cart becomes RemoveLines of the old cart, well-formedness kept |
| CartStore.CartProvider.UpdateQuantity | src/context/CartContext.tsx:70-83 | a quantity of 0 or less removes the line; otherwise the matching lines are set; well-formedness kept |
| CartStore.CartProvider.ClearCart | src/context/CartContext.tsx:93-95 | the cart and both totals become empty/zero |
| Checkout.ShippingCost | src/pages/CheckoutPage.tsx:39-40 | express costs its fee; standard is free exactly from the $100 threshold and costs its fee below it |
| Checkout.Total | src/pages/CheckoutPage.tsx:43 | the total exceeds the subtotal by exactly the shipping cost |
| Checkout.SetShippingField | src/pages/CheckoutPage.tsx:46-49 | the edited field takes the new value and every other shipping field is unchanged |
| Checkout.SetPaymentField | src/pages/CheckoutPage.tsx:52-55 | the edited field takes the new value and every other payment field is unchanged |
| Checkout.MissingShippingFields | src/pages/CheckoutPage.tsx:59-66 | lists exactly the required fields that are empty |
| Checkout.MissingPaymentFields | src/pages/CheckoutPage.tsx:79-86 | lists exactly the payment fields that are empty |
| Checkout.ValidateShippingInfo | src/pages/CheckoutPage.tsx:58-75 | passes exactly when all required fields are filled and the email is valid; the missing-field message takes precedence over the email message |
| Checkout.CountryIsNotValidated | src/pages/CheckoutPage.tsx:59 | the country field never affects shipping validation |
| Checkout.StripWhitespace | src/pages/CheckoutPage.tsx:88 | the result has no whitespace and holds every non-whitespace character of the input exactly as often as the input does, so its length is the input's count of non-whitespace characters |
| Checkout.StripWhitespaceAppend | src/pages/CheckoutPage.tsx:88 | stripping works piece by piece, so the kept characters stay in their original order |
| Checkout.ValidatePaymentInfo | src/pages/CheckoutPage.tsx:78-99 | passes exactly when all fields are filled, the card has 16 non-space characters and the CVV has at least 3; messages in that priority |
| Checkout.FirstWord | src/pages/CheckoutPage.tsx:19 | a prefix of the name with no space, ending at the first space |
| Checkout.SecondWord | src/pages/CheckoutPage.tsx:20 | empty when the name has no space, else the word after the first space |
| Checkout.InitialShippingInfo | src/pages/CheckoutPage.tsx:18-28 | the intended first form: name split into a space-free first and last name that together start the full name, the user's email, empty address fields and country "United States"; all empty when signed out |
| Checkout.InitialShippingAsWritten | src/pages/CheckoutPage.tsx:18-21 | the first form as the page computes it: it throws exactly when a user is signed in whose object has no `name`, and otherwise equals the intended first form |
| Checkout.SignedInCheckoutThrows | src/pages/CheckoutPage.tsx:19-20 | for every signed-in Supabase user the page's first render throws; signed out it does not |
| Checkout.CheckoutWizard.constructor | src/pages/CheckoutPage.tsx:15-39 | starts on step 1 with the user's name and email split into the shipping form, an empty payment form and standard shipping |
| Checkout.CheckoutWizard.Render | src/pages/CheckoutPage.tsx:134-137 | redirects to /cart exactly when the cart is empty, otherwise shows the current step |
| Checkout.CheckoutWizard.ChangeShippingInfo | src/pages/CheckoutPage.tsx:46-49 | only the edited shipping field changes |
| Checkout.CheckoutWizard.SelectShippingMethod | src/pages/CheckoutPage.tsx:308-326 | only the shipping method changes |
| Checkout.CheckoutWizard.ChangePaymentInfo | src/pages/CheckoutPage.tsx:52-55 | only the edited payment field changes |
| Checkout.CheckoutWizard.NextStep | src/pages/CheckoutPage.tsx:102-112 | step 1 advances exactly when shipping validates and step 2 exactly when payment validates, otherwise the step stays and the message is returned |
| Checkout.CheckoutWizard.PrevStep | src/pages/CheckoutPage.tsx:115-117 | goes back one step and keeps every form value |
| Checkout.CheckoutWizard.PlaceOrder | src/pages/CheckoutPage.tsx:120-131 | the cart is cleared and the page navigates to /order-confirmation |
| Checkout.BackAndForth | src/pages/CheckoutPage.tsx:102-117 | going back from payment and forward again returns to payment with both forms intact |
| CartPage.ShippingCost | src/pages/CartPage.tsx:11 | zero exactly when the subtotal is 0 or at least $100, else the standard fee |
| CartPage.Total | src/pages/CartPage.tsx:14 | the total exceeds the subtotal by exactly the shipping cost |
| CartPage.ShippingRulesCompared | src/pages/CartPage.tsx:11 | agrees with checkout's standard shipping except on an empty subtotal, where the cart page charges 0 and checkout the fee |
| CartPage.Render | src/pages/CartPage.tsx:11-29 | shows the empty state exactly when there are no lines, otherwise the lines with the given subtotal, its shipping cost and its total (subtotal plus shipping) |
| CartPage.Press | src/pages/CartPage.tsx:75-96 | minus does nothing at quantity 1 and otherwise asks for a quantity of at least 1; trash always removes; every call names the pressed line's key |
| CartPage.ButtonsKeepCartWellFormed | src/pages/CartPage.tsx:75-96 | every button press keeps the cart's keys unique and quantities positive |
| CartPage.SetLineQuantity | src/pages/CartPage.tsx:75-83 | setting a line's quantity replaces only that line and moves the item count by the difference |
| CartPage.MinusLowersLine | src/pages/CartPage.tsx:75 | minus lowers that line by one and the item count by one |
| CartPage.PlusRaisesLine | src/pages/CartPage.tsx:83 | plus raises that line by one and the item count by one |
| CartPage.TrashDropsLine | src/pages/CartPage.tsx:96 | trash deletes exactly that line |
| EmailRule.IndexOf | src/pages/CheckoutPage.tsx:19-20 | -1 when the character is absent, else its first position |
| EmailRule.IsValidEmail | src/pages/CheckoutPage.tsx:68 | the shared email test: exactly one `@`, not first, no whitespace anywhere, and after the `@` a domain with a `.` that has a character on each side; EmailCheckMatchesRegex proves it accepts exactly what the regex accepts |
| EmailRule.EmailCheckMatchesRegex | src/pages/LoginPage.tsx:28 | the character-level email check accepts exactly the strings the email regex matches |
| ProductDetail.FindProduct | src/pages/ProductDetailPage.tsx:68 | None exactly when no product has the id, else the first product with it |
| ProductDetail.ColourName | src/pages/ProductDetailPage.tsx:92-93 | empty when no colour has the value, else the name of the first colour with it |
| ProductDetail.SwatchGivesItsName | src/pages/ProductDetailPage.tsx:92-93 | with distinct colour values, looking up a swatch's value gives back that swatch's name |
| ProductDetail.CatalogueColoursAreDistinct | src/pages/ProductDetailPage.tsx:10-61 | every catalogue product has at least one colour and image, and distinct colour values |
| ProductDetail.InitialColor | src/pages/ProductDetailPage.tsx:72 | the first colour's value of a found product, else empty |
| ProductDetail.InitialSize | src/pages/ProductDetailPage.tsx:73 | the first size of a found product, else empty |
| ProductDetail.InitialImage | src/pages/ProductDetailPage.tsx:75 | the first image of a found product, else empty |
| ProductDetail.AddPayload | src/pages/ProductDetailPage.tsx:95-101 | the cart item has the product's id, name and price, its first image, the chosen size and the chosen colour's name |
| ProductDetail.ProductDetailPage.constructor | src/pages/ProductDetailPage.tsx:68-74 | looks the id up in the catalogue and starts on the first colour, first size, first image and quantity 1 |
| ProductDetail.ProductDetailPage.View | src/pages/ProductDetailPage.tsx:77-87 | the not-found view is shown exactly when no product matched |
| ProductDetail.ProductDetailPage.SelectColor | src/pages/ProductDetailPage.tsx:164 | only the selected colour changes |
| ProductDetail.ProductDetailPage.SelectSize | src/pages/ProductDetailPage.tsx:186 | only the selected size changes |
| ProductDetail.ProductDetailPage.SelectImage | src/pages/ProductDetailPage.tsx:138 | only the main image changes |
| ProductDetail.ProductDetailPage.DecrementQuantity | src/pages/ProductDetailPage.tsx:200 | quantity drops by one but never below 1 |
| ProductDetail.ProductDetailPage.IncrementQuantity | src/pages/ProductDetailPage.tsx:208 | quantity rises by one |
| ProductDetail.ProductDetailPage.AddToCart | src/pages/ProductDetailPage.tsx:90-102 | the cart becomes AddLine of the old cart with the payload; the item count rises by 1 |
| ProductListing.PriceFilter | src/pages/ProductListingPage.tsx:44-46 | keeps exactly the products priced between the slider bounds, in their original order |
| ProductListing.ColourFilter | src/pages/ProductListingPage.tsx:49-57 | keeps exactly the products with a variant of a selected colour, in their original order |
| ProductListing.Filtered | src/pages/ProductListingPage.tsx:41-57 | the price filter, then the colour filter when colours are selected; FilteredKeepsExactlyMatches states what it keeps |
| ProductListing.FilteredKeepsExactlyMatches | src/pages/ProductListingPage.tsx:41-57 | the filtered list holds exactly the in-range products that match the colour selection (any, when none is selected), in order |
| ProductListing.Insert | src/pages/ProductListingPage.tsx:64-69 | one insertion step of the stable price sort, placing the element after every element not greater in the chosen direction; InsertPosition, InsertPermutes, InsertKeepsSorted and InsertKeepsWithPrice state its properties |
| ProductListing.SortByPrice | src/pages/ProductListingPage.tsx:64-69 | the price sort of the listing, by insertion; SortByPriceCorrect proves it ordered, a permutation and stable |
| ProductListing.InsertPermutes | src/pages/ProductListingPage.tsx:60-73 | inserting adds exactly one element to the multiset |
| ProductListing.InsertKeepsSorted | src/pages/ProductListingPage.tsx:60-73 | inserting into a price-sorted list keeps it sorted |
| ProductListing.InsertKeepsWithPrice | src/pages/ProductListingPage.tsx:60-73 | inserting keeps the order of equally priced products, with the new one last |
| ProductListing.SortByPriceCorrect | src/pages/ProductListingPage.tsx:60-73 | the sort is ordered by price, a permutation, and stable for equal prices |
| ProductListing.InsertInPlace | src/pages/ProductListingPage.tsx:60-73 | after the shift loop the first i+1 cells are the sorted insert of cell i into the sorted prefix; the rest is untouched |
| ProductListing.SortInPlace | src/pages/ProductListingPage.tsx:60-73 | the array ends equal to the stable price sort of its old contents |
| ProductListing.FilterAndSort | src/pages/ProductListingPage.tsx:38-76 | shows exactly the filtered products; unsorted for recommended and newest, price-ordered and stable for the price sorts |
| ProductListing.RemoveColour | src/pages/ProductListingPage.tsx:81 | keeps exactly the colours other than c, in order |
| ProductListing.ToggleColour | src/pages/ProductListingPage.tsx:79-85 | c's membership flips, every other colour's is unchanged, and a new colour is appended |
| ProductListing.ToggleTwiceRestoresMembership | src/pages/ProductListingPage.tsx:79-85 | toggling the same colour twice restores the selection as a set |
| ProductListing.ListingPage.constructor | src/pages/ProductListingPage.tsx:22-25 | starts on recommended, the 0 to 200 range and no colours |
| ProductListing.ListingPage.Refresh | src/pages/ProductListingPage.tsx:38-76 | with products loaded, shows exactly the filtered ones in the selected order; without them, the list is kept |
| ProductListing.ListingPage.ToggleColorSelection | src/pages/ProductListingPage.tsx:79-85 | the colour selection becomes its toggle and nothing else changes |
| ProductListing.ListingPage.SetMaxPrice | src/pages/ProductListingPage.tsx:133 | only the upper price bound changes |
| ProductListing.ListingPage.SetSort | src/pages/ProductListingPage.tsx:230 | only the sort option changes |
| ProductListing.ListingPage.ClearFilters | src/pages/ProductListingPage.tsx:88-92 | range, colours and sort return to their initial values |
| ProductListing.UpperChar | src/pages/ProductListingPage.tsx:97 | lower-case ASCII letters map to upper case; every other character is kept |
| ProductListing.PageTitle | src/pages/ProductListingPage.tsx:95-98 | "All Products" without a category or for "all"; otherwise the category with its first letter capitalised |
| Register.IsValidPassword | src/pages/RegisterPage.tsx:19 | a password is valid when it has at least 8 characters |
| Register.IsValidForm | src/pages/RegisterPage.tsx:22-23 | all four fields set, the email valid, the password valid and the confirmation equal to it; FormValidityAgainstRegex restates it against the regex |
| Register.FormValidityAgainstRegex | src/pages/RegisterPage.tsx:19-24 | the form is valid exactly when the name is set, the email matches the regex, the password has 8 or more characters and the confirmation equals it |
| Register.SubmitError | src/pages/RegisterPage.tsx:29-37 | no error exactly for a valid form; otherwise the mismatch message first, then the length message, then the generic one |
| Register.BadEmailGetsGenericMessage | src/pages/RegisterPage.tsx:29-37 | a bad email with a good name and password is reported only by the generic message |
| Register.EndOfCall | src/pages/RegisterPage.tsx:42-50 | navigates home exactly when the sign-up call reports success, else shows the registration-failed message |
| Register.CallSucceeds | src/pages/RegisterPage.tsx:9 | a call succeeds exactly when the callee is a function that reports success; calling `undefined` never does |
| Register.RegistrationAlwaysFailsAsWritten | src/pages/RegisterPage.tsx:9-50 | with register read from a context that does not provide it, every submit of a valid form ends in the failure message |
| Register.RegisterPage.constructor | src/pages/RegisterPage.tsx:12-16 | every field starts empty and nothing is loading |
| Register.RegisterPage.SubmitDisabled | src/pages/RegisterPage.tsx:128 | the button is disabled exactly while loading or while the form has an error |
| Register.RegisterPage.Edit | src/pages/RegisterPage.tsx:68-116 | only the edited field changes |
| Register.RegisterPage.BeginSubmit | src/pages/RegisterPage.tsx:26-43 | an invalid form is rejected with its message and no loading; a valid one starts loading and calls register with the form's values |
| Register.RegisterPage.FinishSubmit | src/pages/RegisterPage.tsx:42-50 | loading ends and the outcome is EndOfCall of whether the sign-up call reported success |
| Login.IsValidForm | src/pages/LoginPage.tsx:29 | email and password set and the email valid; FormValidityAgainstRegex restates it against the regex |
| Login.FormValidityAgainstRegex | src/pages/LoginPage.tsx:28-29 | the form is valid exactly when the email matches the regex and the password is not empty |
| Login.RedirectPath | src/pages/LoginPage.tsx:13 | the path from the router state when it is present and non-empty, else "/" |
| Login.LoginPage.constructor | src/pages/LoginPage.tsx:13-18 | the redirect path is fixed (and never empty) and the form starts empty |
| Login.LoginPage.AuthRedirect | src/pages/LoginPage.tsx:21-25 | redirects exactly when signed in, to the redirect path |
| Login.LoginPage.SubmitDisabled | src/pages/LoginPage.tsx:94 | disabled exactly while loading or while the email fails the regex or the password is empty |
| Login.LoginPage.SetEmail | src/pages/LoginPage.tsx:66 | only the email changes |
| Login.LoginPage.SetPassword | src/pages/LoginPage.tsx:85 | only the password changes |
| Login.LoginPage.BeginSubmit | src/pages/LoginPage.tsx:31-39 | an invalid form is rejected with its message; a valid one starts loading and calls login |
| Login.LoginPage.FinishSubmit | src/pages/LoginPage.tsx:41-48 | loading ends; navigates to the redirect path exactly when login succeeded |
| Tables.Database.constructor | src/integrations/supabase/types.ts:11-259 | the tables start empty apart from the given catalogue |
| Tables.Database.NewId | src/hooks/useCart.ts:41 | hands out a fresh id and keeps every table unchanged |
| RemoteCart.FirstCartOf | src/hooks/useCart.ts:31-35 | None exactly when the user has no cart, else the first cart of the user |
| RemoteCart.LookupCart | src/hooks/useCart.ts:30-49 | the existing cart exactly when the select succeeds and finds one, else a new cart with the next id; either way it is the user's |
| RemoteCart.FirstItemOf | src/hooks/useCart.ts:100-104 | None exactly when no row of the cart holds the variant, else the first such row |
| RemoteCart.DeleteById | src/hooks/useCart.ts:157-160 | keeps exactly the rows with another id |
| RemoteCart.DeleteKeepsIdsFresh | src/hooks/useCart.ts:157-160 | deleting keeps row ids distinct and below the id counter |
| RemoteCart.UpdateQuantityById | src/hooks/useCart.ts:139-142 | the rows after `update ... eq('id')`, of the same length; UpdatePointwise and UpdateOneRow state which row changes |
| RemoteCart.UpdatePointwise | src/hooks/useCart.ts:139-142 | the row with the id gets the quantity; every other row is unchanged |
| RemoteCart.UpdateKeepsIdsFresh | src/hooks/useCart.ts:139-142 | updating keeps row ids distinct and below the id counter |
| RemoteCart.UpdateOneRow | src/hooks/useCart.ts:108-111 | with unique ids, updating row i's id changes exactly that row's quantity |
| RemoteCart.ItemsAfterAdd | src/hooks/useCart.ts:99-125 | the cart rows after an add: the first row holding the variant gains the quantity, or a row is appended when the lookup finds none or fails; AddExistingVariant, AddNewVariant, AddKeepsOneRowPerVariant and AddTwiceSumsQuantities state its properties |
| RemoteCart.AddExistingVariant | src/hooks/useCart.ts:106-113 | when the cart holds the variant, its first such row's quantity rises by the added quantity and nothing else changes |
| RemoteCart.AddNewVariant | src/hooks/useCart.ts:114-125 | when the cart lacks the variant, one row with the new id and quantity is appended |
| RemoteCart.AddKeepsOneRowPerVariant | src/hooks/useCart.ts:99-125 | adding keeps at most one row per cart and variant |
| RemoteCart.AddTwiceSumsQuantities | src/hooks/useCart.ts:99-125 | adding a new variant twice gives one row with the summed quantity |
| RemoteCart.FoundAtEnd | src/hooks/useCart.ts:100-104 | after appending a new variant's row, the lookup finds that row |
| RemoteCart.AppendKeepsIdsFresh | src/hooks/useCart.ts:118-123 | appending a row with the next id keeps ids distinct and below the advanced counter |
| RemoteCart.FindVariant | src/hooks/useCart.ts:63-64 | the variant with the id, None exactly when there is none |
| RemoteCart.FindProductRow | src/hooks/useCart.ts:65 | the product with the id, None exactly when there is none |
| RemoteCart.ToCartItem | src/hooks/useCart.ts:72-85 | joins a cart row with its variant and product, keeping id, variant and quantity, with the product's first image; None (the mapping throws) exactly when the variant or product is missing or the product's image list is null |
| RemoteCart.RowsOfCart | src/hooks/useCart.ts:59-68 | keeps exactly the rows of the cart |
| RemoteCart.ToCartItems | src/hooks/useCart.ts:72-85 | defined exactly when every row joins, then one item per row in order |
| RemoteCart.CartItemsListTheCartRows | src/hooks/useCart.ts:53-88 | every listed item is a row of the user's cart with the same id and quantity |
| RemoteCart.GetCart | src/hooks/useCart.ts:27-50 | no cart when signed out; otherwise the user's existing cart, or a newly inserted one, or the insert's error |
| RemoteCart.IncreaseRow | src/hooks/useCart.ts:108-111 | the row's quantity becomes its old quantity plus the added one |
| RemoteCart.InsertRow | src/hooks/useCart.ts:116-123 | appends one row with the next id |
| RemoteCart.WriteItem | src/hooks/useCart.ts:99-125 | the cart rows become ItemsAfterAdd of the old rows, keeping one row per variant |
| RemoteCart.AddToCart | src/hooks/useCart.ts:91-126 | on any table, refuses a signed-out user with its message; otherwise finds or creates the cart and adds the variant, or reports the first failing call; one row per variant is kept when the item lookup succeeds |
| RemoteCart.UpdateCartItem | src/hooks/useCart.ts:137-145 | sets the row's quantity, or reports the error and changes nothing |
| RemoteCart.RemoveFromCart | src/hooks/useCart.ts:155-163 | deletes the row, or reports the error and changes nothing |
| RemoteCart.LoadCart | src/hooks/useCart.ts:38-88 | empty when signed out or on a failed read; otherwise the joined rows of the user's cart; the user's cart is appended when none was found and the insert succeeds, and no other table changes |
| Orders.NewOrderRow | src/hooks/useOrders.ts:109-120 | copies the user, total and every shipping field, with status "confirmed" |
| Orders.OrderItemFor | src/hooks/useOrders.ts:127-135 | one order item: the order id, the variant, the product's name and price, the variant's size and colour, and the quantity |
| Orders.OrderItemsFor | src/hooks/useOrders.ts:127-135 | one order item per cart item, in order, with the product name, size, colour, quantity and price |
| Orders.CartValue | src/hooks/useOrders.ts:127-135 | the value of the cart items: price times quantity summed; OrderItemsKeepValue proves the order items carry the same value |
| Orders.OrderItemsKeepValue | src/hooks/useOrders.ts:127-135 | the order items add up to the same value and item count as the cart items |
| Orders.BatchKeepsIdsFresh | src/hooks/useOrders.ts:137-139 | inserting a batch with consecutive new ids keeps ids distinct |
| Orders.DeleteByCart | src/hooks/useOrders.ts:151-156 | keeps exactly the rows of other carts |
| Orders.DeleteByCartKeepsIdsFresh | src/hooks/useOrders.ts:151-156 | deleting a cart's rows keeps ids distinct |
| Orders.CartItemsAfterOrder | src/hooks/useOrders.ts:143-156 | the user's first cart is emptied when it is found and the delete succeeds; otherwise rows are unchanged |
| Orders.InsertOrder | src/hooks/useOrders.ts:109-124 | appends the new order row with the next id |
| Orders.InsertOrderItems | src/hooks/useOrders.ts:127-141 | appends the order's items with consecutive new ids |
| Orders.ClearUserCart | src/hooks/useOrders.ts:143-156 | the cart rows become CartItemsAfterOrder of the old rows |
| Orders.CreateOrder | src/hooks/useOrders.ts:94-159 | refuses a signed-out user; stops with the error when the order or item insert fails; otherwise writes order and items, clears the cart and returns the order |
| Orders.FindOrder | src/hooks/useOrders.ts:68-75 | the order with that id belonging to the user, None exactly when there is none |
| Orders.ItemsOfOrder | src/hooks/useOrders.ts:77-80 | keeps exactly the items of the order |
| Orders.OrderDetails | src/hooks/useOrders.ts:62-91 | null exactly when signed out or without an id; otherwise the user's order with its items, or the error of a failing read or a missing order |
| Orders.PlacedOrderReadsBack | src/hooks/useOrders.ts:62-159 | an order just placed reads back with exactly the items inserted for it |
| Orders.FindNewOrder | src/hooks/useOrders.ts:68-75 | the newest order is found by its fresh id |
| Orders.ItemsOfNewOrder | src/hooks/useOrders.ts:77-80 | the items read back for a fresh order id are exactly the batch inserted for it |

## Left out

- The cart's `localStorage` persistence and JSON parsing are not modelled. The provider starts from the saved cart as a value.
- JSX markup, icons, toasts and loading skeletons are not modelled. Navigation is kept only as a returned path.
- Asynchronous behaviour and React Query are not modelled: caching, invalidation, `enabled` flags, retries and re-render timing. Every call is atomic.
- A failed cart query reads as an empty list, which is what the page displays via `cart || []`.
- Authentication is reduced to an optional user id. Supabase sign-in and sign-up are outside the model.
- Supabase's uuid ids are a counter `nextId`. The order id from the route is an `Option<nat>`.
- Database errors carry one fixed message, `"database error"`. Their real text is not modelled.
- ProductListing.UpperChar: only ASCII letters are upper-cased, while `toUpperCase` also maps other Unicode letters.
- Register.IsValidPassword: `|password|` counts Unicode scalar values, while JavaScript's `.length` counts UTF-16 code units. A password of four emoji has length 8 in the source and is accepted there, but the model rejects it.
- Checkout.ValidatePaymentInfo: the card-number and CVV lengths are likewise counted in Unicode scalar values, not UTF-16 code units. The two counts differ only for characters outside the Basic Multilingual Plane.
- CartStore.CartProvider: the totals are recomputed in the same step as the cart changes. In the source they lag one render behind, in an effect.
- CartStore.AddLine: the source also mutates the existing line object in place (the `quantity += 1` on a shallow copy of the array). The model replaces the line by value and does not capture that aliasing.
- Checkout.CheckoutWizard: the per-step requires on the change handlers reflect which step renders each input. They are not checks the source performs.
- Checkout.CheckoutWizard.constructor: it takes a user that has a name, which is the page's intended behaviour. The page as written throws on every render for a signed-in user (see Findings), and the wizard does not model that crash; Checkout.InitialShippingAsWritten does.
- The order history list (`ordersQuery` and its `created_at` ordering) is not modelled.
- The listing page's decorative colour-swatch list is not modelled, nor the detail page's description and details text.
- `.single()` failing when several rows match is not modelled. Ids are unique in the model.
- RemoteCart.GetCart: a failed cart select is treated like "no cart", so a second cart is inserted, as in the source. The model does not flag this as an error.
- Concurrent mutations and the order of network responses are not modelled.
- ProductDetail.ProductDetailPage: a page object is built for one product id. In the source the component can stay mounted when the route id changes; the product is looked up again but the selected colour, size, image and quantity keep their old state. The model does not capture that carry-over.

## Findings

| source | as written | input that shows it | evidently intended | confidence | as-written member | corrected member |
|---|---|---|---|---|---|---|
| src/pages/RegisterPage.tsx:9 and src/pages/RegisterPage.tsx:43, with src/context/AuthContext.tsx:6-23 | `register` is destructured from the auth context, which provides no such member, so it is undefined; calling it throws and the catch shows "Registration failed. Please try again." | any valid form, e.g. name "Ann", email "a@b.co", password and confirmation "password1" | call the context's `signUp`, which catches its own errors and resolves to true or false, and navigate home exactly when it returns true | medium; not executed | Register.RegistrationAlwaysFailsAsWritten | Register.RegisterPage.FinishSubmit |
| src/pages/CheckoutPage.tsx:19-20, with src/context/AuthContext.tsx:6 | the shipping form's initial value reads `user?.name.split(' ')`; the signed-in user is a Supabase `User`, which has no `name`, so `undefined.split` throws a TypeError on every render for any signed-in user | any signed-in user opening /checkout with a non-empty cart | fill the first and last name from a display name the user actually carries | medium; not executed | Checkout.SignedInCheckoutThrows | Checkout.InitialShippingInfo |
