# PillPal storefront core, modelled in Dafny

This project models the logic of a small Next.js pharmacy storefront:

- the server actions that keep simulated users and added products in process memory;
- the client hook holding the login flag;
- the pure derivations the pages compute from the mock catalog:
  - cart lines, totals and the checkout guard;
  - the catalog's category and search filter;
  - the daily sales report;
- the client-side validators and access guards:
  - the signup form with its result routing;
  - the prescription upload form and its gate;
  - the admin layout.

Layout, one module per source file plus shared helpers:

- **Wrappers** holds `Option`.
- **JsText** holds the string behaviour the pages rely on: ASCII `toLowerCase`, JavaScript white space, `trim`, `replace(/\s+/g, '-')`, `includes`, `join` and UTF-16 length.
- **JsArray** holds `filter`, `find`, `findIndex` and a summing `reduce`.
- **Forms** holds zod's flattened field errors, as an ordered list of (field, messages) entries.
- **MockData** holds the catalog, with prices in cents.
- **AuthActions**, **ProductActions** and **SimulatedAuth** model the stores and the hook.
  - Each store is a class whose methods change a `seq` field.
  - Each method is proved equal to a pure step function of the old state. The step function returns the action's result and the new state.
  - The properties are proved about those step functions.
  - The user store keeps an invariant through every method: no two users share a lower-cased email, and no user has the reserved one.
- **CartPage**, **MedicinesPage**, **SalesReport**, **SignupPage**, **PrescriptionUpload** and **AdminLayout** model the pages' derivations as functions. Properties are stated as lemmas.
  - SignupPage also has `RouteServerErrors`, a method with a loop over the error keys. It is proved against `RoutedFieldErrors`.

Library checks are function-typed parameters: zod's `.email()` is `isEmail`, `.url()` is `isUrl`, and date-fns' `isSameDay(parseISO(..))` is `sameDay`. Money is in integer cents.

The login hook in `src/hooks/useSimulatedAuth.ts` holds only the login flag and the loading flag. Pages also read a cart, a current user and an admin flag from it, but the hook shown does not define any of those. The model follows the code: the cart, the current user and the admin flag are inputs to the page functions, and no rule for them is invented.

The catalog filter compares the `category` query parameter with a slug of each medicine's category name. The dropdown and the category cards send the category's id instead. The two differ for "Cold & Flu" (`cold-&-flu` against `cold-flu`) and for "Vitamins & Supplements". So those two categories list nothing, while the subtitle still names the category. The model keeps this behaviour (`ColdFluMatchesNothing`, `ColdFluSubtitle`) and also gives the filter keyed by id (see Findings).

## Model

| member | source | states |
|---|---|---|
| AuthActions.NameMessages | src/app/actions/auth.ts:8 | a name is rejected exactly when it has fewer than 2 UTF-16 units |
| AuthActions.PhoneMessages | src/app/actions/auth.ts:10 | a phone is accepted iff it has at least 10 units and matches `^\+?[0-9\s-()]+$`; each failed rule adds one message |
| AuthActions.SignupErrors | src/app/actions/auth.ts:7-13 | no field errors iff all four signup rules hold; every entry names one of the four fields and has a message |
| AuthActions.LoginErrors | src/app/actions/auth.ts:78-81 | no field errors iff the email is valid and the password is not empty |
| AuthActions.ProfileUpdateErrors | src/app/actions/auth.ts:152-157 | no field errors iff the user id is a valid email and the name and phone, when sent, pass their rules |
| AuthActions.AppendKeepsInvariant | src/app/actions/auth.ts:56-65 | appending a user whose email is new and not reserved keeps stored emails unique up to case |
| AuthActions.ReplaceKeepsInvariant | src/app/actions/auth.ts:203-211 | replacing a user by one with the same email keeps stored emails unique up to case |
| AuthActions.Updated | src/app/actions/auth.ts:203-211 | an update never changes the email or the password, always leaves an address, and an update that sends nothing leaves a user with an address as it was |
| AuthActions.SignupStep | src/app/actions/auth.ts:34-74 | success iff the schema passes, the email is not reserved and no stored email matches it case-insensitively; a failure leaves the store unchanged, with the schema errors or the email error; a success appends exactly one user with an empty address and redirects home; email uniqueness is preserved |
| AuthActions.LoginLookup | src/app/actions/auth.ts:115-146 | success iff some stored user matches the email (any case) and the password, or the test credentials are given; the first stored match is returned with the store unchanged; otherwise the test user is returned and appended only if its email is not stored; any other credentials fail with the `_form` error |
| AuthActions.LoginStep | src/app/actions/auth.ts:95-147 | a schema failure returns the field errors and keeps the store; otherwise the lookup decides; email uniqueness is preserved |
| AuthActions.UpdateStep | src/app/actions/auth.ts:171-220 | success iff the schema passes and some stored email matches the user id case-insensitively; then exactly the first match is replaced by its update; name and phone change only when sent, the address falls back to the old one or `''`; no email or password ever changes; an unknown id fails with "User not found" and changes nothing |
| AuthActions.UserStore.constructor | src/app/actions/auth.ts:15 | the store starts empty and satisfies its invariant |
| AuthActions.UserStore.SignupUser | src/app/actions/auth.ts:34-74 | the result and the new user list are those of `SignupStep`; the invariant is kept |
| AuthActions.UserStore.LoginUser | src/app/actions/auth.ts:95-147 | the result and the new user list are those of `LoginStep`; the invariant is kept |
| AuthActions.UserStore.UpdateUserProfile | src/app/actions/auth.ts:171-220 | the result and the new user list are those of `UpdateStep`; the invariant is kept |
| ProductActions.ProductErrors | src/app/actions/products.ts:8-16 | no field errors iff every product rule holds: name, category id, price, description, whole non-negative stock, URL, hint length |
| ProductActions.StoredHint | src/app/actions/products.ts:15 | model of the one-line `undefined` fallback: an empty hint is stored as absent; any other hint is kept |
| ProductActions.CategoryFallbackUnreachable | src/app/actions/products.ts:54-63 | a form that passes the schema names a category the lookup finds, so the fallback branch never runs |
| ProductActions.AddProductStep | src/app/actions/products.ts:40-91 | success iff the schema passes; a failure returns the field errors and keeps the list; a success appends exactly the returned product, which has the given id and the copied fields, the matched category's display name and the stored hint |
| ProductActions.AddedMessageNamesProduct | src/app/actions/products.ts:88 | the success message contains the product name |
| ProductActions.ProductStore.constructor | src/app/actions/products.ts:38 | the product list starts empty |
| ProductActions.ProductStore.AddProduct | src/app/actions/products.ts:40-91 | the result and the new product list are those of `AddProductStep` |
| SimulatedAuth.Initial | src/hooks/useSimulatedAuth.ts:11-12 | before the effect: loading, logged out, storage untouched |
| SimulatedAuth.AfterInit | src/hooks/useSimulatedAuth.ts:14-19 | after the effect: not loading, and logged in iff the stored value is exactly "true" |
| SimulatedAuth.AfterLogin | src/hooks/useSimulatedAuth.ts:21-25 | login writes "true" under the key and sets the flag; loading is unchanged |
| SimulatedAuth.AfterLogout | src/hooks/useSimulatedAuth.ts:27-31 | logout removes the key, leaves every other key as it was, and clears the flag |
| SimulatedAuth.LoginIdempotent | src/hooks/useSimulatedAuth.ts:21-25 | small consequence of `AfterLogin`: logging in twice is the same as logging in once |
| SimulatedAuth.LoadingNeverReturns | src/hooks/useSimulatedAuth.ts:12-19 | once the loading flag is cleared, no event sequence sets it again |
| SimulatedAuth.RunEndsSynced | src/hooks/useSimulatedAuth.ts:14-31 | after any non-empty event sequence the flag agrees with storage |
| SimulatedAuth.LoadingUntilInit | src/hooks/useSimulatedAuth.ts:12-19 | from the first render, the hook is loading iff the mount effect has not run |
| SimulatedAuth.LoadingUntilInitFrom | src/hooks/useSimulatedAuth.ts:12-19 | from any loading state, loading persists exactly until the first mount effect |
| SimulatedAuth.AuthHook.constructor | src/hooks/useSimulatedAuth.ts:9-12 | the hook starts in the initial state |
| SimulatedAuth.AuthHook.Init | src/hooks/useSimulatedAuth.ts:14-19 | the new state is `AfterInit` of the old one |
| SimulatedAuth.AuthHook.LoginAction | src/hooks/useSimulatedAuth.ts:21-25 | the new state is `AfterLogin` of the old one |
| SimulatedAuth.AuthHook.LogoutAction | src/hooks/useSimulatedAuth.ts:27-31 | the new state is `AfterLogout` of the old one |
| CartPage.Detail | src/app/cart/page.tsx:32-41 | an entry is detailed iff its medicine id is in the catalog, with that record, its quantity and price times quantity |
| CartPage.DetailSeq | src/app/cart/page.tsx:32-43 | an entry contributes at most one line, and none iff its id is not in the catalog |
| CartPage.DetailedCartItems | src/app/cart/page.tsx:30-44 | every line is a catalog record with its total equal to price times quantity, and there are no more lines than entries |
| CartPage.DetailedCartItemsAppend | src/app/cart/page.tsx:30-44 | detailing a concatenated cart details each part in order |
| CartPage.UnknownItemDropped | src/app/cart/page.tsx:33-43 | an entry whose id is not in the catalog is dropped |
| CartPage.DetailedCartItemsAllKnown | src/app/cart/page.tsx:30-44 | when every id is in the catalog, each entry gives one line with its id and quantity, in cart order |
| CartPage.CartSubtotalAppend | src/app/cart/page.tsx:46-48 | the subtotal of an empty list is 0 and the subtotal adds over concatenation |
| CartPage.CartSubtotal | src/app/cart/page.tsx:46-48 | the subtotal of no lines is 0, and lines with non-negative totals give a non-negative subtotal |
| CartPage.CartSubtotalPositive | src/app/cart/page.tsx:46-48 | a non-empty list of paid lines has a positive subtotal |
| CartPage.ShippingCost | src/app/cart/page.tsx:50 | model of the one-line conditional: shipping is 500 cents exactly when the subtotal is positive, else 0 |
| CartPage.CartTotal | src/app/cart/page.tsx:51 | the total is the subtotal plus the shipping |
| CartPage.CartTotalOfLines | src/app/cart/page.tsx:46-51 | an empty cart costs 0; a cart of paid lines costs its subtotal plus 500 |
| CartPage.ForwardedQuantity | src/app/cart/page.tsx:53-57 | model of the one-line guard: a new quantity is forwarded, unchanged, iff it is not negative |
| CartPage.QuantityFromInput | src/app/cart/page.tsx:179 | model of the one-line fallback to 0: input that is not a number becomes 0; a number is kept |
| CartPage.QuantityInputs | src/app/cart/page.tsx:173-183 | non-numeric input forwards 0; an enabled minus button forwards a quantity of at least 1; plus is always forwarded |
| CartPage.ProceedToCheckout | src/app/cart/page.tsx:59-68 | the order is placed iff there is a user whose address is present and not blank; otherwise it redirects to the profile page |
| CartPage.CartAfterCheckout | src/app/cart/page.tsx:59-82 | the cart is cleared iff the order is placed, else it is unchanged |
| CartPage.SelectCartView | src/app/cart/page.tsx:85-145 | precedence: loading shows a spinner, then logged out shows the login prompt, then no lines shows the empty view, else the cart |
| MedicinesPage.FilteredMedicines | src/app/medicines/page.tsx:20-33 | the result is a subsequence of the catalog; a medicine is in it iff it passes both the category test and the search test |
| MedicinesPage.NoFilterShowsAll | src/app/medicines/page.tsx:21-30 | with no, an empty or the "_all_" category, and no search text, the whole catalog is shown in order |
| MedicinesPage.SearchIgnoresCase | src/app/medicines/page.tsx:18 | lower-casing the query does not change the result |
| MedicinesPage.SlugHead | src/app/medicines/page.tsx:24 | a slug starts with the lower-cased first letter of the name |
| MedicinesPage.CategorySlug | src/app/medicines/page.tsx:24 | a slug is no longer than the name and holds no white space and no ASCII capital letter |
| MedicinesPage.SlugTwoWords | src/app/medicines/page.tsx:24 | two words separated by one space slug to the words joined by a dash |
| MedicinesPage.SlugThreeWords | src/app/medicines/page.tsx:24 | three words separated by single spaces slug to the words joined by dashes |
| MedicinesPage.PainReliefSlug | src/app/medicines/page.tsx:24 | "Pain Relief" slugs to `pain-relief` |
| MedicinesPage.ColdAndFluSlug | src/app/medicines/page.tsx:24 | "Cold & Flu" slugs to `cold-&-flu` |
| MedicinesPage.CatalogSlugs | src/app/medicines/page.tsx:24 | no catalog category name slugs to `cold-flu`, and only "Pain Relief" slugs to `pain-relief` |
| MedicinesPage.MockMedicineCategories | src/lib/mockData.ts:29-40 | fact about the mock catalog: every catalog medicine's category is one of the six category names |
| MedicinesPage.MockPainReliefPositions | src/lib/mockData.ts:29-40 | fact about the mock catalog, used by the category lemmas: the "Pain Relief" medicines are the first, second and seventh |
| MedicinesPage.FilterAtZeroOneSix | src/app/medicines/page.tsx:20-33 | helper step for the Pain Relief lemma: filtering ten entries with a test true at positions 0, 1 and 6 only leaves those three, in order |
| MedicinesPage.ColdFluMatchesNothing | src/app/medicines/page.tsx:20-33 | the dropdown id `cold-flu` shows no medicine, whatever the search |
| MedicinesPage.PainReliefMatches | src/app/medicines/page.tsx:20-33 | `pain-relief` shows exactly the three "Pain Relief" medicines, in catalog order |
| MedicinesPage.CurrentCategory | src/app/medicines/page.tsx:35-38 | a category is current iff a real selection is made and some category has that id; it is that category |
| MedicinesPage.SubtitleNamesCategory | src/app/medicines/page.tsx:35-42 | the subtitle names a category iff the selection is a known id, and it names that category |
| MedicinesPage.PageSubtitle | src/app/medicines/page.tsx:40-42 | with no category selection the subtitle is the browse text; otherwise it is the browse text or begins with "Showing medicines in " |
| MedicinesPage.ColdFluCurrent | src/app/medicines/page.tsx:35-38 | `cold-flu` selects the "Cold & Flu" category as the current one |
| MedicinesPage.ColdFluSubtitle | src/app/medicines/page.tsx:35-42 | for `cold-flu` the subtitle reads "Showing medicines in Cold & Flu" |
| MedicinesPage.FilteredMedicinesById | src/app/medicines/page.tsx:20-33 | the corrected filter: a subsequence of the catalog; a medicine is in it iff its category is the selected id's category (or nothing is selected) and it passes the search |
| MedicinesPage.SelectingIdKeepsItsCategory | src/app/medicines/page.tsx:20-38 | with the corrected filter, selecting a listed id shows a searched medicine iff its category is that id's category |
| MedicinesPage.KeptByIdWithoutSearch | src/app/medicines/page.tsx:20-38 | with no search text, the corrected filter keeps a medicine iff its category is the current category |
| MedicinesPage.MockColdFluPosition | src/lib/mockData.ts:29-40 | fact about the mock catalog, used by the Cold & Flu lemmas: the fifth medicine is the only "Cold & Flu" one |
| MedicinesPage.ColdFluByIdMatchesSyrup | src/app/medicines/page.tsx:20-38 | with the corrected filter, `cold-flu` shows the one "Cold & Flu" medicine |
| SalesReport.DailyOrders | src/app/admin/reports/sales/page.tsx:47-50 | no date gives no orders; otherwise the orders placed on that day, exactly, in list order |
| SalesReport.TotalOrderCount | src/app/admin/reports/sales/page.tsx:56-58 | the count is at most the number of orders of the day |
| SalesReport.SumOfSingle | src/app/admin/reports/sales/page.tsx:52-54 | base case of the total: the sum over one order is that order's amount |
| SalesReport.TotalSalesOverCounted | src/app/admin/reports/sales/page.tsx:52-54 | total sales equals the sum of amounts over the orders that are not cancelled |
| SalesReport.TotalSales | src/app/admin/reports/sales/page.tsx:52-54 | no orders give 0, and non-negative amounts give a non-negative total |
| SalesReport.CountIsLengthIffNoneCancelled | src/app/admin/reports/sales/page.tsx:56-58 | every order of the day is counted iff none is cancelled |
| SalesReport.CancelledOrderListedNotCounted | src/app/admin/reports/sales/page.tsx:47-58 | a cancelled order of the day is added to the table but changes neither total |
| SignupPage.FieldRuleErrors | src/app/signup/page.tsx:26-30 | no field errors iff the four field rules hold; entries name only those four fields |
| SignupPage.ClientValid | src/app/signup/page.tsx:26-35 | the form is valid on the client iff the data it sends passes the server's signup schema and the two passwords are equal |
| SignupPage.ClientErrors | src/app/signup/page.tsx:26-35 | no errors iff the whole schema holds; `confirmPassword` is reported iff the passwords differ, as the last entry, even when other fields fail |
| SignupPage.ActionData | src/app/signup/page.tsx:60 | model of the one-line destructuring: `confirmPassword` is stripped and the four other fields are passed on unchanged |
| SignupPage.ClientRulesAreServerRules | src/app/signup/page.tsx:26-35 | the client reports exactly the server's signup errors, plus the confirmation error; a form valid on the client is valid on the server |
| SignupPage.ClientValidFormOutcome | src/app/signup/page.tsx:60-62 | a form valid on the client succeeds on the server iff its email is neither reserved nor taken, and otherwise fails with the email error alone |
| SignupPage.RouteServerErrors | src/app/signup/page.tsx:78-89 | the loop over the server's error keys sets exactly `RoutedFieldErrors` of them |
| SignupPage.RoutedFieldErrors | src/app/signup/page.tsx:79-89 | the routed errors never carry `_form`, and every key they set is a field of the form |
| SignupPage.RoutedFieldsAreReported | src/app/signup/page.tsx:79-89 | a field gets an error iff it is a form field and the server reported it |
| SignupPage.RoutedMessagesJoined | src/app/signup/page.tsx:79-89 | with distinct keys, each routed field shows its messages joined by ", " |
| SignupPage.Submitted | src/app/signup/page.tsx:65-116 | success stores the login, toasts the welcome and navigates to `redirectTo` or home; with errors, fields are routed, a `_form` entry is toasted as "Signup Failed" with its joined messages, or else "Signup Failed" with the message only when the message is not empty and no field has messages; without errors, "Signup Failed" with the message, or a generic error when the message is empty |
| SignupPage.SignupSuccessGoesHome | src/app/signup/page.tsx:65-76 | a new email logs the user in and goes home with the welcome toast |
| SignupPage.RegisteredEmailShownOnField | src/app/signup/page.tsx:78-102 | a taken email is shown on the email field alone, with no toast and no navigation |
| PrescriptionUpload.FirstFile | src/app/prescriptions/upload/page.tsx:33 | the first file exists iff the list is present and not empty |
| PrescriptionUpload.PrescriptionErrors | src/app/prescriptions/upload/page.tsx:29-39 | no errors iff there is exactly one file, within the size limit, of an accepted type; a missing list gets all three messages; errors are only on the file field |
| PrescriptionUpload.ValidUploadShape | src/app/prescriptions/upload/page.tsx:26-37 | a valid upload is one file of at most 5242880 bytes whose type is one of the four accepted ones |
| PrescriptionUpload.NotesNeverReject | src/app/prescriptions/upload/page.tsx:38 | the notes never change the verdict |
| PrescriptionUpload.SecondFileRejected | src/app/prescriptions/upload/page.tsx:32-37 | two files are rejected with the count message alone, even when the first is fine |
| PrescriptionUpload.SubmittedDescription | src/app/prescriptions/upload/page.tsx:77 | the confirmation starts with the file's name |
| PrescriptionUpload.SelectUploadView | src/app/prescriptions/upload/page.tsx:85-92 | the form shows iff loaded, logged in and admin; otherwise the spinner |
| PrescriptionUpload.UploadRedirect | src/app/prescriptions/upload/page.tsx:54-65 | once loaded, a logged-out or non-admin user is sent to `/`; nobody is while loading |
| PrescriptionUpload.GateConsistent | src/app/prescriptions/upload/page.tsx:54-92 | the form and the redirect exclude each other, and loading shows the spinner with no redirect |
| AdminLayout.SelectAdminRender | src/app/admin/layout.tsx:37-60 | the login page renders bare; otherwise loading shows the spinner, a non-admin sees Access Denied, and only a loaded, logged-in admin gets the panel |
| AdminLayout.AdminRedirect | src/app/admin/layout.tsx:29-35 | a redirect to `/admin/login` happens iff loaded, off the login page, and not a logged-in admin |
| AdminLayout.RedirectExactlyWhenDenied | src/app/admin/layout.tsx:29-58 | the redirect fires exactly when Access Denied is rendered |
| AdminLayout.AtMostOneHighlighted | src/app/admin/layout.tsx:73-78 | highlighting is exact equality, so at most one link is highlighted, and a deeper path such as `/admin/orders/42` highlights none of the links, not even `/admin` |
| AdminLayout.WelcomeName | src/app/admin/layout.tsx:108 | the header shows the user's name when present and not empty, else "Admin" |
| JsText.TrimEmptyIffBlank | src/app/cart/page.tsx:60 | `trim()` gives the empty string iff the text is all white space |
| JsText.Lower | src/app/actions/auth.ts:56 | lower-casing keeps the length and maps each character by itself, ASCII capitals to small letters |
| JsText.Trim | src/app/cart/page.tsx:60 | `trim()` is no longer than its input and neither starts nor ends with white space |
| JsText.DashWhitespaceRunsJoin | src/app/medicines/page.tsx:24 | replacing white-space runs works piecewise around one run |
| JsText.DashWhitespaceRunsIdentity | src/app/medicines/page.tsx:24 | a text without white space is unchanged by the dash rule |
| JsText.DashWhitespaceRuns | src/app/medicines/page.tsx:24 | `replace(/\s+/g, '-')` leaves no white space |
| JsText.DashWhitespaceRunsFromInput | src/app/medicines/page.tsx:24 | the replacement is no longer than its input, and each of its characters is a dash or a character of the input |
| JsText.Join | src/app/signup/page.tsx:84 | `join` of no parts is empty, of one part is that part, and otherwise begins with the first part |
| JsText.Utf16Length | src/app/actions/auth.ts:8 | a string's UTF-16 length is between its code-point count and twice it |
| JsText.Utf16LengthAppend | src/app/actions/auth.ts:8 | the UTF-16 length of a concatenation is the sum of the parts' lengths |
| JsText.Utf16LengthBmp | src/app/actions/auth.ts:8 | a text with no character above U+FFFF has exactly one UTF-16 unit per character |
| JsText.AstralCharIsTwoUnits | src/app/actions/auth.ts:8 | a character above U+FFFF is two UTF-16 units |
| JsArray.FilterIsSubsequence | src/app/medicines/page.tsx:20-33 | `filter` keeps a subsequence, in order |
| JsArray.Filter | src/app/medicines/page.tsx:20-33 | `filter` is no longer than its input; it keeps exactly the elements that pass the test |
| JsArray.FilterAppend | src/app/medicines/page.tsx:20-33 | filtering a concatenation filters each part |
| JsArray.FilterSingleHit | src/app/medicines/page.tsx:20-33 | filtering with a test true at one position only leaves that one entry |
| JsArray.FilterAllKept | src/app/medicines/page.tsx:20-33 | a test every element passes keeps the whole list |
| JsArray.FilterNoneKept | src/app/medicines/page.tsx:20-33 | a test no element passes leaves nothing |
| JsArray.FindIndex | src/app/actions/auth.ts:192 | `findIndex` gives the first position that passes, or none iff no element passes |
| JsArray.Find | src/app/actions/auth.ts:115-117 | `find` gives the first element that passes, or none iff none passes |
| JsArray.SumOfAppend | src/app/cart/page.tsx:47 | a summing `reduce` adds over concatenation |

## Left out

- Console logging, the simulated delays (`await` on a timer in the actions, `setTimeout` in the cart and upload pages), toasts' appearance and the router: the operations are synchronous, and navigation targets are returned values.
- Product id generation from the clock and a random number: the id is a parameter of `AddProductStep`.
- Floating-point money and `toFixed`: amounts are integer cents.
- ProductActions.ProductValid: the price rule `>= 0.01` becomes `>= 1` cent, so prices with fractions of a cent are not modelled.
- zod's `.email()`, `.url()` and `coerce.number()`, `parseInt`'s numeric-prefix parsing (its result is the `Option<int>` input of `QuantityFromInput`), and date-fns' date parsing and day comparison: library behaviour, taken as parameters. Stock arrives as a real number, and its integer check is exact.
- AuthActions.UpdateStep: the update assigns fields of the object stored in the list. The model replaces the list entry by an updated value, so aliasing of that object by earlier results is not captured.
- The cart operations, cart persistence, the current user, the admin flag and `updateCurrentUser`: pages use them, but the login hook shown does not define them. They are inputs.
- The order records behind the sales report: they are not defined in `src/lib/mockData.ts`. The report takes the order list as input, with the fields the table reads.
- The redirect to `/login` after logout, `form.reset`, `form.clearErrors` and the upload page's file-name state: UI effects.
- JsText.Utf16Length: its own contract gives only bounds on the length; the body counts a character above U+FFFF as a surrogate pair, and the exact value is stated by `Utf16LengthAppend`, `Utf16LengthBmp` and `AstralCharIsTwoUnits`.
- JsText.Join: states only how the result begins, not its whole text.
- The database client, the recommendation flow and its page: network and language-model calls.
- The login, profile and product-admin form pages: their rules repeat the server schemas modelled here.
- The presentation-only components and pages (header, footer, logo, title, category and medicine cards, home and admin dashboard, order badges).
- Races between browser tabs on the stored flag: concurrency.
- SimulatedAuth.AuthHook: models one mounted hook instance that owns its storage. In the app every component that calls the hook (the header, the signup, login, cart, profile and upload pages, the admin layout, the medicine card and page) has its own login and loading flags over one shared `localStorage`. A login or logout through one instance writes the storage and sets only that instance's flag; other mounted instances, such as the header after signup navigates home, keep their old flag until they mount again. `Synced` and `RunEndsSynced` hold for the one instance modelled, not across instances.

## Findings

| source | as written | input that shows it | evidently intended | confidence | as-written member | corrected member |
|---|---|---|---|---|---|---|
| src/app/medicines/page.tsx:24 | the category test compares the selected value with the lower-cased, dash-joined category name, while the dropdown (src/app/medicines/page.tsx:71) and the category cards send the category id | `?category=cold-flu`: "Cold & Flu" slugs to `cold-&-flu`, so the page lists nothing under the subtitle "Showing medicines in Cold & Flu" | a medicine passes when its category is the category whose id is selected | not executed | MedicinesPage.ColdFluMatchesNothing | MedicinesPage.FilteredMedicinesById |
