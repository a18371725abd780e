# Ecom-Frontend, modelled in Dafny

This project models the client-side logic of an e-commerce frontend built on Next.js. The frontend has a public storefront and an admin back-office, both over an external REST API. The model covers four parts:

- **Session and route guard.** The middleware decides, from the path and the `authToken` cookie, whether a request passes, goes to `/login`, or goes to `/admin`. Around it sit three collaborators:
  - the login page, which writes the token to `localStorage` and a cookie;
  - the admin layout's logout, which clears them again;
  - the two layouts' `/admin` prefix tests, one hiding the storefront chrome and one highlighting sidebar links.
- **Product-creation form.** This covers the add-product page:
  - the related and cross-sell id lists, attributes and their values, images, video URLs and specifications;
  - the variation count;
  - submit-time validation, the GUID test on the category, and the request body with its fallbacks and comma-joins;
  - what each kind of reply makes the page say.
- **Admin lists and CRUD pages.** This covers:
  - the product table's row defaults, stock status and counters;
  - the order filter and counters;
  - the categories, brands and manufacturers pages, each with its create-or-edit modal (reset, load-for-edit, `POST` versus `PUT`, token guard, reply handling);
  - their searches, the parent-category options, and image-URL resolution.
- **Storefront shaping and widgets.** This covers:
  - the home page's four data fetches, with the brand filter and sort and the category sort;
  - the header's scroll hysteresis, message rotation, accordions and category fetch;
  - the mega-menu's default subcategory and links;
  - the banner carousel's index machine with cloned end slides.

Modules follow the source files:

| module | source |
|---|---|
| `RouteGuard` | `middleware.ts` |
| `Session` | what the browser holds: `localStorage` and cookies, written as a list of effects |
| `Login` | `app/login/page.tsx` |
| `AdminLayout` | `app/admin/layout.tsx` |
| `ClientLayout` | `app/ClientLayout.tsx` |
| `ProductForm` | `app/admin/products/add/page.tsx`: form state and list editors |
| `ProductSubmit` | `app/admin/products/add/page.tsx`: the submit handler |
| `ProductList` | `app/admin/products/page.tsx` |
| `Orders` | `app/admin/orders/page.tsx` |
| `Media` | `lib/api-config.ts`, and the `getImageUrl` helper shared by the admin pages |
| `CategoriesAdmin` | `app/admin/categories/page.tsx` |
| `EntryAdmin` | `app/admin/brands/page.tsx` and `app/admin/manufacturers/page.tsx` |
| `Home` | `app/page.tsx` |
| `Header` | `components/Header.tsx` |
| `MegaMenu` | `components/MegaMenu.tsx` |
| `BannerSlider` | `components/HomeBannerSlider.tsx` |
| `Options`, `Text`, `Seqs` | JavaScript's `||`, `??`, `startsWith`, `toLowerCase`, `trim`, `join`, `split`, `parseInt`, `filter`, `map` and stable `sort` |

The model takes the form of the source:

- **Pure logic becomes functions** with lemmas about them. This covers the decision function, the filters, the payload construction and the updater functions passed to `setState`.
- **Component state becomes a class.** Each React component whose handlers step its state is a class whose fields are that state:
  - `Login.LoginPage`, `AdminLayout.AdminShell`, `ProductForm.AddProductPage`;
  - `CategoriesAdmin.CategoriesPage`, `EntryAdmin.EntryPage`;
  - `Header.HeaderState`, `MegaMenu.MegaMenuPanel`, `BannerSlider.Slider`.

  Each handler is a method whose `ensures` ties the new state to the functions above.
- **The browser becomes an input.** Browser storage is a value of type `Session.Browser`: a storage map plus a cookie jar. A handler's writes to it are a sequence of `Session.Effect`s applied in program order.
- **Fetches become inputs.** Every fetch reply is a datatype parameter: an OK reply with its parsed body, a failed status, or an exception.

The brands and manufacturers pages are the same program over two resources. They are modelled once, in `EntryAdmin`, with the resource as a parameter.

Two details of the guard's code are worth noting:

- **Truthy test.** The guard tests the cookie with JavaScript truthiness, so an empty cookie value is the same as a missing one.
- **Raw prefix.** The admin rule is a prefix test on raw characters, so `RouteGuard.Decide` gates `/administrator`. However, the matcher `/admin/:path*` never invokes the middleware for that path, so `RouteGuard.Route` lets it through.

## Model

| member | source | states |
|---|---|---|
| RouteGuard.Route | middleware.ts:4-26 | A request is sent to `/login` if and only if the matcher covers it, it is under the admin prefix and it has no token; it is sent to `/admin` if and only if it is for `/login` with a token; outside the matcher it always passes |
| RouteGuard.LoginNotProtected | middleware.ts:9-17 | The login path is not under the admin prefix, so the two rules never meet |
| RouteGuard.AdminWithoutToken | middleware.ts:9-13 | Without a (truthy) token every path under `/admin` redirects to `/login` |
| RouteGuard.AdminWithToken | middleware.ts:9-14 | With a token, admin paths pass |
| RouteGuard.LoginPage | middleware.ts:17-21 | `/login` redirects to `/admin` exactly when a token is present, and passes otherwise |
| RouteGuard.LoginRuleIsExact | middleware.ts:17 | A path strictly below `/login` is never sent to `/admin` |
| RouteGuard.AdministratorIsGated | middleware.ts:9 | The decision gates `/administrator` as a raw prefix; the matcher does not cover it, so the request passes |
| RouteGuard.EmptyTokenIsNoToken | middleware.ts:6-17 | An empty cookie value gives the same decision as a missing cookie, on every path |
| RouteGuard.DecisionCauses | middleware.ts:4-22 | Each redirect happens if and only if its cause holds: protected path without a token, or exactly `/login` with one |
| RouteGuard.NoRedirectLoop | middleware.ts:11-19 | For a fixed cookie, the page a redirect leads to passes through the guard |
| RouteGuard.TargetsAreMatched | middleware.ts:24-26 | Both redirect targets lie inside the matcher |
| RouteGuard.MatchedPathsAreRuled | middleware.ts:9-26 | Every matched path is protected or is exactly `/login` |
| RouteGuard.Scenarios | middleware.ts:4-22 | Five sample requests get the decisions middleware.ts:4-22 gives them: `/admin` without a cookie, an admin page with a token, `/login` with and without a token, and an admin page with an empty cookie |
| Session.Apply | app/login/page.tsx:38-53 | `setItem` stores its item under its key, and `removeItem` removes exactly its key from storage |
| Session.ApplyAllAppend | app/login/page.tsx:38-53 | Applying two write sequences in turn equals applying their concatenation |
| Session.ApplyAllSnoc | app/login/page.tsx:38-53 | One more write is applied to the state the earlier writes left |
| Session.CookiesOnlyByCookieWrites | app/admin/layout.tsx:88-92 | Storage writes never change the cookie jar |
| Session.LastCookieWriteWins | app/admin/layout.tsx:88-92 | Writes after the last cookie write do not change what the middleware reads |
| Session.ItemUntouched | app/login/page.tsx:38-50 | Writes to other keys leave what `getItem` reads at a key unchanged |
| Login.ChosenToken | app/login/page.tsx:37 | The token is `accessToken` when truthy, otherwise `token` when truthy, otherwise none; a chosen token is never empty |
| Login.UserDataOf | app/login/page.tsx:44-49 | The stored `userData` record holds exactly the reply user's id, email, firstName and lastName |
| Login.SuccessWrites | app/login/page.tsx:38-53 | A successful login with a token stores `authToken` and `userEmail`, writes the `authToken` cookie with `max-age` 86400 and goes to `/admin`; no error is shown and loading stays on |
| Login.UserDataOnlyWithUser | app/login/page.tsx:43-50 | `userData` is written if and only if the reply carries a user |
| Login.FailuresStoreNothing | app/login/page.tsx:61-74 | A reply without a token, a rejection and a connection failure all show an error, stop loading and write nothing |
| Login.RejectionMessage | app/login/page.tsx:65-69 | A rejected login shows the server's message, or "Invalid email or password" without one |
| Login.StoredEmailChoice | app/login/page.tsx:40 | The stored email is the reply user's when it is non-empty, otherwise the typed one |
| Login.LoginOpensSession | app/login/page.tsx:53-60 | After a successful login the middleware sees a session: admin paths pass and `/login` redirects to `/admin` |
| Login.LoginPage.constructor | app/login/page.tsx:11-16 | The page starts with empty fields, no error and not loading |
| Login.LoginPage.HandleChange | app/login/page.tsx:77-82 | Only the input named by the event takes the new value |
| Login.LoginPage.HandleSubmit | app/login/page.tsx:18-75 | The page ends with `Submit`'s error and loading flag, and the browser holds its writes applied in order |
| AdminLayout.ActiveItems | app/admin/layout.tsx:128 | The highlighted items are exactly the sidebar items whose href equals the path or is followed in it by `/` |
| AdminLayout.ActiveIsPathPrefix | app/admin/layout.tsx:128 | An active href is a prefix of the path that ends at the path's end or at a `/`, so a lookalike sibling such as `/admin/products-x` never activates `/admin/products` |
| AdminLayout.DashboardAlwaysActive | app/admin/layout.tsx:27 | Dashboard (`/admin`) is highlighted on every page below `/admin` |
| AdminLayout.AddProductPageHighlights | app/admin/layout.tsx:26-34 | On `/admin/products/add` exactly Dashboard and Products are highlighted |
| AdminLayout.EmailOf | app/admin/layout.tsx:45 | The email shown is never empty: a missing or empty stored value gives `admin@ecom.com` |
| AdminLayout.ProfileNeverEmpty | app/admin/layout.tsx:43-86 | The header always shows a non-empty email, a non-empty name and a one-letter initial |
| AdminLayout.NoStoredUser | app/admin/layout.tsx:78-85 | Missing or unparsable `userData` shows "Admin User" and the email's upper-cased first letter |
| AdminLayout.StoredNamesWin | app/admin/layout.tsx:53-68 | Stored names are never overridden; a token claim only fills an empty name, and only when a token exists and decodes |
| AdminLayout.DisplayNameOfOne | app/admin/layout.tsx:75 | With a last name missing, the display name is the first name alone, with no trailing space |
| AdminLayout.LogoutEndsSession | app/admin/layout.tsx:88-94 | After logout the three keys are gone, the window is at `/login`, every admin page redirects to `/login`, and `/login` passes |
| AdminLayout.LogoutResult | app/admin/layout.tsx:89-92 | Logout removes exactly `authToken`, `userEmail` and `userData`, and expires the cookie |
| AdminLayout.AdminShell.constructor | app/admin/layout.tsx:39-41 | The header starts with empty email and name and initial "A" |
| AdminLayout.AdminShell.LoadUser | app/admin/layout.tsx:43-86 | The mount effect's step-by-step name reassignment ends in `ProfileOf` of the browser and the token claims, and writes nothing |
| AdminLayout.AdminShell.HandleLogout | app/admin/layout.tsx:88-94 | The browser receives logout's writes in order: three removals, the expired cookie, the navigation; the shown profile is kept |
| ClientLayout.Render | app/ClientLayout.tsx:15-21 | Header and footer appear if and only if the path is not an admin route; the header gets the categories unchanged; the children always render |
| ClientLayout.SameAsGuard | app/ClientLayout.tsx:15 | The chrome test and the middleware's admin rule are the same predicate |
| ClientLayout.ChromeTogether | app/ClientLayout.tsx:19-21 | Header and footer come and go together |
| ClientLayout.BareWithoutTokenRedirects | app/ClientLayout.tsx:15 | A page rendered without chrome redirects a visitor without a token to `/login`, and the login page has chrome |
| ClientLayout.SidebarPagesAreBare | app/ClientLayout.tsx:15 | Every page with a highlighted sidebar link is rendered without the storefront chrome |
| ProductForm.AddId | app/admin/products/add/page.tsx:309-317 | Adding keeps the old list as a prefix, yields exactly the old ids plus the new one, and preserves duplicate-freedom |
| ProductForm.RemoveIdSpec | app/admin/products/add/page.tsx:319-324 | Removal deletes exactly that id, keeps the others in relative order, and preserves duplicate-freedom |
| ProductForm.AddThenRemove | app/admin/products/add/page.tsx:309-324 | Adding an absent id and removing it again gives back the list |
| ProductForm.MatchingSpec | app/admin/products/add/page.tsx:343-351 | A picker lists exactly the catalogue entries whose name or SKU contains the term (ignoring case), in order; an empty term lists all |
| ProductForm.SetAt | app/admin/products/add/page.tsx:375-376 | Array assignment: an index inside replaces one element; one past the end lengthens the list with holes; a negative index leaves the elements alone |
| ProductForm.RemoveAttributeSpec | app/admin/products/add/page.tsx:362-364 | Removing an attribute drops exactly the attributes with that id, keeping the rest in order |
| ProductForm.RenameAttributeSpec | app/admin/products/add/page.tsx:366-370 | Renaming changes only the name of the attributes with that id |
| ProductForm.SetAttributeValueSpec | app/admin/products/add/page.tsx:372-381 | `updateAttributeValue` changes only value `i` of the attribute with that id; its name, its other values and every other attribute are unchanged |
| ProductForm.RemoveAttributeValueSpec | app/admin/products/add/page.tsx:392-399 | `removeAttributeValue` drops only value `i` of the attribute with that id |
| ProductForm.AddThenRemoveValue | app/admin/products/add/page.tsx:383-399 | Adding a value and removing the last value gives back every attribute |
| ProductForm.ReduceIsProduct | app/admin/products/add/page.tsx:1663 | The left-to-right `reduce` from an accumulator equals the accumulator times the product of the filled-value counts |
| ProductForm.VariationCountIsProduct | app/admin/products/add/page.tsx:1663 | The variation count is the product of each attribute's number of non-empty values; it is 1 with no attributes |
| ProductForm.VariationCountZero | app/admin/products/add/page.tsx:1663 | The count is 0 if and only if some attribute has no non-empty value |
| ProductForm.ProductZero | app/admin/products/add/page.tsx:1663 | The reference product is 0 if and only if some factor is 0 |
| ProductForm.NewAttributeHasNoVariations | app/admin/products/add/page.tsx:353-360 | Right after "Add Attribute" the count is 0, because the new attribute's only value is empty |
| ProductForm.UploadedImages | app/admin/products/add/page.tsx:401-418 | One image per chosen file, with id `now-i`, that file's URL, empty alt text and display order `start + i + 1` |
| ProductForm.UploadSpec | app/admin/products/add/page.tsx:401-418 | An upload keeps the earlier images as a prefix and numbers the new ones on from them, so a list numbered 1..n stays numbered |
| ProductForm.UploadedIdsDistinct | app/admin/products/add/page.tsx:405 | The images of one upload have pairwise different ids |
| ProductForm.RemovalThenUploadRepeatsOrder | app/admin/products/add/page.tsx:408-429 | Removal does not renumber: after removing the first of two images, the next upload repeats the remaining image's order |
| ProductForm.ImageEditsSpec | app/admin/products/add/page.tsx:1798-1820 | Editing an image's alt text or order changes that field of that image only; the order is `parseInt(...) \|\| 0` |
| ProductForm.NewSpecification | app/admin/products/add/page.tsx:1934-1941 | A new specification has empty name and value and display order one past the list's length |
| ProductForm.AddSpecificationNumbers | app/admin/products/add/page.tsx:1939 | Adding a specification to a list numbered 1..n keeps it numbered |
| ProductForm.SpecificationEditsSpec | app/admin/products/add/page.tsx:1960-2011 | Name, value and order edits each change one field of the specifications with that id; removal keeps exactly the others, in order |
| ProductForm.VideoEditsSpec | app/admin/products/add/page.tsx:1862-1893 | Editing a URL replaces that URL only; removal closes the gap; adding then removing the last restores the list |
| ProductForm.AddProductPage.constructor | app/admin/products/add/page.tsx:35-160 | The page starts with the initial form, no attributes, empty search terms, and duplicate-free id lists |
| ProductForm.AddProductPage.AddRelatedProduct | app/admin/products/add/page.tsx:309-317 | The related list becomes `AddId` of the old one, duplicate-freedom is kept, and the search term is cleared |
| ProductForm.AddProductPage.RemoveRelatedProduct | app/admin/products/add/page.tsx:319-324 | The related list becomes `RemoveId` of the old one; nothing else changes |
| ProductForm.AddProductPage.AddCrossSellProduct | app/admin/products/add/page.tsx:326-334 | The cross-sell list becomes `AddId` of the old one, and its search term is cleared |
| ProductForm.AddProductPage.RemoveCrossSellProduct | app/admin/products/add/page.tsx:336-341 | The cross-sell list becomes `RemoveId` of the old one |
| ProductForm.AddProductPage.AddAttribute | app/admin/products/add/page.tsx:353-360 | A new attribute with one empty value is appended |
| ProductForm.AddProductPage.RemoveAttributeById | app/admin/products/add/page.tsx:362-364 | The attributes become `RemoveAttribute` of the old ones |
| ProductForm.AddProductPage.UpdateAttributeName | app/admin/products/add/page.tsx:366-370 | The attributes become `RenameAttribute` of the old ones |
| ProductForm.AddProductPage.UpdateAttributeValue | app/admin/products/add/page.tsx:372-381 | The attributes become `SetAttributeValue` of the old ones |
| ProductForm.AddProductPage.AddValue | app/admin/products/add/page.tsx:383-390 | The attribute with that id gains an empty value |
| ProductForm.AddProductPage.RemoveValue | app/admin/products/add/page.tsx:392-399 | The attributes become `RemoveAttributeValue` of the old ones |
| ProductForm.AddProductPage.HandleImageUpload | app/admin/products/add/page.tsx:401-418 | The images become `Upload` of the old ones; no file leaves them alone |
| ProductForm.AddProductPage.RemoveImageById | app/admin/products/add/page.tsx:423-429 | The images become `RemoveImage` of the old ones |
| ProductForm.AddProductPage.UpdateImageAlt | app/admin/products/add/page.tsx:1798-1806 | The images become `SetImageAlt` of the old ones |
| ProductForm.AddProductPage.UpdateImageOrder | app/admin/products/add/page.tsx:1812-1820 | The images become `SetImageOrder` of the old ones |
| ProductForm.AddProductPage.AddVideo | app/admin/products/add/page.tsx:1886-1893 | An empty URL is appended |
| ProductForm.AddProductPage.UpdateVideo | app/admin/products/add/page.tsx:1862-1866 | The URLs become `SetAt` of the old ones |
| ProductForm.AddProductPage.RemoveVideo | app/admin/products/add/page.tsx:1872-1877 | The URL at that index is removed |
| ProductForm.AddProductPage.AddSpecification | app/admin/products/add/page.tsx:1934-1941 | `NewSpecification` is appended |
| ProductForm.AddProductPage.UpdateSpecificationName | app/admin/products/add/page.tsx:1960-1976 | The specifications become `RenameSpecification` of the old ones |
| ProductForm.AddProductPage.UpdateSpecificationValue | app/admin/products/add/page.tsx:1977-1993 | The specifications become `SetSpecificationValue` of the old ones |
| ProductForm.AddProductPage.UpdateSpecificationOrder | app/admin/products/add/page.tsx:1994-2002 | The specifications become `SetSpecificationOrder` of the old ones |
| ProductForm.AddProductPage.RemoveSpecificationById | app/admin/products/add/page.tsx:2007-2011 | The specifications become `RemoveSpecification` of the old ones |
| ProductSubmit.GuidIgnoresCase | app/admin/products/add/page.tsx:175 | The 8-4-4-4-12 test is case-insensitive: a GUID lower-cased is still a GUID |
| ProductSubmit.CategoryId | app/admin/products/add/page.tsx:173-181 | The category sent is the trimmed selection when that is a GUID, and null otherwise |
| ProductSubmit.CategoryOptionsNeverGuid | app/admin/products/add/page.tsx:602-608 | None of the select's options is a GUID, so a product created from this form never has a category |
| ProductSubmit.JoinedIds | app/admin/products/add/page.tsx:238-239 | The joined ids are null if and only if the list is empty |
| ProductSubmit.JoinedIdsRoundTrip | app/admin/products/add/page.tsx:238-239 | Splitting the joined ids at commas gives back the list, when no id is empty or holds a comma |
| ProductSubmit.PayloadSpec | app/admin/products/add/page.tsx:184-240 | Draft forces unpublished status 1, a normal submit uses the checkbox and status 2, the description falls back to a non-empty field, the numbers are parsed or defaulted, vendor mirrors manufacturer, shipping and quantity tracking are always on, brand and manufacturer ids are always null, and the id lists are null exactly when empty |
| ProductSubmit.DefaultsOfFreshForm | app/admin/products/add/page.tsx:35-160 | The initial form, once named, is sent published, display order 1, no stock, no category, no related ids, and its name as description |
| ProductSubmit.AsWrittenSendsNull | app/admin/products/add/page.tsx:246 | As written, the header reads key `token`, which no login writes, so it carries `Bearer null` |
| ProductSubmit.LoginTokenIsSent | app/admin/products/add/page.tsx:246 | Reading the login page's key, the request carries the token the login chose |
| ProductSubmit.Submit | app/admin/products/add/page.tsx:162-256 | Without name or SKU only the alert is raised; otherwise one `POST` to `/api/Products` goes out, with the built body and the header read from the login page's `authToken` key (the corrected key; see Left out) |
| ProductSubmit.DraftDiffersOnlyInStatus | app/admin/products/add/page.tsx:220-221 | A draft sends the same body as a normal submit except `isPublished` false and status 1 |
| ProductSubmit.IndexOf | app/admin/products/add/page.tsx:281-282 | The position found holds the character and no earlier position does |
| ProductSubmit.ReplaceFirst | app/admin/products/add/page.tsx:281-282 | `replace` with a one-character pattern changes nothing when the character is absent; otherwise the result is the text before its first occurrence, the replacement, and the text after it |
| ProductSubmit.FieldNameOfRootPath | app/admin/products/add/page.tsx:281-282 | Every root-level server path `$.name` is shown as ` name` |
| ProductSubmit.FieldNameFirstDotOnly | app/admin/products/add/page.tsx:281-282 | For every path `head.tail` without `$` and with no `.` in `head`, only that first `.` becomes a space and the dots in `tail` stay |
| ProductSubmit.Respond | app/admin/products/add/page.tsx:257-298 | The page navigates to `/admin/products` if and only if the reply is OK; every other reply only alerts |
| ProductSubmit.FailureMessages | app/admin/products/add/page.tsx:269-292 | A JSON reply without message or title says "Unknown error"; an empty text body says the status; validation errors never navigate |
| ProductList.Classify | app/admin/products/page.tsx:55 | "In Stock" if and only if above 10; "Low Stock" if and only if 1 to 10; "Out of Stock" if and only if missing, zero or negative |
| ProductList.FormatSpec | app/admin/products/page.tsx:49-63 | Missing fields default to stock 0, "Uncategorized", price 0 and "N/A", and the status always agrees with the stock shown |
| ProductList.FormatAll | app/admin/products/page.tsx:49-63 | One row per item, in order |
| ProductList.Fetched | app/admin/products/page.tsx:48-64 | The list is replaced only by a successful body with items; every other reply leaves it unchanged |
| ProductList.CountsBounded | app/admin/products/page.tsx:74-75 | Low-stock plus out-of-stock never exceeds the number of rows |
| ProductList.CountsOfFetched | app/admin/products/page.tsx:74-75 | On a fetched list the counters count the items with 1 to 10 in stock, and those with none, a negative or a missing quantity |
| Orders.FilteredSpec | app/admin/orders/page.tsx:19-28 | The table shows exactly the orders matching search and status, as a subsequence of the list |
| Orders.NoFilterShowsAll | app/admin/orders/page.tsx:20-25 | An empty search under "All Status" lists every order |
| Orders.StatusFilterExact | app/admin/orders/page.tsx:25 | Any status other than "All Status" keeps only orders with exactly that status |
| Orders.SearchIgnoresCase | app/admin/orders/page.tsx:20-23 | The search gives the same answer for a term and its lower-cased form |
| Orders.Counters | app/admin/orders/page.tsx:30-32 | Over the six listed orders the counters show 1 pending, 1 processing and 2 delivered |
| Orders.CounterMatchesUnfiltered | app/admin/orders/page.tsx:30-32 | A counter equals the number of listed orders with that status under no filter, whatever the search and select say |
| Media.ApiBaseUrl | lib/api-config.ts:1 | The base address is the environment's when set, else `http://localhost:5285`; it is never empty |
| Media.ImageUrl | app/admin/categories/page.tsx:47-51 | No URL gives ""; an `http…` URL is kept; anything else is appended to the base |
| Media.Refetched | app/admin/categories/page.tsx:57-74 | The list fetch of the categories, brands and manufacturers pages: a failure keeps the list, an OK reply gives its data, or `[]` without data |
| Media.ImageUrlIdempotent | app/admin/brands/page.tsx:46-50 | Under an `http…` base, resolving a resolved URL changes nothing |
| Media.DefaultBaseIsAbsolute | lib/api-config.ts:1 | The default base starts with `http` |
| CategoriesAdmin.FormOf | app/admin/categories/page.tsx:120-134 | Loading for edit copies the category's fields and maps absent optional ones to "" |
| CategoriesAdmin.Authorization | app/admin/categories/page.tsx:95-100 | The header is sent if and only if the stored token is truthy, as `Bearer <token>` |
| CategoriesAdmin.SubmitRequestSpec | app/admin/categories/page.tsx:80-93 | Editing sends `PUT` to `categories/{id}` with the id in the body; creating sends `POST` to `categories` without one; an empty parent is sent as null |
| CategoriesAdmin.EditRoundTrip | app/admin/categories/page.tsx:80-134 | Loading a category and saving it unchanged sends its own fields back, to its own URL |
| CategoriesAdmin.ParentOptionsSpec | app/admin/categories/page.tsx:176-182 | Every category except the one being edited is offered as parent; with none being edited, all are |
| CategoriesAdmin.ChildIsOfferedAsParent | app/admin/categories/page.tsx:176-182 | Descendants are not excluded: a child of the edited category is offered as its parent |
| CategoriesAdmin.FilteredSpec | app/admin/categories/page.tsx:184-186 | The search keeps exactly the categories whose name contains the term (ignoring case), in order |
| CategoriesAdmin.CategoriesPage.constructor | app/admin/categories/page.tsx:34-44 | The page starts with no categories, an empty search, the modal closed, no edit and the empty form |
| CategoriesAdmin.CategoriesPage.ResetForm | app/admin/categories/page.tsx:161-174 | The form returns to its defaults (active, sort order 1, strings "") and the edit is cleared |
| CategoriesAdmin.CategoriesPage.OpenCreate | app/admin/categories/page.tsx:200-201 | The default form is shown in the open modal, with no edit |
| CategoriesAdmin.CategoriesPage.CloseModal | app/admin/categories/page.tsx:368-369 | The modal closes and the form resets |
| CategoriesAdmin.CategoriesPage.HandleEdit | app/admin/categories/page.tsx:120-134 | The category is edited, its fields fill the form and the modal opens |
| CategoriesAdmin.CategoriesPage.HandleSubmit | app/admin/categories/page.tsx:76-118 | The request is `SubmitRequest` of the old state; an OK reply refetches, closes and resets; any failure alerts "Failed to update/create category" and keeps the modal as it was |
| EntryAdmin.FormOf | app/admin/brands/page.tsx:120-134 | Loading for edit copies the entry's fields and maps absent optional ones to "" |
| EntryAdmin.SubmitRequest | app/admin/brands/page.tsx:75-101 | Without a truthy token no request is made; otherwise editing sends `PUT` to `{id}` with the id in the body, and creating sends `POST` without one |
| EntryAdmin.SuccessIsOk | app/admin/brands/page.tsx:103 | The extra test for status 201 adds nothing: 201 is already OK |
| EntryAdmin.ReplyAlert | app/admin/brands/page.tsx:103-113 | No alert if and only if the save succeeded; a 401 says the unauthorized message |
| EntryAdmin.FilteredSpec | app/admin/brands/page.tsx:174-177 | The search keeps exactly the entries whose name or description contains the term, in order; an empty term keeps all |
| EntryAdmin.PagesDiffer | lib/api-config.ts:12 | The brands and manufacturers pages use their own endpoints and their own noun in the failure alert |
| EntryAdmin.EntryPage.constructor | app/admin/manufacturers/page.tsx:34-44 | The page starts empty with the modal closed and the default form, bound to its resource's endpoint |
| EntryAdmin.EntryPage.ResetForm | app/admin/manufacturers/page.tsx:159-172 | The form returns to its defaults (published, not on the homepage, display order 1, strings "") and the edit is cleared |
| EntryAdmin.EntryPage.OpenCreate | app/admin/brands/page.tsx:201-202 | The default form is shown in the open modal, with no edit |
| EntryAdmin.EntryPage.CloseModal | app/admin/brands/page.tsx:353-354 | The modal closes and the form resets |
| EntryAdmin.EntryPage.HandleEdit | app/admin/manufacturers/page.tsx:120-134 | The entry is edited, its fields fill the form and the modal opens |
| EntryAdmin.EntryPage.HandleSubmit | app/admin/manufacturers/page.tsx:75-118 | No token alerts and changes nothing; a success refetches, closes the modal and resets the form; a failure alerts (401 separately) and keeps everything |
| Home.HomeBanners | app/page.tsx:64-74 | A successful reply gives its data; a failure or an exception gives `[]` |
| Home.HomeProducts | app/page.tsx:76-86 | A successful reply with data gives its items; anything else gives `[]` |
| Home.HomeCategoriesSpec | app/page.tsx:88-107 | An array reply is shown as a permutation sorted by `sortOrder` (missing as 0), with ties in API order; a non-array gives `[]` |
| Home.HomeBrandsSpec | app/page.tsx:110-125 | Exactly the brands flagged for the homepage are shown, each as often as the reply holds it, sorted by display order |
| Home.FailuresGiveNothing | app/page.tsx:70-124 | Every failure or exception leaves each of the four sections empty |
| Home.ProductImageSrc | app/page.tsx:190-193 | A product with no first image gives the base address alone |
| Home.ResolutionAgrees | app/page.tsx:190-193 | The home page's resolution agrees with the admin pages' `getImageUrl` for non-empty URLs, but an empty URL gives the base instead of "" |
| Header.DirectionSpec | components/Header.tsx:81-87 | Down on a move down of more than 1, or within 2 of the bottom; up on a move up of more than 8; the direction is kept in the dead band in between, and once set it is never cleared |
| Header.TopBarChanges | components/Header.tsx:89-93 | The bar hides only going down below 5 and shows only going up above `maxScroll - 80`; otherwise it is unchanged |
| Header.TopBarAtTheEnds | components/Header.tsx:87-93 | Near the top the bar is never hidden; at the bottom it is never shown |
| Header.NextMessage | components/Header.tsx:58-66 | The message index advances by one and wraps from 3 to 0, staying below 4 |
| Header.RotatedIsModular | components/Header.tsx:58-66 | `k` ticks move the index to `(p + k) mod 4` |
| Header.EveryMessageComesRound | components/Header.tsx:31-66 | Every message comes round, and four ticks return to the start |
| Header.Toggle | components/Header.tsx:141-144 | Exactly one id's flag flips (absent counts as closed); every other id is unchanged |
| Header.ToggleTwice | components/Header.tsx:141-144 | Toggling the same id twice leaves every accordion as it was |
| Header.TogglesCommute | components/Header.tsx:141-144 | Toggles of different ids commute |
| Header.FetchedSpec | components/Header.tsx:103-123 | A successful fetch keeps exactly the categories without a parent, in order; anything else keeps the list |
| Header.HeaderState.constructor | components/Header.tsx:22-72 | The header starts with the server's categories, no menu, the top bar shown, message 0 and all accordions closed |
| Header.HeaderState.HandleScroll | components/Header.tsx:77-96 | The direction and the top bar become `NextDirection` and `NextTopBar`, and the last position becomes the current one |
| Header.HeaderState.RotateMessage | components/Header.tsx:60-63 | The message index becomes `NextMessage` of the old one |
| Header.HeaderState.ToggleParent | components/Header.tsx:141-142 | The parent flags become `Toggle` of the old ones; every other field stays unchanged |
| Header.HeaderState.ToggleChild | components/Header.tsx:143-144 | The child flags become `Toggle` of the old ones; every other field stays unchanged |
| Header.HeaderState.LoadCategories | components/Header.tsx:103-123 | A non-empty server list skips the fetch; otherwise the categories become `Fetched`; every other field stays unchanged |
| Header.HeaderState.OpenMenu | components/Header.tsx:131-134 | The category becomes active and hovered; the mega-menu shows if and only if it has subcategories; every other field stays unchanged |
| Header.HeaderState.CloseMenu | components/Header.tsx:135-138 | Hovered and the active category are cleared, and the mega-menu is hidden; every other field stays unchanged |
| Header.HeaderState.HoverCategory | components/Header.tsx:305-311 | A category with subcategories opens the menu on it; one without clears the menu; every other field stays unchanged |
| Header.HeaderState.HoverMegaMenu | components/Header.tsx:317 | Pointing at the open menu keeps it open; every other field stays unchanged |
| MegaMenu.DefaultSubcategory | components/MegaMenu.tsx:47-54 | The first subcategory when there is one, none otherwise |
| MegaMenu.LinksNest | components/MegaMenu.tsx:68-89 | A child link lies below its subcategory's link, and two subcategory links are equal only for equal slugs |
| MegaMenu.LinksAreNeverGuarded | components/MegaMenu.tsx:68-110 | The route guard lets every menu link through, with or without a session |
| MegaMenu.ChildLinks | components/MegaMenu.tsx:89 | One link `/category/{main}/{sub}/{child}` per child, in order; none without children |
| MegaMenu.LabelKeepsEmptyName | components/MegaMenu.tsx:92 | A missing name shows "Unnamed", but `??` keeps an empty name |
| MegaMenu.LoadedBrands | components/MegaMenu.tsx:30-44 | The brands become the reply's data, `[]` without data, and are kept on an exception |
| MegaMenu.MegaMenuPanel.constructor | components/MegaMenu.tsx:47-54 | Mounting selects the default subcategory |
| MegaMenu.MegaMenuPanel.ChangeMain | components/MegaMenu.tsx:47-54 | A new main category selects its default subcategory, which is then highlighted |
| MegaMenu.MegaMenuPanel.HoverSubcategory | components/MegaMenu.tsx:69-71 | The hovered subcategory becomes active, exactly the entries with its id are highlighted, and its child links are shown |
| MegaMenu.MegaMenuPanel.LoadBrands | components/MegaMenu.tsx:30-44 | The brands become `LoadedBrands` of the old ones |
| BannerSlider.Extended | components/HomeBannerSlider.tsx:20-24 | The slides are the banners between a clone of the last and a clone of the first: length n+2 |
| BannerSlider.Slides | components/HomeBannerSlider.tsx:17 | Nothing is drawn if and only if there are no banners |
| BannerSlider.JumpsAreNotAnimated | components/HomeBannerSlider.tsx:40-47 | Every jump is preceded by switching the animation off and followed by switching it on |
| BannerSlider.ResetSpec | components/HomeBannerSlider.tsx:38-49 | From slide n+1 the reset lands on 1, from 0 on n, animated again and showing the same picture; elsewhere it changes nothing |
| BannerSlider.WrapsAround | components/HomeBannerSlider.tsx:38-49 | Next from the last banner comes to the first; previous from the first comes to the last |
| BannerSlider.DotsFollowBanners | components/HomeBannerSlider.tsx:101-108 | On a real banner exactly its dot is lit; on a clone no dot is lit |
| BannerSlider.Slider.constructor | components/HomeBannerSlider.tsx:26-27 | The slider starts on the first real banner, animated |
| BannerSlider.Slider.Next | components/HomeBannerSlider.tsx:93 | The index grows by one (the next arrow and each auto-advance tick) |
| BannerSlider.Slider.Prev | components/HomeBannerSlider.tsx:85 | The index shrinks by one |
| BannerSlider.Slider.GoToDot | components/HomeBannerSlider.tsx:101-108 | Dot `idx` sets the index to `idx + 1`, which lights exactly that dot and shows banner `idx` |
| BannerSlider.Slider.LoopReset | components/HomeBannerSlider.tsx:38-49 | The setter calls are `ResetSteps` of the old index, and the new state is those calls run in order |
| Text.ParseIntOr | app/admin/products/add/page.tsx:192 | `parseInt(s) \|\| d` is the default or a non-zero number: a zero parse falls back like NaN |
| Text.ParsePrinted | app/admin/products/add/page.tsx:192 | A printed natural number parses back to itself |
| Text.SplitJoin | app/admin/products/add/page.tsx:238-239 | Splitting a join at its separator gives back the parts, when none is empty or holds the separator |
| Text.MatchesTermIgnoresCase | app/admin/orders/page.tsx:20-23 | The substring test gives the same answer for a term and its lower-cased form |
| Text.EmptyTermMatches | app/admin/orders/page.tsx:20-23 | The empty term matches every text |
| Seqs.SortBySorted | app/page.tsx:119 | Sorting gives a permutation that is sorted by the key |
| Seqs.SortByStable | app/page.tsx:100-102 | The sort is stable: the elements of each key keep their order |
| Seqs.FilterIsSubsequence | app/admin/orders/page.tsx:19-28 | A filter's result is a subsequence of its input |

## Left out

- Network I/O is not modelled. Every `fetch` call is replaced by an input datatype: an OK reply with its parsed body, a failed status, a read failure, or an exception. Requests are results.
- `alert`, `confirm`, `console` logging, `router.push` and `window.location` are not modelled. An alert is a returned string, and navigation is a returned path.
- Timers are not modelled: the carousel's auto-advance interval, its 690, 700 and 710 ms reset delays, the header's message interval, and the login page's 100 ms delay. Rapid clicks can run the carousel index past n+1 before a reset fires. The model does not capture this, and it does not claim the index stays in range.
- `BannerSlider.Slider.LoopReset`: the three timed setter calls are run in order with nothing between them.
- JWT decoding (`atob`, `decodeURIComponent` and `JSON.parse` of the payload) is not modelled. The decoded claims are an optional input to `AdminLayout.AdminShell.LoadUser`.
- `JSON.parse` of `userData` is not modelled. Stored text is either a user record or other text, and the model treats all other text as unparsable. In the source, other JSON such as `42`, `[]` or `{}` parses without throwing and takes the names-and-token path; only non-JSON text and `null` reach the catch. The login page only ever writes a JSON object with the four user fields, so other text does not arise from the app itself.
- Floating point is not modelled: `parseFloat` of price and dimensions, and the pie-chart percentages. The product table keeps prices as `real` without NaN.
- ProductSubmit.BuildPayload: the body leaves out `price`, `oldPrice`, `compareAtPrice`, `costPrice`, `weight`, `length`, `width` and `height`, and the form leaves out the inputs they come from, because their values come from `parseFloat`. This also leaves out that `oldPrice`, `compareAtPrice`, `costPrice` and the three dimensions are null exactly when their input text is empty (falsy).
- ProductSubmit.Submit: the header is read from the login page's key `authToken`, the corrected behaviour recorded under Findings. The source reads key `token` (app/admin/products/add/page.tsx:246) and so sends `Bearer null` after a normal login; that as-written header is `ProductSubmit.AuthorizationAsWritten`, and `ProductSubmit.AsWrittenSendsNull` states what it sends.
- `parseInt` is modelled only over decimal digits, with an optional sign and leading whitespace. There is no `0x` prefix and no large-number precision.
- Dates and `toLocale*` formatting are not modelled. `Date.now()` is a `nat` parameter.
- `toLowerCase` and `toUpperCase` map only ASCII letters. There is no Unicode case mapping.
- A hole left by assigning past an array's end is modelled as `""`. The two are both falsy, and that is all the page reads of them.
- The GUID regular expression is modelled as an explicit character predicate, not by a regex engine.
- Cookies are a map from name to value. The parsing of `document.cookie` strings and cookie attributes other than `max-age` are not modelled.
- Scroll positions are integers rather than real numbers.
- The add-product page's generic `handleChange` for plain inputs is not modelled, since it only copies one field into the form.
- The delete handlers and `handleSearch` of the admin pages are not modelled, since they are a `confirm`, a fetch and a refetch.
- The brand logo `src` string in `components/MegaMenu.tsx` is not modelled.
- Rendering and JSX are not modelled beyond the render decision of `app/ClientLayout.tsx` and the highlighted items and links.
- `app/admin/products/add/page_old_backup.tsx` is not part of this model. It is a stale copy and is not routed.
- `lib/services/*.ts` is not part of this model. These wrap an API client whose source is not included.
- `components/Footer.tsx`, `app/layout.tsx` and `components/HeaderServer.tsx` are not part of this model. Their logic is the toggle and the top-level-category filter already modelled in `Header`.
- The static pages are not part of this model: `app/admin/page.tsx`, `app/products/page.tsx`, `app/admin/customers/page.tsx` and `app/cart/page.tsx`.
- Backend behaviour is not modelled: token validity, server-side validation and category-cycle prevention.

## Findings

| source | as written | input that shows it | evidently intended | confidence | as-written member | corrected member |
|---|---|---|---|---|---|---|
| app/admin/products/add/page.tsx:246 | The product request's token is read from `localStorage` key `token`. The login page stores it under `authToken` (app/login/page.tsx:39), and nothing writes `token`. The product list at app/admin/products/page.tsx:37 reads the same key. | Log in successfully, then submit the add-product form: the header is `Authorization: Bearer null`. | Read the key the login page writes, `authToken`, as the categories, brands and manufacturers pages do. | not executed | ProductSubmit.AuthorizationAsWritten, shown by ProductSubmit.AsWrittenSendsNull | ProductSubmit.Authorization, proved by ProductSubmit.LoginTokenIsSent and used by ProductSubmit.Submit |
