# Valhalla Electronics admin console, modelled in Dafny

This project models the core of the Valhalla Electronics admin console, a
Next.js application. Staff use it to manage the shop's categories, products,
shipping rates, currencies, currency rates, promo codes and orders. The core
has three parts.

- **The API routes.** These live under `src/app/api`. Each route is a method
  on one mutable `Database.Store`. The store holds the eight MongoDB
  collections as sequences of records and the S3 bucket as a set of object
  keys. Each route runs its chain of early-return guards (missing key → 400,
  duplicate → 409, missing storage configuration → 500). It then makes its
  writes in order and answers with a status and a JSON body (`Http.Response`).
  - The transactions of `categories/save` and `products/edit` are modelled
    as a snapshot of the documents, which `Store.Restore` puts back. Objects
    already uploaded stay in the bucket.
  - `categories/edit` has no transaction. A failing step keeps the writes
    made before it.
  - A thrown error is a *fault*: a map from a step (connect, find, create,
    update, `$push`, `$pull`, put/delete object, token signing, mail) to the
    error's message. A route given a fault for a step sees that call throw.
- **The storage service.** This is `src/services/storageService.ts`: object
  keys of the form `<Date.now()>.<extension>`, public links, and the upload
  loop that returns from its first pass.
- **The admin pages.** These live under `src/app/pages`. Each event handler
  is a function from the page state at the start of the handler to the new
  state.
  - React batches `setX` calls: reads see the old state and the last write
    wins.
  - Handlers that loop in the source are methods with loops:
    - the page-button loop;
    - the `image<i>` form-data loop;
    - the in-place `custom` flagging;
    - the category-chain walks of the two product pages;
    - the load-time property fill.

The model follows the code, quirks included. The exceptions are listed
under "## Left out"; the main one is the transaction snapshot. The most visible quirks, each
stated as a lemma, are:

- **`products/save` never creates a product.** `Product.create` leaves out
  the required `currency`, so validation always throws. The route answers
  503 after every upload (`ProductsSaveRoute.Post`,
  `Records.NoCurrencyNoProduct`).
- **Lookup by name.** Categories and products are looked up by name, not by
  id. `products/edit` finds by name and then updates by id.
- **`saveFilesToS3` handles at most one file.** It returns from inside its
  loop (`StorageService.SaveFilesToS3`).
- **`image/delete` only writes products.** The edit-category page's
  saved-image delete reaches it, so a category keeps its image record
  (`CategoryEditPage.SavedDeleteReachesRoute`).
- **Property lists on the product pages.** The new-product page never adds
  the parent's properties. Choosing a child category twice blocks the submit
  (`ProductNewPage.ChildChosenTwiceBlocksSubmit`). The edit page drops the
  selected category's own properties once the chain has three levels
  (`ProductEditPage.ChainOfTwoAndThree`).
- **Image counts that are not enforced.**
  - The edit-product upload does not count pending images
    (`ProductEditPage.PendingNotCounted`).
  - The new-category page's first batch is unchecked
    (`CategoryNewPage.FirstBatchIsUnchecked`).
  - Batches on the new-product page add up past three
    (`ProductNewPage.BatchesAddUp`).
  - Deleting an imageless product reports a failure
    (`ListPages.ImagelessProductDeleteReportsFailure`).
- **The previous-page arrow.** `currentPage-1 % 100` parses as
  `currentPage - 1`.
- **Shipping-rate inputs.** The new shipping-rate page's state can hold a
  maximum below the minimum, and the save route would accept that pair; the
  maximum input's `min` attribute is what blocks such a submit in the
  browser (`ShippingRatePages.MinimumCanPassMaximum`). A cleared rate becomes
  0, outside the range [1, 100] its input handler keeps, though inside the
  input's own `min`/`max` (`ShippingRatePages.ClearedRateIsZero`).
- **Currency rates.** A rate of 0 is saved but refused on edit
  (`CurrencyRateRoutes.ZeroRateSavedButNotEdited`).
- **Signup.** An email without '@' loses its last character in the display
  name (`SignupRoute.NoAtDropsLastChar`). The account stays when token
  signing or the mail fails.

Modules follow the source files:

- `wrappers`, `text`, `collections`, `http` and `records` hold shared
  vocabulary: `Option`/`Result`, JavaScript string and array operations,
  MongoDB's `findOne`/`updateOne`/`$pull`, responses and guards, and the
  documents with their schemas.
- `database` is the store.
- `storage_service` and `inline_upload` are the bucket operations.
- `category_tree` is the `childCategories` bookkeeping.
- There is one module per route or pair of routes.
- There is one module per page or pair of pages, with `form_inputs`,
  `product_forms` and `list_pages` for what pages share.

## Model

| member | source | states |
|---|---|---|
| Database.Written | src/app/api/auth/signup/route.ts:65-69 | a `create` writes exactly the created document, and nothing when validation throws |
| Database.Store.constructor | src/lib/categorySchema.ts:34-43 | a fresh store has empty collections and an empty bucket; every schema-default timestamp is the one load time |
| Database.Store.Restore | src/app/api/categories/save/route.ts:148-168 | aborting a transaction returns every collection to the snapshot while the bucket and the id counter stay as they are |
| Database.Store.FreshId | src/app/api/categories/save/route.ts:131-144 | a created document takes the next `_id` and the counter moves past it, so ids are never handed out twice |
| Records.NewCategory | src/lib/categorySchema.ts:11-43 | `Category.create` throws the required-path message exactly for an empty name; otherwise the parent defaults to `{name: ''}`, properties and children to `[]`, timestamps to the load time |
| Records.MissingProductPaths | src/lib/productSchema.ts:10-63 | the missing required product paths are empty exactly when all of name, brand, description, contents, category and currency are given; a missing currency is always reported last |
| Records.NewProduct | src/lib/productSchema.ts:10-63 | `Product.create` throws exactly when a required path is missing; otherwise discount and stock default to 0 and every given field is stored |
| Records.NoCurrencyNoProduct | src/lib/productSchema.ts:60-63 | a product created without a currency never passes validation |
| Http.Unauthorized | src/app/api/categories/save/route.ts:45-47 | a request without a session token is answered 401 |
| Http.NotSupported | src/app/api/categories/save/route.ts:15-31 | the wrong verb is answered 405 |
| Http.ParseCrash | src/app/api/categories/edit/route.ts:78-79 | `JSON.parse('undefined')` is an unhandled error, answered 500 |
| Http.FirstFailure | src/app/api/categories/save/route.ts:63-79 | the message reported is that of the first failing guard in written order, and none is reported exactly when all pass |
| Http.FirstFailureOrder | src/app/api/categories/save/route.ts:63-91 | guards that all pass in front of a chain do not change which failure is reported |
| Http.Guard | src/app/api/products/save/route.ts:53-115 | the guard chain answers 400 with the first failure's message, and passes exactly when every guard does |
| Http.ImageFiles | src/app/api/categories/save/route.ts:101-113 | the files kept are file entries whose type contains 'image', and every such entry is kept |
| Http.Caught | src/app/api/shippingRates/save/route.ts:85-94 | a caught error answers 409 for the route's own "already exists" message and 503 otherwise, carrying the message |
| Collections.FirstIndex | src/app/api/categories/edit/route.ts:133-137 | `findOne` picks the first matching position, and finds none exactly when nothing matches |
| Collections.FindFirst | src/app/api/categories/save/route.ts:115-119 | a document is found exactly when one matches, and it is a matching one |
| Collections.Filter | src/app/api/categories/fetch/route.ts:62-74 | `find` keeps only matching documents, and every stored match appears |
| Collections.FilterCounts | src/app/api/categories/fetch/route.ts:62-74 | every match is kept as many times as it is stored, and nothing else |
| Collections.FilterAppend | src/app/api/categories/fetch/route.ts:62-74 | the matches keep the stored order: those of a front part come first, in its order |
| Collections.FilterAll | src/app/api/categories/fetch/route.ts:62-74 | a filter every element passes keeps the whole list |
| Collections.Slice | src/app/pages/categories/page.tsx:162-187 | `slice(start, end)` with in-range bounds is the subsequence `[start, end)` |
| Collections.UpdateFirst | src/app/api/products/edit/route.ts:185-188 | `updateOne` rewrites only the first match and leaves a list with no match unchanged |
| Collections.CountAppend | src/app/api/categories/save/route.ts:146 | occurrences in a concatenation add up |
| Collections.CountZero | src/app/api/categories/edit/route.ts:157-159 | a value occurs zero times exactly when it is absent |
| Collections.PullAll | src/app/api/categories/edit/route.ts:157 | `$pull` removes every occurrence of the value and keeps every other element as many times as it was there |
| Collections.PullAllAppend | src/app/api/categories/edit/route.ts:157 | the elements that stay keep their order |
| Collections.PullAbsentKeepsAll | src/app/api/categories/edit/route.ts:157 | pulling a value that is absent leaves the list as it was |
| Text.NatToString | src/services/storageService.ts:46 | `String(n)` is a non-empty run of digits whose length follows the magnitude of `n` |
| Text.ParseNatToString | src/services/storageService.ts:46 | the decimal text of a number reads back as that number |
| Text.Pad2 | src/app/pages/promocodes/new/page.tsx:18-26 | `padStart(2, '0')` of a number below 100 is two digits |
| Text.ParsePad2 | src/app/pages/promocodes/new/page.tsx:18-26 | a padded number reads back as itself |
| Text.ExtensionIsLastSegment | src/services/storageService.ts:45 | `split('.').pop()` is the dot-free suffix after the last '.', or the whole name when there is no '.' |
| Text.ExtensionAfterDot | src/services/storageService.ts:45-46 | the extension of `prefix.ext` is `ext` whenever `ext` has no '.' |
| Text.IndexOf | src/app/api/auth/signup/route.ts:66 | `indexOf` is the first position of the character, or -1 exactly when it is absent |
| Text.SliceTo | src/app/api/auth/signup/route.ts:66 | `slice(0, end)` counts a negative end from the back and clamps to the string |
| Text.ReplaceFirst | src/app/api/auth/signup/route.ts:66 | `replace` with a one-character pattern changes only the first occurrence |
| Text.ReplaceFirstPointwise | src/app/api/auth/signup/route.ts:66 | position by position, only the first occurrence differs from the original |
| Text.Lower | src/app/pages/categories/page.tsx:42-48 | each ASCII capital is lowered and every other character is kept, one for one |
| Text.LowerIdempotent | src/app/pages/categories/page.tsx:42-48 | lower-casing twice is lower-casing once |
| Text.ContainsEmpty | src/app/pages/categories/page.tsx:42-48 | every string includes the empty string, so an empty search matches everything |
| StorageService.KeyKeepsExtension | src/services/storageService.ts:45-46 | an object key keeps its file's extension |
| StorageService.KeyKeepsTime | src/services/storageService.ts:46 | the upload time reads back from the front of the key |
| StorageService.LinkEndsWithKey | src/services/storageService.ts:58-63 | a public link is an `https://` URL that ends with the object key |
| StorageService.ImageFor | src/services/storageService.ts:58-63 | the recorded image pairs the time-and-extension key with its public link |
| StorageService.SaveFilesToS3 | src/services/storageService.ts:43-67 | no files give `undefined` and no upload; otherwise only the first file is uploaded and recorded, or the upload's error is thrown with the bucket unchanged |
| StorageService.DeleteS3Item | src/services/storageService.ts:69 | exactly the given key leaves the bucket, or the error is thrown and nothing changes |
| StorageService.DeleteS3Items | src/services/storageService.ts:71 | exactly the given keys leave the bucket in one request, or nothing changes |
| InlineUpload.ImagesForStep | src/app/api/products/save/route.ts:160-179 | one more upload appends its entry and adds its key to the stored set |
| InlineUpload.ImagesForFiles | src/app/api/products/save/route.ts:160-179 | the inline loop records one `{Key, link}` per file, in file order |
| InlineUpload.ImagesKeepExtensions | src/app/api/products/save/route.ts:160-179 | every recorded key keeps its own file's extension |
| InlineUpload.UploadEach | src/app/api/categories/edit/route.ts:113-131 | every file is uploaded and recorded; or the upload of file `failAt` throws, leaving exactly the objects of the files before it in the bucket |
| CategoryTree.FirstNamed | src/app/api/categories/save/route.ts:146 | `{name: target}` acts on the first category with that name; an undefined target matches none |
| CategoryTree.FindByName | src/app/api/categories/save/route.ts:115-119 | the lookup by name returns the first category with that name, if any |
| CategoryTree.FirstNamedBySameNames | src/app/api/categories/edit/route.ts:152-159 | updates that keep every name keep every later lookup by name |
| CategoryTree.PushChild | src/app/api/categories/save/route.ts:146 | `$push` appends the child to the first category with the parent's name, without dedup, and changes nothing else |
| CategoryTree.PushChildAt | src/app/api/categories/edit/route.ts:159 | the edit's `$push` does the same and also stamps `updated` |
| CategoryTree.PullChild | src/app/api/categories/edit/route.ts:157-158 | `$pull` removes every occurrence of the child from the first category with the old parent's name only |
| CategoryTree.RepushLeavesOneAtEnd | src/app/api/categories/edit/route.ts:157-159 | a pull followed by a push leaves the child listed exactly once, last |
| CategoriesSaveRoute.Rejection | src/app/api/categories/save/route.ts:36-119 | 401, then the connection (503 with the Error object, `{"error":{}}`), the key guards in order with the first failing one's message, no image (400 'Please upload at least one image'), an unhandled failing lookup (500) and the dedup by name (409 'Category already exists'); the route goes on exactly when all pass |
| CategoriesSaveRoute.SaveListsChild | src/app/api/categories/save/route.ts:131-146 | a committed save appends the category and lists it last under the first category named like its parent; `{}` as parent lists it nowhere |
| CategoriesSaveRoute.Post | src/app/api/categories/save/route.ts:121-168 | a rejection changes nothing; inside the transaction a failing upload, create or push answers 503 with the documents restored, the uploaded object staying; success answers 201 with the category saved and listed |
| CategoriesSaveRoute.Transact | src/app/api/categories/save/route.ts:123-168 | a failing upload changes nothing; a failing create or push restores the documents and keeps the uploaded object; otherwise the new category is saved and listed under its parent, answering 201 |
| CategoriesSaveRoute.Get | src/app/api/categories/save/route.ts:15-31 | GET answers 401 without a token and 405 with one |
| CategoriesEditRoute.Rejection | src/app/api/categories/edit/route.ts:33-143 | 401, the key guards, the JSON crash, missing storage configuration (500 'A credential/property is missing'), an unhandled failing lookup (500), 409 when no category has the name and 400 'Please upload at least one image. No image is saved' when neither stored nor sent images exist; the route goes on exactly when all pass |
| CategoriesEditRoute.Rewritten | src/app/api/categories/edit/route.ts:151-155 | the first `updateOne` rewrites only the category with the sent name: parent, properties, images and `updated` |
| CategoriesEditRoute.EditRewritesCategory | src/app/api/categories/edit/route.ts:151-159 | after the three updates the edited category holds the sent parent (`{name: ''}` for `{}`), properties and images, and no name changes |
| CategoriesEditRoute.SameParentListsOnceAtEnd | src/app/api/categories/edit/route.ts:157-159 | re-saving under the same parent leaves the name listed exactly once, last |
| CategoriesEditRoute.MoveRelistsChild | src/app/api/categories/edit/route.ts:157-159 | moving to another parent takes the name off the old parent's children and lists it last under the new one |
| CategoriesEditRoute.UpdateTree | src/app/api/categories/edit/route.ts:152-169 | the three updates run in order; a failing one answers 503 and keeps the updates before it |
| CategoriesEditRoute.Apply | src/app/api/categories/edit/route.ts:146-169 | uploads first (a failing one keeps the objects stored before it), then the deletion of only the first old image when files came, then the updates, with no rollback |
| CategoriesEditRoute.Post | src/app/api/categories/edit/route.ts:33-169 | a rejection changes nothing; otherwise the `try` block's outcome on the category found by name, a failing upload keeping the objects stored before it |
| CategoriesEditRoute.Get | src/app/api/categories/edit/route.ts:12-28 | GET answers 401 without a token and 405 with one |
| FetchRoutes.Post | src/app/api/categories/fetch/route.ts:13-29 | POST on a fetch route answers 401 without a token and 405 with one |
| FetchRoutes.FirstWithId | src/app/api/categories/fetch/route.ts:62 | the first document with the id, or none exactly when no document has it |
| FetchRoutes.FetchById | src/app/api/products/fetch/route.ts:30-89 | an invalid id gives 404; a failing `find` gives 503; no id gives the whole list; an unknown id gives the route's "does not exist" answer; a known id gives its first document |
| FetchRoutes.Others | src/app/api/categories/fetch/route.ts:62-74 | the other categories are exactly those whose id differs, each as often as it is stored |
| FetchRoutes.OthersKeepOrder | src/app/api/categories/fetch/route.ts:62-74 | the other categories keep the stored order |
| FetchRoutes.CategoriesGet | src/app/api/categories/fetch/route.ts:31-92 | the same answers for categories, except that an unknown valid id gives 200 with an error body and a match comes with every other category |
| FetchRoutes.FoundIsNotAmongOthers | src/app/api/categories/fetch/route.ts:62-74 | the category found by id is never listed among the others |
| FetchRoutes.ProductsGet | src/app/api/products/fetch/route.ts:51-67 | an invalid product id gives 404 and an unknown one 200 with 'Product does not exist' |
| FetchRoutes.CurrencyRatesGet | src/app/api/currencyRates/fetch/route.ts:51-67 | an invalid rate id gives 404 with a message about a currency; an unknown one gives 200 |
| FetchRoutes.PromocodesGet | src/app/api/promocodes/fetch/route.ts:51-67 | an invalid promo-code id gives 404 and an unknown one 200 |
| FetchRoutes.OrdersGet | src/app/api/orders/fetch/route.ts:51-67 | an invalid order id gives 404, and an unknown one 400, unlike the other fetch routes |
| ProductsSaveRoute.Rejection | src/app/api/products/save/route.ts:32-148 | 401, the nine key guards in order with the first failing one's message, the JSON crash, no image (400) and missing storage configuration (500); the route goes on exactly when all pass |
| ProductsSaveRoute.FirstProductNamed | src/app/api/products/save/route.ts:183-187 | the first product with the name, or none exactly when no product has it |
| ProductsSaveRoute.Post | src/app/api/products/save/route.ts:150-204 | no document is ever written and the answer is never 201; a thrown error goes through the catch (409 for 'Product already exists', else 503); a duplicate name gives 409 with no upload; a failing upload keeps the objects before it; otherwise every file is uploaded and the create fails validation with 503 |
| ProductsSaveRoute.ValidationIsNotDuplicate | src/app/api/products/save/route.ts:196-203 | a Mongoose validation message never equals 'Product already exists', so the catch answers it with 503 |
| ProductsSaveRoute.UploadAndCreate | src/app/api/products/save/route.ts:189-204 | a failing upload goes through the catch and keeps the objects of the files before it; otherwise every image is uploaded, and the create without `currency` fails validation with 503 and writes nothing |
| ProductsSaveRoute.Get | src/app/api/products/save/route.ts:11-27 | GET answers 401 without a token and 405 with one |
| ProductsEditRoute.Rejection | src/app/api/products/edit/route.ts:37-172 | 401, the connection (503 with the Error object, `{"error":{}}`), the key guards, an unhandled failing lookup, 409 when no product has the name, and 400 'Please upload at least one image. No image is saved' when neither stored nor sent images exist |
| ProductsEditRoute.KeyRejection | src/app/api/products/edit/route.ts:64-128 | the eleven key guards answer 400 with the first failing one's message (a missing `productId` first) and pass exactly for a well-formed form |
| ProductsEditRoute.Rewrite | src/app/api/products/edit/route.ts:181-189 | the update writes the sent fields and `updated`; name, id and `created` never change; images only when given |
| ProductsEditRoute.UpdatedById | src/app/api/products/edit/route.ts:185-188 | only the first product with the sent id is rewritten, and every name stays |
| ProductsEditRoute.Post | src/app/api/products/edit/route.ts:37-213 | the product's images gain at most the first uploaded file's entry; a thrown error restores the documents but not the bucket, answering 409 or 503; success answers 201 |
| ProductsEditRoute.Transact | src/app/api/products/edit/route.ts:175-213 | a failing upload or update restores the documents, keeping any uploaded object; otherwise the first product with the id is rewritten with the found product's images plus the first file's entry, answering 201 |
| ProductsEditRoute.Get | src/app/api/products/edit/route.ts:15-31 | GET answers 401 without a token and 405 with one |
| ImageDeleteRoute.Rejection | src/app/api/image/delete/route.ts:11-51 | a `null` body is an unhandled error, so 'body is missing' is never answered; a missing id or image gives 400; missing storage configuration gives 500 'A credential/property is missing' |
| ImageDeleteRoute.WithoutKey | src/app/api/image/delete/route.ts:68 | `$pull: {images: {Key}}` removes exactly the images with that key and keeps each other image as often as it was there |
| ImageDeleteRoute.WithoutKeyKeepsOrder | src/app/api/image/delete/route.ts:68 | the images that stay keep their order |
| ImageDeleteRoute.PulledFrom | src/app/api/image/delete/route.ts:68 | only the product with the id loses the image; an id no product has changes nothing |
| ImageDeleteRoute.Post | src/app/api/image/delete/route.ts:55-77 | the object is deleted first; a failing pull then answers 503 with the object gone and the product still naming it; success answers 200 |
| ImageDeleteRoute.Get | src/app/api/image/delete/route.ts:81-97 | GET answers 401 without a token and 405 with one |
| ImagesDeleteRoute.Rejection | src/app/api/images/delete/route.ts:11-46 | a missing body, missing or empty images (400 each), and missing storage configuration (500 'A credential/property is missing') are refused, in that order |
| ImagesDeleteRoute.Identifiers | src/app/api/images/delete/route.ts:60-63 | the batch holds exactly the images' keys, in order, without links |
| ImagesDeleteRoute.Post | src/app/api/images/delete/route.ts:48-73 | exactly the sent keys leave the bucket and no document changes; any storage error gives the one fixed 500 message |
| ImagesDeleteRoute.Get | src/app/api/images/delete/route.ts:76-92 | GET answers 401 without a token and 405 with one |
| ShippingRateRoutes.SaveRejection | src/app/api/shippingRates/save/route.ts:50-66 | a falsy name or minimum (0 included) gives 400, a rate only when absent; the route goes on exactly when the guards pass |
| ShippingRateRoutes.NewShippingRate | src/app/api/shippingRates/save/route.ts:76-80 | the created rate stores the maximum exactly when it is truthy |
| ShippingRateRoutes.FirstNamed | src/app/api/shippingRates/save/route.ts:70-74 | the first rate with the name, or none exactly when no rate has it |
| ShippingRateRoutes.Save | src/app/api/shippingRates/save/route.ts:30-94 | a duplicate name gives 409 and no write; a thrown error gives `Caught`; success appends the new rate and answers 201, with no min ≤ max check |
| ShippingRateRoutes.FirstWithId | src/app/api/shippingRates/edit/route.ts:77-81 | the first rate with the id, or none exactly when no rate has it |
| ShippingRateRoutes.EditRejection | src/app/api/shippingRates/edit/route.ts:53-81 | the guards give 400, a failing lookup is unhandled, and an unknown id gives 409 'ShippingRate no longer exists' |
| ShippingRateRoutes.Edited | src/app/api/shippingRates/edit/route.ts:86-90 | only the minimum, the maximum (kept when positive, else null), the rate and `updated` change; the name never does |
| ShippingRateRoutes.Rewritten | src/app/api/shippingRates/edit/route.ts:86-90 | only the first rate with the id is rewritten |
| ShippingRateRoutes.Edit | src/app/api/shippingRates/edit/route.ts:33-100 | a refused edit or a failing update changes nothing (503 for the update); success rewrites the rate and answers 200 |
| ShippingRateRoutes.Get | src/app/api/shippingRates/save/route.ts:11-27 | GET answers 401 without a token and 405 with one |
| CurrencyRoutes.SaveRejection | src/app/api/currencies/save/route.ts:53-69 | name, short name and symbol are required in that order |
| CurrencyRoutes.FirstNamed | src/app/api/currencies/save/route.ts:73-77 | the dedup looks at the name only, so a repeated short name is no duplicate |
| CurrencyRoutes.NewCurrency | src/app/api/currencies/save/route.ts:79-83 | the created currency carries exactly the three sent fields |
| CurrencyRoutes.Save | src/app/api/currencies/save/route.ts:33-92 | a duplicate name gives 409 and no write; success appends the currency and answers 201; errors give `Caught` |
| CurrencyRoutes.FirstWithId | src/app/api/currencies/edit/route.ts:77-81 | the first currency with the id, or none exactly when no currency has it |
| CurrencyRoutes.EditRejection | src/app/api/currencies/edit/route.ts:53-81 | the guards give 400 and an unknown id gives "Currency <name> no longer exists" |
| CurrencyRoutes.Edited | src/app/api/currencies/edit/route.ts:85 | only the short name, the symbol and `updated` are written; the name never changes |
| CurrencyRoutes.Rewritten | src/app/api/currencies/edit/route.ts:85 | only the first currency with the id is rewritten |
| CurrencyRoutes.Edit | src/app/api/currencies/edit/route.ts:33-95 | a refused edit or a failing update changes nothing; success answers 200 |
| CurrencyRoutes.Get | src/app/api/currencies/save/route.ts:12-28 | GET answers 401 without a token and 405 with one |
| CurrencyRateRoutes.SaveRejection | src/app/api/currencyRates/save/route.ts:52-68 | a falsy `from` or `to` gives 400; the rate is refused only when absent, so 0 and negative rates pass |
| CurrencyRateRoutes.FirstPair | src/app/api/currencyRates/save/route.ts:72-76 | the first rate for exactly this ordered pair |
| CurrencyRateRoutes.ReversedPairIsNoDuplicate | src/app/api/currencyRates/save/route.ts:72-76 | however many rates for (from, to) a store gains, its lookup for (to, from) answers as before, so a stored pair never blocks saving the reversed one |
| CurrencyRateRoutes.NewCurrencyRate | src/app/api/currencyRates/save/route.ts:78-82 | the created rate carries the sent pair and rate, with no from ≠ to check |
| CurrencyRateRoutes.Save | src/app/api/currencyRates/save/route.ts:32-92 | a duplicate pair gives 409 and no write; success appends the rate and answers 201 |
| CurrencyRateRoutes.FirstWithId | src/app/api/currencyRates/edit/route.ts:78-82 | the first rate with the id, or none exactly when no rate has it |
| CurrencyRateRoutes.EditRejection | src/app/api/currencyRates/edit/route.ts:54-82 | the guards, including a truthy rate, give 400; an unknown id gives "CurrencyRate from <from> to <to> no longer exists" |
| CurrencyRateRoutes.Edited | src/app/api/currencyRates/edit/route.ts:86 | only the rate and `updated` change; the stored pair stays whatever the body says |
| CurrencyRateRoutes.Rewritten | src/app/api/currencyRates/edit/route.ts:86 | only the first rate with the id is rewritten |
| CurrencyRateRoutes.Edit | src/app/api/currencyRates/edit/route.ts:34-96 | a refused edit or a failing update changes nothing; success answers 200 |
| CurrencyRateRoutes.ZeroRateSavedButNotEdited | src/app/api/currencyRates/edit/route.ts:54-76 | a rate of 0 passes the save's guards and is refused by the edit's |
| CurrencyRateRoutes.Get | src/app/api/currencyRates/save/route.ts:11-27 | GET answers 401 without a token and 405 with one |
| PromocodeRoutes.SaveRejection | src/app/api/promocodes/save/route.ts:52-68 | code, date and discount must all be truthy, so a discount of 0 is refused |
| PromocodeRoutes.FirstWithCode | src/app/api/promocodes/save/route.ts:72-76 | the first promo code with the code, or none exactly when no promo code has it |
| PromocodeRoutes.NewPromocode | src/app/api/promocodes/save/route.ts:78 | the created promo code stores the sent fields, with no range or format check |
| PromocodeRoutes.Save | src/app/api/promocodes/save/route.ts:32-92 | a repeated code gives 409 and no write; success appends the promo code and answers 201 |
| PromocodeRoutes.FirstWithId | src/app/api/promocodes/edit/route.ts:70-74 | the first promo code with the id, or none exactly when no promo code has it |
| PromocodeRoutes.EditRejection | src/app/api/promocodes/edit/route.ts:46-74 | the three fields are checked in order, and an unknown id gives 'Promocode no longer exists' |
| PromocodeRoutes.Edited | src/app/api/promocodes/edit/route.ts:78-80 | only the date, the discount and `updated` change; the code never does |
| PromocodeRoutes.Rewritten | src/app/api/promocodes/edit/route.ts:78-80 | only the first promo code with the id is rewritten |
| PromocodeRoutes.Edit | src/app/api/promocodes/edit/route.ts:32-88 | a refused edit or a failing update changes nothing; success answers 200 |
| PromocodeRoutes.EditKeepsCodes | src/app/api/promocodes/edit/route.ts:46 | no edit changes any stored code |
| PromocodeRoutes.Get | src/app/api/promocodes/save/route.ts:11-27 | GET answers 401 without a token and 405 with one |
| SignupRoute.NameBeforeAt | src/app/api/auth/signup/route.ts:66 | with an '@', the display name is the part before the first '@', with its first '.' turned into a space |
| SignupRoute.NoAtDropsLastChar | src/app/api/auth/signup/route.ts:66 | without an '@', the display name loses the last character |
| SignupRoute.Rejection | src/app/api/auth/signup/route.ts:30-59 | body, email, password, a failing lookup (an unhandled 500), an existing email (409, before the length checks), then lengths below 6 or above 20 (409); lengths 6 to 20 pass |
| SignupRoute.NewAdmin | src/app/api/auth/signup/route.ts:65-69 | the account stores the derived name, the email and the hash, unverified; an email the schema refuses throws |
| SignupRoute.Post | src/app/api/auth/signup/route.ts:25-107 | a rejection changes nothing; a failing create gives 503 with no account; once created, the account stays even when token signing or mail fails (503) |
| SignupRoute.Get | src/app/api/auth/signup/route.ts:16-20 | GET answers 405 with no login check |
| FormInputs.RemoveAt | src/app/pages/categories/new/page.tsx:185 | exactly pending image `i` goes, the others keep their order |
| FormInputs.ImageFields | src/app/pages/categories/new/page.tsx:119 | one `image<i>` field per pending file, in order |
| FormInputs.ImageKeysDistinct | src/app/pages/categories/new/page.tsx:119 | no two image fields share a key |
| FormInputs.FileEntries | src/app/pages/categories/edit/page.tsx:149 | the route sees one file entry per pending file, in order |
| FormInputs.ImageFilesOfFileEntries | src/app/api/categories/save/route.ts:101-113 | the route's image filter finds exactly the page's image files, in order, among text entries |
| FormInputs.NoImagesAmongTexts | src/app/api/categories/save/route.ts:101-113 | text entries hold no image files |
| FormInputs.ParentField | src/app/pages/categories/new/page.tsx:121 | `{}` for 'No Parent Category', else the first fetched category with the name, or the text 'undefined' exactly when none has it |
| FormInputs.AddProperty | src/app/pages/categories/new/page.tsx:137-141 | a blank property is appended and the others are kept |
| FormInputs.RemoveLastProperty | src/app/pages/categories/new/page.tsx:143-147 | the last property goes; an empty list stays empty |
| FormInputs.RemoveUndoesAdd | src/app/pages/categories/new/page.tsx:137-147 | removing undoes adding |
| FormInputs.SetPropertyName | src/app/pages/categories/new/page.tsx:226 | only property `i` is rebuilt as `{name, value}`, losing `custom` |
| FormInputs.SetPropertyValue | src/app/pages/categories/new/page.tsx:230 | likewise for the value |
| FormInputs.EditsCommute | src/app/pages/categories/new/page.tsx:226-230 | name and value edits of one property commute |
| FormInputs.ClampInput | src/app/pages/products/new/page.tsx:195-205 | a parsed value in range is kept, NaN gives the fixed value, anything else puts back the value in state |
| FormInputs.ClampStaysInRange | src/app/pages/products/new/page.tsx:195-205 | with the state's value and the NaN value in range, the input always ends in range |
| CategoryNewPage.UploadImage | src/app/pages/categories/new/page.tsx:76-101 | while an image is pending every upload is refused; the first accepted batch is taken whole |
| CategoryNewPage.Submit | src/app/pages/categories/new/page.tsx:103-135 | 0 pending images and more than 1 are refused with their notices; with exactly one, the form carries the name, the parent field, the properties and `image0` |
| CategoryNewPage.SentFormIsWellFormed | src/app/pages/categories/new/page.tsx:119-121 | a sent form passes the save route's key guards, and its image check exactly when the file is an image |
| CategoryNewPage.FirstBatchIsUnchecked | src/app/pages/categories/new/page.tsx:82-93 | a multi-file first batch is kept whole and no later upload changes it (the submit then refuses it) |
| CategoryEditPage.Loaded | src/app/pages/categories/edit/page.tsx:59-68 | the parent choices are exactly the fetched categories other than this one and its direct children |
| CategoryEditPage.ParentIsNeverSelfOrChild | src/app/pages/categories/edit/page.tsx:63 | the parent sent after a load is never the category itself or a direct child |
| CategoryEditPage.UploadImage | src/app/pages/categories/edit/page.tsx:110-114 | a batch of more than one file, or any batch while one is pending, is refused |
| CategoryEditPage.AtMostOnePending | src/app/pages/categories/edit/page.tsx:110-114 | at most one image is ever pending |
| CategoryEditPage.Flag | src/app/pages/categories/edit/page.tsx:154-158 | a blank-valued property is marked custom, nothing else changes |
| CategoryEditPage.Flagged | src/app/pages/categories/edit/page.tsx:154-158 | every property is flagged in place |
| CategoryEditPage.FlaggedIdempotent | src/app/pages/categories/edit/page.tsx:154-158 | flagging twice is flagging once, and no blank value is left unflagged |
| CategoryEditPage.FlagCustom | src/app/pages/categories/edit/page.tsx:154-158 | the in-place `forEach` on the array yields the flagged list |
| CategoryEditPage.Submit | src/app/pages/categories/edit/page.tsx:128-172 | pending plus saved 0, or pending above 1, is refused; otherwise the state keeps the flags and the form carries the flagged properties and one field per pending file |
| CategoryEditPage.SentFormIsWellFormed | src/app/pages/categories/edit/page.tsx:149-158 | a sent form passes the edit route's key guards |
| CategoryEditPage.DeleteSaved | src/app/pages/categories/edit/page.tsx:196-217 | the last saved image is kept with a notice; any other is sent to `api/image/delete` with this id |
| CategoryEditPage.SavedDeleteReachesRoute | src/app/pages/categories/edit/page.tsx:196-217 | such a request passes every guard of `api/image/delete`, which writes only products |
| CategoryEditPage.RemovePending | src/app/pages/categories/edit/page.tsx:226 | exactly pending image `i` goes |
| ProductForms.NamesBound | src/app/pages/products/new/page.tsx:147-167 | there are never more property names than properties |
| ProductForms.RepeatedNameShrinks | src/app/pages/products/new/page.tsx:147-167 | two properties sharing a name leave fewer names than properties |
| ProductForms.Choose | src/app/pages/products/new/page.tsx:260 | a property's select sets that name's value and keeps the others |
| ProductForms.RepeatedNameBlocksSubmit | src/app/pages/products/new/page.tsx:147-167 | while two properties on show share a name, the key-count check never passes |
| ProductForms.DistinctNamesCanPass | src/app/pages/products/new/page.tsx:147-167 | with distinct names the count of names equals the count of properties |
| ProductForms.DiscountInput | src/app/pages/products/new/page.tsx:195-205 | an integer in [0, 100] is kept, NaN gives 1, anything else restores the discount, so the discount stays in range |
| ProductNewPage.CurrenciesLoaded | src/app/pages/products/new/page.tsx:71-74 | the first fetched currency's short name becomes the default; an empty or failed fetch leaves it |
| ProductNewPage.ChooseCategory | src/app/pages/products/new/page.tsx:235-246 | the chosen values reset; the properties become the category's own, or the earlier list plus its own when it has a parent; the parent's are never added |
| ProductNewPage.ChildChosenTwiceBlocksSubmit | src/app/pages/products/new/page.tsx:242-245 | choosing a child category twice lists its properties twice and blocks the submit |
| ProductNewPage.RootShowsOwnProperties | src/app/pages/products/new/page.tsx:237-241 | a category without a parent shows exactly its own properties |
| ProductNewPage.UploadImage | src/app/pages/products/new/page.tsx:123-134 | a batch of more than 3 files is refused; accepted files are appended without counting pending ones |
| ProductNewPage.BatchesAddUp | src/app/pages/products/new/page.tsx:123-134 | two batches of three leave six pending |
| ProductNewPage.RemovePending | src/app/pages/products/new/page.tsx:279-280 | exactly pending image `i` goes |
| ProductNewPage.Submit | src/app/pages/products/new/page.tsx:145-190 | the four checks in order, and a form exactly when all pass, with one `image<i>` field per pending file |
| ProductNewPage.SentFormReachesRoute | src/app/pages/products/new/page.tsx:169-180 | the save route's key guards pass and it finds every pending image, in order |
| ProductNewPage.DiscountChanged | src/app/pages/products/new/page.tsx:195-205 | the discount follows the clamp and stays in [0, 100] |
| ProductEditPage.FillChosen | src/app/pages/products/edit/page.tsx:96-101 | each category property name is filled with '' unless the product has a value; the product's values win; other keys stay |
| ProductEditPage.Loaded | src/app/pages/products/edit/page.tsx:68-117 | the form takes every product field (name, brand, description, contents, price, category, images, stock, discount, currency); the properties on show are those of the first category named like the product's; the chosen values are the old ones plus '' for each of that category's names the product lacks, overlaid with the product's values |
| ProductEditPage.ChooseCategory | src/app/pages/products/edit/page.tsx:303-314 | the loop's last write wins: the two deepest levels of the chain that still carry an `_id` |
| ProductEditPage.ChainOfTwoAndThree | src/app/pages/products/edit/page.tsx:305-313 | with a parent, own plus parent's properties; with a grandparent, the own properties are dropped |
| ProductEditPage.UploadImage | src/app/pages/products/edit/page.tsx:150-154 | refused when the batch and the saved images exceed three; pending images are not counted |
| ProductEditPage.PendingNotCounted | src/app/pages/products/edit/page.tsx:150-154 | beside two saved images, two single uploads leave four images in all |
| ProductEditPage.Submit | src/app/pages/products/edit/page.tsx:168-220 | a category, every property chosen, and exactly 3 images in all; the later "more than 3" branch is unreachable |
| ProductEditPage.SentFormIsWellFormed | src/app/pages/products/edit/page.tsx:200-215 | the edit route's key guards pass and it finds every pending image, in order |
| ProductEditPage.DeleteSaved | src/app/pages/products/edit/page.tsx:222-242 | the last saved image is kept with a notice; any other is sent to `api/image/delete` |
| ProductEditPage.SavedDeleteReachesRoute | src/app/pages/products/edit/page.tsx:222-242 | such a request passes every guard of `api/image/delete` |
| ProductEditPage.RemovePending | src/app/pages/products/edit/page.tsx:251 | exactly pending image `i` goes |
| ProductEditPage.DiscountChanged | src/app/pages/products/edit/page.tsx:254-264 | the discount follows the clamp and stays in [0, 100] |
| ListPages.PageCount | src/app/pages/categories/page.tsx:56 | `ceil(n / 10)`: the fewest pages holding `n` items |
| ListPages.PageButtons | src/app/pages/categories/page.tsx:56-63 | the loop makes the buttons 1 to `pages`, in order |
| ListPages.KeepIndices | src/app/pages/categories/page.tsx:134 | the index filter never adds items |
| ListPages.KeepIndicesIsSlice | src/app/pages/categories/page.tsx:134 | the index filter keeps one contiguous, clamped stretch |
| ListPages.VisibleIsPage | src/app/pages/products/page.tsx:131 | page `p` is the `p`-th run of ten items, shorter at the end |
| ListPages.EveryItemHasAPage | src/app/pages/shippingRates/page.tsx:123 | every item is shown on exactly the page its index says, and that page has a button |
| ListPages.ArrowsStayInRange | src/app/pages/categories/page.tsx:162-187 | neither arrow leaves the range of pages |
| ListPages.PrevUndoesNext | src/app/pages/products/page.tsx:159-183 | "previous" undoes a "next" that moved |
| ListPages.NextWindowStartsAtNewPage | src/app/pages/categories/page.tsx:181-187 | a slid window starts at the new page and runs to the last one |
| ListPages.PrevWindowEndsAtNewPage | src/app/pages/categories/page.tsx:162-168 | a window slid back holds at most four buttons and ends at the new page |
| ListPages.Load | src/app/pages/categories/page.tsx:50-70 | a failed fetch changes nothing; a successful one replaces both lists and rebuilds the buttons |
| ListPages.Search | src/app/pages/categories/page.tsx:42-48 | the shown items are exactly the fetched ones whose key matches, case-insensitively, each as often as it was fetched |
| ListPages.SearchKeepsOrder | src/app/pages/categories/page.tsx:42-44 | the results keep the fetched order, which decides the page each one lands on |
| ListPages.SearchNothingKeepsAll | src/app/pages/products/page.tsx:60-66 | an empty search keeps every item |
| ListPages.SearchTextChanged | src/app/pages/categories/page.tsx:42-48 | clearing the box restores the list; other text waits for the search button |
| ListPages.ClearingEqualsEmptySearch | src/app/pages/categories/page.tsx:42-48 | clearing the box and searching for nothing agree |
| ListPages.SearchCategories | src/app/pages/categories/page.tsx:42-48 | categories match by name |
| ListPages.SearchProducts | src/app/pages/products/page.tsx:60-66 | products match by name |
| ListPages.SearchShippingRates | src/app/pages/shippingRates/page.tsx:62-68 | shipping rates match by name |
| ListPages.SearchPromocodes | src/app/pages/promocodes/page.tsx:61-67 | promo codes match by code |
| ListPages.SearchOrders | src/app/pages/orders/page.tsx:54-60 | orders match by order id |
| ListPages.AnswerOf | src/app/pages/categories/page.tsx:82-92 | the page reads whether `success` and `error` are truthy: an empty message is not, an error object is |
| ListPages.CategoryDelete | src/app/pages/categories/page.tsx:82-92 | the document delete first; the image batch only after its success and only with images; either error opens the failure dialog |
| ListPages.ProductDelete | src/app/pages/products/page.tsx:79-92 | the image batch follows every successful document delete, even with no images |
| ListPages.ShippingRateDelete | src/app/pages/shippingRates/page.tsx:81-88 | one request, no image step |
| ListPages.PromocodeDelete | src/app/pages/promocodes/page.tsx:80-88 | one request |
| ListPages.CategoryBatchIsNeverEmpty | src/app/pages/categories/page.tsx:82-92 | the category list never sends a batch the images route rejects as empty |
| ListPages.ImagelessProductDeleteReportsFailure | src/app/pages/products/page.tsx:79-92 | deleting a product without images deletes it, gets 400 from the batch and reports a failure |
| ShippingRatePages.MinimumChanged | src/app/pages/shippingRates/new/page.tsx:98-103 | the maximum follows the new minimum when it was not above the old one |
| ShippingRatePages.MinimumKeepsRange | src/app/pages/shippingRates/edit/page.tsx:139-144 | the range survives when the new minimum does not pass the maximum or the maximum was following |
| ShippingRatePages.MinimumCanPassMaximum | src/app/pages/shippingRates/new/page.tsx:98-103 | raising the minimum past a larger maximum leaves max < min in the state, and the save route would store that pair (the maximum input's `min` attribute blocks the submit) |
| ShippingRatePages.NewRateInput | src/app/pages/shippingRates/new/page.tsx:69-79 | [1, 100] is kept, NaN gives 0, anything else restores the rate |
| ShippingRatePages.ClearedRateIsZero | src/app/pages/shippingRates/new/page.tsx:69-79 | a cleared rate is 0, below the handler's range [1, 100], and the save route accepts it |
| ShippingRatePages.EditRateInput | src/app/pages/shippingRates/edit/page.tsx:98-108 | [0, 100] is kept, NaN gives 1, anything else restores the rate |
| ShippingRatePages.SaveBodyReachesRoute | src/app/pages/shippingRates/new/page.tsx:41-54 | the save route refuses the page's body exactly for an empty name or a 0 minimum, and stores a maximum exactly when the box is checked and it is not 0 |
| ShippingRatePages.Loaded | src/app/pages/shippingRates/edit/page.tsx:47-56 | name, minimum and rate are loaded; the maximum and the box only when the stored maximum is truthy |
| ShippingRatePages.UnchangedEditKeepsDocument | src/app/pages/shippingRates/edit/page.tsx:67-82 | loading a rate and saving it unchanged rewrites the same document, only `updated` moved on |
| PromocodePages.DateTime | src/app/pages/promocodes/new/page.tsx:18-26 | the default date is `YYYY-MM-DDTHH:MM` with its separators in place |
| PromocodePages.DateTimeReadsBack | src/app/pages/promocodes/edit/page.tsx:19-27 | every field reads back from its place, the month counted from 1 |
| PromocodePages.DiscountInput | src/app/pages/promocodes/new/page.tsx:66-76 | [1, 100] is kept, NaN gives 1, anything else restores the discount, so it stays in range |
| PromocodePages.TypedStaysInRange | src/app/pages/promocodes/edit/page.tsx:91-101 | after any sequence of inputs the discount is in [1, 100] |
| PromocodePages.SaveBodyReachesRoute | src/app/pages/promocodes/new/page.tsx:31-55 | from the initial form, the save route refuses the body only for an empty code |
| PromocodePages.EditRoundTrip | src/app/pages/promocodes/edit/page.tsx:56-80 | loading and saving unchanged rewrites the same document; a code typed on the page never reaches the store |
| CurrencyRateNewPage.Loaded | src/app/pages/currencyRates/new/page.tsx:45-54 | all three lists take the fetched currencies; an empty list clears `currenciesExist` |
| CurrencyRateNewPage.FromChosen | src/app/pages/currencyRates/new/page.tsx:107-109 | the "to" options become exactly every currency but the chosen one |
| CurrencyRateNewPage.ToChosen | src/app/pages/currencyRates/new/page.tsx:120-122 | the "from" options become exactly every currency but the chosen one |
| CurrencyRateNewPage.LoadedIsApart | src/app/pages/currencyRates/new/page.tsx:45-54 | the page starts with neither select offering the other's choice |
| CurrencyRateNewPage.ChoicesKeepApart | src/app/pages/currencyRates/new/page.tsx:107-122 | a choice among the offered options keeps the selects apart |
| CurrencyRateNewPage.RateChanged | src/app/pages/currencyRates/new/page.tsx:134 | an empty or NaN rate becomes 0 |
| CurrencyRateNewPage.Submit | src/app/pages/currencyRates/new/page.tsx:61-76 | refused while "from", then "to", is unselected; otherwise the body is exactly `{from, to, rate}` |
| CurrencyRateNewPage.PostedBodyReachesRoute | src/app/pages/currencyRates/new/page.tsx:61-76 | a posted body passes the save route's guards and names two different currencies |

## Left out

- Authentication: the session token is a boolean input that gives 401 first. The `next-auth` pages and the cookie-name checks are outside the model.
- Password hashing, JWT signing and mail sending: the hash is a parameter, and signing and mail can only fail through a fault.
- `ObjectId` parsing: a fetch route's `id` parameter is an abstract `IdQuery` (absent, malformed or valid).
- The admin schema's email pattern is a boolean parameter of `SignupRoute.NewAdmin`.
- `validationService.validateImages` is not shown, so its answer is an oracle parameter (`FormInputs.Validation`).
- Connection handling and sessions are modelled only as faults. A connect failure the source ignores is not modelled.
- Text.Lower: folds ASCII capitals only. JavaScript's `toLowerCase` is full Unicode and can change a string's length ('İ' lowers to two code units); the search lemmas hold for the ASCII folding.
- SignupRoute.Rejection: the password length is counted in characters, while `password.length` counts UTF-16 code units, so a password with characters outside the Basic Multilingual Plane is measured shorter in the model than by the route.
- A `null` JSON body is modelled only where the route checks for one: `image/delete`, `images/delete` and signup. The other JSON routes read the body as its fields.
- Concurrent requests, and the check-then-act races on the dedup lookups, are out of scope: each handler runs alone.
- Floating point: prices, rates and discounts are integers, and a `parseInt`/`parseFloat` result is an `Option<int>` with `None` for NaN.
- Mongoose's treatment of absent and `undefined` fields is reduced to the fields each route writes.
- S3 key collisions between uploads in the same millisecond are not modelled. `Date.now()` is a parameter.
- React rendering, the DOM, notices on other inputs, focus, router pushes and modals are left out. The list pages' reload after a delete is left out too.
- Edit pages fetch `.../fetch/id=…`. The fetch itself is left out, and a page's load handler takes the fetched answer as its input.
- The currencies new/edit pages, the currency-rate edit page and the currencies and currency-rates list pages are not modelled. They only post form state, or hold a one-line filter covered by `ListPages.Search`.
- Plain setters (the name inputs, the shipping-rate maximum input and check box) are not modelled.
- `response.data.length` on a failed currency fetch of the currency-rate page is not modelled; a failed fetch gives no input to `CurrencyRateNewPage.Loaded`.
- Both product routes take the form's numbers (price, discount, stock) as integers already converted. The source hands Mongoose the form's strings and leaves the cast to it.
- The transactions of `categories/save` and `products/edit` never pass their session to `create` or `updateOne`, so as written an abort would not undo those writes. The model follows the transaction's evident intent and restores the store's snapshot on abort; the bucket is never restored.
- A filter whose value is `undefined` (a parent category sent as `{}`) is modelled as matching no category. Mongoose's own handling of `undefined` filter values is not modelled.
