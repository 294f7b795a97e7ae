# AI Clothing Store — a Dafny model of the storefront's server and client logic

The system is a Next.js clothing storefront. Shoppers browse a filtered and paginated
catalog and keep a cart in browser storage. They sign up or sign in with email and
password or through an OAuth provider, then keep a wishlist, place orders and edit a
profile. An AI layer regenerates catalog photos with an image model and dresses a base
model or a shopper's own photo in a garment with a virtual try-on model (IDM-VTON). Admins,
listed by email, change prices and stock and add product photos. A middleware in front of
every API route checks the origin and the CSRF token of state-changing requests and
rate-limits the auth, AI, upload, order, wishlist and admin routes.

The model has one module per source file, plus two shared modules:

- `Common`: Option/Result/Reply, JavaScript numbers and truthiness, string helpers.
- `Customers`: the `customers` table shared by sign-up, sign-in, the OAuth callback and
  the profile route.

Database tables that a route updates are classes whose `rows` field is a sequence in
insertion order. The routes' methods state the new table as a function of the old one, and
lemmas prove what each update preserves. Pure decisions are functions: classifiers, prompt
and description texts, filters, sorting, paging, auth checks and cart operations. The
effects the source takes from outside are parameters:

- the clock;
- generated ids;
- bcrypt hashing and comparison;
- object storage;
- image and try-on providers' answers;
- image re-encoding.

Behaviour of the code the model follows:

- A belt is recognised by its own test, not by the clothing-type classifier.
- The classifier tests for "dress" first.
- `upper_body` is the default type.
- After the fallback base model also fails, the last error is rethrown.
- The daily cap counts the rows created on today's date.

## Model

| member | source | states |
|---|---|---|
| Ai.AssertAiEnabled | app/lib/ai.ts:10-17 | Fails with the disabled message unless AI is enabled. When an admin token is configured, passes exactly when the body's token equals it. Only the two fixed messages can be returned. |
| Ai.DailyCap | app/lib/ai.ts:7 | A missing or empty setting is a cap of 20; any other setting is `Number` of its text. |
| Ai.CheckDailyCap | app/lib/ai.ts:19-30 | A missing or empty setting is a cap of 20. A cap that is zero, negative, NaN or +Infinity never blocks. A positive finite cap blocks exactly when today's row count has reached it. |
| Ai.RowsFor | app/lib/ai.ts:89-97 | The rows of one product, and exactly those. |
| Ai.WithoutProduct | app/lib/ai.ts:91 | Deleting a product's rows keeps exactly the rows of other products. |
| Ai.WithoutOwned | app/api/ai/tryon/user/route.ts:59-66 | Deleting by photo id and owner keeps every row that does not have both. |
| Ai.IdsBelowBound | app/lib/ai.ts:93-96 | Every photo id in the table is below the next id to be issued. |
| Ai.WithoutProductRowsFor | app/lib/ai.ts:91 | After the delete, the product has no rows, and every other product keeps its rows. |
| Ai.WithoutProductKeepsIds | app/lib/ai.ts:91 | The delete keeps photo ids increasing and below the next id. |
| Ai.WithoutOwnedKeepsIds | app/api/ai/tryon/user/route.ts:59-62 | The owned-photo delete keeps photo ids increasing and below the next id. |
| Ai.WithoutOwnedRemovesAtMostOne | app/api/ai/tryon/user/route.ts:59-66 | At most one row is removed, and one is removed exactly when the caller owns that photo id. |
| Ai.WithoutOwnedNotOwned | app/api/ai/tryon/user/route.ts:59-66 | Deleting a photo the caller does not own changes nothing. |
| Ai.WithoutOwnedIdentity | app/api/ai/tryon/user/route.ts:59-66 | Deleting an id that no row has changes nothing. |
| Ai.WithoutProductCount | app/lib/ai.ts:89-91 | The delete never raises a day's count. It lowers the count when the product had a row that day. |
| Ai.UpsertReplacesLatest | app/lib/ai.ts:89-97 | After an upsert the product has exactly one row, the new one, and every other product's rows are unchanged. |
| Ai.UpsertTwice | app/lib/ai.ts:89-97 | After two upserts for the same product, only the second one's row remains. |
| Ai.UpsertDailyCount | app/lib/ai.ts:89-97 | An upsert adds at most one to today's count. It adds nothing when it replaces one of today's rows. |
| Ai.NewestBaseModelIndex | app/api/ai/dress/route.ts:36-42 | The last base-model row (`ORDER BY created_at DESC LIMIT 1`). None exactly when there is no base-model row. |
| Ai.PhotoUrlById | app/api/ai/dress/route.ts:27-34 | The image of a row with that photo id. None exactly when no row has it. |
| Ai.ProductsMissingAi | app/lib/ai.ts:99-108 | At most `limit` catalog products that have no AI row. When fewer than `limit` are returned, every such product is among them. |
| Ai.AiPhotoTable.Upsert | app/lib/ai.ts:89-97 | The table becomes `UpsertRows` of the old one, and the next id advances by one. |
| Ai.AiPhotoTable.InsertUserPhoto | app/lib/tryon.ts:49-55 | Appends one row with the user's id, the product, the URL and the model tag, under a fresh id. |
| Ai.AiPhotoTable.DeleteOwned | app/api/ai/tryon/user/route.ts:59-66 | The table becomes `WithoutOwned`. The number of deleted rows is at most 1, and 0 exactly when the caller owns no such photo. |
| Ai.FitLine | app/lib/ai.ts:52 | The fit line is non-empty exactly when the trimmed fit is non-empty. |
| Ai.MaterialLine | app/lib/ai.ts:53 | The material line is non-empty exactly when the trimmed material is non-empty. |
| Ai.DescriptionLine | app/lib/ai.ts:54 | The description line is non-empty exactly when the trimmed description is non-empty. |
| Ai.OpeningLines | app/lib/ai.ts:44-46 | The three fixed opening lines are all non-empty. |
| Ai.NonEmptyHead | app/lib/ai.ts:44-51 | None of the eight fixed and product-fact lines is empty, so `filter(Boolean)` keeps all of them. |
| Ai.KeptLines | app/lib/ai.ts:56 | When the leading lines and the last line are non-empty, `filter(Boolean)` drops lines only from the middle. |
| Ai.PromptKeptLines | app/lib/ai.ts:40-57 | The prompt keeps its fixed head and ends with the hard constraints. The fit, material and description lines appear exactly when those fields are non-blank. |
| Ai.PromptEndsWithConstraints | app/lib/ai.ts:40-57 | The prompt text is the kept lines joined by spaces, ending in the hard constraints. |
| Ai.SelectImage | app/lib/ai.ts:74-86 | A non-2xx answer fails with the body text. Otherwise a URL comes first, then base64 as a PNG data URL. Success exactly when one of them is non-empty. |
| Ai.GenerateAiOutfitImage | app/lib/ai.ts:32-87 | A missing key fails before any prompt is sent, and so does an unknown product. Otherwise the product's prompt is sent and the answer is decoded by `SelectImage`. |
| Ai.FetchProduct | app/lib/ai.ts:36-38 | A product is found exactly when it is in the catalog. |
| Ai.ErrorText | app/api/ai/refresh/route.ts:19 | `err.message \|\| 'failed'`: never empty, and the message itself when it is non-empty. |
| Ai.RunBatch | app/api/ai/refresh/route.ts:10-21 | The refresh loops' common shape: one entry per id, in order, each carrying its id; the i-th item's outcome is computed on the table the earlier items left. |
| Ai.RunBatchEntries | app/api/ai/refresh/route.ts:10-21 | Each entry of a batch is its item's outcome on the rows the batch over the earlier ids leaves. |
| Ai.RunBatchAllFail | app/api/ai/refresh/route.ts:10-21 | A batch whose items all fail leaves the rows and the next id as they were. |
| Tryon.InferClothType | app/lib/tryon.ts:141-147 | `dresses` exactly when the text mentions "dress". `lower_body` exactly when it does not and a trousers/skirt keyword occurs. Otherwise `upper_body`. |
| Tryon.GenderCases | app/lib/tryon.ts:149-154 | Female exactly when the text contains "women". Male exactly when it contains "men" but not "women". Unisex exactly when it lacks "men". |
| Tryon.FitNote | app/lib/tryon.ts:190-195 | An empty fit gives no note. The baggy note appears exactly when the fit says baggy, loose or relaxed. The slim note appears exactly when the fit says slim or skinny and not baggy, loose or relaxed. Otherwise there is no note. |
| Tryon.FitPart | app/lib/tryon.ts:208-218 | The fit part is empty exactly when the fit is. A note, when there is one, is the fit part. Without a note, the fit part is "fit " followed by the fit. |
| Tryon.LengthNote | app/lib/tryon.ts:197-206 | A length note exists exactly for dresses. The description, else the name, is read in the order midi, maxi, mini: the first word found decides. A dress with none of them is knee-length. |
| Tryon.GarmentDescShape | app/lib/tryon.ts:208-218 | The description is the non-empty parts joined by ", ", then the constraint sentence. It mentions the fit exactly when a fit is given, and a length exactly for dresses. |
| Tryon.ChooseBase | app/lib/tryon.ts:171-173 | An explicit base model wins. Otherwise the primary is the registry's image for the inferred gender. The fallback is the opposite gender's image (female for male, male otherwise). |
| Tryon.HumanUrl | app/lib/tryon.ts:174-175 | The primary image when it is non-empty, and the fallback when the primary is empty. Empty only when both are. |
| Tryon.PrepareImage | app/lib/tryon.ts:186-187 | An http URL is used as is. Anything else is re-encoded to a PNG data URL. Failure exactly when that re-encoding fails. |
| Tryon.StripDataUrl | app/lib/tryon.ts:31 | Stripping the `data:image/<type>;base64,` prefix returns the payload that `DataUrl` wrapped. |
| Tryon.StripPngDataUrl | app/lib/tryon.ts:31 | The same for a PNG data URL. |
| Tryon.Persist | app/lib/tryon.ts:25-47 | Without storage, the source URL is kept. A data URL is uploaded as PNG under the stem plus the timestamp. Another source is fetched and uploaded under the stem, the timestamp and `ExtFor` of its content type. A failed fetch or upload falls back to the source URL. |
| Tryon.BuildRequest | app/lib/tryon.ts:94-105 | `force_dc` exactly for dresses and `crop` for all other types. The human image, garment image and description are passed through. |
| Tryon.PollOutcome | app/lib/tryon.ts:128-136 | Success exactly on `succeeded` with a non-empty first output, and that output is returned. |
| Tryon.RunReplicateViton | app/lib/tryon.ts:83-139 | Covers the missing token, a failed request and a missing poll URL. Otherwise returns the outcome of the first terminal poll, or nothing when no poll is terminal. |
| Tryon.VitonAttempts | app/lib/tryon.ts:220-250 | The first attempt is always sent. The fallback is sent exactly when the first attempt fails, a distinct fallback exists and it prepares. A fallback that does not prepare gives its error. With no distinct fallback, the first error stands. |
| Tryon.DressChecks | app/lib/tryon.ts:162-175 | Fails in order on a missing token, the daily cap, an unknown product and a product without a photo. Passes exactly when additionally a human image exists. Returns the product, garment, base choice and human image. |
| Tryon.SendToViton | app/lib/tryon.ts:220-250 | Every request carries the prepared garment photo, the product's category and garment description, and the dress flags of `BuildRequest`. The first carries the prepared primary image. A second is sent exactly when the first failed and a distinct fallback prepares, and it carries the prepared fallback. The outcome succeeds exactly when the last answer does, and after two requests it is the second answer, so its error is the last one. |
| Tryon.VitonOutcome | app/lib/tryon.ts:220-250 | A successful first answer is the outcome, and so is any first answer when there is no fallback. A success is always one of the two answers. |
| Tryon.DressProductWithViton | app/lib/tryon.ts:161-251 | The result is `DressOutcome` of the old rows. A failed check gives its message, sends nothing and leaves the table. A belt sends nothing and gives the stability error or the persisted inpainting. A garment or base image that does not prepare gives its error and sends nothing; when both prepare, requests are sent, as `SendToViton` states. Success is the persisted last answer, upserted under the next id. |
| Tryon.DressOutcome | app/lib/tryon.ts:161-251 | What the admin flow answers: the token error without a token, a failure for an unknown product, and on success the persisted form, under the product's stem, of some answer. |
| Tryon.DressUserWithTryon | app/lib/tryon.ts:255-317 | The result is `UserDressOutcome`. An unknown product fails. A belt sends nothing and gives the stability error or the inpainting persisted under the customer's stem. A non-belt product without a photo fails. A prepared garment photo gives exactly the request `BuildRequest(humanUrl, prepared photo, InferClothType, GarmentDesc)`. A successful answer gives its persisted URL, and a failed one is the result. Success appends one user row tagged `viton-user` or `stability-user`. |
| Tryon.UserDressOutcome | app/lib/tryon.ts:255-317 | What the user flow answers: `Product not found` without a product, and on success the persisted form, under the customer's stem, of some answer. |
| TryonRefreshRoute.BaseModelCount | app/api/ai/tryon/refresh/route.ts:11-13 | Base models are generated exactly when the flag is truthy. A numeric flag is the count, otherwise 4. |
| TryonRefreshRoute.BatchLimit | app/api/ai/tryon/refresh/route.ts:15-21 | A non-finite number gives 3. A number from 1 to 20 is kept, and one above 20 gives 20. A number at or below 0 means no products. |
| TryonRefreshRoute.Post | app/api/ai/tryon/refresh/route.ts:8-40 | A disabled or unauthorised call is a 500 with the gate's message, and so is a failed base generation. Otherwise the reply is Ok. The batch is either forced or the products missing AI photos. The results and the final table are `RunBatch` of the selection, each product dressed by `DressOutcome`. An unknown product fails. Without a token, every result fails and nothing is written. |
| TryonRefreshRoute.DressEach | app/api/ai/tryon/refresh/route.ts:24-33 | The results, the final rows and the next id are exactly `RunBatch` over the ids, the i-th product dressed by `DressOutcome` with the i-th effects on the table the earlier products left. |
| TryonRefreshRoute.DressItem | app/api/ai/tryon/refresh/route.ts:24-33 | The outcome is `DressOutcome` for the catalog's product with no explicit base model. A failure leaves the table and the next id unchanged. A success upserts the product's image under the next id. |
| TryonRefreshRoute.RunFailures | app/api/ai/tryon/refresh/route.ts:24-33 | In a batch, an unknown product fails. Without a token every entry is the token error and the rows are unchanged. |
| StabilityRefreshRoute.BatchLimit | app/api/ai/stability/refresh/route.ts:40 | `Math.max(1, Math.min(Number(x) \|\| 3, 20))`: always 1 to 20. A falsy value gives 3, a negative number 1, 1 to 20 is kept, and anything above 20 (including +Infinity) gives 20. |
| StabilityRefreshRoute.Outcome | app/api/ai/stability/refresh/route.ts:44-58 | The cap error, then `Product not found` for an unknown product, then the inpainting answer. A success is always a known product's inpainting with this index and base. |
| StabilityRefreshRoute.RunSucceeded | app/api/ai/stability/refresh/route.ts:44-58 | Every successful entry of a batch is a known product's inpainting, made with the entry's index and the base. |
| StabilityRefreshRoute.Item | app/api/ai/stability/refresh/route.ts:44-58 | The outcome is `Outcome` of the old rows. A cap failure is reported, and so is an unknown product. With the cap passed and a known product, the outcome is the inpainting answer, or its error text. A success upserts the product's photo under the next id; a failure changes nothing. |
| StabilityRefreshRoute.Each | app/api/ai/stability/refresh/route.ts:44-58 | The results, the final rows and the next id are exactly `RunBatch` over the ids, the i-th item being `Outcome` with index i on the table the earlier items left. |
| StabilityRefreshRoute.Post | app/api/ai/stability/refresh/route.ts:16-66 | The gate failure is a 500. Without a base model the reply is a 400 and nothing changes. Otherwise the reply is Ok. The batch is forced or missing-AI, limited by `BatchLimit`, and the results and final table are `RunBatch` of it onto the newest base model. Each success is that product's inpainting. |
| AiRefreshRoute.SelectAsWritten | app/api/ai/refresh/route.ts:2-9 | As written, a forced refresh fails with the undefined-function error. An unforced one selects at most 20 products missing AI photos. |
| AiRefreshRoute.Select | app/api/ai/refresh/route.ts:9 | The intended selection: any 20 products when forced, otherwise at most 20 catalog products without AI rows. |
| AiRefreshRoute.ForcedRefreshDiffers | app/api/ai/refresh/route.ts:2-9 | Forced, the code as written fails where the intended selection proceeds. Unforced, the two agree. |
| AiRefreshRoute.Outcome | app/api/ai/refresh/route.ts:13-20 | The cap's error text, otherwise the generation's result. Without an API key it always fails, and a success is the generated image. |
| AiRefreshRoute.RunWithoutKey | app/api/ai/refresh/route.ts:10-21 | Without an API key every entry of a batch fails and the rows are unchanged. |
| AiRefreshRoute.Item | app/api/ai/refresh/route.ts:13-20 | The outcome is `Outcome` of the old rows: the cap, then generation, then the upsert under the next id. A failure is recorded with `ErrorText` and leaves the table and the next id unchanged. |
| AiRefreshRoute.RefreshBatch | app/api/ai/refresh/route.ts:10-21 | The results, the final rows and the next id are exactly `RunBatch` over the selection, the i-th item being `Outcome` with the i-th response on the table the earlier items left. |
| AiRefreshRoute.Post | app/api/ai/refresh/route.ts:4-28 | Built on the corrected selection `Select` (see Findings). The gate failure is a 500 with the table unchanged. Otherwise the reply is Ok, and the results and final table are `RunBatch` of the selection. Without an API key, every result fails and nothing is written. |
| DressRoute.BaseImage | app/api/ai/dress/route.ts:26-43 | An explicit photo id finds exactly the rows with that id. Otherwise the newest base-model row is used, and it exists exactly when some base-model row does. |
| DressRoute.Plan | app/api/ai/dress/route.ts:16-50 | The gate and cap failures are 500s. Then `400 productId is required` for a missing id, `404 Product not found` for an unknown product, and the 400 no-base-image error. Proceeds exactly when every check passes, with the product and its base image. |
| DressRoute.Post | app/api/ai/dress/route.ts:14-64 | A failed plan is replied as is, and the table is untouched. After a passing plan, a generated image is the Ok reply and is upserted; a failed generation is a 500 with its message. |
| Common.ExtFor | app/api/ai/tryon/user/route.ts:29 | The extension is `jpg` exactly when the content type contains `jpeg` or `jpg`, and `png` otherwise. |
| Common.TimedKey | app/api/ai/tryon/user/route.ts:30 | A key `<prefix><time>.<ext>` begins with the prefix, has the decimal time between the prefix and the last four characters, and ends in `.` and `ExtFor` of the content type. |
| Common.TimedKeyTime | app/api/ai/tryon/user/route.ts:30 | `Number` of the part between the prefix and the extension gives back the time the key was made at. |
| Common.UserUploadKey | app/api/ai/tryon/user/route.ts:29-30 | The storage key is `user-uploads/<customer id>-`, then `Date.now()` in decimal, then `.` and `ExtFor` of the content type, so `.jpg` exactly for a JPEG type. |
| TryonUserRoute.Caller | app/api/ai/tryon/user/route.ts:11-52 | 403 when AI is off and 401 without an email. Proceeds exactly for a known customer, with their id. Otherwise 404. |
| TryonUserRoute.Post | app/api/ai/tryon/user/route.ts:9-43 | Caller errors first, then 400 for a missing file or product and 500 without storage. The upload is stored under the user's key, and a failed upload is a 500 with its message. An unknown product is a 404. For a known product the reply is Ok with `UserDressOutcome`'s URL, or a 500 with its error. A success appends exactly one user row for that customer and product. |
| TryonUserRoute.Delete | app/api/ai/tryon/user/route.ts:45-72 | Caller errors first, then 400 without a photo id. The table becomes `WithoutOwned`. Ok exactly when the caller owned the photo, else 404 with nothing removed. |
| UploadsRoute.UploadedPhotoTable.Insert | app/api/uploads/route.ts:40-45 | Appends one row under a fresh id. |
| UploadsRoute.UploadUrl | app/api/uploads/route.ts:28-38 | Without storage, a data URL of the file. With storage, the upload under `UserUploadKey`, the same key as the try-on route: the time in decimal and a `.jpg` extension exactly for a JPEG type. |
| UploadsRoute.Post | app/api/uploads/route.ts:10-51 | 403 when AI is off, then 401, 404 and 400 in that order. With the checks passed, the reply is Ok with `UploadUrl`'s URL, or a 500 with its error. Any failure leaves the table unchanged. A success appends the customer's upload with its URL and the product id, or null. |
| Middleware.FirstGroup | middleware.ts:13-17 | The first route group whose prefix matches the path. None exactly when no group matches. |
| Middleware.ClientAddress | middleware.ts:14 | The platform address when present, else a non-empty `x-forwarded-for`, else `unknown`; never empty. |
| Middleware.Key | middleware.ts:13-17 | On a rate-limited path the bucket key is the client address, `:`, and the source of the first group that matches; on any other path it is the address followed by `:other`. |
| Middleware.CsrfError | middleware.ts:46-60 | Safe methods and `/api/auth` pass. A foreign origin is rejected. Otherwise a state-changing request passes exactly when the cookie token (or the freshly issued one) is non-empty and the header equals it, and is refused with the CSRF message otherwise. |
| Middleware.Admit | middleware.ts:19-30 | An expired or absent bucket restarts at 1 with a new window. A live one counts one more. |
| Middleware.PassesWithinWindow | middleware.ts:19-30 | Within one window, a bucket lets through at most the remaining allowance. |
| Middleware.AtMostMaxPerWindow | middleware.ts:4-30 | Requests within one window, starting at a fresh bucket, pass at most `MaxRequests` times. |
| Middleware.RateLimiter.IsRateLimited | middleware.ts:19-30 | Limited exactly when the bucket is full and unexpired, and then the buckets are unchanged. Otherwise the key's bucket is admitted. |
| Middleware.RateLimiter.Handle | middleware.ts:32-70 | A CSRF failure is a 403 and touches no bucket. A path that is not rate-limited passes. On limited paths, a 429 exactly when the key's bucket is limited. Other keys' buckets never change. |
| Cart.NumberOr | app/hooks/useCart.ts:22-26 | `Number(x) \|\| d`: a finite non-zero number is kept, and a falsy one gives the default. |
| Cart.LoadItem | app/hooks/useCart.ts:22-26 | The id, name and photo as stored; the price `Number(price) \|\| 0`; the quantity `Number(qty) \|\| 1`, never zero. |
| Cart.Load | app/hooks/useCart.ts:16-30 | Nothing stored gives an empty cart. Otherwise each stored entry gives the item `LoadItem` reads from it, in order. |
| Cart.Save | app/hooks/useCart.ts:32-35 | One stored entry per item. |
| Cart.LoadSave | app/hooks/useCart.ts:16-35 | Loading what was saved gives back the cart. |
| Cart.LoadZeroQty | app/hooks/useCart.ts:22-26 | A stored quantity of 0 comes back as 1. |
| Cart.Bump | app/hooks/useCart.ts:84-86 | Every line with that id gains one. Nothing else changes. |
| Cart.AddToList | app/hooks/useCart.ts:81-89 | A present product is bumped. An absent one is appended with quantity 1. The ids are the old ones plus the new one. |
| Cart.AddToListDistinct | app/hooks/useCart.ts:81-89 | Adding keeps product ids distinct. |
| Cart.BumpSums | app/hooks/useCart.ts:75-86 | A bump adds the number of matching lines to the count and their prices to the total. |
| Cart.AddToListSums | app/hooks/useCart.ts:75-89 | Adding raises the count by exactly 1. It raises the total by the product's price. |
| Cart.Remove | app/hooks/useCart.ts:60-62 | Exactly the lines of other products remain. |
| Cart.RemoveSums | app/hooks/useCart.ts:60-76 | Removing lowers the count by the product's quantity and the total by its subtotal. |
| Cart.Adjust | app/hooks/useCart.ts:64-71 | Only that product's lines change, to their quantity plus the delta, floored at 1. |
| Cart.PositiveQty | app/hooks/useCart.ts:69 | Keeps exactly the lines with a positive quantity. |
| Cart.UpdateQty | app/hooks/useCart.ts:64-71 | Every remaining line has a positive quantity. |
| Cart.UpdateQtyChanged | app/hooks/useCart.ts:64-71 | The product's new quantity is its old one plus the delta, floored at 1. |
| Cart.UpdateQtyKeepsOthers | app/hooks/useCart.ts:64-71 | Other products' positive lines survive. |
| Cart.UpdateQtyDropsNothing | app/hooks/useCart.ts:64-71 | On a cart of positive quantities, the filter drops nothing. |
| Cart.CartHook.Persist | app/hooks/useCart.ts:50-54 | State and storage both hold the new cart. |
| Cart.CartHook.AddItem | app/hooks/useCart.ts:56-58 | The cart becomes `AddToList` of the stored cart, and is saved. |
| Cart.CartHook.RemoveItem | app/hooks/useCart.ts:60-62 | The cart becomes `Remove` of the stored cart, and is saved. |
| Cart.CartHook.UpdateItemQty | app/hooks/useCart.ts:64-71 | The cart becomes `UpdateQty` of the stored cart, and is saved. |
| Cart.CartHook.Clear | app/hooks/useCart.ts:73-76 | An empty cart is saved, with count 0 and total 0. |
| Orders.Ids | app/api/orders/local/route.ts:28 | The product ids of the lines, in order. |
| Orders.ElementsCard | app/api/orders/local/route.ts:28-34 | The distinct ids number at most the lines, and exactly as many when there are no duplicates. |
| Orders.FoundAll | app/api/orders/local/route.ts:28-34 | The found-row count equals the line count exactly when the ids are distinct and all known. |
| Orders.SubsetCard | app/api/orders/local/route.ts:28-34 | A strict subset of ids is smaller. |
| Orders.LineRows | app/api/orders/local/route.ts:49-55 | One item row per line, with the order id, the product, the quantity and the current price. |
| Orders.LineRowsPrefix | app/api/orders/local/route.ts:49-55 | The rows for one more line are the rows so far followed by that line's row. |
| Orders.TotalMatchesRows | app/api/orders/local/route.ts:36-55 | The order's total equals the sum over its item rows. |
| Orders.Rejection | app/api/orders/local/route.ts:10-34 | 401 without an email, 404 for an unknown customer, then `400 No items` for missing or empty items and `400 One or more products not found` for a missing or repeated product. No rejection exactly when the caller is known and the items are non-empty, distinct and all in the catalog. |
| Orders.OrderDb.Post | app/api/orders/local/route.ts:8-63 | A rejection writes nothing. Otherwise appends one pending order with the computed total and the line rows, and replies with its id. |
| Orders.OrderDb.WriteItems | app/api/orders/local/route.ts:49-55 | Appends exactly the order's line rows, in order, and leaves the orders and the id counter unchanged. |
| Wishlist.ProductIdOf | app/api/wishlist/route.ts:35-44 | JSON bodies first, then form bodies. Any other content type gives none. Never an empty id. `DELETE` parses its body the same way. |
| Wishlist.WithoutPair | app/api/wishlist/route.ts:85-88 | Exactly the rows of other customer/product pairs remain. |
| Wishlist.ItemsOf | app/api/wishlist/route.ts:19-25 | Exactly the catalog products this customer has wished for. |
| Wishlist.ItemsOfNewestFirst | app/api/wishlist/route.ts:19-25 | A newly added row comes first in the listing. |
| Wishlist.WithoutPairUnique | app/api/wishlist/route.ts:85-88 | Deleting keeps pairs unique. |
| Wishlist.WishlistTable.Insert | app/api/wishlist/route.ts:53-57 | Afterwards the pair is present. A duplicate changes nothing, otherwise one row is appended. |
| Wishlist.WishlistTable.Delete | app/api/wishlist/route.ts:85-88 | Afterwards the pair is absent and every other pair's presence is unchanged. |
| Wishlist.Get | app/api/wishlist/route.ts:7-28 | 401 without an email. An unknown customer gets an empty list. A known customer gets `ItemsOf` their rows: exactly their wished catalog products, newest first. |
| Wishlist.Target | app/api/wishlist/route.ts:30-49 | 401, then 400 without a product id. Proceeds exactly for a known customer with an id, with their pair. Otherwise 404. `DELETE` resolves its caller the same way. |
| Wishlist.Post | app/api/wishlist/route.ts:30-60 | A rejection changes nothing. A success leaves the pair present. A duplicate leaves the table as it was, and a new pair appends exactly one row for it, stamped with the current time. |
| Wishlist.Delete | app/api/wishlist/route.ts:62-91 | A rejection changes nothing. A success removes the pair. |
| AdminProducts.SplitJoin | app/api/admin/products/route.ts:9 | Splitting `ADMIN_EMAILS` on commas loses nothing: joining the pieces gives back the setting. |
| AdminProducts.AdminEmails | app/api/admin/products/route.ts:9 | An address is listed exactly when it is the lowercased, trimmed form of a non-blank comma-separated entry. Every listed admin is non-empty and lowercase. |
| AdminProducts.TrimLowerPieces | app/api/admin/products/route.ts:9 | The non-empty trimmed and lowercased pieces are exactly the lowercased trimmed pieces that are not blank. |
| AdminProducts.AdminIgnoresCase | app/api/admin/products/route.ts:9-15 | The admin check ignores letter case. Every non-blank entry of the setting, trimmed, is an admin. |
| AdminProducts.Listing | app/api/admin/products/route.ts:23-28 | At most 50 products, newest first, with null stock shown as 0. |
| AdminProducts.ParsePut | app/api/admin/products/route.ts:38-44 | Accepts exactly a UUID id, an optional positive price and an optional non-negative stock. |
| AdminProducts.WithPriceStock | app/api/admin/products/route.ts:47-56 | The update keeps the number of rows. |
| AdminProducts.WithPhoto | app/api/admin/products/route.ts:86-94 | The append keeps the number of rows. |
| AdminProducts.PriceStockEffect | app/api/admin/products/route.ts:47-56 | Only the named product changes. An absent price or stock keeps the old value (COALESCE). Ids and photos are kept. |
| AdminProducts.PhotoEffect | app/api/admin/products/route.ts:86-94 | The named product's photos become the old ones, or none when null, plus the URL. Other rows are unchanged. |
| AdminProducts.Find | app/api/admin/products/route.ts:47-56 | A row with that id. None exactly when there is no such product. |
| AdminProducts.ProductTable.UpdatePriceStock | app/api/admin/products/route.ts:47-56 | The table becomes `WithPriceStock`. The updated row is returned, or none for an unknown id. |
| AdminProducts.ProductTable.AppendPhoto | app/api/admin/products/route.ts:86-94 | The table becomes `WithPhoto`. The updated row is returned, or none for an unknown id. |
| AdminProducts.Get | app/api/admin/products/route.ts:17-30 | Non-admins get 403. An admin gets `Listing` of the table: the newest 50 rows, newest first, as `Listing` states. |
| AdminProducts.Put | app/api/admin/products/route.ts:32-58 | 403, then 400 with the table unchanged. Otherwise the update is applied, and the reply is 404 exactly for an unknown product. |
| AdminProducts.UploadCheck | app/api/admin/products/route.ts:66-72 | 403, then `400 file and productId required`, then 415 for a disallowed type, then `413 File too large` for an allowed type over the limit. Passes exactly when none applies. |
| AdminProducts.DefaultLimit | app/api/admin/products/route.ts:10 | Without a setting, a file is too large exactly when it exceeds 5 MiB. |
| AdminProducts.PhotoKey | app/api/admin/products/route.ts:79-80 | The key is `products/<product id>-`, then `Date.now()` in decimal, then `.` and `ExtFor` of the content type. |
| AdminProducts.StoredUrl | app/api/admin/products/route.ts:77-84 | Without storage, a data URL of the re-encoded image. With storage, the upload of the image under `PhotoKey`, whose time and extension that member states. |
| AdminProducts.Post | app/api/admin/products/route.ts:60-95 | A failed check is replied and nothing changes. A storage failure is a 500 and nothing changes. A stored URL is the one `StoredUrl` gives; it is appended to the product's photos, with 404 exactly for an unknown product. |
| Customers.SessionCookie | app/api/auth/signup/route.ts:34-40 | The `userEmail` cookie holds the email. It is HTTP-only and secure, and lasts seven days. |
| Customers.FindEmail | app/api/auth/signin/route.ts:16-21 | The first row with that email. None exactly when it is not registered. |
| Customers.FindEmailUnique | app/api/auth/signin/route.ts:16-21 | With unique emails, the row found is the only one with that email. |
| Customers.FindEmailSnoc | app/api/auth/signup/route.ts:24-30 | A newly appended customer is the one found for their email. |
| Customers.SnocUnique | app/api/auth/signup/route.ts:24-30 | Appending a new email and id keeps the keys unique. |
| Customers.Patched | app/api/profile/route.ts:34-43 | The profile update keeps the number of rows. |
| Customers.PatchedKeepsIdentity | app/api/profile/route.ts:34-43 | Id, email, password hash and creation time never change. Other customers are untouched. Absent fields keep their values and present ones replace them. |
| Customers.PatchedIdempotent | app/api/profile/route.ts:34-43 | Applying the same update twice equals applying it once. |
| Customers.PatchedUnique | app/api/profile/route.ts:34-43 | The update keeps the keys unique. |
| Customers.CustomerTable.InsertIgnore | app/lib/auth.ts:80-84 | Inserted exactly when the email is new, and then one row is appended. Otherwise nothing changes. |
| Customers.CustomerTable.UpdateProfile | app/api/profile/route.ts:34-47 | The table becomes `Patched`. The updated row is returned, or none for an unknown email. |
| Signup.NewCustomer | app/api/auth/signup/route.ts:24-30 | The new row carries the given name, email, phone and address, the hash of the password and the generated id. |
| Signup.Post | app/api/auth/signup/route.ts:10-47 | 400 for missing fields, then 409 for a taken email, and either writes nothing. Ok exactly otherwise: one row is appended, the public user is returned and the session cookie is set. |
| Signup.AppendRegisters | app/api/auth/signup/route.ts:16-22 | Appending a customer registers that customer's email. |
| Signup.SecondSignupConflicts | app/api/auth/signup/route.ts:16-22 | The same sign-up sent twice: when the first succeeds, the second answers 409 "Email already registered.", sets no cookie and adds no row. |
| Signin.Post | app/api/auth/signin/route.ts:10-46 | 400 for missing fields. Every other failure is the same 401. The cookie is set exactly on success. A success is a customer with that email whose hash matches. With unique emails, such a customer always succeeds. |
| Signin.SigninAfterSignup | app/api/auth/signin/route.ts:16-40 | After a sign-up (app/api/auth/signup/route.ts), signing in with the same password returns that customer and the cookie. |
| Auth.Authorize | app/lib/auth.ts:24-42 | Missing fields give none. A user returned is a stored customer whose hash matches, with that customer's id, name and email. |
| Auth.AuthorizeAgreesWithSignin | app/lib/auth.ts:24-42 | The credentials provider accepts exactly what the sign-in route accepts, with the same user. |
| Auth.LocalPart | app/lib/auth.ts:75 | The part of the email before its first `@`, or the whole email without one. |
| Auth.DisplayName | app/lib/auth.ts:75 | The user's name, else the profile name, else the email's local part. |
| Auth.SignInOutcome | app/lib/auth.ts:66-86 | Credentials sign-ins pass untouched. No email is refused. Otherwise allowed, and afterwards the email is registered. A row is added only for a new email, with the display name and a placeholder hash. |
| Auth.SignInIdempotent | app/lib/auth.ts:66-86 | A repeated OAuth sign-in adds nothing. |
| Auth.SignInCallback | app/lib/auth.ts:66-86 | The decision and the new table are `SignInOutcome`. |
| Auth.Jwt | app/lib/auth.ts:87-90 | A user with an id stamps it on the token. Otherwise the token is unchanged. |
| Auth.SessionOf | app/lib/auth.ts:91-96 | The session's user gets the token's id. Nothing else changes. |
| Auth.SessionCarriesCustomerId | app/lib/auth.ts:87-96 | After a credentials sign-in, whose `authorize` returns the customer's id, later sessions carry that id. |
| Auth.RefreshedIsToken | app/lib/auth.ts:87-90 | Any number of `jwt` calls without a user leave the token unchanged. |
| Profile.Get | app/api/profile/route.ts:7-24 | 401 without an email. Ok exactly for a registered email, with that customer's view. Otherwise 404. |
| Profile.Put | app/api/profile/route.ts:26-50 | 401 with nothing changed. Otherwise the table becomes `Patched`. Ok exactly for a registered email, with the view `Get` would now return. Otherwise 404. |
| Profile.GetAfterPut | app/api/profile/route.ts:26-50 | A read after an update returns the patched customer. |
| Catalog.KeywordDiffers | app/lib/data.ts:60-62 | The list query's keyword also demands a colour match. It is never looser than the page query's, and strictly narrower when the colour does not match. |
| Catalog.NoFiltersMatchAll | app/lib/data.ts:58-81 | Without filters, every product matches. |
| Catalog.SortChoice | app/lib/data.ts:110-114 | Both queries choose the same order: `price_asc`, `price_desc`, `oldest`, else newest first. |
| Catalog.HeadKeyLeast | app/lib/data.ts:156 | In a list sorted by the `ORDER BY` key, the first row has the least key. |
| Catalog.ConsSorted | app/lib/data.ts:156 | A row whose key is at most every key of a sorted list can go in front of it, and the list stays sorted. |
| Catalog.InsertByKey | app/lib/data.ts:156 | Inserting keeps a sorted list sorted and is a permutation plus the new row. |
| Catalog.SortRows | app/lib/data.ts:156 | The result is sorted by the chosen key and is a permutation of the rows. |
| Catalog.Where | app/lib/data.ts:121-128 | Exactly the rows that match the filters. |
| Catalog.Offset | app/lib/data.ts:107 | Page n starts at (n - 1) * 12. A page below 1 or not a number is a database error. |
| Catalog.Window | app/lib/data.ts:157-158 | At most 12 rows, the slice starting at the offset. |
| Catalog.FetchFilteredProducts | app/lib/data.ts:23-93 | Succeeds exactly for a page of at least 1. The result is the 12-row window at `(page - 1) * 12` of the rows matching the list filters in `ORDER BY` order, so at most 12 rows, each a stored matching product, in sort order. |
| Catalog.WindowSorted | app/lib/data.ts:88-89 | A `LIMIT`/`OFFSET` window of sorted rows is sorted. |
| Catalog.TotalPagesIsCeiling | app/lib/data.ts:131 | `Math.ceil(count / 12)`: enough pages, none wasted, and zero exactly when nothing matches. |
| Catalog.FetchFilteredProductsPage | app/lib/data.ts:95-162 | Succeeds exactly for a page of at least 1. The products are the 12-row window at `(page - 1) * 12` of the rows matching the page filters in `ORDER BY` order, so at most 12, in sort order. The total pages are the ceiling of the match count. |
| Catalog.PageOffsets | app/lib/data.ts:107-131 | Page `n` starts inside the matching rows exactly when `n` is at most the page count, and every page before the last ends inside them. |
| Catalog.PagesCoverMatches | app/lib/data.ts:131-158 | Every page up to the total is non-empty and every later one empty. Every page before the last is full. |
| UrlParams.Get | app/components/filter-sidebar.tsx:25-32 | `get` finds a value exactly when the name is present. |
| UrlParams.Delete | app/components/filter-sidebar.tsx:53 | `delete` keeps exactly the pairs of other names. |
| UrlParams.ReplaceFirst | app/components/filter-sidebar.tsx:51 | The replacement adds no pair of another name. |
| UrlParams.GetDelete | app/components/filter-sidebar.tsx:53 | After `delete(k)`, `k` reads as absent and other names read as before. |
| UrlParams.GetReplaceFirst | app/components/filter-sidebar.tsx:51 | After replacing, `k` reads as the new value and other names read as before. |
| UrlParams.GetSnoc | app/shop/page.tsx:10 | Appending a pair only answers a name that was absent. |
| UrlParams.GetSet | app/components/filter-sidebar.tsx:51-58 | After `set(k, v)`, `k` reads as `v` and other names read as before. |
| UrlParams.Pairs | app/components/filter-sidebar.tsx:60 | One text per pair, in order, the i-th being the i-th name, `=`, and the i-th value. |
| FilterSidebar.LastFor | app/components/filter-sidebar.tsx:49-55 | The last value given for a name. None exactly when the name is not among the entries. |
| FilterSidebar.ApplyReads | app/components/filter-sidebar.tsx:49-55 | After the entries are applied, a name reads as its last non-empty value. An empty value deletes the name. A name not among the entries reads as before. |
| FilterSidebar.UpdatedParamsReads | app/components/filter-sidebar.tsx:46-58 | `updateURL` always resets the page to 1 and applies the entries as `ApplyReads` says. |
| FilterSidebar.EntriesLastFor | app/components/filter-sidebar.tsx:87-97 | Each of the nine filter names reads as the value given for it. |
| FilterSidebar.FilterChangeReads | app/components/filter-sidebar.tsx:112-122 | Changing a subcategory, brand, colour, size or sort sets that name, or clears it when empty. The search query is kept and the page is reset to 1. |
| FilterSidebar.CategoryChangeReads | app/components/filter-sidebar.tsx:87-97 | Changing the category clears the subcategory, sets or clears the category, keeps the query and resets the page. |
| FilterSidebar.Sidebar.constructor | app/components/filter-sidebar.tsx:25-32 | Each selection starts from the URL. Sort defaults to `newest`. |
| FilterSidebar.Sidebar.UpdateURL | app/components/filter-sidebar.tsx:46-63 | The parameters become `UpdatedParams` and the location follows. The selections are untouched. |
| FilterSidebar.Sidebar.HandleCategoryChange | app/components/filter-sidebar.tsx:65-98 | Sets the category and clears the subcategory. Loads the subcategories only for a non-empty category whose fetch succeeds. Pushes a URL without a subcategory, on page 1, and navigates to it. The other selections and the path are unchanged. |
| FilterSidebar.Sidebar.HandleFilterChange | app/components/filter-sidebar.tsx:100-123 | Sets the named selection and leaves every other selection, the subcategory list and the path unchanged. Pushes the URL built from the old selections with the changed name substituted, and navigates to it. |
| FilterSidebar.Sidebar.HandlePriceChange | app/components/filter-sidebar.tsx:125-137 | Pushes the current selections and navigates there. The price bounds read as typed, or are cleared when empty. No selection changes. |
| FilterSidebar.Sidebar.SetMinPrice | app/components/filter-sidebar.tsx:333 | Typing a minimum changes that field only: the other selections, the parameters and the location stay. |
| FilterSidebar.Sidebar.SetMaxPrice | app/components/filter-sidebar.tsx:342 | Typing a maximum changes that field only: the other selections, the parameters and the location stay. |
| FilterSidebar.Sidebar.ClearFilters | app/components/filter-sidebar.tsx:139-152 | Every selection is emptied and sort is back to `newest`. No filter is active, and the location is the bare path. The path and the subcategory list stay. |
| ShopPage.FromRecordReads | app/shop/page.tsx:5-14 | Each name of the copied search parameters reads as its string value, or as absent. |
| ShopPage.ToUrlParams | app/shop/page.tsx:5-14 | The loop builds `FromRecord` of the record. |
| ShopPage.TextFilter | app/shop/page.tsx:23-28 | `x \|\| null`: the parameter's text exactly when it is non-empty, otherwise no filter. |
| ShopPage.NumberFilter | app/shop/page.tsx:29-30 | A bound exists exactly when its parameter is non-empty, and it is `Number` of the parameter. |
| ShopPage.FiltersOf | app/shop/page.tsx:23-31 | Each of the nine filters is read from its own parameter: six text filters, two numeric bounds and the sort. |
| ShopPage.PageOf | app/shop/page.tsx:32 | `Number` of the page parameter when it is non-empty, otherwise page 1. |
| ShopPage.SubcategoryLookup | app/shop/page.tsx:36 | Subcategories are fetched exactly when a category is given, and for the same category the product filter uses. |
| ShopPage.LinkReads | app/shop/page.tsx:78-79 | A page link carries that page number and every other parameter as it was. |
| ShopPage.PageLinks | app/shop/page.tsx:76-93 | One link per page, the i-th for page i + 1. |
| ShopPage.CurrentLink | app/shop/page.tsx:85 | A link is current exactly for the requested page. At most one link is current, and one is exactly when the page is in range. |
| ShopPage.Render | app/shop/page.tsx:20-98 | The page renders exactly when the query succeeds, with its products, one link per page and the subcategory lookup. |

## Left out

- Network and provider I/O are parameters: OpenAI, Replicate, Stability, the image fetches and the Supabase storage calls. Their answers come in as values, functions or sequences.
- Database exceptions are not modelled. The routes' generic 500 paths for failing SQL are left out; the modelled 500s are the ones the routes raise themselves.
- bcrypt is left out: hashing is a function parameter and comparison a predicate. The hashing cost and the random placeholder password are not modelled.
- Random UUIDs, `Date.now()` and the sharp re-encoding are parameters.
- Concurrency is not modelled: each request runs alone against the tables. Rate-limit buckets are per server instance in the source and a single map here.
- Money is integer cents. Fractional JavaScript numbers and floating point are not modelled, and neither is `formatCurrency`.
- `ILIKE` is case-insensitive substring search over ASCII letters. `%` and `_` inside user text are not treated as wildcards.
- Percent-encoding of URL parameters is not modelled, nor are repeated parameters in a page's search parameters.
- The zod UUID check is the textual 8-4-4-4-12 shape; version and variant digits are not checked.
- "Newest" (`ORDER BY created_at DESC` in the AI photo, wishlist and product queries) is the last inserted row. The two agree as long as the clock never goes back between inserts; the tables do not record that as an invariant.
- Rows with equal sort keys may come back in any order in the source; the model fixes one order.
- TryonRefreshRoute.Post: the rows that `generateStabilityBaseModelImages` writes (base-model rows, which count toward the daily cap) are not written to the table. Its result is a parameter, so the batch and every cap check see the rows from before the generation. That function's body is not part of this model.
- Tryon.RunReplicateViton: the poll loop is bounded by the list of poll answers given, and it returns nothing when none is terminal. The source loop has no bound: it polls until an answer is terminal or a poll fails.
- Auth.AuthorizeAgreesWithSignin: request fields are strings or absent. Non-string JSON fields in auth bodies are not modelled.
- Profile.Put: a field absent from the JSON body is treated as null. How the postgres client binds `undefined` is not modelled.
- AdminProducts.Put: a `price` or `stock` absent from the JSON body is treated as null in the same way. How the postgres client binds `undefined` is not modelled.
- AdminProducts.Post: the upload and the re-encoding are not inside a try/catch (app/api/admin/products/route.ts:60-95). A failing upload is an uncaught throw, which Next.js answers with a bare 500 and no JSON body. The model's `Fail(500, message)` stands for that response; the body text is not modelled.
- AiRefreshRoute.Post: it selects products with the corrected `Select`. As written, a forced refresh answers 500 with the `getProductsAny is not defined` message; `AiRefreshRoute.SelectAsWritten` models that.
- Photo ids: the database generates them as UUIDs (`uuid_generate_v4()`, app/seed/route.ts:315). The model hands them out as increasing natural numbers. A `photoId` query parameter that is not a UUID is a SQL error (a 500) in the source and cannot be expressed here.
- Common.ParseNumber: only optionally signed decimal integers and `Infinity` are numbers. Fractions, exponents (`Number("1e2")` is 100) and hexadecimal give NaN here. This affects the daily cap, the upload size limit and the page number.
- Common.Lower lowers ASCII letters only, and Common.IsSpace covers the ASCII and Latin-1 white space plus the byte-order mark. Other Unicode case mappings and spaces are not modelled. This affects the admin allowlist, the garment classifiers and trimming.
- Common.Json folds JSON arrays into `JObject`. JavaScript treats an empty array differently (`Number([])` is 0).
- Request bodies that are not valid JSON are not modelled for sign-up, sign-in and the profile route: the source answers 500 there (caught in sign-up and sign-in, uncaught in the profile route at app/api/profile/route.ts:31). The wishlist routes (app/api/wishlist/route.ts:38 and 70) also throw; the model treats such a body as one without a `productId` and answers 400.
- Middleware.CsrfError: when the request has no CSRF cookie, the token the middleware would issue is a parameter. Setting that cookie on the response is not modelled.
- NextAuth internals are not modelled (provider configuration, JWT signing, page routing). Only the four callbacks are.
- `fetchFilterOptions` and `fetchSubCategoriesByCategory`, which the shop page calls, are not part of this model. The subcategory lookup is recorded as a request.
- The `TryOnUploader`, gallery and other presentational components are not part of this model.

## Findings

| source | as written | input that shows it | evidently intended | confidence | as-written member | corrected member |
|---|---|---|---|---|---|---|
| app/api/ai/refresh/route.ts:2-9 | The `force` branch calls `getProductsAny`, which the route never imports. The call throws a ReferenceError, which the route reports as a 500. | `{ "force": true }` with AI enabled | A forced refresh regenerates any 20 products, as the Replicate refresh route does | not executed | AiRefreshRoute.SelectAsWritten | AiRefreshRoute.Select |

Further behaviour the model makes explicit, from the code as written:

- A `NEXT_PUBLIC_MAX_UPLOAD_BYTES` that is not a number disables the admin size check. `size > NaN` is false (`AdminProducts.UploadCheck`).
- The admin try-on flow demands a garment photo even for belts (`Tryon.DressChecks`). The user flow does not (`Tryon.DressUserWithTryon`).
- When the primary base image is empty, `humanUrl` already is the fallback, so the retry sends the same image again. The user flow makes a single VITON call with no retry.
- The VITON refresh route reports `err.message` as is. The other refresh routes substitute `'failed'` for an empty message.
- `handleFilterChange('category', …)` would push the previous category. The sidebar only calls it for the other five names, and uses `handleCategoryChange` for the category.
