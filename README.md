# Midiaz — a verified model of the shop, discovery and account rules

Midiaz is a photo marketplace for events. Participants find the photos they appear in with face recognition and buy them. Photographers upload event photos and follow their sales. This project models in Dafny the rules that decide what the application does:

- **Client state container** (`AppState`): the session user, the cart, the discovery state and the one-slot toast, as one class. The cart is append-only, lines get fresh ids, and removal is by id. Login is a mock that dispatches on role.
- **Cart and checkout** (`CartPage`, `CheckoutPage`):
  - the subtotal, plus a 10% discount from three lines on;
  - the "add N more" hint and where each button navigates;
  - the label cut out of a photo id;
  - the checkout guards and the payment that clears the cart.
- **Discovery** (`SearchPage`, `FoundPhotosPage`):
  - the case-insensitive event search, where the global query wins;
  - the "find my photos" workflow with its local fallback;
  - selection toggling, select-all and the selection's price;
  - the confidence bands and "add selected to cart".
- **Token lifecycle** (`AuthService`): the one `midiaz_token` storage slot around the login, register and `/me` exchanges.
- **Sign-up** (`RegisterPage`): password validation with a fixed precedence, and the two-step flow for consumers.
- **Face-recognition service** (`FaceApi`):
  - statistics;
  - reference-face registration with its face-count check;
  - the detect and compare endpoints;
  - the per-user photo search. It keeps the event filter, one entry per photo and confidence order.
- **Account backend** (`AuthBackend`): lookup, authentication, token claims and their verification, and account creation with unique email and CPF.
- **Photographer pages** (`UploadPage`, `PhotographerPhotos`, `GalleryPage`, `DashboardPage`):
  - the upload file list and its processing totals;
  - the conjunctive photo filter;
  - the gallery filters and their badge counts;
  - the dashboard metrics, sales filter, row cap, tabs and URL override.

Each source file is one module. `Types` holds the shared entities. `Seqs` holds generic facts about `Array.filter` (membership, order, duplicate-freedom). `Text` holds lower-casing, substring and prefix tests.

State that a page or the container updates in place is a class:
- Methods list the fields they change with field-level `modifies` clauses.
- Router pushes are recorded in a `route` field.
- Pure expressions are functions, and lemmas state their properties.

Service calls, randomness and clocks are parameters:
- an HTTP exchange is an outcome datatype: ok with a body, refused, or thrown;
- a random id or price is an argument;
- the face library's comparison is a function argument.

## Model

| member | source | states |
|---|---|---|
| `AppState.App.constructor` | projeto/contexts/AppContext.tsx:385-394 | The initial state: no user, empty cart, no found photos, empty query, no selected event, toast type "info". |
| `AppState.App.ShowToast` | projeto/contexts/AppContext.tsx:462-465 | The toast holds the message; the type defaults to "info". |
| `AppState.App.AddToCart` | projeto/contexts/AppContext.tsx:398-405 | Exactly one line is appended at the end with the caller's fields and a fresh id. Earlier lines are unchanged, ids stay distinct, and the toast says "Foto adicionada ao carrinho!" (success). |
| `AppState.App.RemoveFromCart` | projeto/contexts/AppContext.tsx:407-410 | The cart becomes the id filter of the old cart, ids stay fresh, and the toast is "info". |
| `AppState.App.ClearCart` | projeto/contexts/AppContext.tsx:412-414 | The cart is empty afterwards. |
| `AppState.App.Login` | projeto/contexts/AppContext.tsx:416-453 | Returns the mock decision. On success it sets that user and pushes the role's home route; on failure it leaves user and route unchanged. |
| `AppState.App.Logout` | projeto/contexts/AppContext.tsx:455-460 | No user, empty cart, route "/" and a success toast. |
| `AppState.App.SetUser` | projeto/contexts/AppContext.tsx:386 | The user is replaced. |
| `AppState.App.SetSearchQuery` | projeto/contexts/AppContext.tsx:390 | The global query is replaced. |
| `AppState.App.SetSelectedEvent` | projeto/contexts/AppContext.tsx:391 | The selected event is replaced. |
| `AppState.App.SetFoundPhotos` | projeto/contexts/AppContext.tsx:392 | The found photos are replaced wholesale, never merged. |
| `AppState.Authenticate` | projeto/contexts/AppContext.tsx:421-452 | Login succeeds iff the email is admin@midiaz.com or fotografo@midiaz.com (any password), or both email and password are non-empty. The role is admin/photographer exactly for those emails, the user carries the given email, and the route is the role's home. |
| `AppState.RemoveLineMembers` | projeto/contexts/AppContext.tsx:407-408 | A line survives removal iff it was in the cart and carries another id. |
| `AppState.RemoveLineKeepsOrder` | projeto/contexts/AppContext.tsx:408 | The remaining lines are an order-preserving subsequence of the cart. |
| `AppState.RemoveAbsentIsNoop` | projeto/contexts/AppContext.tsx:408 | Removing an id no line carries leaves the cart unchanged. |
| `AppState.RemoveKeepsFresh` | projeto/contexts/AppContext.tsx:398-408 | Removal keeps line ids distinct and below the next fresh id. |
| `AppState.AddTwiceThenRemoveOne` | projeto/contexts/AppContext.tsx:399-408 | Adding one photo twice gives two lines with equal payloads and distinct ids, with no deduplication. Removing the first by id leaves exactly the second. |
| `CartPage.SubtotalAppend` | projeto/app/cart/page.tsx:49 | The subtotal is additive over concatenated carts. |
| `CartPage.SubtotalNonNegative` | projeto/app/cart/page.tsx:49 | Non-negative prices give a non-negative subtotal. |
| `CartPage.TotalBounds` | projeto/app/cart/page.tsx:49-51 | Below three lines the discount is 0 and total = subtotal. From three lines on total = 0.9 × subtotal. With non-negative prices 0 ≤ total ≤ subtotal. |
| `CartPage.ThreePhotoExample` | projeto/app/cart/page.tsx:49-51 | 15 + 18 + 20 gives subtotal 53, discount 5.3, total 47.7. |
| `CartPage.DuplicateRemovalTotals` | projeto/contexts/AppContext.tsx:398-408 | A photo added twice is charged twice; removing one line by id charges it once. |
| `CartPage.View` | projeto/app/cart/page.tsx:17-51 | The empty view appears iff the cart is empty, before any pricing. Otherwise the subtotal is the sum of the prices, the discount is 10% of it from three lines on and 0 below, and total = subtotal − discount. The discount row shows iff the discount is positive. The savings banner shows iff there are ≥ 3 lines. The hint shows iff there are < 3 lines and asks for exactly 3 − count more photos. |
| `CartPage.DiscountRowShown` | projeto/app/cart/page.tsx:138 | The discount row shows iff there are ≥ 3 lines and the subtotal is positive. |
| `CartPage.CheckoutTarget` | projeto/app/cart/page.tsx:53-59 | "/login" iff there is no user, "/checkout" iff there is one. |
| `CartPage.ContinueShoppingTarget` | projeto/app/cart/page.tsx:61-68 | "/search" for an empty cart, otherwise "/event/" followed by the last line's event id. |
| `CartPage.PhotoLabel` | projeto/app/cart/page.tsx:108 | Undefined iff the id has no '-'. Otherwise the text that starts right after the first '-' and runs up to the next '-' or the end. |
| `CartPage.CatalogueLabel` | projeto/app/cart/page.tsx:108 | An id `<event>-<n>` is labelled `<n>`, the text between the first and second '-'. |
| `CheckoutPage.PriceSummary` | projeto/app/checkout/page.tsx:34-36 | The subtotal is the cart's sum of prices, the discount is 10% of it from three lines on and 0 below, total = subtotal − discount, and the discount row shows iff the discount > 0 (line 194). |
| `CheckoutPage.RenderAsWritten` | projeto/app/checkout/page.tsx:24-47 | The guards in source order: no user gives "/login" first, then an empty cart gives "/cart". Completion is shown only with a non-empty cart. |
| `CheckoutPage.Render` | projeto/app/checkout/page.tsx:24-47 | The corrected order: no user gives "/login", completion comes next, and only then the empty-cart redirect. |
| `CheckoutPage.RendersAgreeBeforePayment` | projeto/app/checkout/page.tsx:24-47 | The two orders differ only for a completed payment on an empty cart. |
| `CheckoutPage.CheckoutPricingMatchesCart` | projeto/app/checkout/page.tsx:34-36 | Checkout's subtotal, discount, total and discount row equal the cart page's. |
| `CheckoutPage.Checkout.constructor` | projeto/app/checkout/page.tsx:18-20 | Payment method "pix", not processing, not complete. |
| `CheckoutPage.Checkout.SetPaymentMethod` | projeto/app/checkout/page.tsx:17 | The payment method is replaced. |
| `CheckoutPage.Checkout.HandlePayment` | projeto/app/checkout/page.tsx:38-45 | Ends not processing, complete, and with an empty cart. |
| `CheckoutPage.PaymentHidesCompletion` | projeto/app/checkout/page.tsx:29-47 | As written, the render after a payment redirects to "/cart" instead of showing completion. |
| `CheckoutPage.PaymentShowsCompletion` | projeto/app/checkout/page.tsx:29-47 | With the corrected order, the render after a payment is the completion view. |
| `FoundPhotosPage.ToggleMembers` | projeto/app/found-photos/page.tsx:19-21 | An absent id is appended at the end; a present id is removed, and nothing else is. |
| `FoundPhotosPage.ToggleTwiceRestores` | projeto/app/found-photos/page.tsx:20 | Toggling an absent id twice restores the selection exactly. |
| `FoundPhotosPage.ToggleTwicePresent` | projeto/app/found-photos/page.tsx:20 | Toggling a present id twice keeps the same ids, with that id moved last. |
| `FoundPhotosPage.ToggleKeepsNoDup` | projeto/app/found-photos/page.tsx:20 | Toggling never creates a duplicate id. |
| `FoundPhotosPage.SelectAllToggle` | projeto/app/found-photos/page.tsx:168-173 | Clears when the selection's length equals the found list's, otherwise selects every found id in order. |
| `FoundPhotosPage.Find` | projeto/app/found-photos/page.tsx:25 | Nothing iff no found photo has the id; otherwise the first found photo with that id. |
| `FoundPhotosPage.TotalPriceAppend` | projeto/app/found-photos/page.tsx:73-76 | The selection's price is additive over concatenated selections. |
| `FoundPhotosPage.ToggleAbsentTotal` | projeto/app/found-photos/page.tsx:73-76 | Selecting an absent id adds its price (0 when not found); deselecting it again restores the total. |
| `FoundPhotosPage.FindOwnId` | projeto/app/found-photos/page.tsx:74 | With distinct ids, `find` returns each photo for its own id. |
| `FoundPhotosPage.SelectAllTotal` | projeto/app/found-photos/page.tsx:73-76 | After select-all the total is the sum of all found prices. |
| `FoundPhotosPage.BandOf` | projeto/app/found-photos/page.tsx:43-53 | High iff ≥ 90, medium iff in [80, 90), low iff < 80; the colour (green, yellow, red) and the text (Alta, Média, Baixa) are chosen by this band. |
| `FoundPhotosPage.BadgeAgreesWithText` | projeto/app/found-photos/page.tsx:43-53 | The badge colour is green, yellow or red exactly when its text says high, medium or low confidence. |
| `FoundPhotosPage.SumConfidenceBounds` | projeto/app/found-photos/page.tsx:78 | Percentages sum to between 0 and 100 × count; a missing confidence counts 0. |
| `FoundPhotosPage.AverageConfidence` | projeto/app/found-photos/page.tsx:55-78 | Defined only for a non-empty list (the empty list returns early). It is the sum of the confidences, a missing one counting 0, divided by the count; for percentages it lies in [0, 100]. |
| `FoundPhotosPage.AddedPriceIsTotal` | projeto/app/found-photos/page.tsx:23-37 | The prices added to the cart sum to the total the page shows for the selection. |
| `FoundPhotosPage.NothingAddedWithoutEvent` | projeto/app/found-photos/page.tsx:26 | Without a selected event nothing is added. |
| `FoundPhotosPage.Payloads` | projeto/app/found-photos/page.tsx:27-33 | One payload per cart line, in order, each the line without its id. |
| `FoundPhotosPage.FoundPhotos.constructor` | projeto/app/found-photos/page.tsx:14 | The selection starts empty. |
| `FoundPhotosPage.FoundPhotos.TogglePhotoSelection` | projeto/app/found-photos/page.tsx:19-21 | The selection becomes the toggle of the old one. |
| `FoundPhotosPage.FoundPhotos.ToggleSelectAll` | projeto/app/found-photos/page.tsx:168-173 | The selection becomes the select-all toggle of the old one. |
| `FoundPhotosPage.FoundPhotos.HandleAddToCart` | projeto/app/found-photos/page.tsx:23-37 | Old lines are kept. The new lines carry exactly one payload per selected id found, in selection order, with the selected event's name, and only when an event is selected. The route is "/cart". |
| `SearchPage.QueryKeepsExactlyMatches` | projeto/app/search/page.tsx:60-70 | With some query, an event is kept iff the lower-cased query occurs in its lower-cased name, location, photographer or category. |
| `SearchPage.NoQueryKeepsAll` | projeto/app/search/page.tsx:71-72 | With both queries empty every event is listed. |
| `SearchPage.FilterEventsKeepsOrder` | projeto/app/search/page.tsx:63 | The list is an order-preserving subsequence of the events. |
| `SearchPage.GlobalQueryWins` | projeto/app/search/page.tsx:62 | A non-empty global query makes the local one irrelevant. |
| `SearchPage.QueryCaseIgnored` | projeto/app/search/page.tsx:62 | An upper-case query finds the same events as its lower-case form. |
| `SearchPage.BackfillImage` | projeto/app/search/page.tsx:99 | The image of the first catalogue photo of that event, or "/placeholder.svg" when there is none or that image is empty, even if a later photo has one. Never empty. |
| `SearchPage.FromMatches` | projeto/app/search/page.tsx:95-107 | One found photo per returned match, in order, with its id, event id and confidence, and marked as showing the user. Its image is the back-filled image of its event (the first catalogue photo of that event, or the placeholder), and its price and number are that position's draw. |
| `SearchPage.LocalMatchesExact` | projeto/app/search/page.tsx:113 | The fallback lists exactly the tagged catalogue photos of the event, in catalogue order. |
| `SearchPage.SearchResult` | projeto/app/search/page.tsx:91-131 | With success and > 0 photos: the service's photos and a success toast counting the service's photos_found. Otherwise: the local fallback, with toast "info" and the "none found" text iff it is empty, and "success" counting the fallback list otherwise. A throw: the local fallback with the error toast and its fixed text. |
| `SearchPage.SearchResultTagged` | projeto/app/search/page.tsx:94-131 | Every photo a search ends with shows the user. Fallback photos are catalogue photos of the event. |
| `SearchPage.Search.constructor` | projeto/app/search/page.tsx:31-38 | Empty local query, status "checking", filters closed. |
| `SearchPage.Search.CheckApiStatus` | projeto/app/search/page.tsx:51-58 | "available" iff the probe answers true; false or a throw gives "unavailable". |
| `SearchPage.Search.HandleSearch` | projeto/app/search/page.tsx:137-139 | The local query is replaced. |
| `SearchPage.Search.HandleFilterByCategory` | projeto/app/search/page.tsx:141-144 | The category becomes the local query and the filter panel closes. |
| `SearchPage.Search.HandleEventClick` | projeto/app/search/page.tsx:76-79 | Selects the event and routes to "/event/" followed by its id. |
| `SearchPage.Search.HandleFindMyPhotos` | projeto/app/search/page.tsx:81-135 | With no user: error toast, "/login", no request, found photos unchanged. Otherwise: exactly one request, found photos and toast as `SearchResult`, route "/found-photos", and no longer searching. |
| `AuthService.ErrorMessage` | projeto/lib/auth-service.ts:60 | A non-empty detail is used; an absent or empty one gives the fallback. |
| `AuthService.Headers` | projeto/lib/auth-service.ts:125-128 | An Authorization header of "Bearer <token>" iff the token is non-empty; otherwise no header. |
| `AuthService.HeadersIffAuthenticated` | projeto/lib/auth-service.ts:121-128 | For a non-empty token, authenticated iff a header is sent. |
| `AuthService.EmptyTokenGap` | projeto/lib/auth-service.ts:121-128 | An empty stored token counts as authenticated but sends no header. |
| `AuthService.AuthClient.constructor` | projeto/lib/auth-service.ts:28-34 | The client starts with the given window and slot and no requests. |
| `AuthService.AuthClient.GetToken` | projeto/lib/auth-service.ts:29-34 | Null without a window, the slot otherwise. |
| `AuthService.AuthClient.SetToken` | projeto/lib/auth-service.ts:36-40 | Stores the token only when a window exists. |
| `AuthService.AuthClient.RemoveToken` | projeto/lib/auth-service.ts:42-46 | Empties the slot only when a window exists; afterwards no token is read. |
| `AuthService.AuthClient.Finish` | projeto/lib/auth-service.ts:58-65 | An accepted body is returned and its token stored. A refusal throws the detail or the fallback, and a network throw passes through; on both, the token is unchanged. |
| `AuthService.AuthClient.Login` | projeto/lib/auth-service.ts:48-66 | One POST. The token is stored on acceptance; otherwise it throws with the detail or 'Erro no login' and the token is unchanged. |
| `AuthService.AuthClient.Register` | projeto/lib/auth-service.ts:68-90 | The same as login, with fallback 'Erro no registro'. |
| `AuthService.AuthClient.GetCurrentUser` | projeto/lib/auth-service.ts:92-115 | With no (or an empty) token: null and no request. Otherwise one `/me` request; a refusal or throw removes the token and returns null. |
| `AuthService.AuthClient.Logout` | projeto/lib/auth-service.ts:117-119 | Removes the token; afterwards not authenticated. |
| `AuthService.AuthClient.IsAuthenticated` | projeto/lib/auth-service.ts:121-123 | True iff a token is stored and readable, even an empty one. |
| `AuthService.AuthClient.GetAuthHeaders` | projeto/lib/auth-service.ts:125-128 | The header is present iff a non-empty token is readable, and it carries "Bearer " plus the token. |
| `AuthService.NoWindowNoSession` | projeto/lib/auth-service.ts:29-34 | Outside a browser the client is never authenticated and sends no header. |
| `RegisterPage.InitialForm` | projeto/app/register/page.tsx:18-24 | Every field is present, the password is empty and the type is "consumer". |
| `RegisterPage.Validate` | projeto/app/register/page.tsx:39-49 | Mismatch error iff the passwords differ. Length error iff they agree and are shorter than 6. Valid iff they agree with length ≥ 6. |
| `RegisterPage.LengthBoundary` | projeto/app/register/page.tsx:45 | Five characters are rejected and six accepted. |
| `RegisterPage.MismatchWins` | projeto/app/register/page.tsx:39-49 | A short, mismatched password reports the mismatch. |
| `RegisterPage.Register.constructor` | projeto/app/register/page.tsx:17-29 | Step 1, the initial form, no error, no face photo. |
| `RegisterPage.Register.HandleSubmit` | projeto/app/register/page.tsx:34-61 | Not loading on every exit. The first validation error is shown and stops the flow. When valid, a consumer without a face photo goes to step 2 and any other submission routes to "/login". |
| `RegisterPage.Register.HandleFacePhotoUpload` | projeto/app/register/page.tsx:63-67 | The first chosen file becomes the face photo; with no file, nothing changes. |
| `RegisterPage.Register.CompleteFaceRegistration` | projeto/app/register/page.tsx:69-95 | Nothing happens without a face photo. Success stores the user id and routes to "/login". Failure or a throw sets its error and does not route. Never loading afterwards. |
| `RegisterPage.Register.SkipFaceRegistration` | projeto/app/register/page.tsx:97-99 | Routes to "/login". |
| `RegisterPage.Register.HandleInputChange` | projeto/app/register/page.tsx:101-103 | The named field takes the value and every other field is unchanged. |
| `FaceApi.SumDetectionsAppend` | projeto/backend/reconhecimento-facial/main.py:48 | The detection total is additive over stores. |
| `FaceApi.NoDetectionsIffAllEmpty` | projeto/backend/reconhecimento-facial/main.py:48 | The total is 0 iff every photo has no detections. |
| `FaceApi.DetectionsOfOnePhoto` | projeto/backend/reconhecimento-facial/main.py:48 | Each photo's detections are part of the total. |
| `FaceApi.MapUpdateSize` | projeto/backend/reconhecimento-facial/main.py:46-76 | Registering a face adds a user to the count only when it is new. |
| `FaceApi.FaceDb.GetStats` | projeto/backend/reconhecimento-facial/main.py:40-49 | The counts are the sizes of the two stores, and total_detections is the sum of every photo's detection count (0 iff no photo has any). |
| `FaceApi.FaceDb.constructor` | projeto/backend/reconhecimento-facial/main.py:33-34 | Both stores start empty. |
| `FaceApi.FaceDb.RegisterFace` | projeto/backend/reconhecimento-facial/main.py:52-90 | Stores (or overwrites) the encoding iff exactly one face is found. 0 faces or several faces give their own error as a 500 and store nothing. Success also needs the save. A failed save answers 500 and keeps the encoding. |
| `FaceApi.FirstConfidence` | projeto/backend/reconhecimento-facial/main.py:191-199 | Nothing iff no detection is of the user; otherwise the confidence of the first detection of the user. |
| `FaceApi.Entry` | projeto/backend/reconhecimento-facial/main.py:187-199 | A photo contributes one entry iff it is in the event (an absent or empty id means any) and has a detection of the user; the entry copies that first confidence. |
| `FaceApi.CandidatesMembers` | projeto/backend/reconhecimento-facial/main.py:187-199 | An entry is listed iff it is the entry of some stored photo. |
| `FaceApi.CandidatesLength` | projeto/backend/reconhecimento-facial/main.py:187-199 | At most one entry per stored photo. |
| `FaceApi.CandidatesDistinct` | projeto/backend/reconhecimento-facial/main.py:187-199 | Over a store keyed by photo id, no photo is listed twice. |
| `FaceApi.CandidatesInEvent` | projeto/backend/reconhecimento-facial/main.py:188-189 | With a non-empty event id, only photos of that event are listed. |
| `FaceApi.CandidatesComplete` | projeto/backend/reconhecimento-facial/main.py:187-199 | Without an event id, every photo with a detection of the user is listed. |
| `FaceApi.Insert` | projeto/backend/reconhecimento-facial/main.py:202 | Insertion adds exactly the one entry. |
| `FaceApi.InsertSorted` | projeto/backend/reconhecimento-facial/main.py:202 | Insertion keeps the order by non-increasing confidence. |
| `FaceApi.SortDesc` | projeto/backend/reconhecimento-facial/main.py:202 | The sort is a permutation. |
| `FaceApi.SortDescSorted` | projeto/backend/reconhecimento-facial/main.py:202 | The sort's result is in non-increasing confidence order. |
| `FaceApi.InsertDistinct` | projeto/backend/reconhecimento-facial/main.py:202 | Inserting a new photo keeps photo ids distinct. |
| `FaceApi.SortDescDistinct` | projeto/backend/reconhecimento-facial/main.py:202 | Sorting keeps photo ids distinct. |
| `FaceApi.SearchFor` | projeto/backend/reconhecimento-facial/main.py:185-209 | The reply is successful. photos_found equals the list length, which is at most the store size. The list is sorted by non-increasing confidence and is a permutation of the candidates. |
| `FaceApi.SearchForDistinct` | projeto/backend/reconhecimento-facial/main.py:185-209 | At most one entry per photo. |
| `FaceApi.FaceDb.SearchUserPhotos` | projeto/backend/reconhecimento-facial/main.py:176-212 | An unknown user gives a 500 (the 404 is re-wrapped). Otherwise the loop's reply equals `SearchFor` over the store. |
| `FaceApi.MatchesOf` | projeto/backend/reconhecimento-facial/main.py:120-134 | One reported match per target face that compares equal to the reference, as many as there are such faces and in target order, each with match = true and that face's location. |
| `FaceApi.MatchesOfExact` | projeto/backend/reconhecimento-facial/main.py:120-134 | A box is reported iff a target face there matches the reference. |
| `FaceApi.DetectFace` | projeto/backend/reconhecimento-facial/main.py:94-142 | A missing reference face, a target without faces or an unreadable image gives a 500. Otherwise the loop reports `MatchesOf` for the first reference face, and found_matches equals the count. |
| `FaceApi.CompareFaces` | projeto/backend/reconhecimento-facial/main.py:146-174 | Succeeds iff both images have a face. The answer is the comparison of the two first faces; errors are 500. |
| `FaceApi.CompareIgnoresLaterFaces` | projeto/backend/reconhecimento-facial/main.py:168-169 | Faces after the first in the target image never change the answer. |
| `AuthBackend.FindByEmail` | projeto/backend/reconhecimento-facial/auth.py:17-35 | Nothing iff no row has the email; otherwise a row with that email. |
| `AuthBackend.FindByEmailUnique` | projeto/backend/reconhecimento-facial/auth.py:21 | With unique emails, the row found is the one with that email. |
| `AuthBackend.TokenClaims` | projeto/backend/reconhecimento-facial/auth.py:46-53 | `exp` is now + delta for a non-zero delta, and now + 15 minutes for an absent or zero one. Every other claim is unchanged. |
| `AuthBackend.CreateAccessToken` | projeto/backend/reconhecimento-facial/auth.py:46-55 | The token is the encoding of those claims. |
| `AuthBackend.Subject` | projeto/backend/reconhecimento-facial/auth.py:60-63 | A subject exists iff the token decodes and carries a text "sub"; the subject is that text. |
| `AuthBackend.UserStore.constructor` | projeto/backend/reconhecimento-facial/database.py:20-30 | An empty table whose ids start at 1. |
| `AuthBackend.UserStore.GetUser` | projeto/backend/reconhecimento-facial/auth.py:17-35 | Nothing iff no row has the email; otherwise a row with that email. |
| `AuthBackend.UserStore.AuthenticateUser` | projeto/backend/reconhecimento-facial/auth.py:37-44 | None for an unknown email and for a failed password check; otherwise the stored row. |
| `AuthBackend.UserStore.VerifyToken` | projeto/backend/reconhecimento-facial/auth.py:57-66 | None for a rejected token or one without a subject; otherwise the subject's row. |
| `AuthBackend.UserStore.CreateUser` | projeto/backend/reconhecimento-facial/auth.py:68-115 | "Email já cadastrado" iff the email is taken, checked first. "CPF já cadastrado" iff the email is free and the CPF is taken. Otherwise exactly one row is appended with the given fields, a fresh id and the default avatar. Email and CPF stay unique. |
| `AuthBackend.TokenRoundTrip` | projeto/backend/reconhecimento-facial/auth.py:46-66 | For a codec that decodes what it encodes, a token issued for an email verifies back to that email's row. |
| `AuthBackend.ZeroDeltaMeansDefault` | projeto/backend/reconhecimento-facial/auth.py:49-52 | A zero delta behaves as an absent one (15 minutes). |
| `UploadPage.DroppedImagesExact` | projeto/app/photographer/upload/page.tsx:47-48 | A dropped file is kept iff its type starts with "image/", in drop order. |
| `UploadPage.TotalsAppend` | projeto/app/photographer/upload/page.tsx:76-77 | The face and detection totals are additive. |
| `UploadPage.TotalFacesBound` | projeto/app/photographer/upload/page.tsx:76 | Each photo's faces are part of the total. |
| `UploadPage.Upload.constructor` | projeto/app/photographer/upload/page.tsx:18-22 | Not dragging, no files, progress 0, not processing, no results. |
| `UploadPage.Upload.HandleDrag` | projeto/app/photographer/upload/page.tsx:32-40 | dragenter and dragover activate, dragleave deactivates, other events change nothing. |
| `UploadPage.Upload.HandleDrop` | projeto/app/photographer/upload/page.tsx:42-49 | The drag ends, and the dropped images are appended after the existing files. |
| `UploadPage.Upload.HandleFileSelect` | projeto/app/photographer/upload/page.tsx:51-56 | Every selected file is appended unfiltered. |
| `UploadPage.Upload.ProcessUpload` | projeto/app/photographer/upload/page.tsx:58-105 | Nothing for an empty list. A thrown call, which is what the hook as written always produces, leaves progress at 50 and gives the fallback report. A processed reply gives progress 100, facesDetected as the face sum and totalPhotos as the file count. Not processing on both paths. |
| `PhotographerPhotos.FilteredPhotosExact` | projeto/app/photographer/photos/page.tsx:146-151 | Kept iff the lower-cased term occurs in the lower-cased title (only the title is searched), and the status and event filters match or are "all". The result keeps the order. |
| `PhotographerPhotos.NoFilterKeepsAll` | projeto/app/photographer/photos/page.tsx:146-151 | An empty term with both filters "all" keeps every photo. |
| `PhotographerPhotos.ShowsEmptyMessage` | projeto/app/photographer/photos/page.tsx:325 | The empty-state message shows iff no photo passes. |
| `GalleryPage.MockPhotos` | projeto/app/gallery/page.tsx:16-23 | Ids 1, 2, … in order, with the drawn flags. |
| `GalleryPage.CountMatchesFilter` | projeto/app/gallery/page.tsx:25-35 | Each filter's badge count equals the length of the list it shows. |
| `GalleryPage.FilterPhotosExact` | projeto/app/gallery/page.tsx:31-35 | "face" keeps exactly the photos with the user, and "number" exactly the truthy numbers. Any other id keeps everything. Order is kept. |
| `GalleryPage.NumberFilterIsPresence` | projeto/app/gallery/page.tsx:22-33 | For drawn numbers (1..99 or null) the number filter keeps exactly the photos that have a number. |
| `DashboardPage.GetMetrics` | projeto/app/photographer/dashboard/page.tsx:262-280 | 5 events and 1250 photos for "all", 1 event and 250 photos for anything else. |
| `DashboardPage.FilteredSalesExact` | projeto/app/photographer/dashboard/page.tsx:334-336 | For a specific event, a sale is kept iff its event name equals the selection exactly; order is kept. |
| `DashboardPage.ShownRows` | projeto/app/photographer/dashboard/page.tsx:468 | At most 5 rows, a prefix of the filtered sales, and all of them when there are at most 5. |
| `DashboardPage.ShowsNoSales` | projeto/app/photographer/dashboard/page.tsx:524 | The "no sales" message shows iff the filtered list is empty. |
| `DashboardPage.RecentSalesPerEvent` | projeto/app/photographer/dashboard/page.tsx:285-336 | Over the mock sales: the marathon has 3, the 5K has 2, and an unknown event has none. |
| `DashboardPage.DropdownChoicesShowNoSales` | projeto/app/photographer/dashboard/page.tsx:44-51 | Every event id the select offers ("event-1" to "event-5") shows the "no sales" message and no rows over the mock sales, because the filter compares sale event names with the selected id (line 336). |
| `DashboardPage.Dashboard.constructor` | projeto/app/photographer/dashboard/page.tsx:540-541 | Tab "dashboard", selection "all". |
| `DashboardPage.Dashboard.ApplyUrlParam` | projeto/app/photographer/dashboard/page.tsx:545-553 | A present, non-empty `?event=` replaces the selection; otherwise it is kept. |
| `DashboardPage.Dashboard.HandleTabChange` | projeto/app/photographer/dashboard/page.tsx:555-565 | The events, photos and profile tabs route away. Any other tab becomes the active one. |
| `DashboardPage.Dashboard.HandleEventChange` | projeto/app/photographer/dashboard/page.tsx:567-569 | The selection is replaced. |

## Left out

- JavaScript numbers are IEEE doubles. Prices, discounts and confidences here are exact reals, and `toFixed` formatting is display only.
- `Text.ToLower` folds ASCII and Latin-1 letters only, not the rest of Unicode. String lengths count characters, not UTF-16 code units.
- Timers and delays are not modelled: the toast's 3-second auto-hide, the simulated waits before login, registration and payment, and the upload progress animation. `UploadPage.Upload.ProcessUpload` sets the animation's last value, 50, directly.
- Random values are parameters, not drawn:
  - the cart line id (a counter);
  - the mock catalogue from `generateMockPhotos` and `mockEvents` (constructor arguments);
  - the price, likes, views, tags and number in the search mapping (the `draw` argument; likes, views and tags are not part of `Photo`);
  - the gallery list;
  - the generated event and user ids.
- `projeto/lib/face-recognition-service.ts` is not part of this model. Its calls are outcome parameters. The hook it exports has no `findUserPhotos`, so at run time the search always takes the thrown-outcome path of `SearchPage.Search.HandleFindMyPhotos`.
- SearchPage.Search.HandleFindMyPhotos: `isSearching` is true only while the request is in flight. Overlapping searches and their last-resolve-wins race are not modelled, and every operation runs to completion.
- Image decoding, face location and encoding, the face comparison tolerance, bcrypt, JWT signing and expiry checks, SQLAlchemy sessions and the file system are abstract: scans, a comparison function, a password-check function, an encoder and decoder, and a save flag.
- FaceApi.ApiError: the text `str(e)` that follows the prefix is not rendered. The error carries the prefix and the cause.
- FaceApi.SortDesc: the sort is stable, and equal confidences keep store order. That is not stated, only order and permutation.
- Nothing in `main.py` adds processed photos to `photo_results_db`. `FaceApi.FaceDb` starts empty, and the search is proved for any store with distinct keys.
- The `root` endpoint, the server start-up, and the `users_db` mock dictionary of `auth.py` (which its functions never read).
- AuthBackend.TokenClaims: time deltas are whole seconds; microseconds are not modelled.
- AuthService.ErrorMessage: a refusal's `detail` is modelled as optional text. FastAPI's validation errors (422) carry `detail` as a list, which `new Error` turns into "[object Object]"; a non-text detail is not representable here.
- A response body that is not valid JSON in `login`, `register` or `getCurrentUser` is not modelled.
- UploadPage.Upload.ProcessUpload: the hook from `projeto/lib/face-recognition-service.ts` exports no `processEventPhotos` either, so in the code as written the call always throws. The page then always ends on the fallback report with progress at 50; the `Processed` outcome, modelled for the intended service, cannot happen.
- UploadPage.Upload.ProcessUpload: `numbersDetected`, `tagsGenerated` and the fallback `facesDetected` are simulated `Math.floor` figures and are not modelled. `totalDetections` is computed in the source but never stored; it is `UploadPage.TotalDetections`.
- Rendering, styling and UI-only state are not modelled: password visibility, view mode, filter panels, the sidebar and the selects' options. Mock record fields that are only displayed are not modelled either: views, sales, revenue, photo URLs, customers and times.

## Findings

| source | as written | input that shows it | evidently intended | confidence | as-written member | corrected member |
|---|---|---|---|---|---|---|
| projeto/app/checkout/page.tsx:29-47 | The empty-cart guard (29-32) runs before `if (isComplete)` (47), and `handlePayment` clears the cart (44). | A signed-in user with one photo in the cart pays. `isComplete` becomes true and the cart empty, so the next render pushes "/cart". | After payment the completion screen is shown. | high; not executed | `CheckoutPage.RenderAsWritten` (`CheckoutPage.PaymentHidesCompletion`) | `CheckoutPage.Render` (`CheckoutPage.PaymentShowsCompletion`) |
