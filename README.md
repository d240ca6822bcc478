# market-client-v2 dashboard core, modelled in Dafny

This project models the decision rules and UI state changes of the
market-client-v2 admin dashboard, a Next.js front end for a CMS that keeps a
shop and its products. It covers these parts:

- the product list page: server pagination, search, the delete confirmation,
  and the open state of the create/edit modal;
- the product create/edit modal;
- the shop account page;
- the single-slot snackbar;
- the current-user context;
- the application shell;
- the edge route guard;
- the request-interceptor hook;
- image URL prefixing;
- the persistent navigation drawer;
- the three session API routes.

The dashboard never computes much. What it does is decide: which request to
send, which notification to show, and which flags to raise and lower. The
model states those decisions and proves properties about them.

Every network call is an input. The model is told how each request ended:
`Http.Outcome` is `Ok(body)` or `Err(error)`. An axios error carries the
CMS's optional `error.message`. The model never performs I/O. Requests the
code sends are logged in a field such as `requests` or `puts`, or returned
from the method.

Components whose state React updates in place become classes whose methods
write their fields:

- `Snackbar`, `AuthProvider`, `PersistentDrawerLeft`, `ModalCreationProduct`,
  `Home`, `WrapperHome`, `Product`, `WrapperProduct`;
- the axios instance and its interceptor list, the request config, the
  session and the local store.

Pure files become functions and lemmas. On the product page, each handler has
a pure transition over a `PageState` record (`Paginated`, `AfterDelete`, …).
The handler's method is proved equal to that transition, and the lemmas state
what the transitions promise.

JavaScript semantics are written out in module `Js`:

- `""` is falsy (`Truthy`);
- `x || ""` is `OrEmpty`;
- a template literal renders an undefined value as `"undefined"` (`Template`);
- `includes` is a substring test (`Includes`, proved equal to "occurs at some
  index");
- `replace` with a string pattern replaces only the first occurrence
  (`ReplaceFirst`).

Notes on the code:

- The image check tests the file's MIME type for the substrings
  "jpg"/"jpeg"/"png"/"svg". It does not test the extension.
- The product modal's submit sends nothing.
  - It shows the literal message `successUpdateShop`.
  - It never closes itself.
  - It never calls the `onSuccess` callback the product page hands it.
  - Its body's `address` is always empty, because that form has no `address`
    input.
- The product modal's file input sits inside its form, so every pick on it,
  even a refused one, also reaches the form's `onChange` and enables submit.
  The shop page's file input sits outside its form.
- `_app.tsx` makes the profile request even for an empty cookie token.
  `authContext.tsx` has a short-cut for that case.

## Model

| member | source | states |
|---|---|---|
| Js.OrEmpty | src/contexts/snackbarContext.tsx:40 | `x \|\| ""` on an optional string: the value when present, `""` when absent |
| Js.Includes | src/helpers/getImage.ts:4 | `includes` is never true of a longer pattern, and of an equally long one only when the two strings are equal |
| Js.IncludesIff | src/helpers/getImage.ts:4 | `includes` holds exactly when the pattern occurs at some index |
| Js.FirstIndex | src/helpers/getImage.ts:1 | the index returned is an occurrence and no earlier index is one |
| Js.ReplaceFirst | src/helpers/getImage.ts:1 | `replace` lengthens the string by `\|rep\| - \|pat\|` when the pattern occurs and keeps its length otherwise |
| Js.ReplaceFirstAbsent | src/helpers/getImage.ts:1 | `replace` of an absent pattern returns the string unchanged |
| Js.ReplaceFirstSplices | src/helpers/getImage.ts:1 | `replace` cuts out the first occurrence only and puts the replacement there |
| Js.MissingCharExcludes | src/pages/index.tsx:48 | a string lacking one character of the pattern does not include it |
| SnackbarContext.Next | src/contexts/snackbarContext.tsx:35-44 | a hide sets `show` false and keeps message and type; a show replaces the state, with message defaulting to `""` and type to info |
| SnackbarContext.Reported | src/pages/index.tsx:140-148 | a `catch` block shows the CMS message (or `""`) as an error for axios errors and leaves the state alone for anything else |
| SnackbarContext.ReplayAppend | src/contexts/snackbarContext.tsx:35-44 | replaying two runs of calls equals replaying the second run from the state the first run leaves |
| SnackbarContext.LastShowWins | src/contexts/snackbarContext.tsx:40 | single slot: after a show call, the earlier calls and the earlier state have no effect |
| SnackbarContext.HidesCollapse | src/contexts/snackbarContext.tsx:37-38 | any non-empty run of hides leaves the state with show false and nothing else changed |
| SnackbarContext.HideIdempotent | src/contexts/snackbarContext.tsx:37-38 | hiding twice equals hiding once |
| SnackbarContext.Snackbar.constructor | src/contexts/snackbarContext.tsx:26-33 | the slot starts as `{show: false, message: "", type: "info"}` |
| SnackbarContext.Snackbar.SetShowSnackbar | src/contexts/snackbarContext.tsx:35-44 | the slot becomes `Next` of its old value |
| SnackbarContext.Snackbar.Close | src/contexts/snackbarContext.tsx:60-63 | both close handlers hide and keep message and type |
| SnackbarContext.Snackbar.Report | src/pages/index.tsx:140-148 | the slot becomes `Reported` of its old value |
| AuthContext.ProfileRequest | src/contexts/authContext.tsx:60-74 | the profile request is made exactly when the cookie request succeeded with a non-empty token, and it carries "Bearer " + token |
| AuthContext.RefetchedUser | src/contexts/authContext.tsx:60-80 | a failed cookie request, an empty or missing token, or a failed profile request gives the sentinel; otherwise the user is the profile body as received |
| AuthContext.RefetchedIsSentinelOrProfile | src/contexts/authContext.tsx:60-80 | the refreshed user is always the sentinel or the profile body |
| AuthContext.AuthProvider.constructor | src/contexts/authContext.tsx:58 | `detailUser` starts as `initDetailUser` |
| AuthContext.AuthProvider.RefetchDetailUser | src/contexts/authContext.tsx:60-80 | sets `detailUser` to `RefetchedUser` and reports the profile request made, if any |
| App.LayoutFor | src/pages/_app.tsx:17-19 | the layout is the bare box exactly on "/login", the drawer elsewhere |
| App.ProfileRequestOf | src/pages/_app.tsx:74-80 | the server's profile request is made whenever the cookie request succeeded, with "Bearer " + the rendered token |
| App.GetInitialProps | src/pages/_app.tsx:59-103 | all app props are kept; on success the user is the profile with `jwt` replaced by the cookie token; any failure gives the anonymous user |
| App.AnonymousIsSentinel | src/pages/_app.tsx:86-101 | the server's fallback user equals the context's `detailUserEmpty` |
| App.ServerMergesTokenClientDoesNot | src/pages/_app.tsx:84 | for the same responses the server result carries the cookie token while the client refresh keeps the profile body, so they differ |
| App.EmptyTokenStillQueries | src/pages/_app.tsx:74-85 | for every empty or missing token the server still sends "Bearer " / "Bearer undefined" and yields the profile with that token, while the client context sends nothing and yields the sentinel |
| App.WrapperApp | src/pages/_app.tsx:31-43 | the auth provider starts from the user the initial props carry |
| Middleware.CookieName | src/middleware.ts:4 | the cookie name is the configured `COOKIE_NAME`, or `""` when it is unset |
| Middleware.IsAuthenticated | src/middleware.ts:5 | a request counts as signed in exactly when the named cookie is present; even an empty value counts |
| Middleware.Middleware | src/middleware.ts:3-24 | the login page redirects to "/" with the cookie and passes without it; other paths redirect to "/login" without the cookie and pass with it |
| Middleware.Route | src/middleware.ts:26-28 | paths outside the matcher pass; redirects happen only on, and only to, "/" and "/login" |
| Middleware.PresenceOnly | src/middleware.ts:4-5 | the decision depends on whether the configured cookie is present, not on its value |
| Middleware.UnsetNameIsEmptyName | src/middleware.ts:4 | an unset `COOKIE_NAME` routes every request as the empty name does |
| Middleware.NoRedirectLoop | src/middleware.ts:9-28 | with the cookies unchanged, the target of a redirect passes |
| Middleware.SettlesInOneStep | src/middleware.ts:9-28 | every path passes directly or after one redirect |
| UseAxios.AuthorizationFor | src/hooks/useAxios.ts:11-16 | a truthy token gives "Bearer " + token; an empty or missing one gives `undefined` |
| UseAxios.Intercepted | src/hooks/useAxios.ts:13-17 | only `Authorization` is written; every other header keeps its value |
| UseAxios.Intercept | src/hooks/useAxios.ts:10-19 | the interceptor rewrites the config's headers in place and returns that same config |
| UseAxios.Axios.Use | src/hooks/useAxios.ts:9 | registering appends one interceptor and removes none |
| UseAxios.GetAxios | src/hooks/useAxios.ts:8-26 | each call appends one interceptor for the render's token and returns the shared instance |
| ImageUrl.BaseUrl | src/helpers/getImage.ts:1 | `BASE_URL` is the rendered configured URL with its first "/api" removed, or unchanged without one |
| ImageUrl.GetImage | src/helpers/getImage.ts:3-9 | a URL containing "http" is returned as is; any other is prefixed with `BASE_URL` |
| ImageUrl.GetImageEndsWithUrl | src/helpers/getImage.ts:3-9 | the result always ends with the given URL |
| ImageUrl.GetImageOfEmpty | src/helpers/getImage.ts:5-6 | the empty fallback URL yields `BASE_URL` itself |
| ImageUrl.GetImageIdempotent | src/helpers/getImage.ts:4-8 | with an http base URL, prefixing twice equals prefixing once |
| Drawer.LocalStorage.Get | src/_shared/Drawer/index.tsx:35 | reading gives the stored string exactly when the key is present |
| Drawer.LocalStorage.Set | src/_shared/Drawer/index.tsx:40 | writing maps the key to the value and keeps other keys |
| Drawer.StoredOpen | src/_shared/Drawer/index.tsx:35 | the restored flag is true exactly when "openDrawer" is stored and non-empty |
| Drawer.StoredOpenRoundTrip | src/_shared/Drawer/index.tsx:35-47 | the value opening writes reads back as open, the one closing writes as closed |
| Drawer.SettingsClassName | src/_shared/Drawer/index.tsx:108 | the Settings entry is "active" exactly on "/settings", and unclassed elsewhere |
| Drawer.PersistentDrawerLeft.constructor | src/_shared/Drawer/index.tsx:32 | the drawer is open before the mount effect runs |
| Drawer.PersistentDrawerLeft.Mount | src/_shared/Drawer/index.tsx:34-37 | mounting sets the flag from the store |
| Drawer.PersistentDrawerLeft.HandleDrawerOpen | src/_shared/Drawer/index.tsx:39-42 | opening writes "true" and leaves the flag true and in step with the store, with the menu button hidden |
| Drawer.PersistentDrawerLeft.HandleDrawerClose | src/_shared/Drawer/index.tsx:44-47 | closing writes "" and leaves the flag false and in step with the store, with the menu button shown |
| Drawer.PersistentDrawerLeft.MenuButtonHidden | src/_shared/Drawer/index.tsx:58 | the menu button is hidden exactly while the drawer is open |
| Drawer.RemountRestores | src/_shared/Drawer/index.tsx:34-47 | open or close, then remount on the same store, restores that choice |
| SessionRelay.Session.FromCookie | src/helpers/withSession.ts:1-16 | a request's session is the cookie's record, or empty without a cookie |
| SessionRelay.Session.Save | src/pages/api/set-jwt-cookie.ts:14 | a completed save writes the session into the cookie; a failed one leaves the cookie |
| SessionRelay.Session.Destroy | src/pages/api/logout.ts:6 | a completed destroy empties the session and drops the cookie |
| SessionRelay.GetJwtCookie | src/pages/api/get-jwt-cookie.ts:10-23 | 200 with `success: true` and the session's jwt and userId passed through as they are (absent stays absent), the session untouched; 500 with the fixed message on an exception |
| SessionRelay.SetJwtCookie | src/pages/api/set-jwt-cookie.ts:10-22 | stores the body's jwt, keeps userId, saves; 200 "Login berhasil" on success, 500 with the fixed message when `req.body` is null or undefined (reading `.jwt` throws) or saving fails; a parsed body without `jwt` stores no jwt and answers 200 |
| SessionRelay.LogoutAccount | src/pages/api/logout.ts:5-15 | destroys the session; 200 "Logout berhasil" on success and 200 with `success: false` and the fixed message on failure |
| SessionRelay.SetThenGet | src/pages/api/set-jwt-cookie.ts:13 | set with X, then get on the next request: jwt X and the earlier userId |
| SessionRelay.LogoutThenGet | src/pages/api/logout.ts:6 | logout, then get on the next request: success with neither jwt nor userId |
| SessionRelay.GetWithoutSession | src/pages/api/get-jwt-cookie.ts:12-16 | a request without a session still gets `success: true`, with no jwt |
| ImageUpload.ValidateFormat | src/components/product/components/ModalCreation/index.tsx:84-94 | the loop's flag is true exactly when the MIME type contains one of "jpg", "jpeg", "png", "svg" (the same rule as src/pages/index.tsx:42-54) |
| ImageUpload.AllowedBy | src/pages/index.tsx:42-54 | a MIME type passes an allow-list exactly when some member of the list is a substring of it |
| ImageUpload.IsAllowedFormat | src/pages/index.tsx:42-54 | a MIME type passes exactly when it contains "jpg", "jpeg", "png" or "svg" |
| ImageUpload.AllowedOrderFree | src/pages/index.tsx:42-54 | the verdict does not depend on the order of the allow-list |
| ImageUpload.GifRejected | src/pages/index.tsx:42-54 | "image/gif" is refused |
| ImageUpload.AcceptedAt | src/pages/index.tsx:42-54 | a MIME type holding an allow-list entry at some index passes |
| ImageUpload.CommonImagesAccepted | src/pages/index.tsx:42-54 | "image/png", "image/jpeg" and "image/svg+xml" pass |
| ImageUpload.UploadDecision | src/components/product/components/ModalCreation/index.tsx:169-189 | an empty pick is ignored; a refused type is rejected exactly while the input ref exists; everything else is accepted |
| ImageUpload.BuildRequestForm | src/pages/index.tsx:122-131 | the body has a photo part exactly when a file was chosen (the first one), and `data` is name and address with `""` for missing entries |
| ModalCreation.FormGet | src/components/product/components/ModalCreation/index.tsx:133 | the form has an entry exactly for its six named inputs, and none for "address" |
| ModalCreation.TitleText | src/components/product/components/ModalCreation/index.tsx:125-126 | "Edit Barang" when a row was passed, "Tambah Barang" otherwise |
| ModalCreation.SubmitBodyShape | src/components/product/components/ModalCreation/index.tsx:136-144 | the submitted `data` is the typed name with an empty address, and the photo part is there exactly when a file was chosen |
| ModalCreation.ModalCreationProduct.constructor | src/components/product/components/ModalCreation/index.tsx:120-123 | the modal starts clean: not dirty, no file, no preview |
| ModalCreation.ModalCreationProduct.SubmitDisabled | src/components/product/components/ModalCreation/index.tsx:312 | submit is disabled exactly while the form is not dirty |
| ModalCreation.ModalCreationProduct.FormChange | src/components/product/components/ModalCreation/index.tsx:204 | any form change marks it dirty |
| ModalCreation.ModalCreationProduct.HandleChangeUpload | src/components/product/components/ModalCreation/index.tsx:169-190 | the input's own handler: an empty pick changes nothing; a rejected file clears the input and shows the format error, keeping file, image and dirty flag; an accepted file is stored, the preview set if it was read, and the form dirty even if reading failed |
| ModalCreation.ModalCreationProduct.UploadInputChange | src/components/product/components/ModalCreation/index.tsx:200-237 | a change event on the file input runs the handler and then the enclosing form's `onChange` (line 204): every pick, empty or refused included, leaves the form dirty, with the handler's effect on input, file, image and snackbar |
| ModalCreation.RefusedPickEnablesSubmit | src/components/product/components/ModalCreation/index.tsx:200-237 | in a fresh modal, picking "image/gif" clears the input and still enables "Simpan" (line 312) |
| ModalCreation.ModalCreationProduct.HandleSubmit | src/components/product/components/ModalCreation/index.tsx:130-167 | builds the body from the stored file and the form, sends nothing, shows the success snackbar and clears the dirty flag |
| ModalCreation.UntouchedFormCannotSubmit | src/components/product/components/ModalCreation/index.tsx:120 | a freshly opened modal has submit disabled until a change event reaches the form |
| HomePage.ShopFormGet | src/pages/index.tsx:128-129 | the shop form has exactly the "name" and "address" entries |
| HomePage.AvatarSrc | src/pages/index.tsx:179 | the avatar shows the preview if non-empty, else the stored URL through `getImage` |
| HomePage.AvatarShowsStoredPhoto | src/pages/index.tsx:179 | without a preview the avatar source ends with the stored photo URL |
| HomePage.Home.constructor | src/pages/index.tsx:80-85 | the shop page starts idle and clean: no upload or save in progress, not dirty, no file, no preview, no request sent |
| HomePage.Home.SaveDisabled | src/pages/index.tsx:235 | Save is disabled exactly while the shop is saving or the form is not dirty |
| HomePage.Home.UploadDisabled | src/pages/index.tsx:192 | the upload input is disabled exactly while the photo loading flag is up |
| HomePage.Home.FormChange | src/pages/index.tsx:207 | any form change marks it dirty and changes nothing else |
| HomePage.Home.HandleChange | src/pages/index.tsx:92-115 | as written: the photo loading flag ends up exactly when the pick was not accepted; otherwise as in the modal |
| HomePage.Home.HandleChangeFixed | src/pages/index.tsx:92-115 | the same handler with the flag lowered on every path: it always ends down |
| HomePage.Home.HandleSubmit | src/pages/index.tsx:117-152 | sends one PUT for the shop id with the body built from the file and form, registers one interceptor; success shows "Shop account updated successfully" and clears the dirty flag; an error is reported and keeps it; saving ends false either way, so Save ends disabled after a success and enabled after an error exactly when the form was dirty |
| HomePage.RefusedPickLocksUpload | src/pages/index.tsx:93-105 | after a refused GIF, or a cancelled pick, the upload input is disabled |
| HomePage.RefusedPickKeepsUploadFixed | src/pages/index.tsx:93-105 | with the corrected handler the same picks leave the input enabled |
| HomePage.SelectShop | src/pages/index.tsx:337 | the first listed shop, or `defaultShop` when the list is missing or empty |
| HomePage.ShopRequest | src/pages/index.tsx:307-335 | the shops query is sent exactly when the cookie request succeeded, with its userId and "Bearer " + the rendered token |
| HomePage.ShopShown | src/pages/index.tsx:304-346 | any failed request gives `defaultShop`; otherwise the shop selected from the response |
| HomePage.ShopShownIsListedOrDefault | src/pages/index.tsx:337-342 | the shown shop is `defaultShop` or one of the listed shops |
| HomePage.WrapperHome.constructor | src/pages/index.tsx:301-302 | the wrapper starts loading with no shop |
| HomePage.WrapperHome.Page | src/pages/index.tsx:350-354 | the page renders a shop exactly when loading has finished and a shop is stored |
| HomePage.WrapperHome.HandleShopDetail | src/pages/index.tsx:303-348 | the effect stores `ShopShown` and ends loading |
| HomePage.MountedPageShowsShop | src/pages/index.tsx:300-355 | after mounting the page always renders the shop `ShopShown` chooses |
| ProductPage.GridModel | src/pages/product.tsx:336-339 | the grid's 0-based model maps back through a grid change to the current 1-based page and size with no filter |
| ProductPage.FromGrid | src/pages/product.tsx:340-342 | a grid change asks for page `e.page + 1` of the same size with no search text, which the query filters on `""` |
| ProductPage.ModelOf | src/pages/product.tsx:227 | a refetch of the current pagination asks for the same page and size filtered on `""` (also line 400) |
| ProductPage.SearchModel | src/pages/product.tsx:295-298 | a search asks for the current page and size filtered on the typed text (also lines 305-308) |
| ProductPage.DeletedMessage | src/pages/product.tsx:223 | the success message names the deleted row |
| ProductPage.QueryOf | src/pages/product.tsx:179-198 | every `handlePagination` query carries a `uniqueName` filter |
| ProductPage.GridRoundTrip | src/pages/product.tsx:336-342 | API page to grid index and back through a grid change is the identity, with the empty filter |
| ProductPage.GridShowsChosenPage | src/pages/product.tsx:336-342 | a grid change answered with the page asked for puts the grid on the chosen index |
| ProductPage.OnlySearchCarriesText | src/pages/product.tsx:186 | grid and refresh fetches filter on `""`; the search triggers filter on the typed text |
| ProductPage.Initial | src/pages/product.tsx:160-172 | the page starts on the wrapper's rows and pagination, idle, with no search, the modal closed and the dialog at its default |
| ProductPage.PaginationStarted | src/pages/product.tsx:199-204 | before the response `loadingPaginate` is raised and the query is logged; nothing else changes |
| ProductPage.PaginationFinished | src/pages/product.tsx:205-209 | loading ends false; on success rows and pagination come from the response, on failure both are kept; nothing else changes |
| ProductPage.Paginated | src/pages/product.tsx:174-210 | one request; loading ends false; on success rows and pagination come from the response, on failure both are kept; nothing else changes |
| ProductPage.DialogClosed | src/pages/product.tsx:241 | closing the dialog hides it and keeps its message and action; nothing else changes (also lines 357-359 and 385) |
| ProductPage.DeleteRequested | src/pages/product.tsx:245-261 | asking to delete a row shows the dialog with that row's name and arms it with that row's id; nothing else changes |
| ProductPage.AfterDelete | src/pages/product.tsx:212-243 | every delete ends with `loadingDelete` false and the dialog hidden, with its message and action kept; the delete request goes out first; search and modal state are untouched |
| ProductPage.DeleteSnackbar | src/pages/product.tsx:219-238 | a successful delete always leaves a message showing; a failed delete that is not an axios error leaves the snackbar alone |
| ProductPage.DeleteAxiosCalls | src/pages/product.tsx:212-243 | the number of `getAxios()` calls (line 215, and line 201 through the refetch) equals the number of requests the delete sends |
| ProductPage.DeleteRefetchesOnce | src/pages/product.tsx:219-227 | a successful delete is followed by exactly one refetch of the current page with the empty filter |
| ProductPage.DeleteErrorNoRefetch | src/pages/product.tsx:228-238 | a failed delete sends no refetch and keeps rows and pagination |
| ProductPage.DeleteSnackbarCases | src/pages/product.tsx:219-238 | success names the deleted row (or `""`); a failed refetch's axios error is shown over it, any other refetch failure leaves the success message; a failed delete is reported |
| ProductPage.ConfirmDeletesThatRow | src/pages/product.tsx:245-261 | asking to delete a row shows the dialog armed with that id, and confirming deletes exactly that id |
| ProductPage.Product.constructor | src/pages/product.tsx:157-172 | the page state starts as `Initial` of the wrapper's data |
| ProductPage.Product.StartPagination | src/pages/product.tsx:199-203 | before its request `handlePagination` raises `loadingPaginate`, logs the query and registers one interceptor |
| ProductPage.Product.FinishPagination | src/pages/product.tsx:205-209 | the settled request updates rows and pagination on success and lowers the loading flag |
| ProductPage.Product.HandlePagination | src/pages/product.tsx:174-210 | the state becomes `Paginated`, and a failed request is passed on to the caller |
| ProductPage.Product.ConfirmedDelete | src/pages/product.tsx:212-243 | the state becomes `AfterDelete` and the snackbar `DeleteSnackbar`; one `RequestInterceptor(jwt)` is added per `getAxios()` call and none removed |
| ProductPage.Product.HandleDelete | src/pages/product.tsx:245-261 | opens the dialog for that row |
| ProductPage.Product.PressConfirm | src/pages/product.tsx:375-381 | the confirm button runs the armed delete, with its interceptors, or nothing while the action is the default |
| ProductPage.Product.CancelDelete | src/pages/product.tsx:357-359 | closing or cancelling the dialog hides it and keeps its content |
| ProductPage.Product.HandleEdit | src/pages/product.tsx:263-266 | opens the modal on that row |
| ProductPage.Product.OpenCreate | src/pages/product.tsx:319-322 | opens the modal with no row |
| ProductPage.Product.CloseCreation | src/components/product/components/ModalCreation/index.tsx:195 | the modal's close sets `openCreation` false |
| ProductPage.Product.OnCreationSuccess | src/pages/product.tsx:400 | the refresh callback refetches the current page with the empty filter and adds one interceptor |
| ProductPage.Product.HandleSearch | src/pages/product.tsx:268-272 | stores the typed text, `""` for none |
| ProductPage.Product.SearchKeyDown | src/pages/product.tsx:291-300 | Enter fetches the current page filtered on the current search and adds one interceptor; other keys change nothing |
| ProductPage.Product.SearchIconClick | src/pages/product.tsx:303-309 | the icon fetches the current page filtered on the current search and adds one interceptor |
| ProductPage.Product.OnPaginationModelChange | src/pages/product.tsx:340-344 | a change with a reason fetches page `e.page + 1` with the empty filter and adds one interceptor; one without a reason changes nothing |
| ProductPage.Product.Grid | src/pages/product.tsx:336-339 | the grid's model maps back through a grid change to the current page and size |
| ProductPage.InitialRequestOf | src/pages/product.tsx:476-508 | the first products request goes out exactly when the cookie request succeeded: page 1 of 20, no filter, "Bearer " + the rendered token |
| ProductPage.LoadedProducts | src/pages/product.tsx:501-518 | success gives the response body; any failure gives empty rows with pagination {1, 20, 1, 1} |
| ProductPage.FallbackStartsOnFirstPage | src/pages/product.tsx:512-518 | after a failed load the page starts empty on grid index 0 of size 20, and a refresh asks for page 1 |
| ProductPage.WrapperProduct.constructor | src/pages/product.tsx:470-471 | the wrapper starts loading with no products |
| ProductPage.WrapperProduct.Page | src/pages/product.tsx:526-530 | the page renders exactly when loading has finished and data is stored |
| ProductPage.WrapperProduct.HandleShopDetail | src/pages/product.tsx:472-524 | the effect sends the initial request, stores `LoadedProducts` and ends loading |
| ProductPage.MountedPageShowsProducts | src/pages/product.tsx:469-531 | after mounting the page always renders the loaded data or the fallback |

## Left out

- HTTP transport: a request's result is a parameter of the method that sends it. The CMS endpoints, URLs and the `qs` query string are not built. A query is the record `ProductQuery`, `ShopQuery` or `InitialRequest`, and a shop update is `ShopPut(shopId, body)`.
- `FileReader`: how reading the picked file ended is a parameter (`read`).
- `FormData` and `JSON.stringify`: the multipart body is the record `RequestForm`.
- Rendering, MUI styling, the theme and the static column definitions are not modelled. The image column's `getImage(url || "")` is covered only by `ImageUrl.GetImageOfEmpty`.
- Locale number formatting is not modelled.
- Overlapping requests and stale closures are not modelled. Each handler runs to completion before the next event. A closure reads the current state, for example the `pagination` a dialog's `onConfirm` refetches.
- The order in which axios runs the accumulated interceptors is not modelled, and so neither is which one's token ends up in `Authorization`. The model records the list and states what one interceptor does.
- The snackbar's three-second auto-hide timer is not modelled. Its effect is the `Close` handler.
- iron-session: sealing, cookie format, and the config in src/helpers/withSession.ts are not modelled. A session is a plain record carried by an optional cookie. Whether `save()`/`destroy()` completes, and whether get-jwt-cookie throws, are parameters.
- The unseen `getLocalStorage`/`setLocalStorage` helpers are a plain string map.
- The intermediate `isLoading = true` of both page wrappers is not modelled. Those steps are not observable between events; only the state they end in is stated.
- A success response whose body lacks `data` or `meta.pagination` is not modelled. The optional chaining would then store `undefined`. The body is taken to be well formed.
- src/pages/settings.tsx, src/pages/login.tsx and the commented-out `getServerSideProps` blocks are not part of this model.
- ProductPage.Product.OnCreationSuccess: the modal never invokes the callback, so this models what it would do when called.
- The `console.log` of the `price` entry in the modal's submit is left out: it writes to the console only.
- The modal's `catch` branch is not modelled, because nothing in its `try` can throw once the request is commented out.

## Findings

| source | as written | input that shows it | evidently intended | confidence | as-written member | corrected member |
|---|---|---|---|---|---|---|
| src/pages/index.tsx:93-105 | `handleChange` sets `loadingUpdatePhoto` to true first and lowers it only in the `finally` of the accepted path. Both early returns leave it true, and it disables the file input (src/pages/index.tsx:192). | Pick "anim.gif" (type "image/gif") while the input is mounted, or open the picker and cancel it. Afterwards the "Change Photo" input stays disabled until the page is reloaded. | The flag is lowered on every path, so the user can pick another file after a refused or cancelled one. | not executed | HomePage.RefusedPickLocksUpload | HomePage.Home.HandleChangeFixed |
