# POS front end: session, request headers, formatters and screen handlers

This project models the decision and state-transition logic of `frontend-pos`,
the React point-of-sale front end, and proves properties of that model.

- **Session store** (`context/AuthContext.jsx`). The provider holds `loggedIn`,
  `user` and `checking`, plus three `localStorage` keys (`access_token`,
  `refresh_token`, `user`). It has `checkSession`, `login` and `logout`.
- **Shared HTTP client** (`lib/axios.js`). A fixed base URL and JSON content
  type, plus a request interceptor. The interceptor adds
  `Authorization: Bearer <token>` only when a truthy token is stored. That is
  the bearer form of section 2.1 of RFC 6750.
- **Formatters** (`utils/formatters.js`). The `Bs.` price format, and the
  stock label and colour. Both stock functions sort stock into the same four
  bands.
- **Screens.** The sidebar's accordion and collapse, the product, category
  and user lists with their delete flows, the product detail with its
  reduce-stock guard, the two create/edit forms, and the landing page. Each
  screen is a class: its `useState` variables become fields, and its handlers
  become methods. A method's `ensures` gives the whole new state on every
  path.

## How JavaScript is modelled

JavaScript values are one datatype, `JsValues.Value`. An object is a list of
entries in the order its properties were created. Everything that lists an
object's properties (`Object.entries`, spread, `JSON.stringify`) goes through
`JsValues.OwnEntries`. That follows the `OrdinaryOwnPropertyKeys` order of
ECMA-262: array-index keys (such as "2") come first in ascending order, then
the other keys in creation order. The following are written out explicitly:

- truthiness;
- `||`;
- optional chaining;
- `String(v)`;
- `Number(s)`, `parseInt` and `parseFloat` (module `JsNumbers`);
- two-digit `toFixed`;
- object spread and computed-key update;
- property reads that throw `TypeError` on `null` or `undefined`.

Browser storage is a class holding a `map`. A value stored by
`JSON.stringify` is kept as the value it prints (`Item.Serialized`).
`JSON.parse` of that text gives back the value with its `undefined` fields
dropped (module `Json`).

Each network call is a `Reply` parameter: a success with the response body,
or a failure with an `HttpError`. Each handler returns the requests it sent,
in order. Every request built through the shared client carries the
`Authorization` value the interceptor computes from storage at that moment
(`Axios.ApiRequest`). `ProductList.jsx` uses the bare `axios` import, so its
requests carry none (`Axios.PlainRequest`). Navigation is not performed; it
is returned as a value. `setTimeout(() => navigate(p), d)` becomes
`Forms.Navigation(p, d)`.

## Model

| member | source | states |
|---|---|---|
| Formatters.FormatPrice | frontend-pos/src/utils/formatters.js:3-9 | every result starts with "Bs. "; the result is "Bs. ---" exactly when the parsed price is NaN; a TypeError exactly when the price is neither NaN nor a number (toFixed on a non-number); otherwise "Bs. " followed by the two-decimal text |
| Formatters.ToFixed2NotDashes | frontend-pos/src/utils/formatters.js:6-8 | no number's two-decimal text is "---", so the NaN branch is told apart from every real price |
| Formatters.StockStatusText | frontend-pos/src/utils/formatters.js:11-16 | the label is the label of the stock's band, and "Stock N/A" exactly when the stock is null, undefined or converts to NaN |
| Formatters.GetStockColor | frontend-pos/src/utils/formatters.js:18-23 | the colour is the colour of the same band, and grey exactly on null, undefined or NaN stock |
| Formatters.Band | frontend-pos/src/utils/formatters.js:11-23 | not available iff the stock is null, undefined or converts to NaN; in stock iff it is present and converts to more than 20; low iff it converts to more than 0 but not more than 20 (and out of stock otherwise) |
| Formatters.Label | frontend-pos/src/utils/formatters.js:11-16 | "Stock N/A" is the label of the not-available band and of no other |
| Formatters.Color | frontend-pos/src/utils/formatters.js:18-23 | the grey colour belongs to the not-available band and to no other |
| Formatters.LabelAgreesWithColor | frontend-pos/src/utils/formatters.js:11-23 | two stocks get the same label iff they get the same colour iff they lie in the same band |
| Formatters.LabelInjective | frontend-pos/src/utils/formatters.js:12-15 | the four status labels are pairwise different: two bands have the same label iff they are the same band |
| Formatters.ColorInjective | frontend-pos/src/utils/formatters.js:19-22 | the four colour classes are pairwise different: two bands have the same colour iff they are the same band |
| Formatters.ColorOfLabel | frontend-pos/src/utils/formatters.js:11-23 | grey iff "Stock N/A", green iff "En Stock", yellow iff "Stock Bajo", red iff "Agotado", for every input |
| Formatters.StockThresholds | frontend-pos/src/utils/formatters.js:13-15 | above 20 is "En Stock", 0 < x <= 20 is "Stock Bajo" (20 itself included, 21 is "En Stock"), 0 and below is "Agotado" |
| Formatters.StockMonotone | frontend-pos/src/utils/formatters.js:13-15 | raising a numeric stock, infinities included, never moves it to a lower band |
| Formatters.StockTextIsNumber | frontend-pos/src/utils/formatters.js:12-15 | a stock given as text is classified as the number `Number(text)` |
| Axios.FullUrlOfPath | frontend-pos/src/lib/axios.js:4-5 | a request path "/p" goes to the base URL followed by "p" |
| Axios.ContentTypeAlwaysJson | frontend-pos/src/lib/axios.js:6-8 | after the interceptor the default headers still hold `Content-Type: application/json` |
| Axios.TokenOf | frontend-pos/src/lib/axios.js:13-14 | a token is used iff the stored `access_token` is truthy (an empty string counts as absent) and then it is that stored text |
| Axios.BearerCredentials | frontend-pos/src/lib/axios.js:15 | the header value is "Bearer " followed by exactly the token |
| Axios.ParseBearer | frontend-pos/src/lib/axios.js:15 | a token read off a header value rebuilds that header value |
| Axios.ParseBearerRoundTrip | frontend-pos/src/lib/axios.js:15 | reading the token off "Bearer " + token gives the token back |
| Axios.BearerConforms | frontend-pos/src/lib/axios.js:15 | the header has the RFC 6750 section 2.1 `b64token` form iff the stored token is a `b64token` |
| Axios.AuthorizationFor | frontend-pos/src/lib/axios.js:13-15 | a request carries an Authorization value iff a token is stored, and that value carries exactly the stored token |
| Axios.Intercepted | frontend-pos/src/lib/axios.js:12-18 | Authorization is present iff it already was or a token is stored; with a token it is "Bearer " + token; with none the headers are unchanged (an existing Authorization is kept); no other header is added, removed or changed |
| Axios.Intercept | frontend-pos/src/lib/axios.js:12-18 | the interceptor returns the same config object, rewrites only its headers (to `Intercepted`) and leaves method, URL and body alone |
| Axios.Prepare | frontend-pos/src/lib/axios.js:4-18 | a request through the client gets the base URL, the JSON default headers and the interceptor's Authorization |
| Axios.ApiRequest | frontend-pos/src/lib/axios.js:12-18 | the recorded request's Authorization is the one the stored token gives |
| Axios.PlainRequest | frontend-pos/src/pages/productos/ProductList.jsx:64 | a request through the bare axios import carries no Authorization |
| Axios.ErrorData | frontend-pos/src/pages/categorias/CategoryManage.jsx:54 | an error without a response has no body (`err.response?.data` is undefined) |
| BrowserStorage.LocalStorage.constructor | frontend-pos/src/context/AuthContext.jsx:8-10 | storage starts with the given contents |
| BrowserStorage.LocalStorage.SetItem | frontend-pos/src/context/AuthContext.jsx:51-53 | `setItem` stores the item under the key and changes no other key |
| BrowserStorage.LocalStorage.RemoveItem | frontend-pos/src/context/AuthContext.jsx:65-67 | `removeItem` deletes only that key |
| BrowserStorage.GetItemValue | frontend-pos/src/context/AuthContext.jsx:9 | `getItem` is null iff the key is absent, and otherwise the stored string |
| BrowserStorage.StoredString | frontend-pos/src/context/AuthContext.jsx:51-52 | `setItem(k, v)` stores the text `String(v)` |
| BrowserStorage.StoredJson | frontend-pos/src/context/AuthContext.jsx:53 | `setItem(k, JSON.stringify(v))` stores the JSON text of v, or "undefined" for undefined |
| BrowserStorage.ParseItem | frontend-pos/src/context/AuthContext.jsx:10 | `JSON.parse` of a stored JSON text gives the normalised value; of "undefined" a SyntaxError |
| BrowserStorage.ParseStoredJson | frontend-pos/src/context/AuthContext.jsx:10 | storing with `JSON.stringify` and parsing back returns the value without its undefined fields; JSON data returns unchanged; undefined fails with SyntaxError |
| BrowserStorage.StoredTruthy | frontend-pos/src/context/AuthContext.jsx:9-10 | a stored key reads as truthy iff its text is non-empty; a stored JSON text is always truthy |
| Json.Normalize | frontend-pos/src/context/AuthContext.jsx:53 | only `undefined` itself fails to serialise |
| Json.Stringify | frontend-pos/src/context/AuthContext.jsx:53 | `JSON.stringify` gives no text exactly for undefined, and otherwise a non-empty text |
| Json.NormalizeJson | frontend-pos/src/context/AuthContext.jsx:53 | a value that is already JSON data survives the stringify/parse round trip unchanged |
| Json.NormalizeIsJson | frontend-pos/src/context/AuthContext.jsx:53 | what comes back from the round trip is JSON data |
| Json.NormalizeIdempotent | frontend-pos/src/context/AuthContext.jsx:53 | a second save-and-reload of the user record changes nothing further |
| AuthContext.InitialUser | frontend-pos/src/context/AuthContext.jsx:8-11 | the initial user is null when no `user` key is stored, the parsed record when one is, and a SyntaxError when the stored text is "undefined" |
| AuthContext.AuthProvider.constructor | frontend-pos/src/context/AuthContext.jsx:7-12 | the provider starts logged out and checking, with the given user |
| AuthContext.AuthProvider.Mount | frontend-pos/src/context/AuthContext.jsx:7-12 | mounting fails iff reading the stored user throws; otherwise the state is logged out, checking, with the user from storage |
| AuthContext.CheckOutcome | frontend-pos/src/context/AuthContext.jsx:15-41 | no token is seen iff no truthy `access_token` is stored; authenticated iff a token is stored, the session request succeeds with a body and `authenticated` is truthy, and then the user is built from the response |
| AuthContext.SessionUser | frontend-pos/src/context/AuthContext.jsx:25-29 | the session user is an object whose first two properties, in creation order, are `username` and `id` |
| AuthContext.SpreadKeys | frontend-pos/src/context/AuthContext.jsx:25-29 | spreading into a literal keeps the literal's own properties first in creation order, in their places |
| AuthContext.SessionUserOrder | frontend-pos/src/context/AuthContext.jsx:25-29 | when the response has no array-index keys, `username` and `id` are also the first two properties the user lists |
| AuthContext.SessionUserProperties | frontend-pos/src/context/AuthContext.jsx:25-29 | every property reads as in the response (the spread overwrites username and id with the same values), and the user has exactly the response's properties plus `username` and `id` |
| AuthContext.AuthProvider.CheckSession | frontend-pos/src/context/AuthContext.jsx:15-41 | with no token: no request, storage untouched, logged out; when authenticated: one request, storage untouched, logged in with the response's user; when rejected or failed: the session request and a logout, the three keys cleared, user null, logged out; `checking` ends false on every path |
| AuthContext.LoginFields | frontend-pos/src/context/AuthContext.jsx:50 | destructuring the response throws iff the body is null or undefined, and otherwise reads `access`, `refresh` and `user` |
| AuthContext.LoggedInStorage | frontend-pos/src/context/AuthContext.jsx:51-53 | login writes exactly the three session keys (the tokens as text, the user as JSON), keeping every other key |
| AuthContext.AuthProvider.Login | frontend-pos/src/context/AuthContext.jsx:48-56 | a failed request or an unreadable body rejects with no key written and no state changed; a success writes the three keys and sets user and loggedIn |
| AuthContext.Cleared | frontend-pos/src/context/AuthContext.jsx:65-67 | logout leaves exactly the keys other than the three session keys, each with its old value |
| AuthContext.RemovedOneByOne | frontend-pos/src/context/AuthContext.jsx:65-67 | the three `removeItem` calls, in order, leave the same storage as removing the session keys at once |
| AuthContext.AuthProvider.Logout | frontend-pos/src/context/AuthContext.jsx:59-70 | the logout request is sent with the old token; storage is cleared and user/loggedIn reset whether the request succeeds or fails |
| AuthContext.LogoutRevokesHeader | frontend-pos/src/context/AuthContext.jsx:65-67 | after logout no token is read, so no later request carries an Authorization header, a reload has no user, and the next session check makes no request |
| AuthContext.LoginThenLogout | frontend-pos/src/context/AuthContext.jsx:51-67 | a logout after a login leaves exactly the storage a logout before it would have left: every key a login writes is one a logout removes |
| AuthContext.LoginSetsHeader | frontend-pos/src/context/AuthContext.jsx:51 | after login requests carry "Bearer " + the access token's text, unless that text is empty |
| AuthContext.LoginThenReload | frontend-pos/src/context/AuthContext.jsx:8-11 | a reload after login restores the user record as JSON keeps it; a login response without `user` stores "undefined", on which the reload throws |
| Layout.Tokens | frontend-pos/src/components/layout/Sidebar.jsx:48-57 | the class names of a class string are non-empty words without spaces |
| Layout.TokensConcat | frontend-pos/src/components/layout/Sidebar.jsx:53-57 | the names of two class strings joined by a space are those of the first then those of the second |
| Layout.TokensOfJoin | frontend-pos/src/components/layout/Sidebar.jsx:48-51 | a class constant written as space-separated names reads back as exactly those names |
| Layout.TokensOfTemplate | frontend-pos/src/components/layout/Sidebar.jsx:56-57 | a template of two space-joined parts has the names of both, in order |
| Layout.TokensOfTemplate2 | frontend-pos/src/components/layout/Sidebar.jsx:53-54 | a template of three space-joined parts has the names of all three, in order |
| Layout.GetNavLinkClass | frontend-pos/src/components/layout/Sidebar.jsx:53-54 | the link's class names are the base names, then `justify-center` only when collapsed, then the active names only when active (an inactive link adds nothing) |
| Layout.GetSubNavLinkClass | frontend-pos/src/components/layout/Sidebar.jsx:56-57 | the sub-link's class names are the base names, then the active names only when active |
| Layout.NavLinkClassTokens | frontend-pos/src/components/layout/Sidebar.jsx:53-54 | every active class name appears iff the link is active, and `justify-center` appears iff the sidebar is collapsed |
| Layout.SubNavLinkClassTokens | frontend-pos/src/components/layout/Sidebar.jsx:56-57 | every active sub-link class name appears iff the sub-link is active |
| Layout.Menu | frontend-pos/src/components/layout/Sidebar.jsx:60-100 | a menu's sub-items are, in order, its links at "/" + key + "/" + path |
| Layout.MenuItems | frontend-pos/src/components/layout/Sidebar.jsx:60-100 | the menu keys are distinct and every sub-item path starts with "/" + its menu key + "/" |
| Layout.NextOpenMenu | frontend-pos/src/components/layout/Sidebar.jsx:23-27 | collapsed: the open menu is unchanged; expanded: it closes iff it was the clicked key, and otherwise the clicked key opens (one menu at most) |
| Layout.ToggleTwice | frontend-pos/src/components/layout/Sidebar.jsx:25 | toggling the same key twice from all-closed returns to all-closed |
| Layout.OpeningReplaces | frontend-pos/src/components/layout/Sidebar.jsx:25 | opening another menu closes the one that was open |
| Layout.Sidebar.constructor | frontend-pos/src/components/layout/Sidebar.jsx:19 | no menu is open at first |
| Layout.Sidebar.HandleToggleMenu | frontend-pos/src/components/layout/Sidebar.jsx:23-27 | the open menu becomes the next open menu of the click |
| Layout.Sidebar.ToggleCollapse | frontend-pos/src/components/layout/Sidebar.jsx:29-32 | the parent is told the negated collapse flag, and every submenu closes |
| Layout.Sidebar.HandleLogout | frontend-pos/src/components/layout/Sidebar.jsx:34-37 | the logout completes (request sent, storage cleared, logged out) before the navigation to "/login" |
| ListResponses.NormalizeList | frontend-pos/src/pages/categorias/CategoryList.jsx:35 | an array is used as it is; a null or undefined body throws on `.results`; otherwise `results` when truthy, else [] |
| ListResponses.NormalizePage | frontend-pos/src/pages/Home.jsx:35 | a paginated object gives its `results`, and an object without `results` gives [] |
| ListResponses.NormalizeListArray | frontend-pos/src/pages/Home.jsx:35 | for a present body, the normalised list is an array iff the body is an array, its `results` is an array, or its `results` is falsy |
| ProductListPage.FetchResult | frontend-pos/src/pages/productos/ProductList.jsx:60-79 | the error is empty iff the request succeeds with an array; then the products are that array; otherwise the products are empty |
| ProductListPage.ProductList.constructor | frontend-pos/src/pages/productos/ProductList.jsx:50-54 | the list starts empty, loading, with no error, dialog or target |
| ProductListPage.ProductList.FetchProducts | frontend-pos/src/pages/productos/ProductList.jsx:60-79 | one GET without Authorization; products and error as `FetchResult` gives them; loading ends false; the dialog state is untouched |
| ProductListPage.ProductList.HandleDeleteClick | frontend-pos/src/pages/productos/ProductList.jsx:85-88 | the target becomes the product and the flag is set; the dialog shows iff the product is truthy |
| ProductListPage.ProductList.Dialog | frontend-pos/src/pages/productos/ProductList.jsx:120-122 | the confirmation shows iff the flag is set and the target is truthy; its message then names the product inside quotes after the fixed question |
| ProductListPage.DeleteUrl | frontend-pos/src/pages/productos/ProductList.jsx:93 | the DELETE goes to the local API URL followed by the product's id as text and "/" |
| ProductListPage.DeleteError | frontend-pos/src/pages/productos/ProductList.jsx:96 | the failure message names the product |
| ProductListPage.ProductList.ConfirmDelete | frontend-pos/src/pages/productos/ProductList.jsx:90-102 | with no target nothing is sent and nothing changes; otherwise the DELETE is sent, a success refetches the list, a failure sets the error naming the product, and the dialog hides and the target clears either way |
| ProductListPage.ProductList.CancelDelete | frontend-pos/src/pages/productos/ProductList.jsx:104-107 | the dialog hides and the target clears; the list, error and loading flag are unchanged |
| ProductListPage.ListFormatPrice | frontend-pos/src/pages/productos/ProductList.jsx:109-113 | a NaN price gives "---" and nothing else does; every other price is formatted as the shared formatter does it |
| ProductListPage.ListPriceDiffersOnNaN | frontend-pos/src/pages/productos/ProductList.jsx:109-113 | on NaN the list shows "---" where the shared formatter shows "Bs. ---"; every other result starts with "Bs. " |
| CategoryListPage.Fetched | frontend-pos/src/pages/categorias/CategoryList.jsx:31-41 | a response that normalises replaces the list and keeps the error; anything else keeps the list and sets the load error |
| CategoryListPage.FetchKeepsErrorAndList | frontend-pos/src/pages/categorias/CategoryList.jsx:31-41 | a fetch never clears an error, sets only the load error, and a failed fetch leaves the list as it was |
| CategoryListPage.FetchedArray | frontend-pos/src/pages/categorias/CategoryList.jsx:35 | an array response is used as it is, in its order |
| CategoryListPage.CategoryList.constructor | frontend-pos/src/pages/categorias/CategoryList.jsx:24-28 | the list starts empty, loading, with no error, dialog or target |
| CategoryListPage.CategoryList.FetchCategories | frontend-pos/src/pages/categorias/CategoryList.jsx:31-41 | one GET; list and error as `Fetched` gives them; loading ends false on every path |
| CategoryListPage.CategoryList.HandleDeleteClick | frontend-pos/src/pages/categorias/CategoryList.jsx:47-50 | the target becomes the category and the dialog shows |
| CategoryListPage.CategoryList.Dialog | frontend-pos/src/pages/categorias/CategoryList.jsx:66-68 | the dialog renders iff the flag is set; rendering throws iff the target is null or undefined, and otherwise the message names the category after the fixed question |
| CategoryListPage.DeletePath | frontend-pos/src/pages/categorias/CategoryList.jsx:54 | the DELETE goes to "/categorias/" followed by the selected category's id text and "/" |
| CategoryListPage.DeletePathSelects | frontend-pos/src/pages/categorias/CategoryList.jsx:54 | two categories are deleted at the same path iff their ids print alike, so the path picks out the selected category |
| CategoryListPage.DeleteError | frontend-pos/src/pages/categorias/CategoryList.jsx:57 | the failure message names the category |
| CategoryListPage.CategoryList.ConfirmDelete | frontend-pos/src/pages/categorias/CategoryList.jsx:52-62 | the dialog hides and the target clears on every path; a missing target sends nothing and the handler rejects with a TypeError; otherwise a success refetches and a failure sets the error naming the category |
| CategoryListPage.CategoryList.CancelDialog | frontend-pos/src/pages/categorias/CategoryList.jsx:70 | the dialog hides but the target is kept |
| UserListPage.UserList.constructor | frontend-pos/src/pages/usuarios/UserList.jsx:8-9 | the list starts empty with no error |
| UserListPage.UserList.Load | frontend-pos/src/pages/usuarios/UserList.jsx:12-16 | a success replaces the list; a failure keeps it and sets the error |
| UserListPage.DeletePath | frontend-pos/src/pages/usuarios/UserList.jsx:20 | the DELETE goes to "/usuarios/delete/" followed by the username text and "/" |
| UserListPage.DeletePathSelects | frontend-pos/src/pages/usuarios/UserList.jsx:20 | two usernames are deleted at the same path iff they print alike, so the path picks out the given user |
| UserListPage.CountMatches | frontend-pos/src/pages/usuarios/UserList.jsx:21 | the number of users with the deleted username is at most the number of users |
| UserListPage.CountMatchesExtremes | frontend-pos/src/pages/usuarios/UserList.jsx:21 | the count is 0 iff no user has the username, and the full length iff every user has it |
| UserListPage.OthersProperties | frontend-pos/src/pages/usuarios/UserList.jsx:21 | no user with that username remains; a user is kept iff it was there and has another username; the length drops by the number of matching users |
| UserListPage.OthersAppend | frontend-pos/src/pages/usuarios/UserList.jsx:21 | the filter works segment by segment, so every kept user stays in its relative order |
| UserListPage.OthersSingle | frontend-pos/src/pages/usuarios/UserList.jsx:21 | a single user is dropped iff it has the username |
| UserListPage.KeepOthers | frontend-pos/src/pages/usuarios/UserList.jsx:21 | the filter throws iff a list entry is null or undefined; otherwise exactly the users with other usernames are kept and the length drops by the number of matches |
| UserListPage.Remaining | frontend-pos/src/pages/usuarios/UserList.jsx:21 | only an array can be filtered; any other list value throws TypeError |
| UserListPage.UserList.HandleDelete | frontend-pos/src/pages/usuarios/UserList.jsx:18-25 | one DELETE; a success with a filterable list replaces the list with the remaining users; otherwise the list is unchanged and the error is set |
| UserListPage.DeletedUserGone | frontend-pos/src/pages/usuarios/UserList.jsx:21 | after a delete no remaining user has the deleted username |
| ProductDetailPage.View | frontend-pos/src/pages/productos/ProductDetail.jsx:48-50 | the spinner iff loading; the error iff not loading and an error is set; not found iff neither and no product; the detail otherwise |
| ProductDetailPage.ProductDetail.constructor | frontend-pos/src/pages/productos/ProductDetail.jsx:13-18 | the screen starts loading with amount 1 and no product, error or messages, so the spinner shows |
| ProductDetailPage.ProductDetail.Load | frontend-pos/src/pages/productos/ProductDetail.jsx:20-32 | a success sets the product, a failure the error (which then shows); loading ends false; the action state is untouched |
| ProductDetailPage.ProductDetail.ChangeAmount | frontend-pos/src/pages/productos/ProductDetail.jsx:86 | the amount becomes `Number` of the input text |
| ProductDetailPage.ProductPath | frontend-pos/src/pages/productos/ProductDetail.jsx:23 | the product's request path is "/productos/" followed by the id and "/" |
| ProductDetailPage.LocalProductPath | frontend-pos/src/pages/productos/ProductList.jsx:93 | the list's delete URL is the local API root followed by the detail screen's product path, which differs from the URL the shared client builds for that path |
| ProductDetailPage.DeleteUrlIsLocalProductPath | frontend-pos/src/pages/productos/ProductList.jsx:93 | a product deleted from the list is addressed at the detail screen's path but on the local server, not at the shared client's base URL |
| ProductDetailPage.ReducePath | frontend-pos/src/pages/productos/ProductDetail.jsx:37 | the reduce request goes to the product's URL followed by "reducir-stock/" |
| ProductDetailPage.ReducedMessage | frontend-pos/src/pages/productos/ProductDetail.jsx:39 | the success message is the fixed prefix followed by the new stock |
| ProductDetailPage.FailureText | frontend-pos/src/pages/productos/ProductDetail.jsx:42 | the failure text is the server's truthy `detail`, and otherwise the fallback text |
| ProductDetailPage.ProductDetail.HandleReduceStock | frontend-pos/src/pages/productos/ProductDetail.jsx:34-44 | an amount of 0 or less sets the amount error and sends nothing; otherwise the POST is sent; a success replaces the product, reports the new stock and resets the amount to 1 without clearing the error; a failure sets the error from the detail without clearing the message |
| ProductDetailPage.GuardBoundary | frontend-pos/src/pages/productos/ProductDetail.jsx:35 | the guard refuses exactly the amounts at most 0, and -Infinity; NaN and +Infinity pass it |
| ProductDetailPage.DetailFormatPrice | frontend-pos/src/pages/productos/ProductDetail.jsx:46 | every detail price starts with "Bs. " |
| ProductDetailPage.DetailPriceOfString | frontend-pos/src/pages/productos/ProductDetail.jsx:46 | on a price string the detail format agrees with the shared formatter, except that NaN shows "Bs. NaN" instead of "Bs. ---" |
| Forms.RouteParam | frontend-pos/src/pages/productos/ProductManage.jsx:9 | an absent route parameter reads as undefined |
| Forms.IsEditing | frontend-pos/src/pages/productos/ProductManage.jsx:11 | editing iff the route parameter is truthy, that is present and non-empty |
| Forms.Updated | frontend-pos/src/pages/productos/ProductManage.jsx:45 | a record update gives a record with distinct keys |
| Forms.UpdatedLookup | frontend-pos/src/pages/categorias/CategoryManage.jsx:37 | the named field takes the new value, every other field reads as before, and only the named key can be added |
| Forms.UpdatedKeepsKeys | frontend-pos/src/pages/categorias/CategoryManage.jsx:37 | updating an existing field gives the keys in the order the old form lists them; for a form with distinct keys and no array-index keys, that is the form's own key order |
| ProductManagePage.InitialForm | frontend-pos/src/pages/productos/ProductManage.jsx:13-15 | the initial form has six distinct fields, all "" |
| ProductManagePage.FormOfFields | frontend-pos/src/pages/productos/ProductManage.jsx:13-15 | every field of a form record reads as the value it was given |
| ProductManagePage.LoadMapping | frontend-pos/src/pages/productos/ProductManage.jsx:33-36 | the load throws iff the body is missing; otherwise the form holds name, description, price and stock as sent, `category?.id \|\| ''` and `image_url \|\| ''` |
| ProductManagePage.LoadMappingDefaults | frontend-pos/src/pages/productos/ProductManage.jsx:35 | a product without a category loads '' as its category, and one without an image loads '' as its image |
| ProductManagePage.FieldValue | frontend-pos/src/pages/productos/ProductManage.jsx:45 | `category_id` is stored as an integer or NaN; every other field stores the typed text |
| JsNumbers.ParseIntOfIntText | frontend-pos/src/pages/productos/ProductManage.jsx:45 | `parseInt` of an integer's decimal text gives that integer back |
| ProductManagePage.Payload | frontend-pos/src/pages/productos/ProductManage.jsx:52 | the payload has distinct keys and always has a `category_id` |
| ProductManagePage.PayloadFields | frontend-pos/src/pages/productos/ProductManage.jsx:52 | the payload copies every field; a falsy `category_id` is sent as null and a truthy one as it is |
| ProductManagePage.ParseIntEmpty | frontend-pos/src/pages/productos/ProductManage.jsx:45 | `parseInt` of the empty text is NaN |
| ProductManagePage.ClearedCategoryIsNull | frontend-pos/src/pages/productos/ProductManage.jsx:45-52 | clearing the category input parses to NaN, so the product is sent with a null category |
| ProductManagePage.SubmitRequest | frontend-pos/src/pages/productos/ProductManage.jsx:53-58 | edit mode sends PUT to "/productos/{id}/", create mode POST to "/productos/", both with the payload |
| ProductManagePage.ProductManage.constructor | frontend-pos/src/pages/productos/ProductManage.jsx:13-19 | the form starts empty, with no categories, messages or loading |
| ProductManagePage.ProductManage.LoadCategories | frontend-pos/src/pages/productos/ProductManage.jsx:21-25 | a success replaces the categories; a failure sets the category error |
| ProductManagePage.ProductManage.LoadProduct | frontend-pos/src/pages/productos/ProductManage.jsx:27-41 | create mode sends nothing and changes nothing; edit mode sends one GET and loads the mapping or sets the load error; loading ends false |
| ProductManagePage.ProductManage.HandleChange | frontend-pos/src/pages/productos/ProductManage.jsx:43-46 | the named field takes the field value; nothing else changes |
| ProductManagePage.ProductManage.HandleSubmit | frontend-pos/src/pages/productos/ProductManage.jsx:48-66 | the request is chosen by mode; a success sets the mode's message and schedules the list after 1000 ms; a failure sets the save error and schedules nothing; loading ends false |
| CategoryManagePage.FormOf | frontend-pos/src/pages/categorias/CategoryManage.jsx:15 | a category form has distinct fields |
| CategoryManagePage.FormOfFields | frontend-pos/src/pages/categorias/CategoryManage.jsx:15 | each field reads as the value it was given |
| CategoryManagePage.LoadMapping | frontend-pos/src/pages/categorias/CategoryManage.jsx:25-28 | the load throws iff the body is missing; otherwise each field is `value \|\| ''` |
| CategoryManagePage.LoadMappingFields | frontend-pos/src/pages/categorias/CategoryManage.jsx:25-28 | a loaded field is the server's value when truthy and '' otherwise |
| CategoryManagePage.EntryText | frontend-pos/src/pages/categorias/CategoryManage.jsx:56 | an entry renders as its key, ": ", then its value |
| CategoryManagePage.EntryTexts | frontend-pos/src/pages/categorias/CategoryManage.jsx:55-56 | one text per entry, in entry order |
| CategoryManagePage.ElementTexts | frontend-pos/src/pages/categorias/CategoryManage.jsx:56 | `v.join(', ')` joins one text per element, in element order |
| CategoryManagePage.ErrorMessage | frontend-pos/src/pages/categorias/CategoryManage.jsx:55-57 | the message is empty iff the body lists no entries, and otherwise starts with the text of the first entry listed |
| CategoryManagePage.SingleEntryMessage | frontend-pos/src/pages/categorias/CategoryManage.jsx:55-57 | a body with a single field renders as that field's entry text alone |
| CategoryManagePage.FailureMessage | frontend-pos/src/pages/categorias/CategoryManage.jsx:53-59 | an error with a truthy body gives the built message; one without a response or with a falsy body gives the fallback |
| CategoryManagePage.EmptyErrorBody | frontend-pos/src/pages/categorias/CategoryManage.jsx:54-57 | an empty error object gives an empty message |
| CategoryManagePage.ErrorMessageOfObject | frontend-pos/src/pages/categorias/CategoryManage.jsx:55-57 | a body with distinct keys is rendered entry by entry in enumeration order (array-index keys first, ascending), joined by " " |
| CategoryManagePage.ErrorMessageOfNamed | frontend-pos/src/pages/categorias/CategoryManage.jsx:55-57 | a body with distinct keys and no array-index keys is rendered in its own creation order |
| CategoryManagePage.IndexFieldListedFirst | frontend-pos/src/pages/categorias/CategoryManage.jsx:55-57 | for a named field created before an array-index field, the array-index field's text comes first |
| CategoryManagePage.IndexFieldFirst | frontend-pos/src/pages/categorias/CategoryManage.jsx:55-57 | the body `{"name": ..., "2": ...}` renders as the "2" entry, a space, then the "name" entry |
| CategoryManagePage.TwoFieldMessage | frontend-pos/src/pages/categorias/CategoryManage.jsx:57 | two entry texts are joined with one space between them |
| CategoryManagePage.EntryTextsSnoc | frontend-pos/src/pages/categorias/CategoryManage.jsx:55-57 | one more entry appends a space and its text |
| CategoryManagePage.FieldMessages | frontend-pos/src/pages/categorias/CategoryManage.jsx:56 | a field with a list of messages renders as "field: first, second" |
| CategoryManagePage.SubmitRequest | frontend-pos/src/pages/categorias/CategoryManage.jsx:44-49 | edit mode sends PUT to "/categorias/{id}/", create mode POST to "/categorias/", both with the form |
| CategoryManagePage.CategoryManage.constructor | frontend-pos/src/pages/categorias/CategoryManage.jsx:15-18 | the form starts with empty name and description, no messages, not loading |
| CategoryManagePage.CategoryManage.View | frontend-pos/src/pages/categorias/CategoryManage.jsx:65-101 | the spinner shows iff loading in edit mode; create mode shows the "Crear Categoría" form; in the form the button is disabled iff loading and then reads "Guardando..."; the error box shows iff the error is non-empty, the message box iff the message is non-empty |
| CategoryManagePage.CategoryManage.LoadCategory | frontend-pos/src/pages/categorias/CategoryManage.jsx:20-33 | create mode sends nothing and changes nothing; edit mode sends one GET and loads the mapping or sets the load error; loading ends false with no spinner |
| CategoryManagePage.CategoryManage.HandleChange | frontend-pos/src/pages/categorias/CategoryManage.jsx:35-38 | the named field takes the text; nothing else changes |
| CategoryManagePage.CategoryManage.HandleSubmit | frontend-pos/src/pages/categorias/CategoryManage.jsx:40-63 | the request is chosen by mode; a success sets the mode's message and schedules the list after 1200 ms; a failure sets the built message and schedules nothing; loading ends false |
| HomePage.ImageTable | frontend-pos/src/pages/Home.jsx:16-22 | the table maps the keys "1" to "5" to the five images in id order |
| HomePage.ImageTableDistinct | frontend-pos/src/pages/Home.jsx:16-22 | the table's keys are distinct |
| HomePage.ImageFor | frontend-pos/src/pages/Home.jsx:38 | every product gets a truthy image |
| HomePage.ImageForInteger | frontend-pos/src/pages/Home.jsx:38 | a numeric id from 1 to 5 gets its own image, and every other integer gets the placeholder |
| HomePage.ImageForKey | frontend-pos/src/pages/Home.jsx:38 | an id given as the key's text finds the same image as the number |
| HomePage.WithImage | frontend-pos/src/pages/Home.jsx:36-39 | mapping throws iff the product is missing, and otherwise gives an object |
| HomePage.WithImageFields | frontend-pos/src/pages/Home.jsx:36-39 | every field of the product is kept and `imageUrl` is set, overwriting any earlier one |
| HomePage.WithImages | frontend-pos/src/pages/Home.jsx:36-39 | only an array of present products maps; the result keeps the length and maps each product at its own position |
| HomePage.Listed | frontend-pos/src/pages/Home.jsx:34-39 | products are shown iff the request succeeds and both normalising and mapping succeed, and they are then the mapped list |
| HomePage.ListedArray | frontend-pos/src/pages/Home.jsx:35-39 | a plain array of products is shown in order, at full length, each with its image |
| HomePage.Home.constructor | frontend-pos/src/pages/Home.jsx:25-28 | not scrolled, no products, loading, no error |
| HomePage.Home.FetchProducts | frontend-pos/src/pages/Home.jsx:32-47 | one GET; a shown list replaces the products; any failure keeps the products and sets the error; loading ends false |
| HomePage.Home.HandleScroll | frontend-pos/src/pages/Home.jsx:51 | the navbar is scrolled iff `scrollY` > 10 |
| JsValues.LookupSpread | frontend-pos/src/pages/Home.jsx:37 | after a spread a property reads as the source's when the source has it, else as the target's |
| JsValues.CanonicalFaithful | frontend-pos/src/pages/categorias/CategoryManage.jsx:55 | the object's properties in creation order have distinct keys and read every property as the entry list does |
| JsValues.OwnEntriesFaithful | frontend-pos/src/pages/categorias/CategoryManage.jsx:55 | the entries `Object.entries` lists have distinct keys, have exactly the object's keys and read every property as the object does |
| JsValues.EnumerationPermutes | frontend-pos/src/pages/categorias/CategoryManage.jsx:55 | enumeration reorders the entries and loses or adds none |
| JsValues.EnumerationOrder | frontend-pos/src/pages/categorias/CategoryManage.jsx:55 | the enumeration lists the array-index entries first in ascending index order, then every other entry in creation order |
| JsValues.EnumerationDistinct | frontend-pos/src/pages/categorias/CategoryManage.jsx:55 | enumerating entries with distinct keys keeps them distinct |
| JsValues.EnumerationOfNamed | frontend-pos/src/pages/categorias/CategoryManage.jsx:55 | without array-index keys the enumeration is the creation order itself |
| JsValues.EnumerationPair | frontend-pos/src/pages/categorias/CategoryManage.jsx:55 | an array-index key created after a named key is listed before it |
| JsValues.NamedEntriesAppend | frontend-pos/src/pages/categorias/CategoryManage.jsx:55 | the non-index entries of two lists joined are those of the first, then those of the second |
| JsValues.LookupOfMembers | frontend-pos/src/pages/categorias/CategoryManage.jsx:55 | two entry lists with distinct keys and the same entries have the same keys and read every property alike |
| JsValues.LookupDistinctAt | frontend-pos/src/pages/productos/ProductManage.jsx:13-15 | in a record with distinct keys every entry is what its key reads |

## Left out

- Floating point: numbers are exact reals, not IEEE doubles. `toFixed(2)` rounds the exact value half up, and `String(n)` writes a fraction to at most 20 digits. `String(n)` (`JsNumbers.NumberToString`) also never uses exponent notation: it writes every digit where the browser writes "1e+21" for 1e21 or "1e-7" for 0.0000001. This affects every id or stock value written as text into a URL or a message.
- JsNumbers.ToFixed2: exponent notation (at 1e21 and above) is not spelled out; the contract only covers values below 1e21 in size.
- Json.Normalize: `JSON.parse` creates a reloaded record's properties in the order `JSON.stringify` listed them, while the model keeps the original creation order. Every listing of the reloaded record goes through enumeration order, which the model applies to both.
- JSON text in general: `JSON.parse` only reads text the model itself stored with `JSON.stringify`, plus the literals null, true and false. Any other stored text is treated as a SyntaxError.
- Object identity: `===` on two objects or arrays compares them as values and not by reference. The filter in `UserList.jsx` compares usernames, which are strings, so this does not matter there.
- Inherited properties: properties from `Object.prototype` are not modelled. For example, `productImages["toString"]` would be a function in the browser and reads as undefined here.
- Strings: a string is a sequence of Unicode scalar values, not UTF-16 code units, so string indexing differs on characters outside the BMP.
- Rendering: JSX, Tailwind classes and icons are not modelled, apart from the sidebar's class choices, the product-detail render priority, the category form's render choices and the two confirmation dialogs. The text inside cards is not modelled, and of a dialog's message only the part up to the name is stated.
- Browser effects: `navigate` and `setTimeout` are recorded as values and not run. The scroll listener's registration and removal in `Home.jsx` is not modelled, only its handler. `console.log`/`console.error` are not modelled.
- Bundled images: asset modules are represented by their file names, not by the URLs the bundler generates.
- Async interleavings: these are sequentialised. `checkSession` does not await `logout()`, so `checking` may turn false before storage is cleared; in the model the clear happens first. The refetch after a delete is not awaited and is modelled as completing inside `confirmDelete`. Concurrent logins or logouts are not modelled.
- Network: axios itself is not modelled, including its header merging and URL joining beyond a relative path under the base URL. A reply is a parameter chosen by the caller.
- Routing (`routes/AppRoutes.jsx`) is not part of this model, because it is react-router's matching.
- Other screens and modules that only forward form fields and navigate, and the one-line service wrappers, are not part of this model: Login, Register, Profile, the users' create/edit/detail screens, the sales detail, the cart, payment (a PayPal SDK), confirmation, the dashboard (hard-coded sample data) and the card components.
- `Sidebar.jsx` receives `isCollapsed` as a parameter from its parent; the parent's own state is not modelled.
- AuthContext.AuthProvider.CheckSession: a logout request that itself fails is not modelled separately, because the un-awaited `logout()` clears storage and state on both paths.
