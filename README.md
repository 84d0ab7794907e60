# reprice-admin: the decisions of the admin console

reprice-admin is the operator console of a resale marketplace. It is a React
client with no backend of its own. This project models the decisions the client
makes by itself. Where the console changes state step by step, it is modelled
by classes whose methods update their fields; the rest is pure functions.

- **Base paths** (`Api`, `ViteConfig`, `App`): how the console's base path is
  normalised from the build setting, in three places that are written
  differently. The project proves where they agree and where they do not.
- **The HTTP client** (`Api`): the bearer token the request interceptor
  attaches, and what the response interceptor does on a 401.
- **The session** (`AuthContext`, `App`): the stored token, the admin record and
  the loading flag. They change through startup, login, logout, a failed fetch
  and the "unauthorized" event. The route guard makes a three-way decision
  from that state. Each transition is a function over `SessionState`, and the
  class `AuthProvider` performs it in place.
- **Partner review** (`PartnerDetails`): which review actions are offered, the
  status badge, and the approve, reject and request-clarification handlers. The
  handlers validate the dialog text, post the action and refetch the partner.
- **The phone catalogue editor** (`Phones`): `safeString`, `canSave`, splitting
  a hit's metadata into form fields and extras, and the guards of search, save,
  delete and CSV upload, in their order. It also covers the upsert payload.
- **Status tables and filters** (`Partners`, `PendingPartners`, `Orders`): total
  status-to-style lookups with their fallbacks, and the query parameter each
  list sends for its filter.

Shared modules:

- `Wrappers` holds `Option` and `Result`.
- `Text` holds JavaScript's `trim`, with the ECMAScript whitespace and
  line-terminator set, and the status label formatter.
- `JsonValue` holds JSON values, JavaScript truthiness and `String(v)`.
- `Http` holds the request log that stands for the network.
- `Storage` holds `localStorage`.

A network call is a parameter: either the response or the failure that the
caller is given. The requests a page issues are recorded in a log field,
`requests`. Library conversions are function parameters:

- `JSON.parse`, `JSON.stringify`, `Number` on a price, and
  `encodeURIComponent` in the phone editor;
- `window.location.origin` and the build-time settings in the base-path
  functions.

The model follows the client code. The client offers the
review actions on a "suspended" partner as well (`PartnerDetails.ShowsActions`).
It sends the reason and message exactly as typed, not trimmed; only the
emptiness check trims. No transition table exists on the client, so none is
modelled.

## Model

| member | source | states |
|---|---|---|
| Wrappers.Lookup | src/pages/Partners.tsx:48 | reading a key (`searchParams.get`, `md.brand`, `getItem`) is `None` exactly when the key is missing, and otherwise the stored value |
| JsonValue.Truthy | src/pages/Phones.tsx:126 | a value is falsy exactly when it is null, false, 0 or "" |
| JsonValue.JsString | src/pages/Phones.tsx:22 | `String(v)` keeps a string, writes any object as "[object Object]", an empty array as "" and a one-member array as its member (null as "") |
| JsonValue.Join | src/pages/Phones.tsx:22 | no contract; the array cases of `String(v)` are stated by `JsonValue.JsString` |
| JsonValue.IsObjectType | src/pages/Phones.tsx:127 | no contract; `typeof v === "object"` is used through `Phones.ExtrasAcceptedCases` |
| Text.IsWhitespace | src/lib/api.ts:6 | no contract; the character set every `trim` removes, used by `Text.TrimEmptyIffAllWhitespace` and the other trim lemmas |
| Text.TrimStart | src/lib/api.ts:6 | the result is no longer than the input, and a non-empty result does not start with whitespace |
| Text.TrimEnd | src/lib/api.ts:6 | the result is no longer than the input, and a non-empty result does not end with whitespace |
| Text.TrimStartIsSuffix | src/lib/api.ts:6 | trimming the front keeps a suffix of the input and removes only whitespace characters |
| Text.TrimEndIsPrefix | src/lib/api.ts:6 | trimming the end keeps a prefix of the input and removes only whitespace characters |
| Text.Trim | src/lib/api.ts:6 | `trim()` is no longer than its input, and a non-empty result neither starts nor ends with whitespace |
| Text.TrimStartAllWhitespace | src/pages/Phones.tsx:85-86 | a string made only of whitespace trims to nothing from the front |
| Text.TrimEmptyIffAllWhitespace | src/pages/PartnerDetails.tsx:112 | `!s.trim()` holds exactly when every character of `s` is whitespace, in both directions |
| Text.TrimIsInfix | src/lib/api.ts:6 | `trim()` returns the contiguous piece of its input that begins where the leading whitespace ends |
| Text.TrimNoop | src/lib/api.ts:6 | a string that neither starts nor ends with whitespace is unchanged by `trim()` |
| Text.TrimIdempotent | src/lib/api.ts:6 | trimming twice gives the same as trimming once |
| Text.UpperAscii | src/pages/PartnerDetails.tsx:206 | a lower-case ASCII letter moves to its upper-case letter, and every other character stays |
| Text.ReplaceUnderscores | src/pages/PartnerDetails.tsx:206 | every underscore becomes a space and every other character stays at its position |
| Text.ToUpperAscii | src/pages/PartnerDetails.tsx:206 | upper-cases position by position and keeps the length |
| Text.StatusLabel | src/pages/PartnerDetails.tsx:206 | a status label has the status's length and contains no underscore and no lower-case ASCII letter |
| Text.LabelAt | src/pages/PartnerDetails.tsx:305 | each position of a label is a space where the status had `_`, and the upper-cased character otherwise |
| Text.LabelIdempotent | src/pages/PartnerDetails.tsx:206 | formatting a label as a status again changes nothing |
| Storage.LocalStorage.constructor | src/context/AuthContext.tsx:30 | the store starts with the given entries |
| Storage.LocalStorage.GetItem | src/context/AuthContext.tsx:30 | `getItem` is absent exactly for a missing key, and otherwise the stored value |
| Storage.LocalStorage.SetItem | src/context/AuthContext.tsx:74 | `setItem` sets one key and keeps every other entry |
| Storage.LocalStorage.RemoveItem | src/context/AuthContext.tsx:66 | `removeItem` deletes one key and keeps every other entry |
| Api.WithLeadingSlash | src/lib/api.ts:8 | the result starts with "/"; a slash is prepended only when one is missing |
| Api.SettingText | src/lib/api.ts:6 | the setting's text is empty exactly when the setting is unset or only whitespace, and otherwise starts and ends with a non-whitespace character |
| Api.StripTrailingSlash | src/lib/api.ts:8 | removes one trailing "/" when there is one; otherwise the text is unchanged |
| Api.NormalizeBasename | src/lib/api.ts:5-9 | the result is "" exactly for an unset or blank setting or "/". Any other result starts with "/". It is the setting, trimmed and slash-prefixed, with exactly one trailing slash removed |
| Api.NormalizeBasenameEmptyCases | src/lib/api.ts:6-7 | unset, whitespace-only and "/" settings all normalise to "" |
| Api.NormalizeBasenameAddsLeadingSlash | src/lib/api.ts:8 | "admin/" normalises to "/admin" |
| Api.NormalizeBasenameTrims | src/lib/api.ts:6 | " /admin " normalises to "/admin" |
| Api.NormalizeBasenameStripsOneSlash | src/lib/api.ts:8 | "/admin//" normalises to "/admin/": only one slash goes |
| Api.AdminBasename | src/lib/api.ts:11 | `ADMIN_BASENAME` always starts with "/". It is the normalised setting, or "/__admin_portal_93c2f7" when that is empty |
| Api.DefaultApiBase | src/lib/api.ts:13-15 | the default API base always ends in "/api"; outside development it is the page's origin followed by "/api" |
| Api.ApiBase | src/lib/api.ts:13-19 | the API base is the configured URL when it is non-empty, otherwise the development or same-origin default, with one trailing slash removed |
| Api.WithBearer | src/lib/api.ts:31-34 | an Authorization header "Bearer " + token is added exactly when the stored token is non-empty. Other headers are kept, and without a token nothing changes |
| Api.HasToken | src/lib/api.ts:32 | `if (token)` holds exactly when a token is stored and is truthy as a JavaScript string |
| Api.AttachToken | src/lib/api.ts:29-36 | the interceptor edits the request's headers in place, as `WithBearer` does with the stored token |
| Api.ResponseErrorEffect | src/lib/api.ts:45-53 | a response error has an effect exactly when its status is 401. The effect is the "unauthorized" event, or, when dispatching throws, a hard redirect to ADMIN_BASENAME + "/login" |
| Api.OnResponseError | src/lib/api.ts:45-55 | every error is rejected again unchanged. The stored token is removed only on the fallback path of a 401 |
| ViteConfig.NormalizeBase | vite.config.ts:6-11 | the site base always starts and ends with "/". A blank setting gives "/__admin_portal_93c2f7/" |
| ViteConfig.NormalizeBaseIdempotent | vite.config.ts:6-11 | normalising an already normalised base changes nothing |
| ViteConfig.BaseAgreesWithAdminBasename | vite.config.ts:6-11 | for every setting that does not trim to "/", the site base is ADMIN_BASENAME + "/" |
| ViteConfig.RootSettingDisagrees | vite.config.ts:7-10 | the exception: "/" serves the site at "/" while ADMIN_BASENAME falls back to the default directory |
| AuthContext.Initial | src/context/AuthContext.tsx:26-27 | the provider starts with no admin and loading, whatever token is stored |
| AuthContext.AfterFetch | src/context/AuthContext.tsx:60-70 | `fetchAdmin` always ends loading. Success records the admin and keeps the token. Failure removes the token and keeps the admin already shown |
| AuthContext.AfterStartup | src/context/AuthContext.tsx:29-36 | without a non-empty stored token, startup only ends loading; with one it is `fetchAdmin` |
| AuthContext.AfterLogin | src/context/AuthContext.tsx:72-76 | login's own code changes nothing on failure; a 401 still signs out through the interceptor (`FailedLogin401SignsOut`). Success stores `access_token`, sets the admin and leaves loading alone |
| AuthContext.AfterLogout | src/context/AuthContext.tsx:78-81 | logout leaves no token and no admin and does not touch loading |
| AuthContext.AfterUnauthorized | src/context/AuthContext.tsx:41-46 | the "unauthorized" handler leaves no token, no admin and loading false, from any state |
| AuthContext.AfterResponseError | src/lib/api.ts:45-55 | only a 401 changes the session, and it always removes the token. A dispatched event is the "unauthorized" transition |
| AuthContext.LogoutIdempotent | src/context/AuthContext.tsx:78-81 | logging out twice is logging out once |
| AuthContext.UnauthorizedFetchSignsOut | src/context/AuthContext.tsx:41-70 | a 401 on `/admin/auth/me` ends in a signed-out, settled session |
| AuthContext.FailedLogin401SignsOut | src/lib/api.ts:45-48 | a 401 from `/admin/auth/login` reaches the "unauthorized" handler before `login` rethrows, so the session ends signed out and settled |
| AuthContext.FailedLogin401DiffersFromOwnFailure | src/context/AuthContext.tsx:41-46 | for a signed-in session, a 401 on login is not the unchanged session of `login`'s own failure path |
| AuthContext.FailedRefreshKeepsAdmin | src/context/AuthContext.tsx:64-66 | a failed refresh drops the token but keeps the loaded admin |
| AuthContext.UseAuth | src/context/AuthContext.tsx:96-101 | `useAuth` fails exactly outside a provider, with the message "useAuth must be used within an AuthProvider" |
| AuthContext.AuthProvider.constructor | src/context/AuthContext.tsx:26-27 | the provider's state is `Initial` of the stored token |
| AuthContext.AuthProvider.FetchAdmin | src/context/AuthContext.tsx:60-70 | performs `AfterFetch` on the provider and `localStorage`; other keys and navigation are untouched |
| AuthContext.AuthProvider.RefreshAdmin | src/context/AuthContext.tsx:83-85 | `refreshAdmin` is exactly `fetchAdmin` |
| AuthContext.AuthProvider.Startup | src/context/AuthContext.tsx:29-36 | requests the admin exactly when a non-empty token is stored, and performs `AfterStartup` |
| AuthContext.AuthProvider.Login | src/context/AuthContext.tsx:72-76 | rethrows exactly the failed request's error, and performs `AfterLogin` |
| AuthContext.AuthProvider.Logout | src/context/AuthContext.tsx:78-81 | performs `AfterLogout` |
| AuthContext.AuthProvider.HandleUnauthorized | src/context/AuthContext.tsx:41-46 | performs `AfterUnauthorized` and navigates to "/login" |
| App.ProtectedRoute | src/App.tsx:15-31 | a spinner exactly while loading. After loading: the login redirect exactly without an admin, the pages exactly with one |
| App.Guard | src/App.tsx:15-31 | on a session, the pages show exactly when it has loaded and has an admin, and the spinner shows while it loads |
| App.RouterBasename | src/App.tsx:36 | the router base is the raw setting when it is non-empty, else the default. It is never empty |
| App.RouterAgreesWhenNormal | src/App.tsx:36 | the router base and ADMIN_BASENAME agree when the setting is unset, empty or already normalised |
| App.RouterDisagreesOnUnnormalised | src/App.tsx:36 | they disagree on "admin/": the router uses "admin/", the API client "/admin" |
| App.InitialShowsSpinner | src/App.tsx:18-24 | before the session settles the guard shows the spinner |
| App.StartupWithoutTokenRedirects | src/App.tsx:26-28 | with no stored token the first settled decision is the login redirect |
| App.StartupWithToken | src/App.tsx:15-31 | with a stored token the pages open exactly when the admin was fetched |
| App.UnauthorizedRedirects | src/App.tsx:26-28 | after the "unauthorized" event the guard always redirects to login |
| App.LogoutRedirects | src/App.tsx:26-28 | after logout on a settled session the guard redirects to login |
| App.LoginOpensPages | src/App.tsx:30 | after a successful login on a settled session the guard opens the pages |
| PartnerDetails.ShowsActions | src/pages/PartnerDetails.tsx:339-340 | the action panel is shown exactly when the status is neither "approved" nor "rejected" |
| PartnerDetails.ActionsOfferedByStatus | src/pages/PartnerDetails.tsx:339-340 | pending, under_review, clarification_needed and suspended partners are all offered the actions |
| PartnerDetails.StatusVariant | src/pages/PartnerDetails.tsx:197-204 | "approved" is default, "rejected" destructive, and every other status secondary (each as an iff) |
| PartnerDetails.SecondaryBadgeIffActions | src/pages/PartnerDetails.tsx:197-204 | the badge is secondary exactly when actions are offered |
| PartnerDetails.HistoryLabels | src/pages/PartnerDetails.tsx:298-305 | one label per history entry, in order, each the formatted action type |
| PartnerDetails.ReviewRequest | src/pages/PartnerDetails.tsx:95-140 | no request exactly for reject or clarification with a blank text. Otherwise one post to the action's endpoint carries the text as typed |
| PartnerDetails.ActionPath | src/pages/PartnerDetails.tsx:98-138 | no contract; its endpoints are stated by `PartnerDetails.ReviewPathsDistinct` |
| PartnerDetails.DetailsPath | src/pages/PartnerDetails.tsx:84 | no contract; see `PartnerDetails.ReviewPathsDistinct` |
| PartnerDetails.ReviewPathsDistinct | src/pages/PartnerDetails.tsx:84-138 | approve, reject, request-clarification and the details request use four different paths |
| PartnerDetails.Endpoint | src/pages/PartnerDetails.tsx:98-138 | no contract; the three endpoints are distinguished by `PartnerDetails.ReviewPathsDistinct` |
| PartnerDetails.BodyField | src/pages/PartnerDetails.tsx:98-140 | no contract; the posted field is stated by `PartnerDetails.ReviewRequest` and `PartnerDetails.ApproveSendsEmptyNotes` |
| PartnerDetails.ApproveSendsEmptyNotes | src/pages/PartnerDetails.tsx:95-100 | approving with empty notes still posts `approval_notes: ""` |
| PartnerDetails.RejectRefusesBlankReason | src/pages/PartnerDetails.tsx:112-115 | a reason of spaces, tabs and line breaks is refused before any request |
| PartnerDetails.PartnerDetailsPage.constructor | src/pages/PartnerDetails.tsx:64-75 | the page starts loading, idle, with every dialog closed and every text empty |
| PartnerDetails.PartnerDetailsPage.FetchPartnerDetails | src/pages/PartnerDetails.tsx:81-93 | requests the details and keeps the old ones on failure; loading ends on both paths |
| PartnerDetails.PartnerDetailsPage.ActionPanelShown | src/pages/PartnerDetails.tsx:339-340 | no contract; the panel condition is used by `PartnerDetails.PartnerDetailsPage.OpenDialog` |
| PartnerDetails.PartnerDetailsPage.OpenDialog | src/pages/PartnerDetails.tsx:339-365 | a dialog opens only while the action panel is shown; nothing else changes |
| PartnerDetails.PartnerDetailsPage.EditText | src/pages/PartnerDetails.tsx:389 | typing changes only that dialog's text |
| PartnerDetails.PartnerDetailsPage.HandleApprove | src/pages/PartnerDetails.tsx:95-109 | always posts the notes. Success closes the dialog and refetches. The busy flag is down on every path |
| PartnerDetails.PartnerDetailsPage.HandleReject | src/pages/PartnerDetails.tsx:111-129 | a blank reason changes nothing, the busy flag included. Otherwise the reason is posted and the busy flag is down on both paths. Success closes the dialog, refetches and keeps the reason |
| PartnerDetails.PartnerDetailsPage.HandleRequestClarification | src/pages/PartnerDetails.tsx:131-152 | a blank message changes nothing. Otherwise the message is posted and the busy flag is down on both paths. Success closes the dialog, clears the message and refetches |
| Partners.StatusColor | src/pages/Partners.tsx:70-78 | the colour table has an entry exactly for the seven verification statuses |
| Partners.BadgeClass | src/pages/Partners.tsx:81 | the badge is gray exactly for "suspended" and for a status outside the table |
| Partners.StatusBadge | src/pages/Partners.tsx:69-85 | the badge's label is the formatted status and its class is the table's colour. A status the table lacks is gray |
| Partners.StatusColorTable | src/pages/Partners.tsx:70-78 | the colours of pending, under_review, approved and rejected |
| Partners.UnknownIsGray | src/pages/Partners.tsx:81 | every status outside the seven of the table falls back to gray |
| Partners.ClarificationAliases | src/pages/Partners.tsx:73-74 | "clarification" and "clarification_needed" are both orange |
| Partners.SuspendedLooksUnknown | src/pages/Partners.tsx:77-81 | "suspended" looks the same as any status outside the table: gray |
| Partners.StatusFilter | src/pages/Partners.tsx:48 | the filter is the "status" parameter when it is non-empty, and "all" otherwise |
| Partners.PartnersPage.Filter | src/pages/Partners.tsx:48 | no contract; the filter in effect is `Partners.StatusFilter` of the query's "status", see `Partners.PartnersPage.FetchPartners` |
| Http.FilterParams | src/pages/Partners.tsx:56-59 | "all" sends no parameter. Any other filter is sent unchanged, as the only parameter, under the page's name (`verification_status` for partners, `status` for orders) |
| Partners.WithFilterChoice | src/pages/Partners.tsx:107-113 | choosing "all" deletes "status", any other choice sets it, and other parameters are kept |
| Partners.FilterChoiceRoundTrip | src/pages/Partners.tsx:107-113 | a non-empty choice is the filter read back from the new query string |
| Partners.FilterChoiceParams | src/pages/Partners.tsx:56-59 | after a choice the list request has no parameter for "all", and otherwise the choice itself |
| Partners.PartnersPage.constructor | src/pages/Partners.tsx:43-45 | the page starts loading with the given query string and no requests |
| Partners.PartnersPage.FetchPartners | src/pages/Partners.tsx:54-67 | one list request whose parameters are the current filter under `verification_status`, none for "all"; loading ends on every path |
| Partners.PartnersPage.OnFilterChange | src/pages/Partners.tsx:107-114 | edits the query string as `WithFilterChoice` does, so a non-empty choice becomes the filter |
| PendingPartners.StatusVariant | src/pages/PendingPartners.tsx:57-70 | the variant table has an entry exactly for the seven verification statuses |
| PendingPartners.BadgeVariant | src/pages/PendingPartners.tsx:72 | the "pending" variant is used exactly for "pending" and for a status outside the table |
| PendingPartners.StatusBadge | src/pages/PendingPartners.tsx:56-85 | the badge's icon and colour are the table's variant, and a status outside the table gets the clock in yellow. Its label is the formatted status |
| PendingPartners.UnknownLooksPending | src/pages/PendingPartners.tsx:73 | a status outside the table gets the "pending" variant: the clock, in yellow |
| PendingPartners.ClarificationAliases | src/pages/PendingPartners.tsx:60-67 | "clarification" and "clarification_needed" have the same icon and colour |
| PendingPartners.DecisionIcons | src/pages/PendingPartners.tsx:68-70 | approved gets the check, rejected and suspended both get the cross, in different colours |
| Orders.StatusColor | src/pages/Orders.tsx:63-69 | the colour table has an entry exactly for the five order statuses |
| Orders.BadgeClass | src/pages/Orders.tsx:73 | the badge is gray exactly for a status outside the table |
| Orders.StatusBadge | src/pages/Orders.tsx:62-79 | the badge's label is the formatted status and its class is the table's colour. Statuses outside the table are gray |
| Orders.StatusColorsDistinct | src/pages/Orders.tsx:63-69 | the five statuses have five different colours, none of them gray |
| Orders.OrdersPage.constructor | src/pages/Orders.tsx:41 | the filter starts as "all" |
| Orders.OrdersPage.FetchOrders | src/pages/Orders.tsx:47-60 | one list request whose parameters are the current filter under `status`, none for "all"; loading ends on every path |
| Orders.OrdersPage.OnFilterChange | src/pages/Orders.tsx:96 | the choice becomes the filter |
| Phones.SafeString | src/pages/Phones.tsx:20-23 | null and undefined give "", strings come back unchanged, and anything else is `String(v)` |
| Phones.CanSave | src/pages/Phones.tsx:50-52 | saving is possible exactly when brand and model both contain a non-whitespace character |
| Phones.ExtrasOf | src/pages/Phones.tsx:75-80 | the extras are exactly the metadata keys other than the six form fields, with their values unchanged |
| Phones.CollectExtras | src/pages/Phones.tsx:75-80 | the loop over the metadata entries builds exactly those extras |
| Phones.ExtrasAccepted | src/pages/Phones.tsx:126 | no contract; its cases are stated by `Phones.ExtrasAcceptedCases` |
| Phones.ExtrasAcceptedCases | src/pages/Phones.tsx:126 | the extras check accepts objects, null, arrays, false, 0 and "", and refuses every other value |
| Phones.ParseExtras | src/pages/Phones.tsx:123-131 | blank extras text is `{}`. Otherwise the parse is used, unless parsing fails or the check refuses it |
| Phones.TrimmedOrAbsent | src/pages/Phones.tsx:147-149 | an optional field is absent exactly when blank, and otherwise trimmed |
| Phones.OptionalField | src/pages/Phones.tsx:143-149 | an `undefined` field adds no key; a defined one adds its key and keeps every other entry |
| Phones.PayloadJson | src/pages/Phones.tsx:141-160 | the body always has brand, model and metadata; id, variant, image, link and price are keys exactly when they are defined, with their values |
| Phones.SavePayload | src/pages/Phones.tsx:111-161 | each guard fails exactly when the earlier ones pass and its own condition holds. The order is: unsupported, brand/model, extras, price. The payload trims brand and model and includes id only with a selection. Blank optional fields and a blank price are omitted |
| Phones.SearchRequest | src/pages/Phones.tsx:85-93 | no request exactly for a blank query. Otherwise the trimmed query is posted with `top_k` 10 |
| Phones.RefreshRequests | src/pages/Phones.tsx:170 | the refresh after a change issues a search exactly when the query is not blank |
| Phones.DeleteRequest | src/pages/Phones.tsx:230-244 | no request exactly when editing is unsupported or nothing is selected. Otherwise a delete is sent for the encoded id |
| Phones.UploadRequest | src/pages/Phones.tsx:196-210 | no request exactly when editing is unsupported or the CSV text is blank. Otherwise the text is posted untrimmed |
| Phones.SupportsAdmin | src/pages/Phones.tsx:95-97 | editing is unsupported exactly when the search answered in mode "fallback_search" |
| Phones.PickedExtrasSurviveSave | src/pages/Phones.tsx:75-150 | a picked hit's extras pass the check and are saved back unchanged, with its id. This holds whenever `parse` reads back what `stringify` writes |
| Phones.PickedForm | src/pages/Phones.tsx:65-82 | the picked form keeps the hit's id and its extras text is the stringified extras; a hit without metadata gives empty fields, and a string brand is copied as it is |
| Phones.MetadataOf | src/pages/Phones.tsx:65 | no contract; `m.metadata || {}` is used through `Phones.PickedForm`, whose contract covers a hit without metadata |
| Phones.SaveButtonMatchesGuards | src/pages/Phones.tsx:391 | an enabled Save button means the first two guards of `savePhone` pass |
| Phones.DeleteAndUploadButtonsMatchGuards | src/pages/Phones.tsx:400-434 | enabled Delete and Upload buttons mean their handlers issue a request |
| Phones.PhoneEditor.constructor | src/pages/Phones.tsx:26-48 | editing is supported, the form is empty with extras "{}", and nothing is loading |
| Phones.PhoneEditor.ResetForm | src/pages/Phones.tsx:54-63 | the form is cleared, selection included, with extras "{}", and nothing else changes |
| Phones.PhoneEditor.PickMatch | src/pages/Phones.tsx:65-82 | the form becomes the hit's id, its known fields through `safeString`, and its stringified extras |
| Phones.PhoneEditor.RunSearch | src/pages/Phones.tsx:84-109 | a blank query changes nothing. Otherwise the search is posted. An answer replaces the hits and sets the support flag from its mode; a failure keeps both |
| Phones.PhoneEditor.Upsert | src/pages/Phones.tsx:163-177 | posts the payload. An answer with a truthy id selects `String(id)` and refreshes the search. The busy flag is down on every path |
| Phones.PhoneEditor.SavePhone | src/pages/Phones.tsx:111-177 | when `SavePayload` refuses, nothing changes. Otherwise it does what `Upsert` does with that payload |
| Phones.PhoneEditor.DeletePhone | src/pages/Phones.tsx:230-254 | a refused delete changes nothing. Otherwise the delete is sent and the busy flag is down on both paths. Success resets the form and refreshes the search |
| Phones.PhoneEditor.PickCsv | src/pages/Phones.tsx:179-194 | no file clears the name and the text. A file sets its name, and its text or "" when reading fails |
| Phones.PhoneEditor.ClearCsv | src/pages/Phones.tsx:439-442 | clears the file name and the text |
| Phones.PhoneEditor.SetSearchQ | src/pages/Phones.tsx:295 | typing sets only the query |
| Phones.PhoneEditor.UploadCsv | src/pages/Phones.tsx:196-228 | a refused upload changes nothing. Otherwise the CSV is posted and the busy flag is down on both paths. Success refreshes the search |

## Left out

- Toasts, `console.error` and the rendering (JSX, styling, the spinner markup) are display only. A guard that shows an error toast is therefore modelled as changing nothing.
- The ordering of async effects is not modelled: races between a refetch and a user action, and the setup and teardown of the "unauthorized" listener (src/context/AuthContext.tsx:48-57). Each handler runs to completion, with its network outcomes given as parameters.
- Network calls are not modelled: axios, the base URL it is created with, the default `Content-Type` header and the `navigate` and `window.location` side effects beyond what is recorded. Each request is an entry in a `requests` log, and a response or failure is a parameter.
- The request interceptor's error handler (src/lib/api.ts:37-39) only passes a rejection on and is not modelled.
- `JSON.parse`, `JSON.stringify`, `Number` and `encodeURIComponent` are library and floating-point behaviour. They are function parameters, so the key order and indentation of the stringified extras are not modelled. A price such as "1e400" becomes `Infinity`, which passes the NaN check and is sent as `null`; the model carries it as a number text.
- `Text.StatusLabel`: upper-cases ASCII letters only. Unicode `toUpperCase` (for example "ß" becoming "SS") is not modelled.
- `Partners.StatusColor`: the table has only its own keys. A key inherited from `Object.prototype` (for example "constructor") would give a function, not a colour, and that is not modelled.
- `PendingPartners.StatusVariant`: the table has only its own keys. For an inherited key such as "constructor", `variant.icon` is undefined and the badge fails to render, which is not modelled.
- `Orders.StatusColor`: the table has only its own keys. A key inherited from `Object.prototype` is not modelled.
- `Partners.StatusFilter`: models one value per query parameter. A repeated `status` parameter in `URLSearchParams` is not modelled.
- The server-side verification workflow is not modelled: transitions, history and concurrency control live on a server that is not in these files. The list and detail responses are taken as given.
- Serviceable pincodes and the other display fields of the partner details are not modelled.
- The review dialogs' `onOpenChange` is not modelled at all, including the close that the dialog's action button itself triggers on every click. So the dialog flags record only what the handlers set: in the running console a dialog also closes after a failed request or a blank reason.
- The list pages' fetched data (`setPartners`, `setOrders`) is not modelled, and neither is the pending list's fetch (src/pages/PendingPartners.tsx:45-54).
- The Phones page's tab switching and its other tabs (src/pages/Phones.tsx:266-269) are not modelled.
- src/pages/CreditPlans.tsx, src/pages/Customers.tsx and src/pages/Dashboard.tsx are not part of this model: they fetch and display data.
- src/components/Layout.tsx is not modelled as a file. Its logout button is the modelled `Logout` followed by the redirect to "/login" (`App.LogoutRedirects`).
