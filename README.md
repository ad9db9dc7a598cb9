# prokhoz-frontend, modelled in Dafny

prokhoz-frontend is the React front end of a B2B marketplace where buyers
search for materials and send inquiries, and manufacturers list products and
answer those inquiries. This project models its core:

- the API client and its two interceptors;
- the session store;
- the pages' state and handlers.

It then proves what those promise.

- **API client** (`api.dfy`, `browser.dfy`):
  - The browser's `localStorage` and `window.location` are one `Window` object.
  - The request interceptor adds `Authorization: Bearer <token>` when a non-empty token is stored.
  - The response interceptor clears both keys and sends the browser to `/login` on a 401. It passes every other error on unchanged.
  - Each endpoint maps to a verb and a path. The paths parse back to their endpoints when every id is non-empty, holds no '/', and is not one of the fixed route names "manufacturer", "buyer" and "stats". The id "stats" yields the statistics request itself (`StatsIdIsAmbiguous`).
- **Session store** (`auth_context.dfy`):
  - `AuthProvider` is a class over the window.
  - Each operation (`checkAuth`, `login`, `register`, `logout`, `updateUser`) is proved equal to a step function on a `Session` value.
  - Lemmas about those steps state when the stored token and user stay paired.
- **Pages**: each page is a class whose fields are its `useState` variables.
  - Each handler is a method whose postcondition ties the new state to functions of the old state and of the server's reply.
  - The reply (`Reply<T>`: a success with data, or a failure carrying the HTTP error) is a parameter. Nothing is fetched.
  - Every handler that calls the server sends through `Api.Send` with the page's browser window. The 401 handling (both keys removed, `/login` assigned) is therefore part of each handler's contract: the window ends as `AfterReply` of the replies the handler received.
  - An effect is modelled as a method. It runs directly after the state change that triggers it.
- **Shared helpers**:
  - `records.dfy`: JavaScript objects of strings.
  - `js_strings.dfy`: `trim`, `toLowerCase`, `includes`, `split`/`join`, and `replace` with a one-character pattern.
  - `seqs.dfy`: `filter`, `slice`, `find`.

Where the code behaves in a way a reader might not expect, the model follows the code:

- A 401 from `/auth/login` or `/auth/register` clears the stored session, because the response interceptor (src/services/api.jsx:26-36) runs for every request, sign-in included.
- The inquiries page has no `|| []` fallback. A reply without a list leaves `inquiries` undefined and the statistics unchanged.
- `updateUser` with nobody signed in stores a user without a token (`UpdateUserSignedOutUnpairs`).
- `checkAuth` sets the user without storing it (`CheckAuthDoesNotStoreUser`).
- A product id of `stats` routes to the same request as the statistics call (`StatsIdIsAmbiguous`).

## Model

| member | source | states |
|---|---|---|
| Records.Get | src/pages/manufacturer/Settings.tsx:65 | a lookup finds a value exactly when the key is present, and returns that key's value |
| Records.TextOr | src/pages/manufacturer/Settings.tsx:54-62 | `user.x \|\| ""`: the field's text when present, otherwise the empty string |
| Records.Spread | src/services/authContext.jsx:86-90 | `{...base, ...update}`: the keys are the union; the update wins on shared keys; the base's other values survive; spreading `null` yields the update |
| Records.WithField | src/pages/manufacturer/AddProduct.tsx:115-120 | `{...form, [field]: value}`: the field holds the value; every other key and value is unchanged |
| JsStrings.TrimStart | src/pages/buyer-dashboard/SearchProducts.tsx:118 | the result is a suffix, only white space was dropped, and it starts with no white space |
| JsStrings.TrimEnd | src/pages/buyer-dashboard/SearchProducts.tsx:118 | the result is a prefix, only white space was dropped, and it ends with no white space |
| JsStrings.Trim | src/pages/buyer-dashboard/SearchProducts.tsx:118 | the result is a slice of the input with only white space removed around it, and it neither starts nor ends with white space |
| JsStrings.ToLower | src/pages/buyer-dashboard/SearchProducts.tsx:88-93 | same length; each character lowered |
| JsStrings.Contains | src/pages/buyer-dashboard/SearchProducts.tsx:89-93 | every string includes the empty string; an included string is no longer than the one including it |
| JsStrings.ContainsIffOccurs | src/pages/buyer-dashboard/SearchProducts.tsx:89-93 | `includes` holds exactly when the pattern occurs at some index |
| JsStrings.MissingCharNotContained | src/components/ManufacturerLayout.tsx:11-15 | a string lacking one of the pattern's characters does not include the pattern |
| JsStrings.IndexOf | src/pages/manufacturer/MyProducts.tsx:88 | the first occurrence of a character, or -1 exactly when it is absent |
| JsStrings.IndexOfAfterFreePrefix | src/pages/manufacturer/MyProducts.tsx:88 | after a prefix free of the character, the first occurrence is right after that prefix |
| JsStrings.ReplaceFirst | src/pages/manufacturer/MyProducts.tsx:88 | `replace` with a one-character pattern changes only its first occurrence; without one the string is unchanged |
| JsStrings.ReplaceFirstAfterFreePrefix | src/pages/manufacturer/MyProducts.tsx:88 | after a prefix free of the character, exactly the next character is replaced |
| JsStrings.Capitalize | src/pages/manufacturer/Inquiries.tsx:277 | the first character upper-cased, the rest unchanged |
| JsStrings.Join | src/pages/buyer-dashboard/SearchProducts.tsx:117 | no parts join to the empty text; otherwise the text starts with the first part |
| JsStrings.JoinHoldsSeparator | src/pages/buyer-dashboard/SearchProducts.tsx:117 | with separator-free parts, the joined text holds the separator exactly when there are two parts or more |
| JsStrings.Split | src/pages/buyer-dashboard/SearchProducts.tsx:117 | the parts are separator-free and join back to the input; there is more than one part exactly when the separator occurs |
| JsStrings.SplitJoin | src/pages/buyer-dashboard/SearchProducts.tsx:117 | separator-free parts split back to themselves after joining |
| JsStrings.DigitChar | src/pages/manufacturer/MyProducts.tsx:124 | the decimal digit character of a number below ten |
| JsStrings.NatToString | src/pages/manufacturer/MyProducts.tsx:124 | the decimal text of a number: non-empty, all digits, with a leading zero only for zero |
| JsStrings.IntToString | src/pages/manufacturer/Dashboard.tsx:78-102 | `toString` of an integer: a leading minus exactly for a negative number, followed by digits that read back as its magnitude |
| JsStrings.NatToStringRoundTrip | src/pages/manufacturer/MyProducts.tsx:124 | reading the decimal text back gives the number |
| Seqs.SubsequenceBounds | src/pages/buyer-dashboard/SavedItems.tsx:75 | a subsequence is no longer than the list and has no new elements |
| Seqs.SubsequenceReflexive | src/pages/buyer-dashboard/SearchProducts.tsx:85 | a list is a subsequence of itself |
| Seqs.SubsequenceTransitive | src/pages/buyer-dashboard/SearchProducts.tsx:88-101 | filtering twice still yields a subsequence of the original |
| Seqs.Filter | src/pages/buyer-dashboard/SavedItems.tsx:75 | `Array.filter`: an order-preserving subsequence holding exactly the elements that pass, each as often as in the input |
| Seqs.FilterKeepsAll | src/pages/buyer-dashboard/SearchProducts.tsx:85-101 | a filter every element passes keeps the list |
| Seqs.FilterCompose | src/pages/buyer-dashboard/SearchProducts.tsx:85-101 | filtering twice is filtering once by both tests together |
| Seqs.FilterExtensional | src/pages/buyer-dashboard/SearchProducts.tsx:88-93 | filters that agree on every element give the same list |
| Seqs.FilterMonotone | src/pages/buyer-dashboard/DashboardHome.tsx:49-51 | a weaker test keeps at least as many elements |
| Seqs.FilterComplement | src/pages/buyer-dashboard/SavedItems.tsx:75 | a test and its negation split the list's length |
| Seqs.DisjointFilters | src/pages/manufacturer/Inquiries.tsx:59-61 | three mutually exclusive tests keep at most the list's length together |
| Seqs.Take | src/pages/manufacturer/Dashboard.tsx:58 | `slice(0, n)`: the first min(n, length) elements |
| Seqs.RemoveAt | src/pages/manufacturer/AddProduct.tsx:71-74 | `filter((_, i) => i !== index)`: the entry at the index is gone and the rest keep their order; an out-of-range index changes nothing |
| Seqs.Find | src/pages/buyer-dashboard/RequestMaterial.tsx:101 | `Array.find`: None exactly when nothing matches, otherwise the first match |
| Browser.UsableToken | src/services/api.jsx:15-16 | a stored token counts exactly when present and non-empty |
| Api.ErrorMessage | src/pages/Login.tsx:46-55 | `error.response?.data?.message \|\| fallback`: the server's non-empty message, otherwise the fallback |
| Api.RouteRoundTrip | src/services/api.jsx:38-68 | every endpoint whose ids are non-empty, slash-free and not one of the fixed route names "manufacturer", "buyer" and "stats" parses back from its verb and path; `StatsIdIsAmbiguous` shows the id "stats" does not |
| Api.FixedRoundTrip | src/services/api.jsx:38-58 | every fixed path parses back to its endpoint |
| Api.FixedInquiryRoundTrip | src/services/api.jsx:61-67 | the three fixed inquiry paths parse back to their endpoints |
| Api.StripInquiriesPrefix | src/services/api.jsx:60-68 | removing the inquiries prefix gives back what followed it |
| Api.SplitAtFirstSlash | src/services/api.jsx:65-66 | an `/:id/action` path splits at the slash after the id |
| Api.InquiryGetRoundTrip | src/services/api.jsx:63 | `GET /inquiries/:id` parses back to that inquiry |
| Api.InquiryUpdateStatusRoundTrip | src/services/api.jsx:65 | `PUT /inquiries/:id/status` parses back |
| Api.InquiryRespondRoundTrip | src/services/api.jsx:66 | `POST /inquiries/:id/respond` parses back |
| Api.StatsIdIsAmbiguous | src/services/api.jsx:63-67 | fetching the inquiry with id `stats` issues the same request as the statistics call |
| Api.WithBearer | src/services/api.jsx:13-20 | with a usable token, the header carries `Bearer <token>`; otherwise the headers are unchanged; other headers are untouched either way |
| Api.BearerCredential | src/services/api.jsx:17 | the credential that follows `Bearer ` is exactly the stored token, per section 2.1 of RFC 6750 |
| Api.AfterError | src/services/api.jsx:26-36 | a 401 clears the token and the user and goes to `/login`; any other error leaves the browser as it was |
| Api.AfterReply | src/services/api.jsx:26-36 | a success leaves the browser as it was; a failure has the error's effect |
| Api.UnauthorizedConverges | src/services/api.jsx:29-33 | after a 401 any further error leaves the browser unchanged |
| Api.AfterErrorKeepsPairing | src/services/api.jsx:29-33 | errors never separate a stored token from its stored user |
| Api.RequestConfig.constructor | src/services/api.jsx:6-11 | a request config starts with its endpoint and the JSON headers |
| Api.InterceptRequest | src/services/api.jsx:13-20 | the config's headers become the bearer-augmented headers for the token stored at send time |
| Api.InterceptError | src/services/api.jsx:26-36 | the error is rejected unchanged, and the window takes the error's effect |
| Api.Send | src/services/api.jsx:13-36 | a call sends the bearer headers, hands back the reply, and leaves the window as the reply's effect says |
| Api.FreshTokenPerRequest | src/services/api.jsx:15 | each request reads the token stored at that moment, not one captured earlier |
| AuthContext.InitialSession | src/services/authContext.jsx:16-17 | no user and loading, over the given store |
| AuthContext.CheckAuthStep | src/services/authContext.jsx:23-37 | without a usable token only loading ends; otherwise a success sets the user and a failure clears it, with the 401 effect on the store |
| AuthContext.SignInStep | src/services/authContext.jsx:40-77 | a success stores the token and the user and sets the user; a failure changes only the store, through the 401 handling |
| AuthContext.LogoutStep | src/services/authContext.jsx:79-84 | no user, neither key stored, navigation to `/login` |
| AuthContext.UpdateUserStep | src/services/authContext.jsx:86-90 | the update's fields win, the old user's other fields stay, the new user has exactly the old keys and the update's keys, the result is stored, and the token is untouched |
| AuthContext.UseAuth | src/services/authContext.jsx:7-13 | an error exactly when used outside the provider; otherwise the provider |
| AuthContext.AuthProvider.constructor | src/services/authContext.jsx:15-17 | the provider starts in the initial session over the window |
| AuthContext.AuthProvider.CheckAuth | src/services/authContext.jsx:23-37 | the new state is `CheckAuthStep` of the old state |
| AuthContext.AuthProvider.SignIn | src/services/authContext.jsx:40-77 | the new state is `SignInStep`; the result is the user or the error |
| AuthContext.AuthProvider.Login | src/services/authContext.jsx:40-57 | `login` is `SignInStep` through the login endpoint |
| AuthContext.AuthProvider.Register | src/services/authContext.jsx:59-77 | `register` is `SignInStep` through the register endpoint |
| AuthContext.AuthProvider.Logout | src/services/authContext.jsx:79-84 | the new state is `LogoutStep` |
| AuthContext.AuthProvider.UpdateUser | src/services/authContext.jsx:86-90 | the new state is `UpdateUserStep` |
| AuthContext.SignInPairsKeys | src/services/authContext.jsx:48-50 | a successful sign-in stores a paired token and user that agree with the session |
| AuthContext.StepsKeepPairing | src/services/authContext.jsx:23-84 | check, sign-in and logout keep the stored token and user paired |
| AuthContext.UpdateUserSignedOutUnpairs | src/services/authContext.jsx:86-90 | `updateUser` with no token stored leaves a user stored without a token |
| AuthContext.UpdateUserAgrees | src/services/authContext.jsx:86-90 | after `updateUser` the stored user equals the session user |
| AuthContext.CheckAuthDoesNotStoreUser | src/services/authContext.jsx:26-28 | `checkAuth` sets a fresh user without storing it, so the session and the store can disagree |
| AuthContext.LogoutIdempotent | src/services/authContext.jsx:79-84 | logging out twice is logging out once |
| AuthContext.SignInFailure | src/services/authContext.jsx:53-56 | a failed sign-in keeps the user; only a 401 clears the store |
| AuthContext.UpdateUserEmpty | src/services/authContext.jsx:87 | an empty update keeps the signed-in user |
| Marketplace.OrEmpty | src/pages/buyer-dashboard/SearchProducts.tsx:63 | `\|\| []`: the list, or empty when missing |
| Marketplace.LocationFromAddress | src/pages/buyer-dashboard/SearchProducts.tsx:114-122 | no address gives the placeholder; an address without commas is shown whole |
| Marketplace.LocationOfParts | src/pages/buyer-dashboard/SearchProducts.tsx:117-119 | for two or more comma-separated parts, the location is the last two, trimmed and joined by ", " |
| Marketplace.AddressIsJoinedParts | src/pages/buyer-dashboard/SavedItems.tsx:99-107 | every address is the join of its comma parts |
| SearchProducts.Filtered | src/pages/buyer-dashboard/SearchProducts.tsx:84-104 | the two filters in a row are one filter by `Shown`; an empty query with "all" shows everything |
| SearchProducts.FilteredShowsExactly | src/pages/buyer-dashboard/SearchProducts.tsx:84-104 | the shown products are an order-preserving subsequence of the loaded ones, each shown product appearing as often as it is loaded and no other product appearing |
| SearchProducts.ToLowerIdempotent | src/pages/buyer-dashboard/SearchProducts.tsx:88 | lowering twice is lowering once |
| SearchProducts.QueryIgnoresCase | src/pages/buyer-dashboard/SearchProducts.tsx:88-94 | the search ignores the query's letter case |
| SearchProducts.MatchesQuery | src/pages/buyer-dashboard/SearchProducts.tsx:88-93 | an empty query matches every product; a matching query is no longer than the title, the description or the company name |
| SearchProducts.MatchesCategory | src/pages/buyer-dashboard/SearchProducts.tsx:97-100 | the same category matches; a match means the same length and the same characters once lowered |
| SearchProducts.MatchesQueryMeansOccurs | src/pages/buyer-dashboard/SearchProducts.tsx:89-93 | a product matches exactly when the lowered query occurs in its lowered title, description or company name |
| SearchProducts.MarkUnsaved | src/pages/buyer-dashboard/SearchProducts.tsx:66-69 | every fetched product is unsaved and otherwise unchanged |
| SearchProducts.SetSaved | src/pages/buyer-dashboard/SearchProducts.tsx:136-142 | only products with the id take the flag |
| SearchProducts.ToggleSaved | src/pages/buyer-dashboard/SearchProducts.tsx:124-151 | products with the id take the negation of the first such product's flag; the others are unchanged |
| SearchProducts.ToggleSavedAt | src/pages/buyer-dashboard/SearchProducts.tsx:124-151 | the first product with the id decides the flag: toggling gives every product with the id that product's negated flag |
| SearchProducts.SetSavedTwice | src/pages/buyer-dashboard/SearchProducts.tsx:124-151 | when every product with the id shares one flag, setting the opposite flag and then the original one restores the list |
| SearchProducts.ToggleSavedTwice | src/pages/buyer-dashboard/SearchProducts.tsx:124-151 | toggling twice restores the list |
| SearchProducts.SearchPage.constructor | src/pages/buyer-dashboard/SearchProducts.tsx:41-46 | empty query, category "all", no products, loading, over the given browser window |
| SearchProducts.SearchPage.FilterProducts | src/pages/buyer-dashboard/SearchProducts.tsx:55-57 | the effect sets the shown list to `Filtered` of the products, query and category |
| SearchProducts.SearchPage.SetSearchQuery | src/pages/buyer-dashboard/SearchProducts.tsx:183 | the query changes and the shown list is refiltered |
| SearchProducts.SearchPage.SetCategory | src/pages/buyer-dashboard/SearchProducts.tsx:187 | the category changes and the shown list is refiltered |
| SearchProducts.SearchPage.FetchProducts | src/pages/buyer-dashboard/SearchProducts.tsx:59-82 | a success loads the list, all unsaved; a failure keeps it; loading ends. The window ends as `AfterReply` of the reply. |
| SearchProducts.SearchPage.HandleSaveProduct | src/pages/buyer-dashboard/SearchProducts.tsx:124-151 | the product's flag is toggled and the saving marker cleared |
| SavedItems.SavedDateLabel | src/pages/buyer-dashboard/SavedItems.tsx:69 | "1 day ago" for one, otherwise "n days ago" |
| SavedItems.SavedDateLabelReadsBack | src/pages/buyer-dashboard/SavedItems.tsx:69 | the label starts with the number's digits, which read back as the number |
| SavedItems.SavedDayLabels | src/pages/buyer-dashboard/SavedItems.tsx:67-69 | the five labels the page can show |
| SavedItems.RandomSavedDate | src/pages/buyer-dashboard/SavedItems.tsx:66-70 | the label is one of the five |
| SavedItems.SavedSelection | src/pages/buyer-dashboard/SavedItems.tsx:50-54 | the first (at most) three products, each marked saved with a random label |
| SavedItems.RemoveById | src/pages/buyer-dashboard/SavedItems.tsx:75 | a subsequence with no product of the id and every other product kept |
| SavedItems.RemoveByIdIdempotent | src/pages/buyer-dashboard/SavedItems.tsx:72-76 | removing twice is removing once |
| SavedItems.RemoveByIdCount | src/pages/buyer-dashboard/SavedItems.tsx:75 | the removed and the kept products make up the list |
| SavedItems.SavedCaption | src/pages/buyer-dashboard/SavedItems.tsx:180 | "Saved " and the label, or "Saved recently" without one |
| SavedItems.SavedItemsPage.constructor | src/pages/buyer-dashboard/SavedItems.tsx:34-35 | no products, loading, over the given browser window |
| SavedItems.SavedItemsPage.FetchSavedProducts | src/pages/buyer-dashboard/SavedItems.tsx:41-64 | a success shows `SavedSelection`; a failure keeps the list; loading ends. The window ends as `AfterReply` of the reply. |
| SavedItems.SavedItemsPage.HandleRemove | src/pages/buyer-dashboard/SavedItems.tsx:72-76 | the list becomes `RemoveById` of the old list |
| Inquiries.CountStatus | src/pages/manufacturer/Inquiries.tsx:59-61 | a count of inquiries with a status: never above the list's length, and zero exactly when none has that status |
| Inquiries.FilterCountsStatus | src/pages/manufacturer/Inquiries.tsx:59-61 | filtering by a status keeps as many inquiries as have that status |
| Inquiries.ComputeStats | src/pages/manufacturer/Inquiries.tsx:57-64 | the total and the three status counts, which never exceed the total together |
| Inquiries.StatusText | src/pages/manufacturer/Inquiries.tsx:142-157 | the five known statuses' labels; an unknown status is shown as itself |
| Inquiries.StatusColor | src/pages/manufacturer/Inquiries.tsx:95-110 | the five known statuses' colours; grey exactly for an unknown status |
| Inquiries.StatusColorsDistinct | src/pages/manufacturer/Inquiries.tsx:95-110 | two different known statuses never share a colour |
| Inquiries.PriorityColor | src/pages/manufacturer/Inquiries.tsx:129-140 | the three priorities' colours; grey exactly for any other |
| Inquiries.PriorityLabel | src/pages/manufacturer/Inquiries.tsx:277 | the priority with its first letter upper-cased |
| Inquiries.BudgetCell | src/pages/manufacturer/Inquiries.tsx:272 | no budget, or a zero budget, shows 'Not specified'; any other budget is shown |
| Inquiries.ActionStatus | src/pages/manufacturer/Inquiries.tsx:291-298 | Accept sends "accepted"; Discuss sends "in_discussion" |
| Inquiries.InquiriesPage.constructor | src/pages/manufacturer/Inquiries.tsx:35-42 | an empty list, zero statistics, loading, over the given browser window |
| Inquiries.InquiriesPage.FetchInquiries | src/pages/manufacturer/Inquiries.tsx:48-76 | a list sets the inquiries and their statistics; a reply without a list leaves the inquiries undefined; a failure keeps both; loading ends. The window ends as `AfterReply` of the reply. |
| Inquiries.InquiriesPage.HandleStatusUpdate | src/pages/manufacturer/Inquiries.tsx:78-93 | the status update is sent; a failure changes nothing; after a success loading has ended, a refetched list replaces the list and its counts, a reply without a list leaves the list undefined and the counts as they were, and a failed refetch changes neither. The window ends as `AfterReply` of the failed update, or of the refetch after a success. |
| Inquiries.InquiriesPage.OnRowAction | src/pages/manufacturer/Inquiries.tsx:291-298 | a row button sends `PUT /inquiries/:id/status` for that inquiry with the button's status, and the page then changes exactly as `HandleStatusUpdate` promises. The window ends as in `HandleStatusUpdate`. |
| DashboardHome.ComputeBuyerStats | src/pages/buyer-dashboard/DashboardHome.tsx:49-58 | the active count is the pending, responded and in-discussion counts together; the other three figures are the page's constants |
| DashboardHome.ActiveIndicator | src/pages/buyer-dashboard/DashboardHome.tsx:49-51 | one inquiry counts as active exactly when it is pending, responded or in discussion, and it is never also accepted or rejected |
| DashboardHome.ActiveCountIsSum | src/pages/buyer-dashboard/DashboardHome.tsx:49-51 | the active filter keeps exactly the three statuses' counts together |
| DashboardHome.ActiveIsOpen | src/pages/buyer-dashboard/DashboardHome.tsx:49-51 | an inquiry is active exactly when its status is a known one other than accepted and rejected |
| DashboardHome.ClosedNeverActive | src/pages/buyer-dashboard/DashboardHome.tsx:50 | the active, accepted and rejected inquiries together never exceed the total |
| DashboardHome.ActivityOf | src/pages/buyer-dashboard/DashboardHome.tsx:61-71 | the activity entry names the inquiry's manufacturer, product and creation date, and is never the welcome entry |
| DashboardHome.RecentActivity | src/pages/buyer-dashboard/DashboardHome.tsx:61-85 | no inquiries give the welcome entry; otherwise up to four entries, one per leading inquiry |
| DashboardHome.DashboardHomePage.constructor | src/pages/buyer-dashboard/DashboardHome.tsx:27-34 | zero statistics, no activity, loading, over the given browser window |
| DashboardHome.DashboardHomePage.FetchDashboardData | src/pages/buyer-dashboard/DashboardHome.tsx:40-96 | a success sets the statistics and activity from the list; a failure keeps both; loading ends. The window ends as `AfterReply` of the reply. |
| AddProduct.AfterUpload | src/pages/manufacturer/AddProduct.tsx:38-54 | no selection, or a batch beyond five images, changes nothing; otherwise the batch is appended; never more than five |
| AddProduct.RemoveUndoesUpload | src/pages/manufacturer/AddProduct.tsx:54-74 | removing the image just added restores the list |
| AddProduct.PayloadOf | src/pages/manufacturer/AddProduct.tsx:81-93 | the fields are copied from the form; the specifications hold minimum order and lead time |
| AddProduct.AddProductPage.constructor | src/pages/manufacturer/AddProduct.tsx:22-36 | an empty form, no images, not loading, over the given browser window |
| AddProduct.AddProductPage.HandleImageUpload | src/pages/manufacturer/AddProduct.tsx:38-69 | the images become `AfterUpload`; the rejection is reported exactly when the cap is exceeded |
| AddProduct.AddProductPage.OnPreviewLoaded | src/pages/manufacturer/AddProduct.tsx:57-63 | a finished reader appends its preview |
| AddProduct.AddProductPage.RemoveImage | src/pages/manufacturer/AddProduct.tsx:71-74 | the index leaves both images and previews |
| AddProduct.AddProductPage.HandleChange | src/pages/manufacturer/AddProduct.tsx:115-120 | only the named field changes |
| AddProduct.AddProductPage.HandleSubmit | src/pages/manufacturer/AddProduct.tsx:76-113 | the payload is sent; a success goes to the product list; a failure yields the message; loading ends. The window ends as `AfterReply` of the reply. |
| RequestMaterial.WithInquiryField | src/pages/buyer-dashboard/RequestMaterial.tsx:131-194 | only the named field changes |
| RequestMaterial.WithUrlProductId | src/pages/buyer-dashboard/RequestMaterial.tsx:41-47 | a non-empty `productId` parameter sets the product and nothing else |
| RequestMaterial.InquiryDataOf | src/pages/buyer-dashboard/RequestMaterial.tsx:67-73 | an empty budget or deadline is left out; the other fields are passed on |
| RequestMaterial.SubmitDisabled | src/pages/buyer-dashboard/RequestMaterial.tsx:204 | the button is enabled exactly when not loading and product, message and quantity are filled |
| RequestMaterial.EnabledSubmitSendsRequiredFields | src/pages/buyer-dashboard/RequestMaterial.tsx:62-73 | an enabled submit sends a product, a message and a quantity |
| RequestMaterial.SelectedProduct | src/pages/buyer-dashboard/RequestMaterial.tsx:101 | None exactly when no product has the id; otherwise the first listed product with that id |
| RequestMaterial.SelectedProductIsFirst | src/pages/buyer-dashboard/RequestMaterial.tsx:101 | when several products share the id, the earliest one is selected |
| RequestMaterial.RequestMaterialPage.constructor | src/pages/buyer-dashboard/RequestMaterial.tsx:24-33 | an empty form, no products, products loading, over the given browser window |
| RequestMaterial.RequestMaterialPage.ApplySearchParams | src/pages/buyer-dashboard/RequestMaterial.tsx:41-47 | the form becomes `WithUrlProductId` |
| RequestMaterial.RequestMaterialPage.FetchProducts | src/pages/buyer-dashboard/RequestMaterial.tsx:49-60 | a success loads the list or empty; a failure keeps it. The window ends as `AfterReply` of the reply. |
| RequestMaterial.RequestMaterialPage.SetField | src/pages/buyer-dashboard/RequestMaterial.tsx:131-194 | the form becomes `WithInquiryField` |
| RequestMaterial.RequestMaterialPage.HandleSubmit | src/pages/buyer-dashboard/RequestMaterial.tsx:62-99 | the inquiry is sent; a success clears all five fields; a failure keeps them and yields the message. The window ends as `AfterReply` of the reply. |
| AccountForms.ProfileFrom | src/pages/manufacturer/Settings.tsx:51-69 | exactly the seven profile fields, each the user's text or "" |
| AccountForms.EmptyProfile | src/pages/manufacturer/Settings.tsx:33-41 | the seven fields, all empty |
| AccountForms.ProfileFromIdempotent | src/pages/buyer-dashboard/Profile.tsx:76-84 | refilling the form from a filled form changes nothing |
| AccountForms.WithPasswordField | src/pages/manufacturer/Settings.tsx:233-238 | only the named password field changes |
| AccountForms.CheckPasswordChange | src/pages/manufacturer/Settings.tsx:141-157 | a mismatch is refused first, then a new password under six characters; the request (without the confirmation) exactly when both pass |
| AccountForms.EmptyPasswordsRefused | src/pages/manufacturer/Settings.tsx:150-176 | the cleared form is refused as too short |
| AccountForms.CheckDelete | src/pages/manufacturer/Settings.tsx:190-197 | refused exactly when the password is empty |
| AccountForms.LogoAccepted | src/pages/manufacturer/Settings.tsx:72-82 | a chosen file is accepted up to and including 5 MiB and refused at every larger size; no file is never accepted |
| AccountForms.CustomAvatar | src/pages/manufacturer/Settings.tsx:65-67 | the avatar exactly when present, non-empty and not the placeholder |
| Settings.SettingsPage.constructor | src/pages/manufacturer/Settings.tsx:28-49 | empty forms, no logo, not loading |
| Settings.SettingsPage.OnUserChanged | src/pages/manufacturer/Settings.tsx:51-69 | a signed-in user fills the form, and a custom avatar becomes the preview; otherwise nothing changes |
| Settings.SettingsPage.HandleLogoUpload | src/pages/manufacturer/Settings.tsx:71-92 | a file of at most 5 MiB is kept; otherwise nothing changes |
| Settings.SettingsPage.OnLogoLoaded | src/pages/manufacturer/Settings.tsx:87-90 | the reader's data URL becomes the preview |
| Settings.SettingsPage.RemoveLogo | src/pages/manufacturer/Settings.tsx:94-100 | neither preview nor file is left |
| Settings.SettingsPage.HandleProfileUpdate | src/pages/manufacturer/Settings.tsx:102-136 | a success is `UpdateUserStep`, refills the form from the new user and shows the new user's own logo (keeping the old preview when it has none); a failure only has the 401 effect and yields the message |
| Settings.SettingsPage.HandlePasswordUpdate | src/pages/manufacturer/Settings.tsx:138-187 | a refused form sends nothing and changes nothing; otherwise the request is sent, a success clears the form, and a failure keeps it |
| Settings.SettingsPage.HandleDeleteAccount | src/pages/manufacturer/Settings.tsx:189-224 | an empty password sends nothing; otherwise the request is sent, the password cleared, and the logout scheduled exactly on success |
| Settings.SettingsPage.HandleProfileChange | src/pages/manufacturer/Settings.tsx:226-231 | only the named field changes |
| Settings.SettingsPage.HandlePasswordChange | src/pages/manufacturer/Settings.tsx:233-238 | the password form becomes `WithPasswordField` |
| Settings.SettingsPage.SetDeletePassword | src/pages/manufacturer/Settings.tsx:494 | the deletion password takes the input |
| Profile.ProfilePage.constructor | src/pages/buyer-dashboard/Profile.tsx:45-64 | empty forms, the profile loading |
| Profile.ProfilePage.FetchProfile | src/pages/buyer-dashboard/Profile.tsx:70-96 | a success fills the seven fields from the profile; a failure keeps the form and has the 401 effect |
| Profile.ProfilePage.HandleProfileUpdate | src/pages/buyer-dashboard/Profile.tsx:98-124 | a success is `UpdateUserStep`, without refilling the form; a failure yields the message |
| Profile.ProfilePage.HandlePasswordUpdate | src/pages/buyer-dashboard/Profile.tsx:126-175 | the same guards and outcome as the settings page |
| Profile.ProfilePage.HandleDeleteAccount | src/pages/buyer-dashboard/Profile.tsx:177-209 | an empty password sends nothing; otherwise the request is sent and the password cleared; no logout |
| Profile.ProfilePage.HandleProfileChange | src/pages/buyer-dashboard/Profile.tsx:211-216 | one of the seven fields changes and the form keeps its seven fields |
| Profile.ProfilePage.HandlePasswordChange | src/pages/buyer-dashboard/Profile.tsx:218-223 | the password form becomes `WithPasswordField` |
| Profile.ProfilePage.SetDeletePassword | src/pages/buyer-dashboard/Profile.tsx:460 | the deletion password takes the input |
| Navigation.RoleText | src/pages/Register.tsx:15 | the three roles have three distinct texts |
| Navigation.RoleOfText | src/pages/Register.tsx:15 | a text names a role exactly when it is one of the three |
| Navigation.RoleTextRoundTrip | src/pages/Register.tsx:15 | a role's text reads back as the role |
| Navigation.UserRole | src/pages/Login.tsx:35-44 | the user's role field, read back as a role when it is one |
| Login.RedirectAfterLogin | src/pages/Login.tsx:35-44 | manufacturers go to their dashboard, buyers to theirs, anyone else home, always replacing the entry |
| Login.LoginPage.constructor | src/pages/Login.tsx:13-17 | an empty form, not loading |
| Login.LoginPage.SetEmail | src/pages/Login.tsx:76 | only the email changes |
| Login.LoginPage.SetPassword | src/pages/Login.tsx:88 | only the password changes |
| Login.LoginPage.HandleSubmit | src/pages/Login.tsx:19-56 | the session takes `SignInStep`; a success redirects by role; a failure yields the message or "Invalid credentials" |
| Register.WithRegisterField | src/pages/Register.tsx:152-215 | only the named field changes |
| Register.RegistrationRequest | src/pages/Register.tsx:34-55 | refused exactly when the passwords differ; otherwise the payload with the role and without the confirmation |
| Register.RedirectAfterRegister | src/pages/Register.tsx:66-76 | the dashboard of the chosen role, replacing the entry |
| Register.RegisterPage.constructor | src/pages/Register.tsx:14-24 | step one, no role, an empty form |
| Register.RegisterPage.HandleRoleSelect | src/pages/Register.tsx:26-29 | the role is chosen and step two shown |
| Register.RegisterPage.Back | src/pages/Register.tsx:135 | back to step one; everything else is kept |
| Register.RegisterPage.SetField | src/pages/Register.tsx:152-215 | the form becomes `WithRegisterField` |
| Register.RegisterPage.HandleSubmit | src/pages/Register.tsx:31-88 | a mismatch sends nothing; otherwise `register` runs, a success redirects by role, and a failure yields the message or the fallback |
| Register.LoginAgreesWithRegister | src/pages/Register.tsx:66-76 | signing in later sends a user to the same place registering did |
| NotFound.RedirectAfterNotFoundRegister | src/pages/NotFound.tsx:60-65 | manufacturers go to their dashboard, anyone else home, without replacing the entry |
| NotFound.RedirectsDiffer | src/pages/NotFound.tsx:60-65 | the two registration forms agree for manufacturers but not for buyers |
| NotFound.NotFoundPage.constructor | src/pages/NotFound.tsx:14-24 | step one, no role, an empty form |
| NotFound.NotFoundPage.HandleRoleSelect | src/pages/NotFound.tsx:26-29 | the role is chosen and step two shown |
| NotFound.NotFoundPage.Back | src/pages/NotFound.tsx:127 | back to step one |
| NotFound.NotFoundPage.SetField | src/pages/NotFound.tsx:144-207 | the form becomes `WithRegisterField` |
| NotFound.NotFoundPage.HandleSubmit | src/pages/NotFound.tsx:31-74 | as on the registration page, but with this page's redirect |
| ManufacturerLayout.PageTitle | src/components/ManufacturerLayout.tsx:9-17 | the first keyword the path contains decides the title, in the order dashboard, products, add-product, inquiries, settings; none gives "Dashboard" |
| ManufacturerLayout.NoKeywordIsDashboard | src/components/ManufacturerLayout.tsx:16 | a path with none of the keywords is titled "Dashboard" |
| ManufacturerLayout.AddProductTitle | src/components/ManufacturerLayout.tsx:11-13 | a path containing "add-product" but neither "dashboard" nor "products" is titled "Add Product" |
| ManufacturerLayout.AddProductUnder | src/components/ManufacturerLayout.tsx:11-13 | a path ending in "add-product" whose start has no 'h' and no 's' is titled "Add Product" |
| ManufacturerLayout.AddProductPageTitle | src/components/ManufacturerLayout.tsx:13 | the add-product route is titled "Add Product" |
| MyProducts.StatusBadge | src/pages/manufacturer/MyProducts.tsx:77-86 | the three statuses' badges; the default exactly for any other |
| MyProducts.StatusLabel | src/pages/manufacturer/MyProducts.tsx:88 | the first letter upper-cased and only the first later hyphen turned into a space |
| MyProducts.LabelReplacesOnlyFirstHyphen | src/pages/manufacturer/MyProducts.tsx:88 | in a status of several hyphens only the first becomes a space |
| MyProducts.CountText | src/pages/manufacturer/MyProducts.tsx:124 | the count's digits, then "product listed" for one and "products listed" otherwise |
| MyProducts.MyProductsPage.constructor | src/pages/manufacturer/MyProducts.tsx:33-34 | no products, loading, over the given browser window |
| MyProducts.MyProductsPage.FetchProducts | src/pages/manufacturer/MyProducts.tsx:40-55 | a success loads the list or empty; a failure keeps it; loading ends. The window ends as `AfterReply` of the reply. |
| MyProducts.MyProductsPage.HandleDelete | src/pages/manufacturer/MyProducts.tsx:57-75 | an unconfirmed delete changes nothing; a confirmed one deletes nothing and refetches. The window is unchanged when unconfirmed, and `AfterReply` of the refetch otherwise. |
| ManufacturerDashboard.RecentInquiries | src/pages/manufacturer/Dashboard.tsx:58 | the first three inquiries, or all when fewer |
| ManufacturerDashboard.StatCards | src/pages/manufacturer/Dashboard.tsx:75-108 | four cards: products, inquiries, pending and accepted |
| ManufacturerDashboard.CardsIgnoreRespondedAndInDiscussion | src/pages/manufacturer/Dashboard.tsx:75-108 | the responded and in-discussion figures never reach the cards |
| ManufacturerDashboard.CardValuesReadBack | src/pages/manufacturer/Dashboard.tsx:75-108 | each card's value reads back as its figure |
| ManufacturerDashboard.HoursElapsed | src/pages/manufacturer/Dashboard.tsx:113 | the whole hours in a span, rounded down (also for a span that is negative) |
| ManufacturerDashboard.FormatTimeAgo | src/pages/manufacturer/Dashboard.tsx:110-118 | an unparseable date reads "NaN days ago"; "Just now" exactly under an hour |
| ManufacturerDashboard.TimeAgoInHours | src/pages/manufacturer/Dashboard.tsx:116 | between one hour and a day, the text counts hours |
| ManufacturerDashboard.TimeAgoInDays | src/pages/manufacturer/Dashboard.tsx:117 | from a day on, the text counts whole days |
| ManufacturerDashboard.HeaderLogo | src/pages/manufacturer/Dashboard.tsx:152 | the user's custom avatar exactly when there is one |
| ManufacturerDashboard.DashboardPage.constructor | src/pages/manufacturer/Dashboard.tsx:33-42 | zero statistics, no inquiries, loading, over the given browser window |
| ManufacturerDashboard.DashboardPage.FetchDashboardData | src/pages/manufacturer/Dashboard.tsx:48-73 | the inquiries are requested exactly after the statistics arrive; both set only when both succeed; loading ends. The window ends as `AfterReply` of the failed statistics reply, or of the inquiries reply after a successful one. |

## Left out

- Networking: the axios instance, its base URL and timeouts. Each call's outcome is a `Reply` parameter.
- Rendering: JSX, toasts, icons and styling classes other than the badge and colour classes above.
- Timers: `setTimeout`. Settings' scheduled logout is only returned as `logoutScheduled`. RequestMaterial's navigation to the messages page after submitting is not modelled.
- Number parsing and formatting:
  - `parseInt` and `parseFloat`: the quantity, budget and price are kept as text in the payloads.
  - `toLocaleDateString` and `Intl` formatting. The buyer dashboard's activity time stays the inquiry's date string.
- Randomness: `Math.random`. The saved-items page takes the random picks as a parameter.
- Strings and JSON:
  - Only ASCII letters change case.
  - String length counts characters, not UTF-16 code units.
  - `JSON.stringify`/`JSON.parse` of the stored user is taken as the identity.
- Asynchronous interleaving: two handlers running at once, or a reply arriving after the page unmounts. Each handler runs to completion in one step.
- FileReader callbacks: their order. `OnPreviewLoaded` and `OnLogoLoaded` model each callback as it arrives.
- Malformed replies: a sign-in reply without a user or a token, and a dashboard statistics reply without statistics.
- MyProducts.StatusBadge: looking up a prototype key such as `constructor` in the status table is not modelled. Any unknown status gets the default badge.
- Settings.SettingsPage.HandlePasswordChange: the field name is one of the three password fields, where the source accepts any string.
- Register.RegisterPage.SetField: the six form fields are an enumeration rather than arbitrary keys.
- MyProducts.LabelReplacesOnlyFirstHyphen: proved for any status of the form word-hyphen-rest, not for the literal "out-of-stock".
- Api.Route: has no contract of its own. `Api.RouteRoundTrip` states what it promises.
- ManufacturerLayout.AddProductTitle: proved only for paths with no 'h' and no 's'. The "/manufacturer/products" title is not proved as a literal.
- SearchProducts.SearchPage.HandleSaveProduct: the success toast, whose call fails after the state update, is not modelled. The state is the same either way.
- The development-only `console.log` calls.
