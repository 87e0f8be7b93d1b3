# Beijing admin console: notification dispatch, Maps loader and admin pages in Dafny

This project models the core of the Beijing admin console, a Next.js web
application for managing a social app. It covers five parts:

- **Notification dispatch endpoint** (`notifications.dfy`). `POST
  /api/notifications` splits the payloads into chunks of `EXPO_BATCH_LIMIT` =
  100 (`chunkArray`). It sends the chunks in waves of `CONCURRENT_LIMIT` = 20
  and answers with `{success, sent, failed, total}`, or status 500 when the
  body does not parse, parses to `null`, or parses to a non-array object
  whose `length` converts to a number above 0. The push gateway is an oracle that tells each chunk's
  send (`sendBatch`) whether it was accepted, refused with a reply, or threw.
- **Google Maps script loader** (`google_maps.dfy`). The module-level flags
  `isLoaded`, `isLoading` and `loadError` and the `callbacks` waiter list
  live in a class. It has one method per event: a call to
  `loadGoogleMapsApi`, the script's ready callback, and the script's
  `onerror`. Every `resolve`/`reject` call is logged in order.
- **Admin page** (`admin.dfy`). It holds the rule `addAdmin` applies to a
  typed user id: trim, match the UUID pattern, reject duplicates, insert the
  trimmed id. It also holds the add and remove actions with their error and
  busy flags, the footer count text, and the rule that the super admin's row
  has no remove control.
- **Tags page** (`tags.dfy`). It holds the list effects of `createTag` and
  `deleteTag` on success and failure, the `loading` and `error` flags, the
  footer text, and the create button's guard.
- **Address picker** (`address-picker.tsx`, in `address_picker.dfy`). It
  holds the text emitted for a selected place, the coordinates forwarded
  while typing, and the disabled rule for a missing API key.

Two shared files support these. `js_text.dfy` models JavaScript's
`String.prototype.trim` whitespace set, string truthiness and the decimal
rendering of a count. `wrappers.dfy` holds `Option`.

State-changing code is written as classes with `modifies` clauses and loops
with invariants, and pure logic as functions with lemmas. Backend calls
(Supabase), the push gateway and the DOM are parameters. Each page logs the
requests it would send, together with the busy flag at the moment of the
call.

What the endpoint's counts mean:

- A failed chunk adds `EXPO_BATCH_LIMIT` (100) to `failed`, not its own
  length (`route.ts:67`). So 150 payloads whose second chunk fails give
  `{sent: 100, failed: 100, total: 150}`
  (`Notifications.ShortFailedChunkOvercounts`).
- `sent + failed` equals `total` exactly when no short last chunk fails
  (`Notifications.SummaryCounts`).
- The endpoint reads no query parameter, so it has no dry-run mode.
- An OK reply whose body parses as JSON counts as fully sent, whatever that
  JSON says. A reply whose body does not parse counts as failed: the reply
  is read before `response.ok` is tested (`route.ts:36-38`), and the `catch`
  returns `sent: 0`.
- A body that parses to `null` gives status 500, because reading its
  `length` throws. A number, a boolean or an object without `length` gives
  `{success: true, sent: 0, failed: 0}` with no `total`, because the chunk
  loop never runs. A non-array object for which `0 < length` holds after
  JavaScript's numeric conversion (a positive number, a numeric string such
  as `"5"`, `true`) gives status 500, because it has no `slice` method
  (`route.ts:17-18`).

## Model

| member | source | states |
|---|---|---|
| Notifications.Chunks | src/app/api/notifications/route.ts:15-21 | the partition `chunkArray` computes: the first `min(size, \|a\|)` elements, then the partition of the rest; its properties are the lemmas below |
| Notifications.ChunkArray | src/app/api/notifications/route.ts:15-21 | the index loop returns the partition `Chunks(a, size)`: its concatenation is `a` in order, every chunk is non-empty and at most `size`, all but the last are exactly `size`, and there are `ceil(\|a\|/size)` chunks |
| Notifications.ChunksFlatten | src/app/api/notifications/route.ts:15-21 | concatenating the chunks gives back exactly the input, element for element |
| Notifications.ChunksShape | src/app/api/notifications/route.ts:16-20 | chunks are non-empty, at most `size`, all but the last exactly `size`; their count `c` satisfies `(c-1)*size < \|a\| <= c*size` |
| Notifications.ChunkAt | src/app/api/notifications/route.ts:17-18 | chunk `w` is the slice `a[w*size .. min(w*size+size, \|a\|)]`, and `w*size < \|a\|` |
| Notifications.ChunksIndexed | src/app/api/notifications/route.ts:17-18 | the same for every chunk index at once |
| Notifications.SendBatch | src/app/api/notifications/route.ts:23-47 | success exactly when the gateway accepts; success reports `sent` = chunk length and no error; a refusal or exception reports `sent` 0 with the reply text or the exception message as the error |
| Notifications.SentTotal | src/app/api/notifications/route.ts:63-66 | `totalSent` after the chunks in order: each accepted chunk adds its `sent` |
| Notifications.FailedTotal | src/app/api/notifications/route.ts:63-70 | `totalFailed` after the chunks in order: each failed chunk adds `EXPO_BATCH_LIMIT` |
| Notifications.SentIsDeliveredLength | src/app/api/notifications/route.ts:63-66 | the accumulated `totalSent` is the summed length of the accepted chunks, hence at most the number of payloads |
| Notifications.FailedIsLimitPerFailure | src/app/api/notifications/route.ts:67 | the accumulated `totalFailed` is 100 times the number of failed chunks |
| Notifications.TotalsBalance | src/app/api/notifications/route.ts:63-70 | `sent + failed` equals the payload count plus, for each failed chunk, 100 minus its length |
| Notifications.FullChunksNoOvercount | src/app/api/notifications/route.ts:67 | when every chunk holds exactly 100 payloads the failure count overcounts nothing |
| Notifications.AllDeliveredTotals | src/app/api/notifications/route.ts:63-70 | when every chunk is accepted, `sent` is the payload count and `failed` is 0 |
| Notifications.TotalsAtMostLimitPerChunk | src/app/api/notifications/route.ts:63-70 | with chunks of at most 100, `sent + failed` is at most 100 per chunk |
| Notifications.SendAll | src/app/api/notifications/route.ts:59-73 | after all waves the totals are `SentTotal` and `FailedTotal` of the chunk list; the waves, built from the chunks each wave logged as sent, are the chunks taken 20 at a time |
| Notifications.SendOne | src/app/api/notifications/route.ts:61-68 | sending chunk `k` and adding its result takes the running totals of `chunks[..k]` to those of `chunks[..k + 1]` |
| Notifications.SendWave | src/app/api/notifications/route.ts:60-70 | sending one wave takes the running totals of `chunks[..start]` to those of `chunks[..end]`; the chunks handed to `sendBatch`, logged call by call, are exactly `chunks[start..end]` |
| Notifications.Post | src/app/api/notifications/route.ts:49-90 | a body that does not parse, parses to `null`, or parses to a non-array object whose `length` converts to a number above 0 gives status 500 with "Failed to send notifications" and no counts; a value without `length` gives success with 0 sent, 0 failed and no `total`; an array gives `success` true, the accumulated totals over its chunks of 100 and `total` = its length; the waves sent are the chunks taken 20 at a time |
| Notifications.WavesInOrder | src/app/api/notifications/route.ts:59-61 | the waves together are the chunk list, each chunk once and in index order; wave `w` is chunks `20w` up to `20w+20`; every wave holds between 1 and 20 chunks |
| Notifications.SummaryCounts | src/app/api/notifications/route.ts:63-82 | `sent` is the accepted payload count (at most `total`); `failed` is 100 per failed chunk; `sent + failed == total` exactly when no short last chunk failed; `sent + failed <= 100*ceil(total/100)` |
| Notifications.AllDeliveredSummary | src/app/api/notifications/route.ts:77-82 | when every chunk is accepted, `sent == total` and `failed == 0` |
| Notifications.ShortFailedChunkOvercounts | src/app/api/notifications/route.ts:63-70 | 150 payloads with the first chunk accepted and the second failing give `sent` 100 and `failed` 100 |
| GoogleMaps.WaiterSettles | src/lib/google-maps.ts:25-31 | one waiter: it rejects with `loadError` when that is set, and resolves otherwise |
| GoogleMaps.NotifyWaiters | src/lib/google-maps.ts:25-31 | each waiter, invoked in registration order, settles its own promise once and rejects with `loadError` exactly when `loadError` is set |
| GoogleMaps.MapsLoader.constructor | src/lib/google-maps.ts:6-11 | initially not loaded, not loading, no error and no waiters |
| GoogleMaps.MapsLoader.IsGoogleMapsLoaded | src/lib/google-maps.ts:86-88 | returns `isLoaded` |
| GoogleMaps.MapsLoader.Load | src/lib/google-maps.ts:16-83 | loaded: resolves at once and nothing else changes; loading: appends exactly one waiter and nothing else changes; idle: `isLoading` is set first; a missing key sets the error and rejects but leaves `isLoading` set; a set-up exception sets the error, clears `isLoading` and rejects; otherwise the script is in flight; `isLoaded` never goes back to false |
| GoogleMaps.MapsLoader.ScriptReady | src/lib/google-maps.ts:41-52 | sets loaded and clears loading, invokes every registered waiter once in order, then resolves the loading promise; `callbacks` is not cleared |
| GoogleMaps.MapsLoader.ScriptError | src/lib/google-maps.ts:67-73 | sets the error "Failed to load Google Maps API", clears loading and rejects the loading promise; queued waiters are not invoked and `isLoaded` is unchanged |
| GoogleMaps.MissingKeyQueuesLaterCalls | src/lib/google-maps.ts:58-63 | after a missing-key rejection, the next call is queued as a waiter that nothing will ever invoke |
| GoogleMaps.RetryAfterScriptError | src/lib/google-maps.ts:26-27 | `loadError` is never cleared: after a script error and a successful retry, the waiter queued behind the retry is rejected although the API is loaded |
| JsText.Truthy | src/lib/google-maps.ts:58 | JavaScript truthiness of an optional string: present and non-empty |
| JsText.Trim | src/components/page/admin.tsx:72 | `trim()` yields the part between leading and trailing JavaScript whitespace: empty exactly when the input is all whitespace, otherwise starting and ending with a kept character |
| JsText.TrimSplitsInput | src/components/page/admin.tsx:72 | the input is its leading whitespace, then the trimmed text, then trailing whitespace |
| JsText.TrimIdempotent | src/components/page/admin.tsx:72 | trimming twice is trimming once |
| JsText.Decimal | src/components/page/admin.tsx:235 | a count renders as a non-empty string of digits with no leading zero |
| JsText.DecimalRoundTrip | src/components/page/admin.tsx:235 | reading the rendered numeral back gives the count |
| Admin.IsUuid | src/components/page/admin.tsx:73-74 | the anchored pattern, group by group: 8, 4, 4, 4 and 12 hex digits of either case joined by single hyphens |
| Admin.UuidByPosition | src/components/page/admin.tsx:73 | the pattern accepts exactly the 36-character strings with hyphens at 8, 13, 18, 23 and hex digits elsewhere |
| Admin.UuidFromGroups | src/components/page/admin.tsx:73 | any five hex groups of lengths 8-4-4-4-12 joined by hyphens are accepted |
| Admin.UuidCaseInsensitive | src/components/page/admin.tsx:73 | the `i` flag: a string is accepted exactly when its lower-cased form is |
| Admin.HasAdmin | src/components/page/admin.tsx:79 | `admins.some`: some listed admin has exactly that id |
| Admin.DecideAdd | src/components/page/admin.tsx:72-86 | the trimmed id that fails the pattern is rejected as invalid; one that matches and is listed is rejected as a duplicate; otherwise exactly that trimmed id is inserted |
| Admin.DecideAddIgnoresPadding | src/components/page/admin.tsx:72 | only the trimmed input decides: the raw input and its trimmed form lead to the same decision |
| Admin.UuidHasNoWhitespace | src/components/page/admin.tsx:72-74 | an accepted id is its own trim, so the inserted id is never padded |
| Admin.FooterText | src/components/page/admin.tsx:235 | the footer expression: the error when truthy, else the count and " admin" with "s" when the count is not 1 |
| Admin.RowControlFor | src/components/page/admin.tsx:211-227 | a row shows the super-admin label when its id is the super admin's, and a remove button otherwise |
| Admin.AddDisabled | src/components/page/admin.tsx:146 | the add button is disabled while busy or while the trimmed id is empty |
| Admin.FooterShowsCount | src/components/page/admin.tsx:235 | the footer is the error when one is set, and otherwise the count's numeral followed by " admin", with an "s" exactly when the count is not 1 |
| Admin.AdminPage.constructor | src/components/page/admin.tsx:21-28 | the page starts loading, with no admins, no error, both dialogs closed and an empty input |
| Admin.AdminPage.FetchAdmins | src/components/page/admin.tsx:38-66 | the list is replaced on success; on failure it is kept and "Failed to fetch admins" set; loading is cleared either way |
| Admin.AdminPage.Footer | src/components/page/admin.tsx:235 | the footer of the page's current state |
| Admin.AdminPage.AddAdminEffect | src/components/page/admin.tsx:68-99 | the state `addAdmin` leaves for each decision and outcome, including `loading` untouched except by the reload |
| Admin.AdminPage.AddAdmin | src/components/page/admin.tsx:68-99 | error cleared and busy set first; invalid and duplicate ids set their message and send nothing; a new id is inserted trimmed; a failed insert sets the add-failed message; a successful one clears the input, closes the dialog and reloads; busy is cleared at the end |
| Admin.AdminPage.RemoveAdminEffect | src/components/page/admin.tsx:101-121 | the state `removeAdmin` leaves on failure and on success, including `loading` untouched except by the reload |
| Admin.AdminPage.RemoveAdmin | src/components/page/admin.tsx:101-121 | error cleared and busy set first; the delete is sent; failure sets "Failed to remove admin"; success closes the dialog and reloads; busy is cleared at the end |
| Admin.AdminPage.ClickAdd | src/components/page/admin.tsx:144-147 | the add button only works while the trimmed id is non-empty and nothing is busy; a request is sent exactly when the decision is an insert |
| Admin.AdminPage.OpenRemoveDialog | src/components/page/admin.tsx:211-227 | only a row whose id differs from the super admin's offers removal; it opens the dialog for that row |
| Admin.AdminPage.ConfirmRemove | src/components/page/admin.tsx:170-176 | the dialog's Remove button deletes the selected admin's id, and does nothing when none is selected |
| Tags.WithoutTitle | src/components/page/tags.tsx:76 | the filter keeps exactly the tags of other titles, each as often as before, and drops every tag of that title |
| Tags.WithoutTitleAppend | src/components/page/tags.tsx:76 | the filter distributes over concatenation, so it keeps the original order |
| Tags.WithoutAbsentTitle | src/components/page/tags.tsx:76 | a list with no tag of that title is unchanged |
| Tags.WithoutTitleIdempotent | src/components/page/tags.tsx:76 | deleting a title twice is deleting it once |
| Tags.FooterText | src/components/page/tags.tsx:127 | the footer expression: "Saving..." while loading, else the error when truthy, else "Tags saved" |
| Tags.CreateDisabled | src/components/page/tags.tsx:100 | the create button is disabled when the trimmed title is empty or while loading |
| Tags.FooterPriority | src/components/page/tags.tsx:127 | the footer is "Saving..." while loading, else the error when one is set, else "Tags saved" |
| Tags.CreateEnabledWhenTitleHasText | src/components/page/tags.tsx:100 | the create button is enabled exactly when not loading and the title has a non-whitespace character |
| Tags.TagPage.constructor | src/components/page/tags.tsx:17-21 | the page starts with no tags, no error, not loading, the dialog closed and an empty title |
| Tags.TagPage.FetchTags | src/components/page/tags.tsx:27-42 | the list is replaced on success; on failure it is kept and "Failed to fetch tags" set |
| Tags.TagPage.Footer | src/components/page/tags.tsx:127 | the footer of the page's current state |
| Tags.TagPage.CreateTagEffect | src/components/page/tags.tsx:44-64 | the state `createTag` leaves on success and on failure |
| Tags.TagPage.CreateTag | src/components/page/tags.tsx:44-64 | the title is inserted with loading set; success appends the returned row, clears the input and closes the dialog; failure keeps the list and sets "Failed to create tag", which the footer then shows; loading is false afterwards |
| Tags.TagPage.DeleteTag | src/components/page/tags.tsx:66-83 | the delete is sent with loading set; success drops every tag of that title and keeps the rest in order; failure keeps the list and sets "Failed to delete tag"; loading is false afterwards |
| Tags.TagPage.ClickCreate | src/components/page/tags.tsx:98-100 | only possible when the trimmed title is non-empty and not loading; the title is sent untrimmed |
| AddressPicker.NamesVenue | src/components/ui/address-picker.tsx:124-128 | the place's types include "establishment" or "point_of_interest" and its name is non-empty |
| AddressPicker.LocationText | src/components/ui/address-picker.tsx:123-130 | the emitted text: "name, address" for a named venue, the formatted address otherwise |
| AddressPicker.ApiKeyMissing | src/components/ui/address-picker.tsx:47 | the key is undefined or empty; the `=== ""` test adds nothing to the falsiness test |
| AddressPicker.LocationTextShape | src/components/ui/address-picker.tsx:123-130 | the formatted address always ends the text; a named establishment or point of interest is prefixed by its name and ", "; the text is the bare address exactly when the place is not such a venue |
| AddressPicker.Picker.constructor | src/components/ui/address-picker.tsx:38-41 | no coordinates are stored and nothing has been emitted |
| AddressPicker.Picker.InputDisabled | src/components/ui/address-picker.tsx:46-47 | disabled exactly when the prop is set or the key is undefined or empty |
| AddressPicker.Picker.PlaceChanged | src/components/ui/address-picker.tsx:106-132 | a place without a location emits nothing and leaves the coordinates unchanged; otherwise its coordinates are stored and emitted, exactly those, with the place's display text |
| AddressPicker.Picker.HandleInputChange | src/components/ui/address-picker.tsx:144-155 | the typed text is always emitted, with the stored coordinates when both are set and (0, 0) otherwise; the stored coordinates are unchanged |
| AddressPicker.SelectThenType | src/components/ui/address-picker.tsx:112-153 | typing after a selection forwards exactly the selected place's coordinates |
| AddressPicker.TypeBeforeSelecting | src/components/ui/address-picker.tsx:146-154 | typing before any selection forwards (0, 0) |

## Left out

- Network I/O. The push gateway's HTTP call, `request.json()`, `NextResponse` and every Supabase query are oracles passed as parameters. The per-row `profiles` lookups in `fetchAdmins` are folded into the rows the reload returns.
- Parallelism. The chunks of one wave go out in parallel (`Promise.all`). The model sends them one after another, which gives the same counts because results are summed.
- Notifications.Post: a body that parses to a string is not modelled; it would be chunked like an array of characters. An object with a `length` that does not convert to a number above 0 (such as `0`, `-1`, `"0"`, `"x"` or `false`) is not modelled either; the loop does not run and `total` echoes that `length`. The other exceptions the `catch` could see are covered: `sendBatch` catches its own errors, so after parsing only a `null` body and a non-array object whose `length` converts to a number above 0 (at `route.ts:18`) throw.
- Notifications.ChunkArray: requires a positive `size`. With `size` 0 and a non-empty array, the loop at `route.ts:17` never ends; the endpoint only passes 100.
- Logging (`console.log`, `console.error`) and progress messages are not part of this model.
- The `NotificationPayload` contents are passed through and never inspected.
- GoogleMaps: the Maps script element, `window.initializeGoogleMaps`, `window.googleMapsLoaded` and the Autocomplete widget are not modelled. The set-up is reduced to its outcome: created and appended, or one of the two DOM calls throwing.
- GoogleMaps: a `resolve` or `reject` of an already settled promise is logged like any other; JavaScript ignores it.
- The React rendering cycle is not modelled. State updates take effect at once, events are handled one at a time, and stale closures are not captured. An action that awaits a reload sees the state that reload left behind.
- Admin: `SUPER_ADMIN_ID` comes from `src/lib/auth-context.tsx`, which is not part of this model. It is a constructor parameter. The redirect of non-super-admins (`admin.tsx:30-36`) is not modelled.
- Admin: the UUID pattern is matched character by character, not as a regular expression; the case folding covers ASCII only, which is all the pattern concerns.
- AddressPicker: the script-loading effect and the Autocomplete set-up (`address-picker.tsx:50-105` and `133-141`) are not modelled; the `place_changed` listener inside it (`106-132`) is `Picker.PlaceChanged`. Absent `geometry` and absent `geometry.location` both become an absent location.
- AddressPicker: coordinates are `real` values passed through unchanged; floating-point behaviour is not modelled.
- Image resizing and uploads, `cn`, the authentication context, forms, static pages, the UI-only components, the middleware and the type definitions are not part of this model.
