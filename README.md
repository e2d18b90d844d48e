# EquipTrack in Dafny

A model of EquipTrack, a single-page tracker for lending out equipment. Users
add devices, mark them borrowed and returned, delete them, and browse a log
of transactions. Everything is stored in the browser's local key/value
store. The model covers the following.

- `types.dfy` (module `Types`): the record shapes of `types.ts`. An optional
  property is an `Option`, and the borrower invariant of a device is stated
  as `WellFormed`.
- `storage_service.dfy` (`StorageService`): `services/storageService.ts`.
  - The `Store` class holds the local store as a `map<string, string>`.
  - It loads and saves the `{devices, history}` aggregate, with the 5 MiB
    ceiling and the seed data.
  - It also keeps the daily wallpaper cache and its `YYYY-MM-DD` day stamp.
- `json.dfy` (`Json`): what `JSON.stringify` writes for the aggregate, a
  parser for that text, and the proof that parsing gives back what was
  serialised.
  - `Utf8Size` gives the byte size that `new Blob([...]).size` measures.
  - The store holds the stringify/parse pair as a `Serializer` value.
  - The `App` proofs treat the pair as opaque. `StorageService.SaveThenLoad`
    rests on the pair's round trip (`StorageService.JsonSerializerRoundTrips`).
- `inventory.dfy` (`Inventory`): the pure part of `index.tsx`.
  - The four handlers, each as a function from the old aggregate to the
    new one, or `None` when the handler returns early.
  - `deviceStats`, `previousBorrowers` and the image-upload checks.
- `app.dfy` (`App`): the `App` component as an `AppState` class.
  - Each `useState` cell is a field and each setter call is an assignment.
  - The handlers change memory and the `Store` in the order the code does.
  - Image upload runs the corrected reader callbacks (see "## Findings").
  - The wallpaper effect is `InitializeWallpaper`.
- `wallpaper.dfy` (`Wallpaper`): the decision the wallpaper effect reaches:
  which URL is shown, whether a fetch is made and what is cached.
- `device_list.dfy` (`DeviceList`): `components/DeviceList.tsx`.
  - The status filter tabs.
  - The icon lookup: `deviceTypeMap`, the icon table and the keyword rules.
  - The buttons each card offers.
- `history_log.dfy` (`HistoryLog`): `components/HistoryLog.tsx`.
  - The log is shown newest first, with a stable sort.
  - It can be narrowed to one UTC day.
  - Each entry has its sentence, and the calendar pop-up is the
    `HistoryView` class.
- `autocomplete.dfy` (`Autocomplete`): `components/AutocompleteInput.tsx`,
  as the `AutocompleteInput` class with its suggestion filter.
- `util.dfy` (`Util`): the runtime operations the code relies on:
  - `Array.prototype.filter`;
  - ASCII `toLowerCase`, `includes` and `startsWith`;
  - decimal `String(n)` and `padStart(2, '0')`.

Inputs the browser supplies are parameters:
- the clock;
- `generateId()`;
- the outcome of the wallpaper request;
- the outcome of `FileReader`;
- the UTC day of a timestamp.

### Notes on the code

- **Memory is updated before the save.** Each handler calls `setData`
  before `saveData`. When the save is refused, the new aggregate stays in
  memory and only the store keeps the old one (`App.AppState.Commit`).
- **`loadData` does not validate.** It returns whatever `JSON.parse` yields,
  and falls back to the seed only on an empty key or a parse error.
- **`deviceTypeMap` is never passed.** It is an optional prop of
  `DeviceList`, and `index.tsx` does not pass it, so only the keyword rules
  pick icons in the running app.
- **Two defects are recorded under "## Findings".** Each has an as-written
  and a corrected member, and the rest of the model uses the corrected one.

## Model

| member | source | states |
|---|---|---|
| StorageService.DefaultData | services/storageService.ts:5-40 | The seed aggregate: three devices with distinct ids, where only device "2" is borrowed and every device keeps the borrower invariant. It has one `borrow` record, whose device name and borrower match device "2". |
| Json.Serialize | services/storageService.ts:57 | The serialised aggregate is a non-empty JSON object text. |
| Json.ParseSerialize | services/storageService.ts:48-57 | Parsing the text that `JSON.stringify` writes for any aggregate gives back that same aggregate. |
| StorageService.JsonSerializerRoundTrips | services/storageService.ts:48-57 | The stringify/parse pair the store uses round-trips every aggregate. |
| Json.Utf8Size | services/storageService.ts:58 | The Blob size is the UTF-8 byte count: between 1 and 4 bytes per character. |
| StorageService.ExceedsLimitIsByteBound | services/storageService.ts:59-62 | The floating-point test "size in MiB > 5" holds exactly when the byte count exceeds 5 × 1024 × 1024. |
| StorageService.LoadedData | services/storageService.ts:42-53 | What a load yields. A missing or empty key gives the seed. Otherwise it is the parsed aggregate, or the seed when parsing fails. |
| StorageService.SaveThenLoad | services/storageService.ts:42-71 | After a save, a load returns exactly the saved aggregate, whatever else the store holds. |
| StorageService.Store.SaveData | services/storageService.ts:55-71 | It fails with the capacity error carrying the byte size exactly when the serialisation exceeds 5 MiB. In that case the store is unchanged. Otherwise only the aggregate's key is overwritten, with the serialisation. |
| StorageService.Store.LoadData | services/storageService.ts:42-53 | It returns what `LoadedData` gives for the current store and the seed. |
| Util.PadStart2Value | services/storageService.ts:84 | A padded month or day below 100 is two digits that read back as the number. |
| StorageService.DayStampFormat | services/storageService.ts:82-85 | The day stamp is the year's digits, a hyphen, two digits for the 1-based month, a hyphen and two digits for the day. |
| StorageService.DayStampInjective | services/storageService.ts:82-85 | Two valid days share a stamp only if they are the same day. |
| StorageService.StoredWallpaper | services/storageService.ts:88-95 | A URL is returned exactly when the wallpaper key is present. |
| StorageService.SaveWallpaperThenRead | services/storageService.ts:110-117 | After saving a URL on a valid day, the URL reads back, and the cache counts as fetched on that day and on no other valid day. The stored aggregate is untouched. |
| StorageService.Store.LoadWallpaper | services/storageService.ts:88-95 | It returns the stored URL, or none when the key is absent. |
| StorageService.Store.IsWallpaperFetchedToday | services/storageService.ts:98-107 | True exactly when the stored day equals today's stamp. |
| StorageService.Store.SaveWallpaper | services/storageService.ts:110-117 | The URL and today's stamp are written under their two keys, and nothing else changes. |
| Wallpaper.SavedOrFallback | index.tsx:41-54 | A truthy cached URL is used; otherwise the fixed fallback is used. The result is never empty. |
| Wallpaper.Refresh | index.tsx:37-109 | Loading always ends. A fetch is made exactly when the cache is not from today. The cache is written exactly when that fetch yields a URL, and then that URL is shown. Otherwise the cached or fallback URL is shown. |
| Wallpaper.FreshCacheIgnoresFetch | index.tsx:49-57 | When the cache is from today, the outcome of a fetch makes no difference. |
| App.AppState.InitializeWallpaper | index.tsx:37-109 | The background, loading flag, fetch decision and store end as `Refresh` decides. The store is written only with the fetched URL. |
| Inventory.FindIndex | index.tsx:221 | It returns the first index whose device has the id, or none exactly when no device has it. |
| Inventory.AddDevice | index.tsx:171-195 | It refuses exactly an empty name. Otherwise the old devices are kept in order, followed by a new available device without a borrower. One `add` record naming it is put in front of the history. It keeps the borrower invariant. |
| Inventory.BorrowDevice | index.tsx:218-247 | It refuses exactly when no id is selected, the name is empty or no device has the id. Otherwise only the first device with the id changes: it becomes borrowed by that name. One `borrow` record is put in front of the history. It keeps the borrower invariant. |
| Inventory.ReturnDevice | index.tsx:265-296 | It refuses exactly when no id is selected or no device has it. Otherwise only the first device with the id changes: it becomes available without a borrower. One `return` record carrying its previous borrower is put in front of the history. It keeps the borrower invariant. |
| Inventory.DeleteDevice | index.tsx:314-331 | It refuses exactly when no target is set or no device has it. Otherwise the devices are filtered by id. One `delete` record naming the first matching device is put in front of the history. |
| Inventory.DeleteRemovesExactly | index.tsx:329 | After a delete, a device remains exactly when it was there and has another id. |
| Inventory.DeletePreservesWellFormed | index.tsx:329 | Deleting keeps the borrower invariant of every remaining device. |
| Inventory.DeviceStats | index.tsx:132-137 | The total is the number of devices, and available plus borrowed equals the total. |
| Inventory.BorrowStats | index.tsx:218-247 | Borrowing an available device moves one unit from available to borrowed. Borrowing one already out changes no count. |
| Inventory.ReturnStats | index.tsx:265-296 | Returning a borrowed device moves one unit back to available. Returning an available one, which is not refused, changes no count. |
| Inventory.AddStats | index.tsx:191-194 | Adding a device adds one to the total and one to available. |
| Inventory.BorrowersOf | index.tsx:112-118 | The suggested names are distinct. A name is on the list exactly when some record has it as a non-empty borrower. |
| Inventory.PreviousBorrowers | index.tsx:112-118 | The one-pass Set construction yields `BorrowersOf` the history. |
| Inventory.ValidateImage | index.tsx:144-158 | The type is checked first. A file is accepted exactly when its type is one of the five image types and it is at most 5 MiB. A type outside the list is refused as such. A size refusal carries the size. |
| App.ReadCallbacksAsWritten | index.tsx:160-168 | As installed, `loadend` is the last event of every read, so the banner always ends cleared and the image always ends as `reader.result`: the data URL, or null after a failure. |
| App.ReadFailureLostAsWritten | index.tsx:160-168 | As installed, a failed read ends with no error shown and the image wiped. |
| App.ReadCallbacks | index.tsx:160-168 | A success stores the data URL and clears the error. A failure shows the read error and keeps the image. |
| App.AppState.HandleImageUpload | index.tsx:140-169 | With no file, nothing changes. A refused file sets the matching error and keeps the image. An accepted file ends as `ReadCallbacks` says. |
| App.AppState.constructor | index.tsx:14-34 | The aggregate is what a load of the store gives; when nothing is stored it is the seed, which keeps the borrower invariant. Every other cell has its initial value. |
| App.AppState.Commit | index.tsx:196-203 | The new aggregate is in memory whatever happens. The save succeeds exactly when the serialisation is within 5 MiB. On success the store holds its serialisation and the banner is cleared. On failure the store is unchanged and the banner shows the capacity error. |
| App.AppState.HandleAddDevice | index.tsx:171-210 | A refused add changes nothing. Otherwise memory holds `AddDevice`'s aggregate. Only a successful save writes it under the aggregate's key, leaving every other key of the store (the wallpaper cache among them) as it was; it also closes the dialog and resets the form; a failed save keeps both. The borrower invariant is kept. |
| App.AppState.OpenBorrowModal | index.tsx:212-216 | It selects the device, clears the name and opens the dialog. |
| App.AppState.HandleBorrow | index.tsx:218-258 | A refused borrow changes nothing. Otherwise memory holds `BorrowDevice`'s aggregate. Only a successful save writes it under the aggregate's key, leaving every other key of the store (the wallpaper cache among them) as it was, and closes the dialog. The borrower invariant is kept. |
| App.AppState.OpenReturnModal | index.tsx:260-263 | It selects the device and opens the dialog. |
| App.AppState.HandleReturn | index.tsx:265-307 | A refused return changes nothing. Otherwise memory holds `ReturnDevice`'s aggregate. Only a successful save writes it under the aggregate's key, leaving every other key of the store (the wallpaper cache among them) as it was, and closes the dialog. The borrower invariant is kept. |
| App.AppState.OpenDeleteModal | index.tsx:309-312 | It sets the target and opens the dialog. |
| App.AppState.HandleDelete | index.tsx:314-343 | A refused delete changes nothing. Otherwise memory holds `DeleteDevice`'s aggregate. Only a successful save writes it under the aggregate's key, leaving every other key of the store (the wallpaper cache among them) as it was; it also closes the dialog and forgets the target. The borrower invariant is kept. |
| App.AppState.DismissError | index.tsx:367 | The banner is cleared. |
| DeviceList.FilteredDevices | components/DeviceList.tsx:17 | The "all" tab lists every device unchanged. A status tab lists only devices with that status. |
| DeviceList.FilteredDevicesExact | components/DeviceList.tsx:17 | A status tab lists the devices with that status in their order, each as often as it occurs, and no other device. |
| DeviceList.FilterTabsMatchStats | components/DeviceList.tsx:15-17 | The two status tabs hold as many devices as the dashboard's available and borrowed counters. |
| DeviceList.IconNamed | components/DeviceList.tsx:21-25 | A name found in the table names the component it returns. |
| DeviceList.IconNamesResolve | components/DeviceList.tsx:21-25 | Each of the eighteen components is found under its own key. |
| DeviceList.GetIconComponentAsWritten | components/DeviceList.tsx:20-27 | As written, a table key yields its component, and a name that is neither a key nor an inherited member yields Box. |
| DeviceList.InheritedNameIsNotAnIcon | components/DeviceList.tsx:26 | As written, the name "toString" yields the inherited member, not an icon component. |
| DeviceList.GetIconComponent | components/DeviceList.tsx:20-27 | A table key yields its component and any other name yields Box. A component other than Box is always the one named. |
| DeviceList.InheritedNameGivesBox | components/DeviceList.tsx:26 | In the corrected lookup, every inherited member name yields Box. |
| DeviceList.KeywordLists | components/DeviceList.tsx:39-43 | Each keyword list matches a type exactly when one of that rule's `includes` tests does. |
| DeviceList.KeywordIcon | components/DeviceList.tsx:38-44 | Each icon is chosen exactly when its rule matches and no earlier rule does; Box is chosen when none matches. The colour is the rule's own colour. |
| DeviceList.GetIcon | components/DeviceList.tsx:29-45 | A map entry for the type decides both the icon (looked up by name) and the colour. Otherwise the icon is the one the keyword rules, in their order, pick for the lower-cased type. |
| DeviceList.GetIconIgnoresCase | components/DeviceList.tsx:38 | Without a map entry, the case of the type name does not change the icon. |
| DeviceList.MicrophoneKeywords | components/DeviceList.tsx:39-42 | "microphone" contains "phone" and "mic", but neither "laptop" nor "mac". |
| DeviceList.RuleOrderMicrophone | components/DeviceList.tsx:39-44 | "microphone" matches both the phone and the audio rule, and the phone rule, tried first, decides. |
| DeviceList.CardActions | components/DeviceList.tsx:136-160 | A card offers two buttons: Borrow exactly when the device is available, Return exactly when it is borrowed, and then Delete. |
| DeviceList.OfferedActionsApply | components/DeviceList.tsx:136-160 | On the first card with its id, in a list that keeps the invariant, each offered button's handler goes through: Borrow (given a name), Return and Delete. A Return offered there logs a present borrower. |
| HistoryLog.NewestFirstPairwise | components/HistoryLog.tsx:20-22 | In a newest-first log, every record is at least as recent as every later one. |
| HistoryLog.InsertByTime | components/HistoryLog.tsx:21 | Inserting adds exactly the one record and keeps the log newest first. |
| HistoryLog.SortedLogs | components/HistoryLog.tsx:20-22 | The sorted log is a permutation of the log, and it is newest first. |
| HistoryLog.InsertIsStable | components/HistoryLog.tsx:21 | Among records of any one timestamp, an insertion keeps their order and puts the inserted record first. |
| HistoryLog.SortIsStable | components/HistoryLog.tsx:20-22 | Records with equal timestamps keep their relative order from the log. |
| HistoryLog.FilteredLogs | components/HistoryLog.tsx:24-29 | With no day selected, the sorted log is listed unchanged. Otherwise every record listed falls on the selected UTC day. |
| HistoryLog.FilteredLogsExact | components/HistoryLog.tsx:24-29 | With a day selected, exactly the records of that day are listed, in their order and with their multiplicity. |
| HistoryLog.FilterKeepsNewestFirst | components/HistoryLog.tsx:24-29 | Narrowing a newest-first log keeps it newest first. |
| HistoryLog.ShownNewestFirst | components/HistoryLog.tsx:20-29 | What the panel lists is newest first, whatever day is selected. |
| HistoryLog.ActionText | components/HistoryLog.tsx:95-103 | A borrow reads "Borrowed by …" and a return reads "Returned from …". |
| HistoryLog.ActionTextIdentifiesAction | components/HistoryLog.tsx:95-103 | Equal sentences mean the same action and, for borrow and return, the same interpolated borrower. |
| HistoryLog.BorrowEntryText | components/HistoryLog.tsx:97 | The entry a borrow logs names the borrower that was typed. |
| HistoryLog.ReturnEntryText | components/HistoryLog.tsx:98 | A return entry names the device's borrower when it was borrowed, and reads "Returned from undefined" when the device was available. |
| HistoryLog.MonthAfter | components/HistoryLog.tsx:55-58 | The month is in 0..11, and the absolute month index moves by exactly the step. |
| HistoryLog.MonthAfterInverse | components/HistoryLog.tsx:55-58 | Stepping forward and back returns to the month shown, outside the years 0 to 99. |
| HistoryLog.HistoryView.constructor | components/HistoryLog.tsx:11-16 | No day is selected, the pop-up is closed and the current month is shown. |
| HistoryLog.HistoryView.Shown | components/HistoryLog.tsx:20-29 | What is listed is newest first. With no day selected, it is a permutation of the log. |
| HistoryLog.HistoryView.OpenCalendar | components/HistoryLog.tsx:41-45 | The draft starts as the selection, and the selected day's month is shown, or the current month when no day is selected. |
| HistoryLog.HistoryView.PickDay | components/HistoryLog.tsx:47-53 | The clicked day becomes the draft. |
| HistoryLog.HistoryView.ChangeMonth | components/HistoryLog.tsx:55-58 | The month shown moves by the step, carrying into the year. |
| HistoryLog.HistoryView.ConfirmDate | components/HistoryLog.tsx:60-63 | The draft becomes the selection and the pop-up closes. |
| HistoryLog.HistoryView.ClearDate | components/HistoryLog.tsx:65-69 | Draft and selection are cleared, the pop-up closes, and the whole sorted log is listed again. |
| HistoryLog.HistoryView.Cancel | components/HistoryLog.tsx:183 | The pop-up closes and the selection is kept. |
| Autocomplete.FilteredSuggestions | components/AutocompleteInput.tsx:23-25 | An empty field lists every suggestion. Otherwise every suggestion listed contains the input, ignoring case, and differs from it. |
| Autocomplete.FilteredSuggestionsExact | components/AutocompleteInput.tsx:23-25 | With text typed, the list is in the original order, and a suggestion is listed exactly when it matches. |
| Autocomplete.CaseVariantOffered | components/AutocompleteInput.tsx:24 | A suggestion that differs from the input only in letter case is still offered. |
| Autocomplete.SuggestedBorrowersAccepted | index.tsx:524-528 | Every name the borrow form suggests is non-empty, so `handleBorrow` accepts it. |
| Autocomplete.AutocompleteInput.constructor | components/AutocompleteInput.tsx:18 | The list starts closed. |
| Autocomplete.AutocompleteInput.Offered | components/AutocompleteInput.tsx:23-25 | A non-empty typed value is never offered to itself. |
| Autocomplete.AutocompleteInput.Select | components/AutocompleteInput.tsx:37-40 | The choice becomes the value and the list closes, so the drop-down is hidden. |
| Autocomplete.AutocompleteInput.Change | components/AutocompleteInput.tsx:49-52 | The typed text becomes the value and the list opens. The drop-down is shown exactly when something matches. |
| Autocomplete.AutocompleteInput.Focus | components/AutocompleteInput.tsx:53 | Focusing opens the list. |
| Autocomplete.AutocompleteInput.Toggle | components/AutocompleteInput.tsx:57-66 | The toggle button, which exists only when there are suggestions, flips the open state. |

## Left out

- Rendering and styling: markup, class names beyond the icon colours, modals and animations.
- `generateId()` and `Date.now()`: ids and timestamps are parameters of the handlers.
- The clock is read once where the source reads it more than once. `DefaultData` takes one `loadedAt` for the four `Date.now()` calls of `services/storageService.ts:12-37`. `InitializeWallpaper` takes one day for the staleness test (`services/storageService.ts:101`) and the save (`services/storageService.ts:113`), so a fetch that settles after midnight is stored under the earlier day, where the source stores the later one.
- The wallpaper request: its URL, the 10-second abort timer and the asynchronous ordering of its callbacks. The request is an input (`FetchOutcome`), and only the settled state is modelled.
- `FileReader`: the read's outcome is an input (`ReadOutcome`), and resetting the file input's value is not modelled.
- `new Date(...).toISOString()` and time zones. The UTC day of a timestamp is a function parameter of the day filter. `OpenCalendar` and `PickDay` take the month and the day stamp the caller computes. The model has no calendar beyond `MonthAfter`.
- `getDaysInMonth` and the calendar grid: these are rendering only.
- The outside-click `mousedown` listeners of the calendar and the autocomplete, because they are DOM events.
- The text of the error messages (`toFixed(2)` of a float size). Errors are kept as data carrying the byte size.
- `console.error` logging, and the `try`/`catch` around the storage calls for exceptions the storage itself raises: the store is a map that never throws.
- StorageService.LoadedData: load results are characterised only for text the model's own serialiser wrote (`SaveThenLoad`). Other stored text is not characterised: the model's parser accepts no whitespace and only the model's key order, so it gives the seed for some texts `JSON.parse` accepts, such as `JSON.stringify`'s own output for a borrowed device, whose `borrower` comes after `lastUpdated`. The source returns whatever `JSON.parse` yields.
- Json.Serialize: keys are written in one fixed order. `JSON.stringify` follows property creation order, which varies between records (a borrowed device gets `borrower` last) but never changes the text's length or byte size.
- Util.ToLower: only ASCII letters are lower-cased. The source uses full Unicode `toLowerCase`.
- Autocomplete.AutocompleteInput: `value` is always a string. The source maps a non-string `value` prop to `''`, which no caller passes.
- DeviceList.GetIcon: the `deviceTypeMap[type]` test uses the map's own keys only, and an entry's icon name is resolved by the corrected `GetIconComponent`, so an inherited name such as "toString" gives `Box` where the source gives an `Object.prototype` member. `index.tsx` never passes a map.
- App.AppState.HandleImageUpload: an accepted file ends as the corrected `ReadCallbacks` says. The source ends a failed read with the image cell set to null and no banner (`App.ReadCallbacksAsWritten`). The model's image cell is a string and cannot hold null.
- HistoryLog.HistoryView.ConfirmDate: it requires a non-empty draft, because the Confirm button is disabled otherwise.
- HistoryLog.MonthAfterInverse: it excludes the years 0 to 99, which `new Date` reads as 1900 to 1999.
- `components/IconSelector.tsx` is not part of this model: `index.tsx` does not use it on the paths modelled here.

## Findings

| source | as written | input that shows it | evidently intended | confidence | as-written member | corrected member |
|---|---|---|---|---|---|---|
| index.tsx:160-168 | `onloadend` stores `reader.result` and clears the error. `FileReader` fires `loadend` after `error` as well, so the message `onerror` sets is cleared at once, and the image becomes `null`. | a read that fails (`ReadFailed`) | a failed read shows the read error and keeps the image chosen before | medium, not executed | App.ReadCallbacksAsWritten, App.ReadFailureLostAsWritten | App.ReadCallbacks |
| components/DeviceList.tsx:26 | `iconMap[iconName] \|\| Box` also finds members inherited from `Object.prototype`, which are truthy, so a name such as "toString" yields a function that is not an icon. | `deviceTypeMap` entry with icon "toString" | every name that is not a table key falls back to `Box` | low (reachable only when a `deviceTypeMap` is passed, which `index.tsx` does not do), not executed | DeviceList.GetIconComponentAsWritten, DeviceList.InheritedNameIsNotAnIcon | DeviceList.GetIconComponent, DeviceList.InheritedNameGivesBox |
