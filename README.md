# Subway-map front end: slices and form logic in Dafny

This project models the logic of a React/Redux front end for managing subway lines. It covers four pieces:

- **The station slice** (`StationSlice`, `station_slice.dfy`). The store's station state is `{isLoading, errorMessage, stations}`. It changes on the pending, fulfilled and rejected cases of three requests (load, add and delete a station) and on `clearStations`. The slice's reducer is the pure function `Reduce`. The case reducers, which assign the draft's fields in place, are the methods of the class `StationState`. Each method is proved to leave exactly the state `Reduce` gives. `Apply` folds `Reduce` over a sequence of dispatched actions. The lemmas about it describe what a run of requests leaves behind. Delete removes stations by id with `WithoutId`, a filter that keeps order.
- **The login slice** (`LoginSlice`, `login_slice.dfy`). This is an `isLogin` flag kept in step with one session-storage key, the access token. Session storage belongs to the browser, so it is its own object (`SessionStorage`, a map from key to string). It survives a page reload, and the reloaded page reads the flag from it again. The flag is derived once, when the slice's module is loaded; `LoginState`'s constructor stands for that load.
- **The line-creation form** (`LineAddModal`, `line_add_modal.dfy`). The class `LineAddForm` holds the draft `formInput` and the `errorMessage` record. Its methods are the change handlers and the section check that runs after the selected stations change. The decisions are functions: the name rule, the section error, "colour already used" and the submit guard `OnAddLine`. A submit yields the effects it performs, in order: dispatch `addLine`, then close.
- **The line-modification submit** (`LineModifyModal`, `line_modify_modal.dfy`). If the submitted colour is not in the palette, the submit does nothing. If it is, the submit dispatches one `modifyLine` for the edited line and then closes.

`wrappers.dfy` holds the `Option` type shared by the modules.

## Model

| member | source | states |
|---|---|---|
| `StationSlice.WithoutId` | src/redux/slice/stationSlice.ts:92 | a station survives a delete iff it was in the list and its id differs from the deleted id; each survivor keeps its number of occurrences, stations with the deleted id occur no more; the list never grows |
| `StationSlice.WithoutIdIsSubsequence` | src/redux/slice/stationSlice.ts:92 | the survivors keep their original relative order: the result is a subsequence of the input |
| `StationSlice.WithoutIdIdempotent` | src/redux/slice/stationSlice.ts:92 | deleting an id twice is the same as deleting it once |
| `StationSlice.WithoutAbsentIdUnchanged` | src/redux/slice/stationSlice.ts:92 | deleting an id that no station has leaves the list unchanged |
| `StationSlice.Reduce` | src/redux/slice/stationSlice.ts:47-97 | every pending case sets loading, clears the error and keeps the stations; after every fulfilled or rejected case the slice is not loading; a rejection shows its payload's message and keeps the stations; a fulfilment keeps the error; load replaces the list with the payload; add prepends it (the old list is the tail, one longer); delete keeps exactly the stations with another id, each as often as before; `clearStations` gives the initial state whatever the state before |
| `StationSlice.ApplyAppend` | src/redux/slice/stationSlice.ts:53-99 | dispatching one more action applies the reducer to the state reached so far |
| `StationSlice.ApplyConcat` | src/redux/slice/stationSlice.ts:53-99 | dispatching two runs of actions one after the other is dispatching their concatenation |
| `StationSlice.ResolutionEndsLoading` | src/redux/slice/stationSlice.ts:64-97 | whatever was dispatched before, the slice is not loading once the last action is a resolution or `clearStations` |
| `StationSlice.LastLoadWins` | src/redux/slice/stationSlice.ts:64-67 | with overlapping requests, whatever came before, the stations are the payload of the last load fulfilled, as long as only pending and rejected actions follow it |
| `StationSlice.ErrorClearedUntilRejected` | src/redux/slice/stationSlice.ts:60-97 | after a pending case, the error stays empty through any actions that include no rejection, so pending then fulfilled leaves no error |
| `StationSlice.ClearedErrorStaysCleared` | src/redux/slice/stationSlice.ts:60-97 | an empty error stays empty through any run of actions without a rejection |
| `StationSlice.StationsChangeOnlyOnFulfilled` | src/redux/slice/stationSlice.ts:60-97 | a run of pending and rejected actions leaves the station list unchanged |
| `StationSlice.StationState.constructor` | src/redux/slice/stationSlice.ts:47-51 | the slice starts not loading, with no error and no stations |
| `StationSlice.StationState.ClearStations` | src/redux/slice/stationSlice.ts:57 | the fields become the initial state |
| `StationSlice.StationState.LoadStationsPending` | src/redux/slice/stationSlice.ts:60-63 | the new state is the reducer's for this case: loading, error cleared, stations unchanged |
| `StationSlice.StationState.LoadStationsFulfilled` | src/redux/slice/stationSlice.ts:64-67 | the new state is the reducer's: not loading, stations equal the payload, error untouched |
| `StationSlice.StationState.LoadStationsRejected` | src/redux/slice/stationSlice.ts:68-71 | the new state is the reducer's: not loading, error from the payload, stations unchanged |
| `StationSlice.StationState.AddStationPending` | src/redux/slice/stationSlice.ts:73-76 | the new state is the reducer's for this case: loading, error cleared, stations unchanged |
| `StationSlice.StationState.AddStationFulfilled` | src/redux/slice/stationSlice.ts:77-80 | the new state is the reducer's: not loading, the payload prepended to the stations |
| `StationSlice.StationState.AddStationRejected` | src/redux/slice/stationSlice.ts:81-84 | the new state is the reducer's: not loading, error from the payload, stations unchanged |
| `StationSlice.StationState.DeleteStationPending` | src/redux/slice/stationSlice.ts:86-89 | the new state is the reducer's for this case: loading, error cleared, stations unchanged |
| `StationSlice.StationState.DeleteStationFulfilled` | src/redux/slice/stationSlice.ts:90-93 | the new state is the reducer's: not loading, stations with the payload id filtered out |
| `StationSlice.StationState.DeleteStationRejected` | src/redux/slice/stationSlice.ts:94-97 | the new state is the reducer's: not loading, error from the payload, stations unchanged |
| `LoginSlice.Lookup` | src/redux/loginSlice.ts:12 | reading a key gives its stored value if present, and nothing (null) otherwise |
| `LoginSlice.InitialIsLogin` | src/redux/loginSlice.ts:11-13 | the initial flag is true iff the access-token entry is present |
| `LoginSlice.SessionStorage.GetItem` | src/redux/loginSlice.ts:12 | reading returns the stored value, or None when the key is absent |
| `LoginSlice.SessionStorage.SetItem` | src/redux/loginSlice.ts:16 | reading the key back gives the value written; every other key reads as before |
| `LoginSlice.SessionStorage.RemoveItem` | src/redux/loginSlice.ts:20 | the key then reads as absent; every other key reads as before |
| `LoginSlice.LoginState.constructor` | src/redux/loginSlice.ts:11-13 | on page load the flag is derived from the storage: logged in iff the token is stored |
| `LoginSlice.LoginState.Login` | src/redux/loginSlice.ts:15-18 | the payload is stored under the access-token key, only that key changes, and the flag is true and in sync |
| `LoginSlice.LoginState.Logout` | src/redux/loginSlice.ts:19-22 | the access-token key is removed, only that key changes, and the flag is false and in sync |
| `LoginSlice.LoginThenLogout` | src/redux/loginSlice.ts:15-22 | login then logout leaves no token, every other entry as it was, and the flag false |
| `LoginSlice.LoginThenReload` | src/redux/loginSlice.ts:11-18 | a page reload after a login starts logged in and reads back the token stored |
| `LineAddModal.NameError` | src/components/LinesModal/LineAddModal.tsx:89-99 | the name error is empty iff the name is at least two UTF-16 units long and passes `isKoreanAndNumber`; otherwise it is INVALID_LINE_NAME |
| `LineAddModal.Utf16Length` | src/components/LinesModal/LineAddModal.tsx:89 | a name's JavaScript length lies between its number of characters and twice that |
| `LineAddModal.Utf16LengthOfBmp` | src/components/LinesModal/LineAddModal.tsx:89 | on names of Basic Multilingual Plane characters (Korean syllables, digits) the JavaScript length is the number of characters |
| `LineAddModal.SectionError` | src/components/LinesModal/LineAddModal.tsx:66-85 | the section error is empty iff both stations are selected and differ; NONE_OF_SELECTED_SECTION iff one is unselected (so two empty selections are never a duplicate); DUPLICATED_SECTION iff both are selected and equal |
| `LineAddModal.UsedLineColors` | src/components/LinesModal/LineAddModal.tsx:43 | the used colours are the loaded lines' colours, one per line, in order |
| `LineAddModal.IsUsedLineColor` | src/components/LinesModal/LineAddModal.tsx:122 | a colour is reported used, and its radio disabled, iff some loaded line has that colour |
| `LineAddModal.DigitsValueOfDecimalString` | src/components/LinesModal/LineAddModal.tsx:145-146 | a station id written in decimal reads back as the same value |
| `LineAddModal.ToNumberOfDecimalString` | src/components/LinesModal/LineAddModal.tsx:145-146 | `Number` of a station id's option value is that id |
| `LineAddModal.OnAddLine` | src/components/LinesModal/LineAddModal.tsx:128-152 | a submit does nothing iff some error string is non-empty or some draft value is falsy (an empty string, a distance of 0 or NaN); otherwise it dispatches exactly one `addLine` with the base URL and the draft (station ids converted by `Number`), then closes |
| `LineAddModal.InitialFormIsNotSubmitted` | src/components/LinesModal/LineAddModal.tsx:46-57 | the untouched draft cannot be submitted |
| `LineAddModal.SubmittedSectionIsDistinct` | src/components/LinesModal/LineAddModal.tsx:65-86 | while the section error agrees with the selection, a submitted line has two selected, distinct stations |
| `LineAddModal.SubmittedStationIds` | src/components/LinesModal/LineAddModal.tsx:140-149 | when the select boxes hold station ids, the request carries exactly those ids as numbers, and they differ |
| `LineAddModal.LineAddForm.constructor` | src/components/LinesModal/LineAddModal.tsx:46-57 | the draft starts with empty strings and distance MIN_DISTANCE, and all three errors empty |
| `LineAddModal.LineAddForm.OnChangeName` | src/components/LinesModal/LineAddModal.tsx:88-105 | the name is always stored; only the name error changes, to the name rule's verdict |
| `LineAddModal.LineAddForm.OnChangeStations` | src/components/LinesModal/LineAddModal.tsx:108-113 | only the chosen station field of the draft changes; errors are untouched |
| `LineAddModal.LineAddForm.ValidateSection` | src/components/LinesModal/LineAddModal.tsx:65-86 | only the section error changes, to the section rule's verdict; the draft is untouched |
| `LineAddModal.LineAddForm.SelectStation` | src/components/LinesModal/LineAddModal.tsx:65-113 | a station selection sets that field; if the selection changed, the section error becomes the section rule's verdict, otherwise it stays as it was; the other errors are untouched, and the section error keeps agreeing with the selection |
| `LineAddModal.LineAddForm.OnChangeDistance` | src/components/LinesModal/LineAddModal.tsx:115-120 | only the distance changes; errors are untouched |
| `LineAddModal.LineAddForm.OnChangeLineColor` | src/components/LinesModal/LineAddModal.tsx:124-126 | only the colour changes; errors are untouched |
| `LineModifyModal.ValueAt` | src/components/LineModifyModal/LineModifyModal.tsx:31 | destructuring gives the submitted value at a position, or undefined past the end |
| `LineModifyModal.OnSubmitModifyLine` | src/components/LineModifyModal/LineModifyModal.tsx:30-48 | a submit does nothing (no dispatch, no close) iff the colour is absent or not in the palette; otherwise it dispatches exactly one `modifyLine` with the edited line's id, the submitted name and the colour unchanged, then closes |

## Left out

- The request bodies of `loadStations`, `addStation` and `deleteStation` are HTTP calls. They are not modelled. Each case reducer takes the payload its request resolved with as an input.
- A rejected action with no payload is not modelled. This happens when a request fails without an HTTP response, and the reducer then reads `errorMessage` from `undefined`. Every rejection carries an `ErrorMessageResponse` here.
- Overlapping requests of the same kind are not coordinated. The model applies actions in resolution order, as the slice does (`LastLoadWins`). The event loop's choice of that order is not modelled.
- The effect that dispatches `loadStations` when no stations are loaded is a UI side effect and is not modelled. So are the `alert` of an incomplete form, the developer `console.error` on a non-palette colour, and all rendering.
- The name's 10-character maximum and the minimum distance are HTML input attributes, not code, so they are not modelled. The distance error is never set by any handler.
- `isKoreanAndNumber` is not part of this model. It is a parameter of type `string -> bool`.
- The palette's values are not part of this model. The palette is a parameter `set<string>`, and the palette check is membership in it.
- Session storage is a map from key to string. The login payload is stored as the string given, because the storage helper's serialisation is not part of this model.
- Some constants are not part of this model: the access-token key string, the `ERROR_MESSAGE` texts and `SECTION.MIN_DISTANCE`. The model uses stand-ins. The messages are non-empty and distinct, and MIN_DISTANCE is 1.
- `useUpdateEffect` is modelled as `ValidateSection`, which runs only when the selected stations change (`SelectStation`), never on the first render. Each handler sees the state left by the previous event. React's render batching and stale closures are not modelled.
- `LineAddModal.ToNumber` models JavaScript's `Number` only on strings of ASCII digits, which includes the empty string as 0. Any other string is NaN here. JavaScript would also accept surrounding whitespace, signs, decimals, exponents, hex prefixes and "Infinity".
- A distance is a real number or NaN. The floating-point rounding of `valueAsNumber` is not modelled.
- Loaded lines carry only id, name and colour. The form does not read their stations or sections.
- The modification form's submitted values are modelled as strings, so `String(name)` is the identity. The base URL chosen through the API owner is a parameter.
- Styling files, the card template and the Storybook fixture are presentation only and are not modelled.
