# Drag-and-snap box, quote screen and tab icons

A model of the logic inside a small React Native demo app (three screens and a bottom tab navigator).

- **StyleScreen** (`style_screen.dfy`) covers the style showcase screen.
  - A box can be dragged with a pan gesture. Its animated position is a base `value` plus an `offset`, on both axes.
  - Grant copies the value into the offset. Each move sample writes the cumulative delta into the value.
  - Release flattens the offset into the value. It then clamps the point into `[0, width - 180] x [0, 150]`.
  - A spring toward the clamped point starts only when clamping changed the point.
  - The spring is modelled by its target and its completion. `DraggableBox` is the mutable object. `Pan` with `Granted`, `Moved`, `Released` and `SpringDone` is the value-level specification that the lemmas talk about.
  - `FloatingButton` is the floating action button's expand/collapse toggle.
- **HomeScreen** (`home_screen.dfy`) covers the quote screen.
  - The category table and the request URL for a category. The category goes into the URL unencoded. A query-string reader that stops at `&` or `#` gets every table category back, and a category holding `&` or `#` is cut short at that character.
  - The category label with its `'未知'` fallback, and the refresh button's label.
  - `QuoteScreen` holds the `hitokoto`, `loading`, `refreshing` and `selectedType` state. A fetch is started by a method that returns its URL. It is settled by `FetchSettled`, which takes the outcome (`Success(data)` or `Failure`) as input.
- **App** (`app.dfy`) covers the tab bar's route and focus to icon-name mapping.
- **Optional** (`optional.dfy`) is the `Option` type. It stands for `null` and for "no animation in flight".

The window width is a parameter (`DraggableBox.width`), not read from the device.

## Model

| member | source | states |
|---|---|---|
| `StyleScreen.ClampAxis` | src/screens/StyleScreen.tsx:63-64 | `Math.max(lo, Math.min(hi, v))` is at least `lo`; it is at most `hi` when `lo <= hi`; it is exactly `lo` when `hi < lo`; with `lo <= hi` it leaves `v` unchanged iff `v` lies in `[lo, hi]` |
| `StyleScreen.Clamp` | src/screens/StyleScreen.tsx:55-64 | the clamped point has `0 <= x'` and `0 <= y' <= 150`; `x' <= width - 180` when that bound is non-negative; `x' = 0` when `width - 180 < 0` (the max is applied last); an in-range `y` is kept; on each axis the clamped value is at least as close to the raw one as any value of that axis's range, so `y` goes to its nearest bound whatever the width |
| `StyleScreen.ClampIdempotent` | src/screens/StyleScreen.tsx:63-64 | clamping an already clamped point returns it unchanged |
| `StyleScreen.ClampFixedExactlyInBounds` | src/screens/StyleScreen.tsx:63-66 | the clamp leaves a point unchanged (so the spring test at line 66 is false) iff the point lies in the arena; when `width < 180`, iff `x = 0` and `0 <= y <= 150` |
| `StyleScreen.ClampIsNearest` | src/screens/StyleScreen.tsx:63-64 | on each axis the clamped point is no farther from the raw point than any point of the arena |
| `StyleScreen.GrantCopiesValue` | src/screens/StyleScreen.tsx:42-46 | grant sets the offset to the current value on both axes and leaves the value (and any spring) unchanged |
| `StyleScreen.MovedAllIsLastSample` | src/screens/StyleScreen.tsx:48-51 | after any non-empty run of move samples the state is that of the last sample alone; the displayed position is the grant-time offset plus the last cumulative delta, whatever the earlier samples were |
| `StyleScreen.ReleaseFlattens` | src/screens/StyleScreen.tsx:53-61 | after release the offset is 0 and the value is old offset + old value, so the displayed point does not jump; that value is the point that is clamped |
| `StyleScreen.ReleaseInPlaceStartsNoSpring` | src/screens/StyleScreen.tsx:66-71 | if the flattened point is already where the clamp puts it, no spring is started and the position stays exactly the flattened point |
| `StyleScreen.ReleaseOutOfPlaceSpringsToClamp` | src/screens/StyleScreen.tsx:66-70 | otherwise the spring's target is exactly the clamped point, and when it completes the value and the displayed position equal that point |
| `StyleScreen.DragSession` | src/screens/StyleScreen.tsx:42-71 | a gesture from rest (grant, move samples, release, spring completion) ends with offset 0, no spring, and the box at the clamp of pre-grant position + last delta; that point is inside the arena whenever `width >= 180`; a spring is started iff that sum is out of place |
| `StyleScreen.ReleaseWithoutMoveDoubles` | src/screens/StyleScreen.tsx:42-53 | grant does not reset the value, so a release directly after a grant (no move sample) flattens to twice the pre-grant value |
| `StyleScreen.DraggableBox.constructor` | src/screens/StyleScreen.tsx:37 | the box starts at value (50, 50) with a zero offset and no spring |
| `StyleScreen.DraggableBox.Grant` | src/screens/StyleScreen.tsx:42-46 | offset := current value, value and spring unchanged; the new state is `Granted` of the old one |
| `StyleScreen.DraggableBox.Move` | src/screens/StyleScreen.tsx:48-51 | value := (dx, dy), offset and spring unchanged; the displayed position is old offset + (dx, dy) |
| `StyleScreen.DraggableBox.Release` | src/screens/StyleScreen.tsx:52-72 | offset := 0 and value := old offset + old value; it reports a spring started iff the clamp of that value differs from it, and then the spring's target is that clamp |
| `StyleScreen.DraggableBox.FinishSpring` | src/screens/StyleScreen.tsx:67-70 | a spring in flight completes: the value becomes its target and no spring remains; with none in flight nothing changes |
| `StyleScreen.FloatingButton.constructor` | src/screens/StyleScreen.tsx:29-33 | the button starts collapsed with its animation value at 0, so the target agrees with the flag |
| `StyleScreen.FloatingButton.Toggle` | src/screens/StyleScreen.tsx:94-104 | `expanded` flips; the spring target is 1 when it was collapsed and 0 when it was expanded; the target keeps agreeing with the flag |
| `HomeScreen.TypeNamesNonEmpty` | src/screens/HomeScreen.tsx:15-29 | every display name in the 13-entry category table is non-empty |
| `HomeScreen.RequestUrl` | src/screens/HomeScreen.tsx:39-41 | for `'all'` the URL is exactly `https://v1.hitokoto.cn/`; for any other category `t` it is `https://v1.hitokoto.cn/?c=` followed by `t` |
| `HomeScreen.UntilDelimiterKeepsPlain` | src/screens/HomeScreen.tsx:41 | a query value with no `&` or `#` is read whole by the query-string reader |
| `HomeScreen.RequestUrlRoundTrip` | src/screens/HomeScreen.tsx:39-41 | a query-string reader gets back the requested category from its URL whenever the category holds no `&` or `#` (`'all'` is read from the bare endpoint) |
| `HomeScreen.TableKeysRoundTrip` | src/screens/HomeScreen.tsx:15-29 | every one of the 13 table categories, the only ones the selector sends, is read back unchanged from its URL |
| `HomeScreen.UntilDelimiterStopsAt` | src/screens/HomeScreen.tsx:41 | the query-string reader reads a value exactly up to its first `&` or `#` |
| `HomeScreen.UnencodedDelimiterTruncatesAt` | src/screens/HomeScreen.tsx:41 | the category is not URL-encoded, so a category whose first `&` or `#` is at index `i` is read back as its first `i` characters |
| `HomeScreen.UnencodedDelimiterTruncates` | src/screens/HomeScreen.tsx:41 | for example, the category `a&c=b` is read back as `a` |
| `HomeScreen.RequestUrlInjective` | src/screens/HomeScreen.tsx:39-41 | distinct categories are requested with distinct URLs |
| `HomeScreen.TypeText` | src/screens/HomeScreen.tsx:174-176 | `typeMap[t]` for each of the 13 keys and `'未知'` for any other key; the result is never empty, so the `or` fallback fires only on missing keys |
| `HomeScreen.RefreshLabel` | src/screens/HomeScreen.tsx:167 | `'获取新的一言'` for `'all'`; for another key, `'获取新的'` + its display name (the same text as the category label) + `'一言'`; for a key outside the table the template literal writes `undefined` |
| `HomeScreen.QuoteScreen.constructor` | src/screens/HomeScreen.tsx:32-35 | no quote, loading, not refreshing, category `'all'`; the selection is a table key |
| `HomeScreen.QuoteScreen.Mount` | src/screens/HomeScreen.tsx:54-56 | the one mount-time fetch runs on the initial state and requests exactly the bare endpoint `https://v1.hitokoto.cn/` |
| `HomeScreen.QuoteScreen.OnRefresh` | src/screens/HomeScreen.tsx:58-61 | `refreshing` becomes true before the fetch, which requests the current `selectedType`; nothing else changes; the selection stays a table key |
| `HomeScreen.QuoteScreen.HandleTypeChange` | src/screens/HomeScreen.tsx:63-67 | `selectedType := t` and `loading := true`; the fetch requests `t` itself, not the previous selection; `t` is one of the table keys the selector offers, so the selection stays a table key |
| `HomeScreen.QuoteScreen.FetchSettled` | src/screens/HomeScreen.tsx:43-51 | after success or failure `loading` and `refreshing` are both false; on success the quote is the response data; on failure the quote is unchanged and an error alert is raised; the selection is untouched |
| `HomeScreen.QuoteScreen.RefreshButtonText` | src/screens/HomeScreen.tsx:165-169 | the button shows the label for the current selection; because the selection is always a table key, it never shows `undefined`, and for a category other than `'all'` it names the same text as the category label |
| `App.TabIcon` | App.tsx:20-31 | the icon is an outline icon iff the tab is unfocused or the route is not one of `Home`, `Styles`, `Profile` |
| `App.UnfocusedIsOutlineOfFocused` | App.tsx:23-28 | the focused icons are `home` for Home, `brush` for Styles and `person` for Profile; for each of the three tabs the unfocused icon is the focused one with `-outline` appended |
| `App.UnknownRouteIgnoresFocus` | App.tsx:29-30 | any other route gets `help-outline`, focused or not |
| `App.TabIconsDistinct` | App.tsx:23-28 | the three tabs show three different icons in either focus state |

## Left out

- Spring and timing physics are not modelled. This covers the stiffness, tension and friction, the frame-by-frame motion, `Animated.timing`, `sequence` and `delay`, and the `interpolate` style mappings. A spring is only its target plus a completion event that puts the value on the target.
- The gesture callbacks (`onPanResponderGrant`, `onPanResponderMove`, `onPanResponderRelease`) are used only for what they do to the position. The framework's choice to grant on the first move (`onMoveShouldSetPanResponder`) is not modelled.
- A new drag during a spring does not cancel the spring in this model. The source has no code for this and relies on the animation library's internals. `Grant` and `Move` leave a pending spring untouched. A spring started at release replaces one still in flight.
- The window width is read once from the device in the source. Here it is a parameter of `DraggableBox`.
- Positions are exact `real`s. Floating-point rounding and `NaN` are not modelled.
- `FloatingButton.Toggle` reads the current flag. The source reads the value captured at render time, so two toggles before a re-render would both read the same stale flag. That is a rendering concurrency effect and is not modelled.
- The network request and `response.json()` are not modelled. A fetch's result is the `FetchOutcome` input. Overlapping fetches and their races are not modelled either.
- HomeScreen.QuoteScreen.FetchSettled: `Success(data)` stands for whatever `response.json()` returns. The source never checks `response.ok` or the shape of the body, so an HTTP error with a JSON body counts as a success. A JSON `null` body, which would set the quote back to none, is not modelled.
- HomeScreen.RequestUrlRoundTrip: holds only for categories without `&` or `#`, because the source does not URL-encode the category. Percent-decoding by the reader is not modelled, so a category holding `%` is also not covered. All 13 table categories are covered (`TableKeysRoundTrip`).
- HomeScreen.TypeText: `typeMap` is a plain object, so a key inherited from `Object.prototype` (such as `constructor` or `toString`) finds a truthy function rather than falling back to `'未知'`. The model gives `'未知'` for every key outside the table. The type codes it is given come from the quote service.
- HomeScreen.RefreshLabel: for a key inherited from `Object.prototype` the template literal would write that function's text, not `undefined`. The source only ever selects table keys, so neither branch is reachable in the source (`RefreshButtonText`).
- `formatDate` is not modelled, because it depends on `Date` and locale formatting.
- `Alert.alert` and `console.error` are reduced to the `alerted` result of `FetchSettled`. The alert texts are not modelled.
- The fields of the quote record come from the app's type declarations, which are not part of this model. `Hitokoto` lists the fields the screen displays.
- JSX, `StyleSheet` tables, `Modal`, `setTimeout`, the other showcase widgets and the navigator wiring in `App.tsx` are not modelled. `src/screens/ProfileScreen.tsx` is not part of this model: it is a static menu.
