# Smart-TV front end: stores, platform tables and list virtualization

This project models, in Dafny, the rule sets that a React smart-TV front end
implements itself:

- **Page history** (`Navigation`): the store that keeps the current page, a
  stack of visited pages and the last focused focus key for each page. The
  store is a class whose methods replace its fields. Each method is proved
  equal to a pure transition function. The invariant "history non-empty, the
  current page on top" is proved for every sequence of actions, and so is the
  push/pop round trip.
- **Content** (`Content`): the four mock home rows, the detail lookup (first
  match over rows in order, else a made-up fallback record), the description
  default, the episode list for series, and the `isLoading`/`error` flags of
  the fetch actions. The lookup loop is a method proved against a recursive
  specification function.
- **Authentication** (`Auth`): the login/logout state machine. It persists the
  user record under the storage key `user` in a key-value storage object. The
  lemmas show that login, logout and preference updates survive a restart
  followed by `checkAuth`.
- **Platform** (`Detect`, `Keys`, `Capabilities`): detection priority over an
  explicit environment, the four remote-control key-code tables, the `isKey`
  match rule and the key handler's filtering, and the capability records.
- **Virtualization** (`Virtualization`): the visible index range with
  floor/ceil division, overscan and clamping; the rendered index list; item
  offsets; and the scroll state of one hook instance.
- **Focus keys** (`FocusKeys`): the focus-key constants and `generateFocusKey`.

`Strings` holds the decimal rendering of numbers (what `${i}` produces in a
template literal), ASCII lower-casing and substring search. `Wrappers` holds
`Option`.

Values the source draws from `Math.random` are parameters of the model: the
ratings, durations, release year and the fallback record's type. Whether an
exception is raised inside an action's `try` block is a parameter too. The
browser probes (`window` globals, `navigator.userAgent`) are fields of an
`Environment` value. The device storage is a class holding a string map.
`JSON.stringify`/`JSON.parse` are an abstract codec: a total and a partial
function.

## Model

| member | source | states |
|---|---|---|
| FocusKeys.FocusKeysDistinct | src/utils/navigation.ts:21-31 | the nine FOCUS_KEYS values are pairwise distinct |
| FocusKeys.FocusKey | src/utils/navigation.ts:21-31 | the value of each FOCUS_KEYS entry (MAIN_MENU is "MENU"); FocusKeysDistinct proves them pairwise distinct |
| FocusKeys.GenerateFocusKey | src/utils/navigation.ts:36-41 | the key is the prefix, then one underscore, then the rendered id, and its length is their sum |
| FocusKeys.RenderId | src/utils/navigation.ts:40 | `${id}`: a string id as itself, a numeric id as its decimal rendering; GenerateFocusKeyInjective and NumberAndTextIdsCollide characterise it |
| FocusKeys.GenerateFocusKeyInjective | src/utils/navigation.ts:40 | with a fixed prefix, two string ids (or two numeric ids) that give the same key are equal |
| FocusKeys.NumberAndTextIdsCollide | src/utils/navigation.ts:38-40 | the numeric id 7 and the string id "7" give the same key, so injectivity needs ids of one kind |
| FocusKeys.UnderscoreInPrefixCollides | src/utils/navigation.ts:40 | ("CONTENT_ROW", "1") and ("CONTENT", "ROW_1") give the same key, so the prefix cannot be recovered from a key |
| Navigation.InitialFocusKeysTotal | src/state/navigationStore.ts:24-33 | the initial focus-key map has an entry for every page, equal to that page's FOCUS_KEYS default |
| Navigation.DefaultFocusKey | src/state/navigationStore.ts:24-33 | the per-page default: CONTENT_GRID for home, movies, series and live, and the page's own key for detail, player, search and settings; InitialFocusKeysTotal and InitialState show it is the initial map |
| Navigation.InitialFocusKeys | src/state/navigationStore.ts:24-33 | the initial lastFocusedKeys object; InitialFocusKeysTotal proves it has every page, with its default |
| Navigation.InitialState | src/state/navigationStore.ts:22-34 | the initial state is valid: current page home, history [home], default focus keys, root focus key APP |
| Navigation.AfterNavigateTo | src/state/navigationStore.ts:36-43 | navigateTo appends the page even when it is already current, makes it current, keeps validity and leaves the focus keys untouched |
| Navigation.AfterNavigateBack | src/state/navigationStore.ts:45-58 | with at most one history entry the state is unchanged; otherwise exactly the last entry is dropped and the new last entry is current; focus keys untouched; validity kept |
| Navigation.AfterSetLastFocusedKey | src/state/navigationStore.ts:61-66 | only the entry of the given page changes, to the given key; every other page's entry, the history, the current page and the root key are unchanged |
| Navigation.RunPreservesValid | src/state/navigationStore.ts:22-66 | every sequence of actions from a valid state ends in a valid state (history non-empty, current page on top, every page keyed) |
| Navigation.ReachableStatesValid | src/state/navigationStore.ts:21-66 | every state reachable from the initial state is valid |
| Navigation.RunKeepsRoot | src/state/navigationStore.ts:45-58 | no sequence of actions removes or replaces the first history entry |
| Navigation.NavigationKeepsFocusKeys | src/state/navigationStore.ts:36-59 | any sequence of navigateTo/navigateBack leaves lastFocusedKeys exactly as it was |
| Navigation.NavigateToThenBack | src/state/navigationStore.ts:36-58 | navigateTo(p) followed by navigateBack restores a valid state exactly |
| Navigation.BackAtRootIsNoOp | src/state/navigationStore.ts:45-49 | going back from the initial state changes nothing |
| Navigation.NavigationStore.constructor | src/state/navigationStore.ts:21-34 | a new store holds the initial state and is valid |
| Navigation.NavigationStore.NavigateTo | src/state/navigationStore.ts:36-43 | the store's new fields are the navigateTo transition of its old fields; validity is kept |
| Navigation.NavigationStore.NavigateBack | src/state/navigationStore.ts:45-59 | the store's new fields are the navigateBack transition of its old fields; validity is kept |
| Navigation.NavigationStore.SetLastFocusedKey | src/state/navigationStore.ts:61-66 | the store's new fields are the setLastFocusedKey transition of its old fields; validity is kept |
| Content.MockItem | src/state/contentStore.ts:71-77 | a mock item has id `${rowId}-${i}`, the given type and rating, and no genre, description or duration |
| Content.MockRow | src/state/contentStore.ts:71-77 | a mock row keeps its id and title and has ten items, item i built from index i |
| Content.MockRows | src/state/contentStore.ts:66-110 | the home rows are four, in the order trending, recommended, new, live; each has ten items with ids `${rowId}-${i}`; the row ids start with different letters |
| Content.FeaturedContent | src/state/contentStore.ts:55-64 | the mock featured movie: id featured1, genre Action, duration 120, rating 4.5, with its title, image and description |
| Content.TrendingKind | src/state/contentStore.ts:75 | series when i % 3 == 0, movie otherwise; MockRowKinds states the trending row follows it |
| Content.RecommendedKind | src/state/contentStore.ts:86 | movie when i is even, series otherwise; MockRowKinds states the recommended row follows it |
| Content.MockRowKinds | src/state/contentStore.ts:66-110 | trending item i is a series iff i % 3 == 0; recommended item i is a movie iff i is even; new items are movies; live items are live |
| Content.MockRowRatings | src/state/contentStore.ts:66-110 | items of the first three rows carry their drawn rating; live channels have none |
| Content.MockIdsDistinct | src/state/contentStore.ts:72 | two items of one mock row never share an id |
| Content.FindInItems | src/state/contentStore.ts:141 | find returns an item of the list with the requested id, and returns nothing iff no item has that id |
| Content.FindInItemsFirst | src/state/contentStore.ts:141 | the item at the first position holding the id is what find returns |
| Content.FindInItemsIndex | src/state/contentStore.ts:141 | what find returns sits at a position that no earlier item with the id precedes |
| Content.FindInRows | src/state/contentStore.ts:136-143 | the row search returns an item with the requested id, and returns nothing iff no row holds that id |
| Content.FindInRowsFirst | src/state/contentStore.ts:139-143 | the search returns the first match, scanning rows in order and items in order within a row |
| Content.LookupContent | src/state/contentStore.ts:136-143 | the loop that breaks at the first row with a match computes exactly the row search |
| Content.MockIdsAreFound | src/state/contentStore.ts:136-143 | in rows shaped like the mock rows with distinct initials, looking up `${rowId}-${i}` finds item i of that row |
| Content.MockItemsAreFound | src/state/contentStore.ts:113-143 | after a successful home fetch, looking up any mock item's id finds exactly that item |
| Content.DescriptionOrDefault | src/state/contentStore.ts:162 | a present non-empty description is kept; a missing or empty one becomes 'No description available.' |
| Content.Episodes | src/state/contentStore.ts:166-171 | a series gets eight episodes with ids `${contentId}-ep-${i}` and titles `Episode ${i+1}` |
| Content.EpisodeIdsDistinct | src/state/contentStore.ts:167 | no two episodes of one series share an id |
| Content.DetailsOfListedItem | src/state/contentStore.ts:159-172 | details of a found item keep every field but the description, which is defaulted; episodes are present iff the item is a series, and then there are eight |
| Content.DetailsOfUnknownItem | src/state/contentStore.ts:145-172 | an id no row holds gets the fallback record: that id, title `Content ${id}`, genre Drama, the fixed description, episodes iff the drawn type is series |
| Content.Fallback | src/state/contentStore.ts:146-157 | the record made up for an unknown id; DetailsOfUnknownItem states its id, title, genre and description |
| Content.WithDetails | src/state/contentStore.ts:159-172 | the detailed record built from the found item; DetailsOfListedItem states which fields are kept and when episodes exist |
| Content.ContentDetails | src/state/contentStore.ts:136-172 | lookup, fallback and details together; FetchContentDetails stores exactly this, and DetailsOfListedItem and DetailsOfUnknownItem characterise both cases |
| Content.FirstTrendingItemHasEpisodes | src/state/contentStore.ts:66-172 | after the home fetch, the details of trending-0 have eight episodes and the default description |
| Content.ContentStore.constructor | src/state/contentStore.ts:36-41 | a new store has no featured item, no rows, no selection, is not loading and has no error |
| Content.ContentStore.BeginLoading | src/state/contentStore.ts:46 | the first step of both fetches sets isLoading and clears the error, and nothing else |
| Content.ContentStore.ResolveHomeContent | src/state/contentStore.ts:113-124 | on success the featured item and the four mock rows are stored; on failure the home error message is set and the data kept; loading ends either way |
| Content.ContentStore.FetchHomeContent | src/state/contentStore.ts:44-125 | the whole home fetch: loading ends, the error is cleared and the mock data stored on success, the fixed message set on failure |
| Content.ContentStore.FetchContentDetails | src/state/contentStore.ts:128-185 | on success the selection becomes the details of the requested id over the stored rows and the error is cleared; on failure the details error message is set; rows and featured item are never changed; loading ends |
| Content.ContentStore.SelectContent | src/state/contentStore.ts:188-190 | only selectedContent changes, to the given item |
| Auth.MockUser | src/state/authStore.ts:48-55 | the login user has id '123', the given name, and exactly the preferences subtitles = true and audioLanguage = 'en' |
| Auth.AnonymousUser | src/state/authStore.ts:21-25 | the user record with id and name null and no preferences; AfterLogout and the constructor restore it |
| Auth.InitialState | src/state/authStore.ts:20-25 | unauthenticated with the anonymous user; LogoutSurvivesRestart and the constructor are stated against it |
| Auth.SavedUser | src/state/authStore.ts:31-32 | a saved user is present iff the storage holds a non-empty string under 'user' |
| Auth.AfterCheckAuth | src/state/authStore.ts:28-41 | with no non-empty saved text nothing changes; text that parses authenticates as exactly the parsed user and leaves storage alone; text that does not parse is removed from storage and the state is kept; so checkAuth never logs out |
| Auth.AfterLogin | src/state/authStore.ts:44-67 | login returns true, authenticates as the mock user and stores its serialisation under 'user', leaving other storage entries alone |
| Auth.AfterLogout | src/state/authStore.ts:70-83 | logout restores the initial state and removes only the 'user' entry |
| Auth.AfterUpdatePreferences | src/state/authStore.ts:86-103 | keys of the update win, other keys are unchanged, id, name and isAuthenticated are unchanged, and storage is rewritten only while authenticated |
| Auth.LogoutIdempotent | src/state/authStore.ts:70-83 | logging out twice is logging out once |
| Auth.CheckAuthIdempotent | src/state/authStore.ts:28-41 | checking twice is checking once |
| Auth.LoginSurvivesRestart | src/state/authStore.ts:28-67 | after login, a fresh store running checkAuth on the same storage reaches exactly the logged-in state |
| Auth.LogoutSurvivesRestart | src/state/authStore.ts:28-83 | after logout, a fresh store running checkAuth stays logged out with the same storage |
| Auth.PreferencesSurviveRestart | src/state/authStore.ts:28-103 | preferences updated while logged in are what a fresh store's checkAuth restores |
| Auth.UpdatesCompose | src/state/authStore.ts:86-103 | two updates in a row equal one update with the merged preferences, later keys winning |
| Auth.KeyValueStorage.GetItem | src/state/authStore.ts:31 | getItem returns the stored value, or nothing when the key is absent |
| Auth.KeyValueStorage.SetItem | src/state/authStore.ts:58 | setItem binds the key to the value and changes no other entry |
| Auth.KeyValueStorage.RemoveItem | src/state/authStore.ts:38 | removeItem drops the key and changes no other entry |
| Auth.AuthStore.constructor | src/state/authStore.ts:19-25 | a new store is unauthenticated with id and name null and no preferences |
| Auth.AuthStore.CheckAuth | src/state/authStore.ts:28-41 | the store and storage after checkAuth are the checkAuth transition of those before |
| Auth.AuthStore.Login | src/state/authStore.ts:44-67 | the store, storage and result after login are the login transition of those before |
| Auth.AuthStore.Logout | src/state/authStore.ts:70-83 | the store and storage after logout are the logout transition of those before |
| Auth.AuthStore.UpdateUserPreferences | src/state/authStore.ts:86-103 | the store and storage after the update are the update transition of those before |
| Detect.DetectPlatform | src/platform/detect.ts:40-45 | tizen iff the Tizen probe holds; webos iff it does not and the webOS probe does; hisense iff both fail and the Hisense probe holds; generic iff all three fail |
| Detect.IsTizen | src/platform/detect.ts:18-20 | a window exists and defines `tizen`; DetectPlatform and TizenWins use it as the first probe |
| Detect.IsWebOS | src/platform/detect.ts:23-25 | a window exists and defines `webOS`; DetectPlatform uses it as the second probe |
| Detect.IsHisense | src/platform/detect.ts:28-37 | the lower-cased user agent contains "hisense" or "vidaa", or a window defines `HISENSE`; HisenseMatchIgnoresCase and HisenseOnLowered show the match ignores case |
| Detect.TizenWins | src/platform/detect.ts:41 | when the Tizen probe holds, extra globals or another user agent never change the result |
| Detect.HisenseMatchIgnoresCase | src/platform/detect.ts:28-37 | "hisense" in any mix of upper and lower case anywhere in the user agent makes the device a Hisense one |
| Detect.HisenseOnLowered | src/platform/detect.ts:28-37 | the Hisense probe gives the same answer on an already lower-cased user agent |
| Detect.NoWindowMeansHisenseOrGeneric | src/platform/detect.ts:17-45 | without a window object only the user agent decides, so the result is hisense or generic |
| Detect.PlatformNamesDistinct | src/platform/detect.ts:48-61 | getPlatformName maps the four platforms to four distinct names |
| Detect.GetPlatformName | src/platform/detect.ts:48-61 | the display name of the detected platform; total, and PlatformNamesDistinct proves the four names distinct |
| Detect.PlatformName | src/platform/detect.ts:51-60 | the switch: Samsung Tizen, LG webOS, Hisense VIDAA and Generic TV; PlatformNamesDistinct proves them distinct |
| Keys.ParseKeyName | src/platform/keys.ts:130-132 | a recognised property name is the name of the key it selects |
| Keys.ParseKeyNameString | src/platform/keys.ts:14-111 | each of the 21 key names is recognised, and is defined in all four tables |
| Keys.GetKeyCodes | src/platform/keys.ts:114-127 | tizen, webos and hisense get their own tables, and any other platform gets the generic one |
| Keys.TizenKeyCodes | src/platform/keys.ts:14-36 | the Tizen table, one number per key name; NavigationCodesShared checks its arrow and Enter codes |
| Keys.WebOSKeyCodes | src/platform/keys.ts:39-61 | the webOS table; WebOSInfoIsMenu shows INFO and MENU share 457 |
| Keys.HisenseKeyCodes | src/platform/keys.ts:64-86 | the Hisense table; NavigationCodesShared checks its arrow and Enter codes |
| Keys.GenericKeyCodes | src/platform/keys.ts:89-111 | the fallback keyboard table; GenericSpaceMatchesThreeKeys shows PLAY, PAUSE and PLAY_PAUSE share 32 |
| Keys.NavigationCodesShared | src/platform/keys.ts:14-111 | UP 38, DOWN 40, LEFT 37, RIGHT 39 and ENTER 13 in every table |
| Keys.IsKeyByCode | src/platform/keys.ts:130-136 | for a key of the table, isKey holds iff keyCode or which equals its code |
| Keys.IsKey | src/platform/keys.ts:130-139 | isKey on a detected platform; IsKeyByCode proves it holds iff keyCode or which carries the key's code, and UnknownNameNeverMatches that unknown names match nothing |
| Keys.UnknownNameNeverMatches | src/platform/keys.ts:132-138 | a name that is not in the tables matches no event |
| Keys.GenericSpaceMatchesThreeKeys | src/platform/keys.ts:97-99 | on the generic table one space-bar event is PLAY, PAUSE and PLAY_PAUSE at once |
| Keys.WebOSInfoIsMenu | src/platform/keys.ts:53-54 | on webOS an event is INFO iff it is MENU |
| Keys.OnKeyDown | src/platform/keys.ts:146-151 | the handler calls the callback and then preventDefault for a matching event, and does nothing otherwise |
| Keys.ArrowHandlingPlatformIndependent | src/platform/keys.ts:142-151 | an UP or LEFT handler reacts identically to any event on every platform |
| Capabilities.GenericIsBase | src/platform/capabilities.ts:85-86 | an unrecognised platform gets exactly the base record |
| Capabilities.BaseCapabilities | src/platform/capabilities.ts:34-45 | the conservative defaults; GenericIsBase, FixedCapabilities and VideoMemory relate every platform to them |
| Capabilities.GetCapabilities | src/platform/capabilities.ts:30-88 | the base record with each platform's overrides; FixedCapabilities, VideoMemory, HisenseProfile and FourKIffHDR state its results |
| Capabilities.HasCapability | src/platform/capabilities.ts:91-94 | the truthiness of one field of the detected platform's record; SizesAlwaysReported and VoiceAndPointer state its answers |
| Capabilities.Truthy | src/platform/capabilities.ts:91-94 | `!!capabilities[capability]`: a flag's own value, and for the two sizes whether they are non-zero |
| Capabilities.FixedCapabilities | src/platform/capabilities.ts:34-83 | supportsDRM, hasHardwareAcceleration and hasLocalStorage are never overridden and are true on every platform |
| Capabilities.VideoMemory | src/platform/capabilities.ts:40-79 | video memory is 100, 80, 60 and 50 MiB for tizen, webos, hisense and generic, never below the base |
| Capabilities.HisenseProfile | src/platform/capabilities.ts:73-83 | hisense has 4K and HDR but no Dolby Atmos, voice control or pointer, and 5 MiB of storage |
| Capabilities.FourKIffHDR | src/platform/capabilities.ts:34-83 | on every platform supports4K equals supportsHDR |
| Capabilities.SizesAlwaysReported | src/platform/capabilities.ts:91-94 | both sizes are positive everywhere, so hasCapability reports them as true |
| Capabilities.VoiceAndPointer | src/platform/capabilities.ts:91-94 | voice control and pointer support go together, and exactly tizen and webos have them |
| Virtualization.FloorDiv | src/utils/virtualization.ts:54 | the quotient q satisfies q*b <= a < q*b + b, which defines Math.floor(a / b) for b > 0 |
| Virtualization.CeilDiv | src/utils/virtualization.ts:57 | the quotient q satisfies q*b - b < a <= q*b, which defines Math.ceil(a / b) for b > 0 |
| Virtualization.GetVisibleRange | src/utils/virtualization.ts:45-61 | before mounting the range is [0, min(itemCount-1, 20)]; the start is never negative and the end never exceeds itemCount-1; once mounted, OverscanItemsRendered and RangeStaysNearViewport show the rendered items are exactly the existing items within overscan+1 item lengths of the viewport |
| Virtualization.VisibleItems | src/utils/virtualization.ts:64-67 | the list has max(0, end-start+1) entries, entry k being start+k |
| Virtualization.VisibleItemsMembership | src/utils/virtualization.ts:64-67 | an index is in the list iff it lies between start and end |
| Virtualization.VisibleItemsInBounds | src/utils/virtualization.ts:45-67 | every rendered index names an existing item |
| Virtualization.RangeCoversViewport | src/utils/virtualization.ts:54-58 | every existing item overlapping [scroll, scroll+viewport) lies in the range and in the rendered list |
| Virtualization.OverscanItemsRendered | src/utils/virtualization.ts:54-58 | every existing item starting less than overscan+1 item lengths before the viewport and less than overscan+1 item lengths after its end is rendered: the overscan items on both sides are included |
| Virtualization.RangeStaysNearViewport | src/utils/virtualization.ts:54-58 | conversely, every rendered item starts less than overscan+1 item lengths before the viewport and less than overscan+1 item lengths after its end, so the window stays near the viewport |
| Virtualization.ScrolledToItemIsVisible | src/utils/virtualization.ts:54-87 | at the scroll offset scrollTo(i) sets, the range starts at max(0, i-overscan) and item i is rendered |
| Virtualization.ItemsTile | src/utils/virtualization.ts:119-137 | item i is placed at offset i*itemSize with length itemSize along the axis, so consecutive items abut and earlier items never overlap later ones |
| Virtualization.GetVirtualItemStyle | src/utils/virtualization.ts:119-137 | offset index*itemSize and length itemSize along the chosen axis, the axis defaulting to vertical; ItemsTile proves the items tile the axis |
| Virtualization.Virtualizer.constructor | src/utils/virtualization.ts:31-38 | overscan defaults to 5 and direction to vertical; no element is mounted and the scroll position is 0 |
| Virtualization.Virtualizer.Mount | src/utils/virtualization.ts:37 | attaching the element fills the container reference |
| Virtualization.Virtualizer.HandleScroll | src/utils/virtualization.ts:70-74 | the scroll position becomes scrollLeft for a horizontal list and scrollTop for a vertical one |
| Virtualization.Virtualizer.ScrollTo | src/utils/virtualization.ts:77-87 | with a mounted element only the axis of the list is set, to index*itemSize; before mounting nothing changes |
| Virtualization.Virtualizer.Range | src/utils/virtualization.ts:45-63 | the range of the current render: the unmounted default before the element exists, and always within [0, itemCount-1]; GetVisibleRange's lemmas (RangeCoversViewport, OverscanItemsRendered, RangeStaysNearViewport) show it holds exactly the existing items within overscan+1 item lengths of the viewport |
| Virtualization.Virtualizer.Viewport | src/utils/virtualization.ts:46-52 | nothing before mounting; then the container's clientWidth for a horizontal list and clientHeight for a vertical one |
| Virtualization.Virtualizer.ScrolledItemIsRendered | src/utils/virtualization.ts:63-87 | once the scroll position is the offset scrollTo(i) writes and handleScroll reports, the range starts at max(0, i-overscan) and item i is rendered |
| Strings.NatToString | src/state/contentStore.ts:72 | the decimal rendering is a non-empty string of digits, a single digit exactly for numbers below 10, with no leading zero (it starts with '0' only for 0); NatToStringValue proves it denotes the number |
| Strings.DigitChar | src/state/contentStore.ts:72 | the digit for d is the character with code 48 + d ('0' to '9') |
| Strings.DecimalValue | src/state/contentStore.ts:72 | the number a digit string denotes, most significant digit first; the reference NatToStringValue checks the rendering against |
| Strings.NatToStringValue | src/state/contentStore.ts:72 | reading the rendering of n back as a decimal numeral gives n; with the absence of leading zeros this makes it the canonical decimal numeral of n, as `${i}` writes it |
| Strings.NatToStringInjective | src/state/contentStore.ts:72 | different numbers render differently |
| Strings.IntToString | src/utils/navigation.ts:40 | a non-negative safe integer renders as its decimal digits, a negative one as a minus sign before the digits of its magnitude |
| Strings.IntToStringInjective | src/utils/navigation.ts:40 | different integers render differently |
| Strings.LowerChar | src/platform/detect.ts:31 | each letter A-Z maps to its own lower-case letter (code point plus 32) and every other character is kept |
| Strings.ToLower | src/platform/detect.ts:31 | lower-casing keeps the length and lower-cases each character |
| Strings.ToLowerIdempotent | src/platform/detect.ts:31 | lower-casing twice is lower-casing once |
| Strings.ToLowerSlice | src/platform/detect.ts:31 | lower-casing commutes with taking a slice |
| Strings.ContainsOccurs | src/platform/detect.ts:33-34 | an occurrence of the substring at any position makes includes true |
| Strings.ContainsHasOccurrence | src/platform/detect.ts:33-34 | when includes is true, the substring occurs at some position |
| Strings.OccursAt | src/platform/detect.ts:33-34 | the substring occurs at the given position: the slice of its length there equals it |
| Strings.Contains | src/platform/detect.ts:33-34 | `includes`; ContainsOccurs and ContainsHasOccurrence prove it holds iff the substring occurs at some position |

## Left out

- The spatial-navigation engine (focus tree, boundaries, distance ranking) is a third-party library. The repository only declares its types, so it is not modelled. `initNavigation` only configures that library.
- React components and layouts, the player's time formatting and progress timers, `src/services/api.ts`, `src/utils/tvUtils.ts`, `src/index.tsx` and the type shims are not part of this model.
- The content store's simulated 500 ms delay is left out. `ResolveHomeContent` is the step after it, and the model does not order it against other actions.
- Values from `Math.random` are parameters. The model does not capture their ranges (ratings in [3, 5), durations 90-149 and 30-59, release year 2020-2022).
- Ratings are `real`. JavaScript floating-point numbers are not modelled.
- Request tokens, cancellation and timeouts have no code in the repository, so there is nothing to model. Concurrent fetches race.
- Auth.AfterLogin: the `catch` branch returning false is not modelled. The abstract storage never throws, so login always succeeds.
- Auth.AfterUpdatePreferences: a `setItem` that throws (a full storage) is not modelled.
- Auth.AfterCheckAuth: `JSON.parse` yielding something other than a user record (`null`, a number, an array) is treated as a failed parse. Preference values are limited to booleans, strings and integers.
- Detect.IsHisense: `toLowerCase` is modelled for ASCII letters only, and `navigator` is assumed to exist.
- Keys.IsKey: every table value is a number, so the `event.key === keyCode` branch is reached only for `undefined`, which a string `key` never equals. Names inherited from `Object.prototype` (such as `toString`) are treated as absent.
- FocusKeys.GenerateFocusKey: numeric ids are safe integers (|n| < 2^53). JavaScript writes whole numbers of 1e21 or more in exponent form (`${1e21}` is "1e+21"), and larger integers as their shortest round-trip digits padded with zeros (`${2**60}` is "1152921504606847000"); neither rendering is modelled, nor are fractional and non-finite numbers.
- Strings.IntToString: plain decimal digits for every integer, which matches JavaScript's template rendering only for safe integers (|n| < 2^53), for the reasons in the line above.
- Virtualization.GetVisibleRange: requires `itemSize > 0`. For zero the source divides by zero and works with `Infinity`/`NaN`; for a negative size it computes a reversed window. Neither is an integer range.
- Virtualization.Virtualizer.constructor: requires `itemSize > 0` for the same reason. The hook's options are fixed per instance; a re-render with different options is not modelled.
- Scroll offsets and viewport sizes are whole pixels. The browser's clamping of `scrollLeft`/`scrollTop` to the scrollable extent is not modelled.
- CSS style objects are reduced to offset and length along the list's axis: `px` strings, `position`, the cross axis and the container style are left out. `totalSize` is computed but unused in the source, so it is left out.
- React state semantics are simplified: `setScrollPosition` takes effect immediately in `HandleScroll`, and there is no re-render scheduling.
