# Genga TV: channel directory, country matching, cache and stream selection

This project models, in Dafny, the decision logic that the Genga TV web
app runs before anything is rendered:

- **Globe page (`GengasTV`)**: `normalize`, the way a clicked country name is
  matched against the directory keys, the search suggestions, the polygon hue,
  the HLS-or-direct playback branch, and the view state. The view state
  decides whether the main view, the country sidebar or the player shows.
- **HEAD side of `src/App.jsx`**: the loaded directory becomes an array of
  countries with defaults. `handleCountry` selects a country by code or
  name, ignoring case. It is modelled as written, although nothing calls it:
  the `GlobeView` it is handed to (`src/components/GlobeView.jsx:5`) takes
  no props and never calls `onCountryClick`. The player's `ended` event
  advances round-robin through the country's channels.
- **`fetchChannels`**: a six-hour `localStorage` cache in front of
  `/channels.json`, where every exception becomes `[]`. A body that is JSON
  `null` is written to the cache before `data.length` throws, so that call
  gives `[]` and the calls of the next six hours give the cached `null`.
- **Client `Player` and `FloatingPlayer`**: how each one picks the
  `streamUrl` it plays. The two differ in how they detect a failed
  `/api/play` reply.

The clock, the network, `localStorage`, `Hls.isSupported()` and
`encodeURIComponent` are parameters of the model: `now`, a `Response` or
`Reply` value, a `Stored` cache slot, a `hlsSupported` flag and an `encode`
function. JavaScript's truthiness is written out. An empty string is falsy,
so an empty key, code or name behaves as "absent" wherever the source tests
it with `||` or `&&`.

Files: `js.dfy` holds the JavaScript built-ins the components use.
`directory.dfy` holds the channel and country records. `gengas_tv.dfy`,
`app.dfy`, `fetch_channels.dfy`, `play_api.dfy`, `player.dfy` and
`floating_player.dfy` follow the source files. Pure logic is written as
functions and lemmas. Component state is written as classes whose methods
state the whole new state in terms of the old one.

Two properties of the code shape the model:

- Country matching goes one way only. After the exact match, a key is
  accepted only when its normalized form contains the normalized name, never
  the reverse (`MatchContainsName`, `MatchIgnoresShorterKeys`).
- There are no typed errors. Every failure becomes `[]` (`fetchChannels`)
  or `null` (the players).

## Model

| member | source | states |
|---|---|---|
| Js.Lower | src/components/GengasTV.jsx:51 | `toLowerCase` keeps the length and lowers each letter A-Z |
| Js.FindFirst | src/components/GengasTV.jsx:70 | `find` gives the first index whose element satisfies the test, or none when no element does |
| Js.Filter | src/components/GengasTV.jsx:87 | `filter` keeps exactly the elements that pass the test and is no longer than its input |
| Js.FilterAppend | src/components/GengasTV.jsx:87 | `filter` keeps input order: it distributes over concatenation |
| Js.Take | src/components/GengasTV.jsx:90 | `slice(0, n)` is a prefix of length min(n, length) |
| Js.EndsWithAt | src/components/GengasTV.jsx:99 | `endsWith` holds exactly when the suffix occurs at the string's last possible offset, and then the string contains it |
| Js.ContainsAt | src/components/GengasTV.jsx:71 | `includes` holds exactly when the needle occurs at some offset |
| Js.OrElse | src/App.jsx:9 | the `or` default of a string is the string when it is non-empty, else the fallback |
| Directory.Keys | src/components/GengasTV.jsx:68 | `Object.keys` lists the entries' keys in entry order |
| GengasTV.Normalize | src/components/GengasTV.jsx:51 | normalizing never lengthens a string |
| GengasTV.NormalizeAlphabet | src/components/GengasTV.jsx:51 | a normalized string holds only `a-z` and `0-9` |
| GengasTV.NormalizeIdempotent | src/components/GengasTV.jsx:51 | normalizing twice equals normalizing once |
| GengasTV.MatchIndex | src/components/GengasTV.jsx:67-73 | a match is a key of the directory and never the falsy empty key |
| GengasTV.MatchContainsName | src/components/GengasTV.jsx:69-71 | a matched key's normalized form contains the normalized name |
| GengasTV.MatchPrefersExact | src/components/GengasTV.jsx:69-70 | if some key normalizes to exactly the (non-empty) normalized name, the first such key is chosen over any substring match |
| GengasTV.MatchFallsBackToContaining | src/components/GengasTV.jsx:71 | with no exact key, the first key containing the name is chosen, and none when no key contains it |
| GengasTV.MatchIgnoresShorterKeys | src/components/GengasTV.jsx:71 | the matched key is never shorter (normalized) than the name, so a key only contained in the name is never the one matched |
| GengasTV.EmptyNameTakesFirstKey | src/components/GengasTV.jsx:67-73 | a name with no ASCII letter or digit selects the first key when no key normalizes to "" |
| GengasTV.SelectCountry | src/components/GengasTV.jsx:73-81 | on a match the selection is the key `MatchIndex` picks, with its own channels, and its name contains the given one; otherwise it is the given name with no channels |
| GengasTV.Suggestions | src/components/GengasTV.jsx:85-91 | the suggestions effect gives at most 8 keys of the directory, and none for an empty search |
| GengasTV.SuggestionsSpec | src/components/GengasTV.jsx:85-91 | there are at most 8 suggestions and none for an empty search; each is a key containing the search case-insensitively; a matching key is missing only when the list is full |
| GengasTV.SuggestionsKeepKeyOrder | src/components/GengasTV.jsx:87-90 | suggestions follow key order: those for a prefix of the keys start the list for all keys |
| GengasTV.PolygonHue | src/components/GengasTV.jsx:111-114 | the hue is NaN exactly for a name that normalizes to ""; otherwise it is 45 times (first char code mod 8), a multiple of 45 in [0, 360) |
| GengasTV.PlaybackFor | src/components/GengasTV.jsx:94-109 | only an iptv channel with a video element plays; hls.js is used exactly for a `.m3u8` URL when it is supported; the URL is passed on unchanged |
| GengasTV.GengasTv.ViewsAreExclusive | src/components/GengasTV.jsx:167-383 | the render conditions (`SearchBoxShown`, `BackButtonShown`, `SidebarShown`, `PlayerShown`, `VideoElementPresent`) show exactly one of the main view, the country view and the player; the sidebar only with the back button, the `<video>` only in the player |
| GengasTV.GengasTv.CurrentPlayback | src/components/GengasTV.jsx:95-107 | the selected iptv channel always plays, by hls.js or `video.src`, because its `<video>` is rendered |
| GengasTV.GengasTv.constructor | src/components/GengasTV.jsx:14-20 | the page starts in the main view with an empty directory, search and suggestion list |
| GengasTV.GengasTv.SetChannels | src/components/GengasTV.jsx:35 | the directory becomes the loaded one, or empty for a missing one, and the suggestions are recomputed |
| GengasTV.GengasTv.SetSearch | src/components/GengasTV.jsx:85-91 | typing sets the search and recomputes at most 8 suggestions, none for "" |
| GengasTV.GengasTv.ShowCountry | src/components/GengasTV.jsx:67-82 | selects the matched country (or the bare name), opens the sidebar and clears the channel; the sidebar and back button show |
| GengasTV.GengasTv.CountryClick | src/components/GengasTV.jsx:53-56 | a polygon without a name changes nothing; otherwise the country is shown |
| GengasTV.GengasTv.SuggestionClick | src/components/GengasTV.jsx:209-213 | shows the suggested country and clears the search and the suggestions |
| GengasTV.GengasTv.ChannelClick | src/components/GengasTV.jsx:301-304 | selects the channel and closes the sidebar; only the player shows |
| GengasTV.GengasTv.BackToMain | src/components/GengasTV.jsx:117-123 | clears the country and the search and closes the sidebar; the channel is kept |
| GengasTV.GengasTv.ClosePlayer | src/components/GengasTV.jsx:125-131 | clears the channel and the country and closes the sidebar; the main view with its search box shows |
| App.ToCountries | src/App.jsx:9 | one country per entry: code and name default to the key when falsy, channels default to `[]`, capital and timezone are carried over |
| App.LoadedCountries | src/App.jsx:9 | falsy data leaves `data` unchanged; an array is kept as it is; an object is converted by `ToCountries`; anything else becomes `[]` |
| App.ConvertedCountriesAreNamed | src/App.jsx:9 | a country converted from a non-empty key has a truthy code and name; an empty key with no code or name gives a falsy code and name |
| App.AppState.Load | src/App.jsx:9 | stores the converted data unless it is falsy; the selection is untouched |
| App.FindCountry | src/App.jsx:10 | the first country whose truthy code or name equals the argument ignoring case, or none when no country does |
| App.FindCountryIgnoresCase | src/App.jsx:10 | arguments equal up to case find the same country |
| App.EmptyCodeMatchesNothing | src/App.jsx:10 | the empty argument selects no country |
| App.FirstUrl | src/App.jsx:10 | the first channel's URL when the country has channels, otherwise null |
| App.AppState.HandleCountry | src/App.jsx:10 | with no data or no match nothing changes; on a match the country is selected, the index becomes 0 and the first URL (or null) plays |
| App.NextIndex | src/App.jsx:11 | the next index is in bounds, one more than the current one, and wraps to 0 after the last channel |
| App.AdvanceIsModular | src/App.jsx:11 | after k `ended` events the index is (start + k) mod the channel count |
| App.RoundRobinVisitsAll | src/App.jsx:11 | from any channel, every channel is reached within a full turn, and a full turn returns to the start |
| App.AppState.HandleEnded | src/App.jsx:11 | with no country nothing changes; with no channels playback stops; otherwise the next channel in the ring plays |
| App.AppState.Play | src/App.jsx:12 | picking from the list plays that URL and leaves the index alone |
| App.AppState.constructor | src/App.jsx:8 | no data, no country, nothing playing, index 0 |
| FetchChannels.Lookup | src/utils/fetchChannels.js:13-20 | a hit exactly for a parsed entry with a timestamp under six hours old; a throw exactly for unparsable or `null` JSON; a miss otherwise |
| FetchChannels.FreshnessWindow | src/utils/fetchChannels.js:5-16 | an entry is fresh for 21,600,000 ms after its timestamp, and one exactly six hours old is stale |
| FetchChannels.Answer | src/utils/fetchChannels.js:18 | a cache hit answers the stored data, or `null` when `null` was stored |
| FetchChannels.NullBodyIsServedFromCache | src/utils/fetchChannels.js:16-18 | a stored `null` body is a cache hit answering `null` for six hours after it was written |
| FetchChannels.ChannelCache.Fetch | src/utils/fetchChannels.js:10-41 | a fresh entry answers without a request; a corrupt one gives `[]` without a request; a successful fetch is stored with `now` and returned; a `null` body is stored with `now` and the call gives `[]`; any other failure gives `[]` and leaves the old entry in place |
| PlayApi.PlayRequest | client/src/components/FloatingPlayer.jsx:11 | the request is `/api/play?url=` followed by the encoded channel URL |
| PlayApi.Render | client/src/components/Player.jsx:19-33 | nothing without a channel; the video exactly when `streamUrl` is truthy; the "Preparing stream..." placeholder otherwise |
| ClientPlayer.StreamFromReply | client/src/components/Player.jsx:12-13 | a non-ok status, a network error, or an ok reply whose body is not JSON or is `null`, gives null; an ok object reply gives its `streamUrl` field as it is |
| ClientPlayer.Player.constructor | client/src/components/Player.jsx:7 | `streamUrl` starts as null |
| ClientPlayer.Player.Screen | client/src/components/Player.jsx:19-33 | the video is shown only for a channel with a truthy `streamUrl` |
| ClientPlayer.Player.ChannelChanged | client/src/components/Player.jsx:9-17 | a channel change first resets `streamUrl` to null; no channel renders nothing; a non-YouTube URL is used unchanged with no request; a YouTube channel requests `/api/play` and shows the placeholder |
| ClientPlayer.Player.ReplyArrived | client/src/components/Player.jsx:13 | the reply sets `streamUrl`; a video shows only after an ok reply |
| ClientFloatingPlayer.StreamFromReply | client/src/components/FloatingPlayer.jsx:11-14 | the result is null or a truthy URL: the reply's `streamUrl` exactly when it is truthy, whatever the status |
| ClientFloatingPlayer.StatusIgnored | client/src/components/FloatingPlayer.jsx:12-13 | the HTTP status does not affect the result |
| ClientFloatingPlayer.PlayersAgreeOnOkReplies | client/src/components/FloatingPlayer.jsx:12-13 | on an ok reply both players render the same thing |
| ClientFloatingPlayer.PlayersDifferOnErrorStatus | client/src/components/FloatingPlayer.jsx:12-13 | on an error status whose body names a stream, `Player` shows the placeholder and `FloatingPlayer` plays the stream |
| ClientFloatingPlayer.FloatingPlayer.constructor | client/src/components/FloatingPlayer.jsx:5 | `streamUrl` starts as null |
| ClientFloatingPlayer.FloatingPlayer.Screen | client/src/components/FloatingPlayer.jsx:20-34 | the video is shown only for a channel with a truthy `streamUrl` |
| ClientFloatingPlayer.FloatingPlayer.ChannelChanged | client/src/components/FloatingPlayer.jsx:7-18 | a channel change first resets `streamUrl` to null; no channel renders nothing; a non-YouTube URL is used unchanged; a YouTube channel requests `/api/play?url=` plus the encoded URL |
| ClientFloatingPlayer.FloatingPlayer.ReplyArrived | client/src/components/FloatingPlayer.jsx:12-14 | the reply sets `streamUrl` to a truthy URL or null |

## Left out

- Js.Lower: models `toLowerCase` for ASCII letters only. Unicode mappings that land in `a-z` (the Kelvin sign, dotted capital I) are not modelled, so `normalize` may differ from the browser's on such names. The suggestion filter (`SuggestMatch`) and `FindCountry` compare whole lower-cased strings, so any non-ASCII capital changes their result too: the search "RÉUNION" suggests the key "Réunion" in a browser but not in the model.
- The globe: the `react-globe.gl` scene, camera moves (`pointOfView`), `geoCentroid`, topojson features, the world-map fetch, the ambient light and everything in `GlobeView.jsx`. These are rendering and floating point.
- Channel loading in the globe page and in `App`: both import a named `loadChannels` that `fetchChannels.js` does not export. `SetChannels` and `Load` therefore take the value the loader would resolve with as a parameter. `fetchChannels` itself is modelled as written.
- Directory shape: a directory is modelled as its `Object.entries` list, in that order. JavaScript's own key ordering (integer-like keys first), array-shaped directories passed to the globe page, `null` directory values (a `TypeError` in both components) and non-string `code`/`name` fields are not modelled.
- `fetchChannels` reads `Date.now()` twice, once for the check and once for the stamp. The model uses one `now` for both. The console messages and `JSON.stringify` are not modelled.
- hls.js itself (`loadSource`, `attachMedia`, the `MANIFEST_PARSED` handler, `destroy` on cleanup) and `video.play()` are not modelled. The model keeps only which path the effect takes and which URL it hands on.
- Effect timing: a `/api/play` reply that arrives after the channel has changed is not modelled. A reply is accepted only while its request is pending, and a channel change drops the pending request.
- Rendering-only parts: the YouTube `<iframe>`, the player close buttons (`setIsPlaying`), the video `onError` reload, `Header`, `ChannelsPanel`, `ChannelList`, `CountryList`, `ChannelCard`, `src/components/Player.jsx`, `client/src/App.jsx` and the other side of the merge conflict in `src/App.jsx` (lines 14-75).
- The Express servers (`server/index.js`, `client/server/index.js`): only `/video` (`server/index.js:15-29`) runs an external extractor process, and `/api/channels` returns a fixed list. `/api/play`, which both client players call, is defined in neither server file (the client server's catch-all answers it with `index.html`), so its reply is the abstract `Reply` parameter. The client-side `fetchChannels` in `client/src/utils/api.js` and the time-zone formatting in `client/src/utils/timezones.js` are also left out. `requestStream` is modelled only through its outcome, `Reply`.
