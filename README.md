# Multichat overlay core, modelled in Dafny

The overlay gathers live chat from Twitch and YouTube. It turns each chat event into one normalised message: a platform, a user, the raw text, an ordered list of text and emote segments, and optionally the user's badges. It then sends that message to every connected WebSocket viewer. This project models the parts of that pipeline that hold logic:

- **Emote segment resolver** (`Emotes`, with the string operations in `JsStrings`).
  - It merges the global and channel 7TV catalogs; channel entries shadow global ones.
  - With Twitch positional ranges, it sorts them by start and walks the text: each gap is split on single spaces and looked up in the catalog, and each range becomes one emote named by its inclusive substring.
  - Without ranges, it tokenises the whole text.
  - `EmoteService` is a class whose `parseEmotes`, `parse7TV`, position-collecting loop and walk loop are methods. Each is proved equal to a specification function: `Resolve`, `WordSegments`, `Flatten` and `Walk`.
- **Platform normalisers**.
  - `Twitch`: the fixed seven-entry badge table, `parseBadges`, the assembly in the `onMessage` callback, and the `client` field that `stop` clears.
  - `YouTube`: `parseMessage`, `extractText`, the `chat` handler with its parts fallback and its "Unknown" user default, and the `chat` field.
- **Client registry** (`WebSocket`): a class holding a set of client handles, with add, remove, count, a broadcast that prunes clients it cannot send to, and cleanup.
- **Configuration** (`Config`): `loadConfig` as a function of an environment map, `parseInt(…, 10)` for the two ports, and `validateConfig` as a function returning whether it warns and what it throws.

Shared record types are in `Types`. A `MessagePart` is `Text(content)` or `Emote(url, name)`. `Render(parts)` concatenates the content of text parts and the names of emotes. It is the partner of both tokenisers: several round-trip lemmas state that rendering reproduces the input.

Modelling choices:
- JavaScript strings are `seq<char>`, and indices and lengths count `char`s. A Dafny `char` is a Unicode scalar value. JavaScript counts UTF-16 code units instead, so the two agree only on text inside the Basic Multilingual Plane (see Left out).
- An ordered `Map` is a sequence of entries in insertion order. A `Set` of client handles is a Dafny `set`.
- What a send or close call does is a predicate parameter (`sendThrows`, `closeThrows`). The result of each catalog fetch is a parameter of `Initialize`.
- A plain-object lookup `obj[key]` is modelled twice:
  - as written, where inherited `Object.prototype` members are found too;
  - as evidently intended, where only own entries count (see Findings).
- Three behaviours of the code that a reader might not expect, all modelled as written:
  - Without ranges, empty text gives one empty text segment, `[Text("")]`, not zero segments (or the emote named "", if the catalog holds one). On the range path it differs: with no offsets the result is empty, and a range starting at 0 gives its emote with no text segment before or after it.
  - Text is split on single spaces, so doubled spaces give empty words.
  - `websocket.ts` prunes only clients without `send` or whose `send` throws; it has no check of an open state.

## Model

| member | source | states |
|---|---|---|
| Emotes.Merge | src/services/emotes.ts:85 | The merged keys are the union of both catalogs. A name in the channel catalog maps to the channel URL. A name only in the global catalog keeps the global URL. |
| Emotes.AsWrittenAgreesOffPrototype | src/services/emotes.ts:134 | Off the inherited prototype names, the lookup as written and the corrected lookup agree. |
| Emotes.PrototypeNameIsEmoteAsWritten | src/services/emotes.ts:134 | The word "toString" passes the lookup as written against an empty catalog, although no catalog holds it. |
| Emotes.WordSegmentsSpec | src/services/emotes.ts:131-143 | If the text splits into w words, parse7TV yields 2w-1 segments. Every odd position is `Text(" ")`. Position 2i is `Emote(lookup[word], word)` exactly when the catalog has a non-empty URL for word i, and `Text(word)` otherwise. |
| Emotes.WordSegmentsOfEmpty | src/services/emotes.ts:131-143 | Empty text yields exactly `[Text("")]`, provided the catalog gives the empty name no non-empty URL (the lemma requires `!IsEmoteWord(lookup, "")`). The 7TV catalog loader does not rule out an emote with an empty name; with one, empty text yields that emote instead. |
| Emotes.WordSegmentsNonEmpty | src/services/emotes.ts:131-143 | parse7TV never yields an empty list. |
| Emotes.WordSegmentsRoundTrip | src/services/emotes.ts:131-145 | Rendering the segments of parse7TV gives back the input text. |
| Emotes.EmoteService.Parse7TV | src/services/emotes.ts:126-146 | The loop that pushes one segment per word, plus a separator after every word but the last, computes `WordSegments`. |
| JsStrings.SplitSpace | src/services/emotes.ts:131 | `split(" ")` always yields at least one piece. Its pieces are characterised by `SplitSpaceFree`, `JoinSplit` and `SplitJoin`: they hold no space, and joining them on single spaces gives back the string. |
| JsStrings.Substring | src/services/emotes.ts:106-117 | `text.substring(a, b)` as the walk uses it, with clamping and swapping of bounds; characterised by `SubstringSpec`. |
| JsStrings.SplitSpaceFree | src/services/emotes.ts:131 | No word of `split(" ")` contains a space. |
| JsStrings.JoinSplit | src/services/emotes.ts:131 | Joining the words of `split(" ")` on single spaces gives back the string. |
| JsStrings.SplitJoin | src/services/emotes.ts:131 | Splitting the single-space join of space-free words gives back the words. |
| JsStrings.SubstringSpec | src/services/emotes.ts:104-118 | `substring`: in-range bounds give the slice; reversed bounds give the slice between them; bounds both past the end give ""; one bound past the end gives the suffix from the other bound, whichever it is. |
| Emotes.EntryPositionsSpec | src/services/emotes.ts:91-98 | One ID's offsets give one position each, in order, with that ID's Twitch URL. |
| Emotes.FlattenSpec | src/services/emotes.ts:90-99 | There is one position per offset string across all IDs. Offset k of ID i stands at index OffsetCount(entries[..i]) + k, with its own start, end and the Twitch URL of ID i (`PlacedAt`). Conversely, each position is an offset of some ID and carries the Twitch URL of that ID. |
| Emotes.EmoteService.CollectPositions | src/services/emotes.ts:88-99 | The two nested push loops compute `Flatten`. |
| Emotes.SortByStart | src/services/emotes.ts:101 | `positions.sort` by ascending start, as an insertion sort; characterised by `SortByStartSpec`. |
| Emotes.SortByStartSpec | src/services/emotes.ts:101 | The sort by start yields a sorted permutation of its input, and leaves sorted input unchanged. |
| Emotes.SortedPositionsSpec | src/services/emotes.ts:88-101 | The sorted positions are a permutation (equal multiset) of the collected ones, so as many as the offset strings, and ascending by start. Every offset of every ID is among them with its ID's URL, and each of them is such an offset. |
| Emotes.GapOnlyWhenBehind | src/services/emotes.ts:105-107 | Gap text is tokenised before a range only when the cursor is behind its start; otherwise the range's emote comes first. |
| Emotes.TailOnlyWhenInside | src/services/emotes.ts:116-118 | After the last range, trailing segments appear exactly when the cursor is inside the text. |
| Emotes.WalkUnfold | src/services/emotes.ts:104-114 | Each range emits its gap and its emote, and the walk goes on from `end + 1`. |
| Emotes.WalkRangeSlots | src/services/emotes.ts:104-114 | The walk emits one emote per range, in the order of the ranges, at strictly increasing indices. |
| Emotes.ResolveRangeEmotes | src/services/emotes.ts:90-112 | On the range path there is one range emote per offset string, in ascending start order, at strictly increasing indices `slots[j]`. Every offset of every ID has a sorted position `j`, so it appears as the emote at `slots[j]`. Each such emote is named by the inclusive substring `[start, end]` and carries the Twitch URL of an ID holding that offset. |
| Emotes.ResolveWithoutRanges | src/services/emotes.ts:87-123 | With no map or an empty map, the result is parse7TV over the merged catalog. |
| Emotes.ResolveNoOffsets | src/services/emotes.ts:87-120 | A non-empty map with no offsets takes the range path. It equals parse7TV except on empty text, which yields no segment. |
| Emotes.WalkRoundTrip | src/services/emotes.ts:104-120 | For ranges that tile the text, rendering the walk reproduces the text from the cursor on. |
| Emotes.ResolveRoundTrip | src/services/emotes.ts:101-120 | Rendering the segments of parseEmotes reproduces the text. This holds always without ranges, and with ranges whenever the sorted ranges lie inside the text without overlapping. |
| Emotes.EmoteService.WalkPositions | src/services/emotes.ts:102-118 | The loop that keeps a cursor and resets it to `end + 1` after each range computes `Walk` for any gap tokeniser. parseEmotes passes it parse7TV over the merged catalog. |
| Emotes.EmoteService.ParseEmotes | src/services/emotes.ts:80-124 | parseEmotes on the service's two catalogs computes `Resolve`. |
| Emotes.EmoteService.Initialize | src/services/emotes.ts:7-12 | A successful global fetch replaces the global catalog. The channel catalog is replaced only for a truthy channel name and a successful fetch. Otherwise each catalog keeps its value. |
| Emotes.EmoteService.constructor | src/services/emotes.ts:4-5 | Both catalogs start empty. |
| Twitch.KnownBadgeIsMembership | src/services/twitch.ts:11-25 | Every table entry has a non-empty URL, so the corrected badge test is plain membership in the table. |
| Twitch.PrototypeBadgeAsWritten | src/services/twitch.ts:64 | "constructor" is not in the table but passes the badge test as written. |
| Twitch.SelectBadgesOfNone | src/services/twitch.ts:60 | An absent badge map gives no badges. |
| Twitch.SelectMembers | src/services/twitch.ts:63-67 | A badge is in the result exactly when its name is a key of the map and of the table and its URL is the table's entry for that name. |
| Twitch.SelectLength | src/services/twitch.ts:63-67 | There are never more badges than map entries. |
| Twitch.SelectConcat | src/services/twitch.ts:63-67 | The result follows the map's order: selecting from a concatenation concatenates the selections. |
| Twitch.SelectIgnoresVersions | src/services/twitch.ts:63-67 | Two maps with the same names in the same order give the same badges, whatever their version strings. |
| Twitch.TwitchService.ParseBadges | src/services/twitch.ts:59-69 | The loop that pushes one badge per known name computes `SelectBadges`. |
| Twitch.TwitchService.OnMessage | src/services/twitch.ts:40-53 | The message has platform Twitch, the event's user and text, the segments parseEmotes resolves, the badges parseBadges selects, and no timestamp. |
| Twitch.TwitchService.constructor | src/services/twitch.ts:27-35 | A new service has no client and keeps its channel and emote service. |
| Twitch.TwitchService.Start | src/services/twitch.ts:38 | Starting sets a client for the configured channel. |
| Twitch.TwitchService.Stop | src/services/twitch.ts:71-78 | Stopping drops the client. |
| Twitch.TwitchService.IsConnected | src/services/twitch.ts:80-82 | Connected exactly when a client is held. |
| Twitch.StopDisconnects | src/services/twitch.ts:71-82 | After `stop`, `isConnected` reports false. |
| YouTube.ExtractText | src/services/youtube.ts:74-77 | `extractText`: "" for a message that is not an array, otherwise the runs' contributions joined; characterised by `NotArrayIsEmpty`, `RunsTextConcat`, `RenderRunParts` and `EmojiWithoutAlt`. |
| YouTube.UserName | src/services/youtube.ts:32 | The author's name when there is an author with a non-empty name, and "Unknown" otherwise; `OnChat` states it for each message. |
| YouTube.NotArrayIsEmpty | src/services/youtube.ts:61-75 | A message that is not an array gives no segments and empty text. |
| YouTube.RunPartCases | src/services/youtube.ts:65-69 | A run gives `Text(text)` exactly when its text is truthy. Otherwise it gives `Emote(url, alt or "emote")` exactly when its URL is truthy. Otherwise it gives nothing. |
| YouTube.RunPartsConcat | src/services/youtube.ts:63-71 | Segments keep the order of their runs. |
| YouTube.RunPartsLength | src/services/youtube.ts:63-71 | There are never more segments than runs. |
| YouTube.RunsTextConcat | src/services/youtube.ts:76 | The extracted text is the in-order concatenation of the runs' contributions. |
| YouTube.RenderRunParts | src/services/youtube.ts:60-77 | When every run has truthy text, or a truthy URL and alternative text, the segments render exactly as the extracted text. |
| YouTube.EmojiWithoutAlt | src/services/youtube.ts:68-76 | An emoji without alternative text renders as "emote" in the segments but contributes "" to the extracted text. |
| YouTube.YouTubeService.ParseMessage | src/services/youtube.ts:60-72 | The loop that pushes one segment per run computes `MessageParts`. |
| YouTube.YouTubeService.OnChat | src/services/youtube.ts:30-43 | The message has platform YouTube and the author's name, or "Unknown" when that is absent or empty. Its text is the extracted text. Its segments are never empty: they are the parsed segments, or `[Text(text)]` exactly when there are none. It has no badges and no timestamp. |
| YouTube.YouTubeService.constructor | src/services/youtube.ts:10-17 | A new service has no chat and keeps its channel ID and handle. |
| YouTube.YouTubeService.Start | src/services/youtube.ts:20-24 | The live chat targets the channel ID when that is truthy, and the handle otherwise. |
| YouTube.YouTubeService.Stop | src/services/youtube.ts:79-86 | Stopping drops the chat. |
| YouTube.YouTubeService.IsConnected | src/services/youtube.ts:88-90 | Connected exactly when a chat is held. |
| YouTube.StopDisconnects | src/services/youtube.ts:79-90 | After `stop`, `isConnected` reports false. |
| WebSocket.SurvivorsSpec | src/services/websocket.ts:25-42 | The clients left after a broadcast are a subset of those before. A client stays exactly when it has `send` and its `send` did not throw. |
| WebSocket.BroadcastStep | src/services/websocket.ts:25-42 | Trying one more client keeps the loop state: the registry holds the untried clients plus the survivors so far, and the counters match the clients tried. |
| WebSocket.WebSocketService.constructor | src/services/websocket.ts:4 | The registry starts empty. |
| WebSocket.WebSocketService.AddClient | src/services/websocket.ts:6-11 | The client is added and nothing else changes. The size grows by one exactly when the client was absent. |
| WebSocket.WebSocketService.RemoveClient | src/services/websocket.ts:13-18 | The client is removed and the other members are unchanged. |
| WebSocket.WebSocketService.Broadcast | src/services/websocket.ts:20-51 | The registry becomes the survivors of the registry before, never gaining a client. The success count is the number of survivors, and successes plus failures equal the clients present at the start. |
| WebSocket.WebSocketService.GetClientCount | src/services/websocket.ts:53-55 | The count is the registry's cardinality. |
| WebSocket.WebSocketService.Cleanup | src/services/websocket.ts:57-69 | Every client with `close` is closed, and errors are swallowed. The registry ends empty even when some `close` throws. |
| Config.ParseInt | src/config/index.ts:17-18 | `parseInt(s, 10)`: skip leading white space, read an optional sign and the longest digit prefix, NaN when there is none; characterised by `ParseDecimal`, `ParseNegative`, `ParseSkipsSpace`, `ParseNaN` and `DefaultPortsParse`. |
| Config.LoadConfig | src/config/index.ts:3-21 | `loadConfig` as a function of the environment; characterised by `EnabledFlags`, `FieldsVerbatim` and `Ports`. |
| Config.ValidateConfig | src/config/index.ts:23-42 | `validateConfig` as its warning and the error it throws, if any; characterised by `ValidateRejects`, `NoPlatformOnlyWarns` and `LoadedConfigValidates`. |
| Config.TrimStart | src/config/index.ts:17-18 | `parseInt` skips a prefix made only of white space, and what is left does not start with white space. |
| Config.DigitPrefix | src/config/index.ts:17-18 | `parseInt` reads the longest prefix of decimal digits. |
| Config.ParseDecimal | src/config/index.ts:17-18 | A decimal numeral, followed by anything that is not a digit, parses to its value. |
| Config.ParseNegative | src/config/index.ts:17-18 | A minus sign before a numeral negates its value. |
| Config.ParseSkipsSpace | src/config/index.ts:17-18 | Leading white space does not change the parsed value. |
| Config.ParseNaN | src/config/index.ts:17-18 | Text where no digit follows the white space and optional sign parses to NaN. |
| Config.DefaultPortsParse | src/config/index.ts:17-18 | The defaults "3000" and "3001" parse to 3000 and 3001. |
| Config.PortValue | src/config/index.ts:17-18 | A port variable holding the numeral of n gives n. |
| Config.Ports | src/config/index.ts:17-18 | An unset or empty port variable gives the default port, 3000 or 3001. A numeral gives its value. |
| Config.EnabledFlags | src/config/index.ts:6-12 | Twitch is enabled exactly when both channel and token are set and non-empty. YouTube is enabled exactly when the channel ID or the handle is. |
| Config.FieldsVerbatim | src/config/index.ts:7-14 | The channel, token, 7TV user ID, channel ID and handle are the environment's values, copied unchanged. |
| Config.ValidateRejects | src/config/index.ts:23-42 | Validation throws exactly when Twitch is enabled without a channel or a token, or YouTube is enabled without both a channel ID and a handle. The Twitch message takes precedence. The warning is issued exactly when no platform is enabled. |
| Config.NoPlatformOnlyWarns | src/config/index.ts:24-26 | Having no platform enabled only warns. |
| Config.LoadedConfigValidates | src/config/index.ts:3-42 | For every environment, validating the loaded configuration throws nothing. |

## Left out

- The 7TV HTTP fetches and JSON decoding (src/services/emotes.ts:14-78) are network I/O. Their outcome is a parameter of `Initialize`.
- Decoding each "start-end" offset string with `split("-")` and `Number` (src/services/emotes.ts:92) is not modelled. Offsets arrive as pairs of naturals, so malformed or negative offsets are not represented.
- `positions.sort` is the library's sort, so it is modelled as a function, a stable insertion sort. The model proves it sorts and permutes. Stability is not proved, since ties do not arise for non-overlapping ranges.
- Emotes.ResolveRoundTrip requires the sorted ranges to lie inside the text without overlapping. The code does not check this, and for other ranges round-tripping need not hold (for example, overlapping ranges repeat text).
- UTF-16 indexing: JavaScript string lengths and `substring` bounds count UTF-16 code units, but the model counts Dafny `char`s, which are Unicode scalar values. A character outside the Basic Multilingual Plane, such as an emoji, is one `char` here and two code units in the code. The code passes the emote offsets to `substring` unchanged and does not say which unit they count. For text containing such a character, the model's range emotes and gaps differ from the code's. For example, in "😀 Kappa" with the range 2-6 the code takes code units 2 to 6 and names the emote " Kapp", while the model takes characters 2 to 6 and names it "Kappa". If the offsets count code points, the model's slicing is the intended one and the code mis-names emotes that follow such a character; this is not established here, so it is not listed as a finding. The model does not represent surrogate pairs or anything else about Unicode.
- WebSocket.WebSocketService.Broadcast: the order in which a `Set` is visited is not modelled. The loop visits the clients in an arbitrary order, which does not change the outcome.
- `JSON.stringify`, all `console` logging, and the message argument of `broadcast`, which only feeds the serialisation.
- The chat libraries (`@twurple/chat`, `youtube-chat`): connection, event registration, `connect`/`quit`/`stop` calls and their asynchrony. Only the field effects of `start` and `stop` and the per-event transformation are modelled.
- Exceptions that the callbacks' `try`/`catch` swallow are not represented; one would drop that event's message. An example is a null element in the YouTube runs array.
- `src/index.ts` (server setup, signal handlers, and its own broadcast variant that skips clients not in the open state) is not part of this model.
- Config.ParseDecimal: `parseInt` precision loss above 2^53 and the value -0 are not modelled. Results are unbounded integers.
- There is no message history buffer, persistence or history replay in the code, so there is none in the model.

## Findings

| source | as written | input that shows it | evidently intended | confidence | as-written member | corrected member |
|---|---|---|---|---|---|---|
| src/services/emotes.ts:134 | `emotes[word]` on a plain object also finds inherited `Object.prototype` members | the chat word "toString" with empty catalogs becomes an emote whose URL is a function | only the catalog's own entries with a non-empty URL make a word an emote | not executed | Emotes.PrototypeNameIsEmoteAsWritten | Emotes.WordSegmentsSpec |
| src/services/twitch.ts:64 | `this.badges[k]` on a plain object also finds inherited `Object.prototype` members | a badge map with the key "constructor" yields a badge whose URL is a function | only the seven table entries are badges | not executed | Twitch.PrototypeBadgeAsWritten | Twitch.SelectMembers |
