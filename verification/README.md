# Titan Terminal: a Dafny model of the market-stream gateway and its consumers

This project models the core of a browser portfolio dashboard. The main part is
the realtime market-data gateway (`RealtimeService`). It owns one WebSocket to the
price feed and keeps the set of subscribed symbols, which it replays on every
reconnect. It fans inbound frames out to registered listeners behind a
one-second throttle, and it reconnects with capped exponential backoff. Around
it sit the small pure rules of the application:

- the localStorage operator registry (two variants);
- the Fear & Greed colour bands;
- the analyst panel's risk, badge and chart reducers;
- the trade handler that updates positions and the ticker;
- the 50-item news buffer;
- the dashboard's top-performer fold.

Everything is pure. The gateway is an immutable `Gateway` record. Every event
is a function from a state to a `Transition`: the next state, plus the effects.
The events are a public call, a socket callback or a timer firing. The effects
are the frames sent, the deliveries to listeners (in order) and the retry delay
scheduled.

The repository has two copies of the gateway class:

- `services/marketStreamService.ts`, which has a simulated news side-channel;
- `services/realtimeService.ts`, which has none.

Their code is otherwise line for line the same. Compare `connect` (18-41 against
20-45), `subscribeTicker` (44-54 against 90-100), `subscribe` (64-69 against
110-115), `notifySubscribers` (71-78 against 117-124) and `resubscribeAll`
(80-86 against 126-132). One module, `StreamGateway`, models both. A `Flavor`
field (`MarketStream` or `Realtime`) says whether an open starts the news
interval. The lemmas whose name starts with `Realtime` state what the copy
without the side-channel guarantees beyond the shared behaviour.

The two listeners the application registers sit on different copies. The trade
handler in `App.tsx` imports the gateway from `services/marketStreamService.ts`
(App.tsx:11). The news panel imports it from `services/realtimeService.ts`
(components/NewsFeed.tsx:2), the copy whose open never starts the simulated
news interval. The panel therefore only ever sees news frames sent by the
server, never the simulated headlines (see "## Findings").

Modelling choices:

- Time is an integer number of milliseconds passed in with each event.
- Callbacks are `ListenerId`s, because Dafny has no function identity.
- Frames arrive already decoded as `Trade(ticks) | News(item) | Other(tag) | Malformed`.
  `Malformed` is a frame that `JSON.parse` rejects.
- Sockets carry creation-order ids. `connect` may replace a socket that is still
  connecting. The replaced socket's callbacks still run, and the model follows
  them. Its open resets the counter, but the replay only sends when the
  *current* socket is open, because `resubscribeAll` tests `this.socket`. Its
  close still counts as a failed attempt.
- The active set is a duplicate-free sequence in the insertion order of the
  JavaScript `Set`.
- Prices, quantities and scores are exact reals.

Notes on the source's behaviour, which the model follows:

- **Backoff.** The attempt counter is incremented before the delay
  `min(1000 * 2^n, 30000)` is computed. So the delays after consecutive closes
  are 2 s, 4 s, 8 s, 16 s, and then 30 s from the fifth close on.
- **`connect`.** The socket is replaced in every state except OPEN: while it is
  still connecting, while it is closing, and after it has closed.
- **CLOSING.** When the server starts the close handshake the socket is
  CLOSING until `onclose` runs. No handler runs at that point, but
  `subscribeTicker` already sends nothing and `connect` already replaces the
  socket. The model has a `SocketClosing` event for this.
- **`subscribeTicker` while open.** The call sends a subscribe frame every time,
  even when the symbol is already in the set. Only the set insertion is
  idempotent.
- **Throttle.** The throttle measures from the last dispatch of any kind, and a
  news item also resets `lastUpdate`. So a trade that arrives within 1000 ms of
  a news item is dropped.
- **Malformed frames.** A frame that does not parse throws inside `onmessage`.
  Nothing is delivered, no state changes and the socket stays as it was. No
  retry is scheduled.
- **Other frames.** A parsed frame whose `type` is neither `trade` nor `news`
  is delivered like any other frame. Its tag is never "trade" or "news".

## Model

| member | source | states |
|---|---|---|
| StreamGateway.Init | services/marketStreamService.ts:8-18 | a fresh gateway has no socket, an empty symbol set and registry, `lastUpdate` 0, no attempts and no news interval, and satisfies the state invariant |
| StreamGateway.Connect | services/marketStreamService.ts:20-23 | `connect` changes nothing exactly when the current socket is OPEN; otherwise a new CONNECTING socket with a fresh id replaces whatever was there, and nothing else changes |
| StreamGateway.OnOpen | services/marketStreamService.ts:25-30 | an open resets the attempt counter to 0, replays the active set when the current socket is open, leaves the set, the registry and the throttle alone, delivers nothing and starts the news interval in the market-stream copy |
| StreamGateway.OnMessage | services/marketStreamService.ts:32-36 | a frame that fails to parse changes nothing and reaches nobody; any other frame goes through the throttle and fan-out of `notifySubscribers` |
| StreamGateway.OnClosing | services/marketStreamService.ts:21 | a server-started close turns the current socket CLOSING unless it has already closed. Nothing is sent, delivered or scheduled, the socket is no longer open, and no other field changes |
| StreamGateway.OnClose | services/marketStreamService.ts:38-44 | a close adds one attempt, schedules a retry after the delay for the new count (between 2000 and 30000 ms), clears the news interval and changes neither the symbol set nor the registry |
| StreamGateway.RetryDelay | services/marketStreamService.ts:41 | the retry delay never exceeds 30000 ms and is at least 2000 ms for any count of one or more |
| StreamGateway.RetryDelayMonotone | services/marketStreamService.ts:41 | a higher attempt count never gets a shorter delay |
| StreamGateway.RetryDelayCapped | services/marketStreamService.ts:41 | from the fifth attempt on the delay is exactly the 30000 ms cap |
| StreamGateway.RetryDelayTable | services/marketStreamService.ts:40-41 | the first five delays are 2000, 4000, 8000, 16000 and 30000 ms |
| StreamGateway.Insert | services/marketStreamService.ts:93 | adding to the active set yields exactly the old symbols plus the new one, keeps the set duplicate-free and extends it without reordering |
| StreamGateway.SubscribeTicker | services/marketStreamService.ts:90-100 | `subscribeTicker(s)` leaves `s` in the set in every state, sends exactly one subscribe frame for `s` when open and none otherwise, and changes nothing else |
| StreamGateway.SubscribeForex | services/realtimeService.ts:57-62 | `subscribeForex(from, to)` subscribes the constant "IC MARKETS:1" whatever the pair, with the same frame rule as `subscribeTicker` |
| StreamGateway.Subscribe | services/marketStreamService.ts:110-111 | `subscribe` appends one registration at the end of the registry and changes nothing else |
| StreamGateway.Unsubscribe | services/marketStreamService.ts:112-114 | the handle removes every registration of its callback, keeps every other callback registered and changes nothing else |
| StreamGateway.Without | services/marketStreamService.ts:113 | filtering out a callback removes it and keeps exactly the other callbacks |
| StreamGateway.WithoutDistributes | services/marketStreamService.ts:113 | the filter works part by part, so the remaining registrations keep their relative order |
| StreamGateway.WithoutAbsent | services/marketStreamService.ts:113 | filtering out a callback that is not registered leaves the registry unchanged |
| StreamGateway.Notify | services/marketStreamService.ts:117-124 | a news message always passes and any other message passes only when 1000 ms or more have gone by since the last dispatch. A passed message goes to every registration in order and sets `lastUpdate` to now. A dropped one changes nothing |
| StreamGateway.Fanout | services/marketStreamService.ts:122 | a dispatch produces exactly one delivery per registration, in registration order |
| StreamGateway.Replay | services/marketStreamService.ts:126-132 | the replay sends one subscribe frame per active symbol, in set order |
| StreamGateway.ReplayOncePerSymbol | services/marketStreamService.ts:126-132 | on a duplicate-free set the replay sends exactly one frame for each active symbol and none for any other |
| StreamGateway.PickHeadline | services/marketStreamService.ts:66 | the random draw always picks one of the eight canned headlines |
| StreamGateway.MockNewsItem | services/marketStreamService.ts:69-77 | a simulated item carries the given UUID, url "#", a canned headline with its own summary and source, and a timestamp in seconds that is the tick time divided by 1000 |
| StreamGateway.NewsTick | services/marketStreamService.ts:54-79 | without an interval no tick fires; with one, the tick's news item reaches every registration in order, whatever the throttle, and sets `lastUpdate` |
| StreamGateway.Step | services/marketStreamService.ts:20-132 | every event keeps the state invariant (duplicate-free set, the current socket was created, no interval in the copy without news) and never drops a symbol from the active set |
| GatewayTraces.Run | services/marketStreamService.ts:8-132 | over any run of events there is one effect per event, the state invariant and the copy are kept, and every symbol active at the start is still active at the end |
| GatewayTraces.SubscriptionsSurvive | services/marketStreamService.ts:90-108 | every symbol subscribed during a run by `subscribeTicker`, and "IC MARKETS:1" after any `subscribeForex`, is still in the active set at the end, whatever closes, reconnects and unsubscribes come after |
| GatewayTraces.RetriesMatch | services/marketStreamService.ts:25-42 | over any run the gateway's attempt counter and scheduled retries equal a schedule computed from the open and close events alone: an open resets the counter, a close adds one and waits the delay for the new count, and nothing else schedules a retry |
| GatewayTraces.RetriesWithoutOpen | services/marketStreamService.ts:38-42 | in that schedule, without opens the counter grows by the number of closes and each close waits the delay for the start count plus the closes before it plus one |
| GatewayTraces.AttemptsCountCloses | services/marketStreamService.ts:38-42 | in any run without an open, with calls, frames, timers, CLOSING and closes of any socket in any order, the counter grows by the number of closes. The close at position i waits the delay for the start count plus the closes before it plus one, and no other event schedules a retry |
| GatewayTraces.BackoffAfterOpen | services/marketStreamService.ts:25-42 | in a run that starts with an open and has no other open, the k-th close waits min(1000 * 2^k, 30000) ms, whatever calls, frames, timers and `connect` retries come between. The first close waits 2000 ms, a later close never waits less and never more than 30000 ms, and no other event schedules a retry |
| GatewayTraces.RetryCycleScenario | services/marketStreamService.ts:20-44 | for open, close, `connect`, close, `connect`, close, the three closes wait 2000, 4000 and 8000 ms and the `connect` schedules nothing |
| GatewayTraces.ClosingSocketTakesNoFrames | services/marketStreamService.ts:90-95 | while the current socket is CLOSING, `subscribeTicker` sends no frame and still adds the symbol to the set |
| GatewayTraces.ConnectReplacesClosingSocket | services/marketStreamService.ts:20-23 | while the current socket is CLOSING, `connect` creates a new CONNECTING socket at once |
| GatewayTraces.OpenReplaysEachSymbolOnce | services/marketStreamService.ts:25-28 | an open of the current socket sends exactly one frame per active symbol, none for other symbols, and leaves the set unchanged |
| GatewayTraces.SubscribeTwiceReplayOnce | services/marketStreamService.ts:90-132 | a symbol subscribed twice before an open is replayed exactly once by that open |
| GatewayTraces.UnsubscribeIdempotent | services/marketStreamService.ts:112-114 | calling the unsubscribe handle a second time changes nothing |
| GatewayTraces.UnsubscribeKeepsOrder | services/marketStreamService.ts:112-114 | unsubscribing a callback registered once between two groups leaves the two groups in their order |
| GatewayTraces.MalformedFrameInvisible | services/marketStreamService.ts:32-35 | after an unparsable frame the next event behaves exactly as if that frame had never arrived |
| GatewayTraces.ThrottleScenario | services/marketStreamService.ts:117-124 | with listeners registered, of two trades 100 ms apart only the first is delivered, and a trade 1100 ms after the first is delivered. A news item 10 ms after a delivered trade is still delivered |
| GatewayTraces.NewsIntervalLifecycle | services/marketStreamService.ts:25-51 | in the market-stream copy an open starts the news interval, a second open keeps it, a close stops it and a later open starts it again |
| GatewayTraces.RealtimeDeliversOnlyFrames | services/realtimeService.ts:18-86 | in the copy without news, listeners are called only in response to a parsable socket frame, never by a call, an open, a close or a timer |
| GatewayTraces.RealtimeOpenOnlyResetsAndReplays | services/realtimeService.ts:23-27 | in the copy without news an open of the current socket marks it open, resets the counter to 0 and replays the set, and does nothing else |
| GatewayTraces.RealtimeCloseOnlyBacksOff | services/realtimeService.ts:35-40 | in the copy without news a close of the current socket marks it closed, adds one attempt and schedules the retry, and does nothing else |
| Registry.InitDb | services/userService.ts:7-11 | `initDB` creates an empty user list only when none is stored and never overwrites a stored list or the session |
| Registry.IdTaken | services/userService.ts:21 | the duplicate test answers yes exactly when some stored user has the id |
| Registry.FindCredentials | services/userService.ts:47 | the lookup finds a user exactly when one matches both id and key, and returns the first such user |
| Registry.NewOperator | services/userService.ts:26-32 | a new profile has the given id and key and the role OPERATOR |
| Registry.Admit | services/userService.ts:34-36 | a successful registration appends exactly the new user to the list as read, leaves the session alone, and keeps stored ids unique when the id was new |
| Registry.Login | services/userService.ts:42-59 | login succeeds exactly when some user matches id and key. On success only the first match's `lastLogin` changes and that user becomes the session. On failure the given message is returned and the storage is left as `initDB` left it |
| Registry.Logout | services/userService.ts:62-64 | logout empties the session and leaves the user list alone |
| Registry.SessionFollowsLoginAndLogout | services/userService.ts:62-69 | after logout there is no session; after a successful login the session is the user the login returned |
| UserService.Register | services/userService.ts:15-38 | register fails with "OPERATOR ID ALREADY EXISTS" exactly when the id is stored, leaving the list as read. Otherwise it appends one OPERATOR user with that id and key. It never writes the session and keeps stored ids unique |
| UserService.Login | services/userService.ts:47-57 | login succeeds exactly when id and key match a stored user and then opens that user's session with a fresh `lastLogin`; otherwise it fails with "INVALID CREDENTIALS" and changes nothing |
| UserService.RegisterThenLogin | services/userService.ts:15-59 | after a successful registration, logging in with the same id and key succeeds and opens a session for that id |
| MockUserService.Register | services/mockUserService.ts:13-48 | the duplicate check comes before the key-length check. Keys shorter than 6 are refused. Every failure leaves the list as read. A success appends one OPERATOR user and returns it, never touching the session |
| MockUserService.Login | services/mockUserService.ts:51-68 | login succeeds exactly when id and key match and then sets the session with a fresh `lastLogin`; otherwise it fails with "ACCESS DENIED: INVALID CREDENTIALS" and changes nothing |
| MockUserService.KeyLengthBoundary | services/mockUserService.ts:31-34 | for a new id a six-character key is accepted and a five-character key is refused with the key-length message |
| MockUserService.DuplicateBeforeKeyLength | services/mockUserService.ts:21-34 | a taken id is reported as already registered even when the key is empty |
| FearGreed.Classify | services/fearGreedService.ts:26-32 | the band chosen for a score is one whose range (upper bounds inclusive at 25, 45, 55, 75) contains the score |
| FearGreed.FearGreedColor | services/fearGreedService.ts:26-32 | every score gets one of the five band colours |
| FearGreed.ExactlyOneBand | services/fearGreedService.ts:26-32 | a score lies in a band's range exactly when that band is chosen, and gets that band's colour exactly then |
| FearGreed.BandMonotone | services/fearGreedService.ts:26-32 | a higher score never gets a lower band |
| FearGreed.BoundaryScores | services/fearGreedService.ts:27-31 | 25 is red, 55 yellow, 75 lime and 76 green |
| Text.Lower | components/AIAnalyst.tsx:133 | lower-casing keeps the length and maps each letter on its own |
| Text.LowerIdempotent | components/AIAnalyst.tsx:140 | lower-casing twice is lower-casing once |
| AnalystRules.RiskTone | components/AIAnalyst.tsx:120-124 | the risk colour is rose exactly at 75 and above, amber exactly from 50 up to below 75, and emerald exactly below 50 |
| AnalystRules.RiskLabel | components/AIAnalyst.tsx:126-130 | the label is HIGH EXPOSURE exactly at 75 and above, MODERATE RISK exactly from 50 up to below 75, and CONSERVATIVE exactly below 50 |
| AnalystRules.RiskLabelMatchesColor | components/AIAnalyst.tsx:120-130 | the label is the one that belongs to the colour, so two scores share a label exactly when they share a colour |
| AnalystRules.GaugeTone | components/AIAnalyst.tsx:332 | the gauge stroke is rose exactly above 75 and emerald exactly at 50 and below |
| AnalystRules.GaugeDiffersOnlyAtThresholds | components/AIAnalyst.tsx:332 | the gauge colour and the label colour disagree exactly at the scores 50 and 75 |
| AnalystRules.ActionBadge | components/AIAnalyst.tsx:139-145 | the badge is ACCUMULATE exactly when a buy word occurs. Otherwise it is REDUCE exactly when a sell word occurs, then HEDGE exactly when a hedge word occurs. Matching is on the lower-cased text |
| AnalystRules.RecIconOf | components/AIAnalyst.tsx:132-137 | the icon points up exactly when a buy word occurs. It points down exactly when no buy word occurs and a sell word or "hedge" does. Otherwise it is the neutral target. Matching is on the lower-cased text |
| AnalystRules.BadgeIgnoresCase | components/AIAnalyst.tsx:132-145 | a text and its lower-cased form get the same badge and the same icon |
| AnalystRules.IconVersusBadge | components/AIAnalyst.tsx:132-145 | the icon points up exactly for ACCUMULATE. It points down for REDUCE and for HEDGE texts containing "hedge". A HEDGE text that only says "protect" gets the neutral icon |
| AnalystRules.HedgeTextDisagrees | components/AIAnalyst.tsx:134-143 | the text "hedge" gets the HEDGE badge but the downward icon |
| AnalystCharts.Bump | components/AIAnalyst.tsx:51-52 | adding a value to a type grows that type's slice by the value or appends a new slice, leaves other types' values alone and grows the total by the value |
| AnalystCharts.Allocation | components/AIAnalyst.tsx:47-55 | there is exactly one slice per distinct asset type, each holds the sum of quantity times price over that type, and the slices add up to the portfolio value |
| AnalystCharts.Rows | components/AIAnalyst.tsx:59-64 | one row per asset, in order, with its symbol, 24h change and profit percentage, which is 0 when the average price is not positive |
| AnalystCharts.InsertByPnl | components/AIAnalyst.tsx:65 | inserting a row into a table sorted by descending profit keeps it sorted and adds exactly that row |
| AnalystCharts.SortByPnl | components/AIAnalyst.tsx:65 | the sort returns a permutation of its rows in descending profit order |
| AnalystCharts.PrefixDominates | components/AIAnalyst.tsx:66 | in a descending table every row past the cut is at most as profitable as every row before it |
| AnalystCharts.PerformanceData | components/AIAnalyst.tsx:58-67 | the table has min(10, n) rows in descending profit order, all drawn from the portfolio's rows, and no row left out beats a row kept |
| AnalystCharts.HandleAnalyze | components/AIAnalyst.tsx:69-73 | the analyser is refused with the empty-portfolio error exactly when there are no positions, and otherwise gets the whole portfolio |
| App.ApplyTradeToAssets | App.tsx:118-129 | one trade sets price and timestamp on every position with its symbol, leaves every other position as it was and keeps length and order |
| App.ApplyTradeToTicker | App.tsx:135-146 | one trade changes the ticker only for a ticker symbol, storing the price and keeping the earlier change or 0 |
| App.ApplyTrades | App.tsx:109-147 | applying a message's trades keeps the positions' count and order and changes nothing but price and timestamp |
| App.OnGatewayMessage | App.tsx:106-149 | only trade messages change anything, and no message changes a position's id, symbol, quantity or average price |
| App.LastPrice | App.tsx:109 | the reference price for a symbol is absent exactly when no trade names it, and otherwise is the price of a trade for it that no later trade for it follows |
| App.LastTradeWins | App.tsx:109-129 | after a message every position holds the price of the last trade for its symbol, and a position whose symbol was not traded is untouched |
| App.TickerAfterTrades | App.tsx:134-146 | after a message a traded ticker symbol holds its last price and its previous change (or 0), and every other ticker entry is untouched |
| App.AddAsset | App.tsx:166-174 | adding appends exactly the completed position and subscribes its symbol with the gateway, which sends a frame only while open |
| App.DeleteAsset | App.tsx:176-178 | deleting keeps exactly the positions whose id differs |
| App.DeleteKeepsOrder | App.tsx:176-178 | deleting keeps the remaining positions in order and changes nothing when no position has the id |
| NewsFeed.ToItem | components/NewsFeed.tsx:24-31 | a stored item copies every field of the message and turns its seconds timestamp into milliseconds |
| NewsFeed.OnGatewayMessage | components/NewsFeed.tsx:22-34 | only news messages change the list. The new item goes to index 0, followed by the previous items in order. The list grows by one up to 50, and past that the oldest item is dropped |
| NewsFeed.Feed | components/NewsFeed.tsx:32 | however many messages arrive, a list that started within 50 items stays within 50 |
| NewsFeed.FullBufferDropsOldest | components/NewsFeed.tsx:32 | on a full buffer a news item pushes out exactly the oldest item |
| NewsFeed.Receive | components/NewsFeed.tsx:22-34 | deliveries addressed to other listeners leave the panel's list alone, and the list never grows past 50 |
| NewsFeed.ReceiveBroadcastNews | components/NewsFeed.tsx:22-34 | when one news item is broadcast and reaches the panel's listener at least once, that item ends up at the head of the list |
| NewsFeed.TickAfterOpenBroadcasts | services/marketStreamService.ts:25-79 | on the copy with the news wire, the first tick after an open delivers the simulated item to every registered listener in order, whatever the throttle |
| NewsFeed.RealtimePanelMissesSimulatedNews | components/NewsFeed.tsx:2 | on the copy the panel imports, a news tick right after an open delivers nothing to the panel, so its list is unchanged |
| NewsFeed.PanelGetsSimulatedNews | components/NewsFeed.tsx:21-32 | with the panel's listener on the copy that runs the news wire, the first tick after an open puts the simulated item at the head of the list, stamped with the tick's time in milliseconds |
| Dashboard.FoldPicksLastMax | components/Dashboard.tsx:29 | the fold ends on a highest-change position: the seed when all positions are strictly below it, otherwise the last position that no later one reaches |
| Dashboard.TopPerformer | components/Dashboard.tsx:28-30 | the top performer is absent exactly for an empty portfolio. Otherwise it is a position whose change is at least every position's change, and the last such position on a tie |

## Left out

- The WebSocket transport, `setTimeout`, `setInterval`, `Date.now`,
  `Math.random`, `crypto.randomUUID` and `new Date().toISOString()`. These are
  event parameters here, not effects. The retry timer firing is modelled as a
  `connect` call.
- Console logging, which has no observable effect on state.
- JSON encoding and parsing of frames. Frames are decoded values, and the
  outbound frame is the `SubscribeFrame` value.
- JavaScript number semantics. NaN, infinities and rounding are not modelled.
  `2 ** n` reaching Infinity gives the same 30000 ms cap as the unbounded
  integers here.
- A listener that unsubscribes while a dispatch is in progress. Listener code
  is not part of the gateway. The two listeners the application registers are
  modelled as `App.OnGatewayMessage` and `NewsFeed.OnGatewayMessage`.
- Text.Lower: lower-cases ASCII letters only. JavaScript's `toLowerCase` also
  maps other Unicode letters. String lengths count characters, not UTF-16 code
  units.
- StreamGateway.Notify: assumes listeners do not throw. In the source a
  throwing listener stops `forEach`, so the later listeners are skipped and
  `lastUpdate = now` (marketStreamService.ts:123) is not run. Frames that parse
  to something other than a JSON object are not represented either.
- StreamGateway.NewsTick: uses one clock reading for the item's timestamp and
  for the throttle. The source reads `Date.now()` twice, once for the item
  (marketStreamService.ts:76) and once in `notifySubscribers`
  (marketStreamService.ts:119).
- MockUserService.Register: the key-length check counts characters. The
  source's `accessKey.length < 6` (mockUserService.ts:31) counts UTF-16 code
  units, so keys with characters outside the Basic Multilingual Plane can
  differ.
- The localStorage JSON round trip is taken to be the identity. A slot holding
  the empty string is not modelled; only a missing slot is.
- Registry.NewOperator: takes one timestamp for both `createdAt` and
  `lastLogin`. The source calls the clock twice.
- App.ApplyTrades: stamps every trade of one message with the same
  `lastUpdated`. The source reads the clock once per trade.
- AnalystCharts.PerformanceData: does not state that rows with equal profit
  keep their portfolio order. The sort in the model is stable, like the
  source's.
- `getSession` has no contract of its own; it returns the session slot.
  `Registry.SessionFollowsLoginAndLogout` states its behaviour.
- `types.ts` is not part of this model. The fields of a position and of a user
  profile are the ones the modelled code reads.
- App.tsx's start-up effects are not modelled. They load the assets, call
  `connect` once and subscribe every loaded symbol. They are compositions of
  the modelled gateway calls.
- The Gemini and audio calls in the analyst and news panels are external APIs.
  Only the empty-portfolio guard of `handleAnalyze` is modelled.
- The currency service, the Supabase and Firebase services, the news service
  and `getFearGreedIndex` are not modelled. They are floating-point formatting
  or thin wrappers over third-party SDKs.
- The login, layout and configuration screens and all JSX are user interface.

## Findings

| source | as written | input that shows it | evidently intended | confidence | as-written member | corrected member |
|---|---|---|---|---|---|---|
| components/NewsFeed.tsx:2 | the news panel registers on the gateway in `services/realtimeService.ts`, whose open never starts the simulated news interval | open the socket, then let the news timer fire: the copy the panel listens on delivers nothing and the panel stays empty | the panel listens on the copy in `services/marketStreamService.ts`, the one `App.tsx` imports and whose open starts the news wire, so each tick reaches the panel with its time | medium, not executed | NewsFeed.RealtimePanelMissesSimulatedNews | NewsFeed.PanelGetsSimulatedNews |
