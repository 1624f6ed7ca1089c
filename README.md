# Competitive-Remote relay client, modelled in Dafny

Competitive-Remote is a Chrome extension. It holds a WebSocket to a local relay server, receives
"submit this code" jobs (`{url, code, language, problem}`) and turns each job into a browser tab on
the judge (Luogu, Codeforces or Nowcoder), followed by a message to that tab's content script. This
project models the extension's logic and proves properties of it:

- **plugin/background.js** (first draft of the background script):
  - the connection manager `wsManager`, whose reconnect timer, heartbeat, pong timeout and
    keep-alive alarm become the class `PluginConnection.WsManager`;
  - the per-tab delivery queue `messageQueue`, which becomes the class `PluginQueue.MessageQueue`;
  - the job router `handleOJ` with its frame triage `handleMessage` (module `PluginRouter`).
- **background.js** (second draft):
  - its own connection manager, which has a `lockReconnect` flag, an `onerror` that closes the
    socket and a `keepAlive` alarm (class `DraftConnection.DraftWsManager`);
  - its own `handleOJ` (module `DraftRouter`).
- **content.js**: the `onMessage` dispatcher, the three language tables and the escape applied to
  Nowcoder code before it is placed inside a template literal (module `Content`).
- **options.js**: how the save handler normalises host and port (module `Options`).

Supporting modules:

- `Strings` models the JavaScript behaviours the scripts rely on: optional fields, truthiness, `||`,
  `includes`, the `^`-anchored prefix test of options.js:18 and `toLowerCase`.
- `CfPatterns` models the two Codeforces URL regexes. A regex match is the leftmost index where a
  greedy digit run and a greedy id run fit the pattern.
- `Wire` holds the frames, payloads, sockets and the judge a URL belongs to.
- `Drafts` relates the two drafts to each other. It also follows a routed job into content.js.

Events are methods. That covers the browser callbacks (open, message, close, error), the timers
firing, a heartbeat tick at time `now`, the alarms and a storage change. Time is the `now`
parameter each callback would read from `Date.now()`. A socket is a value with an identity (`id`)
and a ready state. Ghost fields record what the browser holds outside the object:
- which sockets still have an `onclose` handler attached;
- how many timers are pending;
- which sockets were closed while still connecting and still owe an `error` event.

Behaviours of the code that the model keeps, and that a reader might not expect:

- **Regex failure with a hint.** The `problem` hint is not a fallback when extraction fails. Both
  drafts use it only after a regex has matched (plugin/background.js:201-209,
  background.js:126-141). A Codeforces URL that matches no regex yields no task, hint or no hint
  (`PluginRouter.CfUnmatchedDropped`, `DraftRouter.CfEmitted`).
- **Duplicate delivery.** `trySend` enqueues the payload again on each of its two calls
  (plugin/background.js:227-237), so a new tab receives the payload twice
  (`PluginQueue.MessageQueue.OpenedTab`). What does hold is that no queue entry is delivered twice
  (`PluginQueue.MessageQueue.FlushTwice`).
- **Transport errors.** In plugin/background.js `onerror` only logs (lines 57-59); the browser's
  own `close` event follows. In background.js `onerror` closes the current socket (lines 67-69),
  which is not always the socket that failed (see Findings).
- **Reconnect timers.** plugin/background.js keeps at most one pending reconnect timer
  (lines 118-125). background.js schedules a new timer on every close (lines 60-65), so timers
  add up (`DraftConnection.TwoClosesTwoTimers`).
- **No CR in Nowcoder code.** A template literal reads CR and CR LF as LF. Nowcoder code therefore
  arrives unchanged only when it contains no carriage return (`Content.ReadEscaped`).
- **Unused draft code.** background.js declares a 25 s heartbeat interval, a message expiry and a
  `messageQueue` (lines 7-8 and 92), but its code never uses them. There is nothing for the
  model to do there.

## Model

| member | source | states |
|---|---|---|
| `Strings.Truthy` | content.js:3 | an optional string field is falsy exactly when it is absent or the empty string |
| `Strings.Or` | content.js:35 | `o \|\| fallback` is a truthy `o`'s value, otherwise the fallback, so a non-empty fallback always gives a non-empty result |
| `Strings.Contains` | content.js:7-9 | `includes` can only hold for a needle no longer than the text, and holds whenever the text starts with the needle |
| `Strings.Lower` | content.js:35 | `toLowerCase` keeps the length and lowers each ASCII capital, leaving every other character alone |
| `Strings.LowerIdempotent` | content.js:35 | lowering an already lowered language name changes nothing |
| `CfPatterns.Run` | plugin/background.js:202 | a greedy `\d+` / `[A-Z0-9]+` consumes a prefix made only of class characters, stopping at the first non-class character or the end |
| `CfPatterns.RunExact` | plugin/background.js:202 | a greedy run over class characters followed by a non-class character (or the end) has exactly their length |
| `CfPatterns.IdGroup` | plugin/background.js:202 | a `([A-Z0-9]+)` group, when it matches, captures a non-empty id prefix that no id character continues |
| `CfPatterns.IdGroupComplete` | plugin/background.js:202 | conversely, an id prefix followed by a non-id character (or the end) is exactly what the group captures |
| `CfPatterns.Groups` | plugin/background.js:202 | `(\d+)`, the literal middle and the id group, when they match, capture a non-empty digit prefix followed by mid and an id group |
| `CfPatterns.GroupsComplete` | plugin/background.js:202 | conversely, digits, mid and an id group not continued by an id character match with exactly those captures |
| `CfPatterns.MatchAt` | plugin/background.js:202 | a regex match at index 0 means the text begins with lead, a non-empty digit group, mid and a non-empty id group that is not continued by another id character |
| `CfPatterns.MatchAtComplete` | plugin/background.js:202 | conversely, every text of that shape matches at index 0 with exactly those two groups, so a match at index 0 happens exactly on shaped texts |
| `CfPatterns.Find` | plugin/background.js:202-203 | `url.match` either returns null or a non-empty digit group and a non-empty `[A-Z0-9]` group |
| `CfPatterns.FindFirst` | plugin/background.js:202 | `url.match` reports the groups at the first index where the regex matches |
| `CfPatterns.FindSound` | plugin/background.js:202 | whatever `url.match` reports is the match at some index, and no earlier index matches |
| `CfPatterns.FindNone` | plugin/background.js:202-203 | when no index matches, `url.match` returns null |
| `CfPatterns.FindNeedsLead` | plugin/background.js:201-205 | a regex can only match when its literal lead (`/contest/`, `/problemset/problem/`) occurs in the URL |
| `CfPatterns.NoMatchBefore` | plugin/background.js:202 | no match can start where a character of the lead cannot be found |
| `CfPatterns.ContestPageMatches` | plugin/background.js:202 | on `https://codeforces.com/contest/<d>/problem/<x>` the contest regex yields exactly `<d>` and `<x>` |
| `CfPatterns.ProblemsetPageMatches` | plugin/background.js:205 | on `https://codeforces.com/problemset/problem/<d>/<x>` the problem-set regex yields exactly `<d>` and `<x>` |
| `CfPatterns.FindAfterHost` | plugin/background.js:202-205 | on host, lead, digits, mid and id, the leftmost search finds that match, provided the lead has a character absent before it |
| `CfPatterns.ProblemsetLeadTested` | plugin/background.js:204-205 | a URL matching the problem-set regex passes the `includes('/problemset/')` pre-test |
| `CfPatterns.ProblemsetPageNotContest` | plugin/background.js:201-202 | a problem-set page does not contain `/contest/`, and the contest regex does not match it |
| `Wire.SiteOf` | plugin/background.js:196-213 | a URL is Luogu iff it contains `luogu.com.cn`; Codeforces iff it contains `codeforces.com` but not that; Nowcoder iff it contains `nowcoder.com` but neither of the others; otherwise no judge |
| `Wire.LuoguAnchorSite` | plugin/background.js:196-197 | appending `#submit` keeps a Luogu URL classified as Luogu |
| `Wire.CfHostSite` | plugin/background.js:196-198 | the Codeforces host followed by any text without a `g` is classified as Codeforces, not as Luogu |
| `Wire.CfPagesSite` | plugin/background.js:198-209 | every Codeforces page the routers recognise, and every submit page they open, is classified as Codeforces |
| `PluginRouter.CfTarget` | plugin/background.js:199-207 | a submit page is found exactly when the regex the `/contest/` / `/problemset/` test selects matches: a contest match gives `contest/<match[1]>/submit` and id `match[2]`, a problem-set match gives `problemset/submit` and id `match[1] + match[2]`, a non-empty id on Codeforces; otherwise both are empty |
| `PluginRouter.HandleMessage` | plugin/background.js:71-89 | an unparsable frame, a pong and an invalid job are told apart; a job is routed exactly when `url` and `code` are truthy, to `handleOJ` with its own fields and `language \|\| 'text'` |
| `PluginRouter.HandleOJ` | plugin/background.js:193-217 | at most one tab per job; a tab is opened only for a recognised judge and carries the job's language |
| `PluginRouter.LuoguRoute` | plugin/background.js:196-197 | a Luogu job opens exactly one tab, on `url#submit` (still Luogu), with the job's own code and language |
| `PluginRouter.NowcoderRoute` | plugin/background.js:210-211 | a Nowcoder job passes on unchanged: its own URL, code and language |
| `PluginRouter.ElsewhereRoute` | plugin/background.js:212-214 | a URL of no known judge opens no tab |
| `PluginRouter.TargetSameSite` | plugin/background.js:193-217 | the tab opened for a job is on the job's own judge |
| `PluginRouter.ContestMatchRoute` | plugin/background.js:201-209 | any Codeforces URL on which the contest regex matches, whatever else it holds, opens `contest/<match[1]>/submit` with nested code whose problem is the hint if non-empty, else `match[2]` |
| `PluginRouter.ProblemsetMatchRoute` | plugin/background.js:204-209 | any Codeforces URL without `/contest/` on which the problem-set regex matches opens `problemset/submit` with problem `match[1] + match[2]` unless a hint overrides it |
| `PluginRouter.ContestRoute` | plugin/background.js:201-209 | a contest page opens `https://codeforces.com/contest/<d>/submit` with nested code whose problem is the hint if non-empty, else `<x>` |
| `PluginRouter.ProblemsetRoute` | plugin/background.js:204-209 | a problem-set page opens `https://codeforces.com/problemset/submit` with problem `<d><x>` unless a hint overrides it |
| `PluginRouter.TestVector` | test.py:5 | the job from test.py (no language, no hint) asks for problem `4A` with language `text` |
| `PluginRouter.CfUnmatchedDropped` | plugin/background.js:201-209 | a Codeforces URL whose selected regex fails yields no tab, whatever hint it carries |
| `PluginRouter.CfMatchedRouted` | plugin/background.js:201-209 | a Codeforces URL whose selected regex matches always yields its tab (the `submitUrl && problemId` guard cannot fail after a match) |
| `PluginConnection.WsManager.constructor` | plugin/background.js:6-12 | the initial fields: no socket, the default URL, no timers |
| `PluginConnection.WsManager.AtMostOne` | plugin/background.js:118-125 | the invariant gives at most one socket with `onclose` attached (the `connect` guard), at most one pending reconnect timer (the guard cited here) and at most one heartbeat interval |
| `PluginConnection.WsManager.Connect` | plugin/background.js:39-68 | a no-op while a socket exists or a connect is in flight; otherwise exactly one new CONNECTING socket to `wsUrl`, timers untouched |
| `PluginConnection.WsManager.Init` | plugin/background.js:15-20 | adopts the stored URL when storage has one, then connects; timers, heartbeat and `lastPongTime` unchanged |
| `PluginConnection.WsManager.StartHeartbeat` | plugin/background.js:92-96 | idempotent: afterwards exactly one heartbeat interval runs |
| `PluginConnection.WsManager.StopHeartbeat` | plugin/background.js:109-115 | afterwards no heartbeat interval runs; nothing else changes |
| `PluginConnection.WsManager.OnOpen` | plugin/background.js:48-53 | clears `connecting`, sets `lastPongTime` to now and starts the heartbeat |
| `PluginConnection.WsManager.OnMessage` | plugin/background.js:71-89 | a pong only refreshes `lastPongTime`; a valid job yields the tabs `handleOJ` opens; the connection state is unchanged |
| `PluginConnection.WsManager.ScheduleReconnect` | plugin/background.js:118-125 | afterwards exactly one reconnect timer is pending, never two |
| `PluginConnection.WsManager.OnClose` | plugin/background.js:61-67 | clears the socket, `connecting` and the heartbeat, and leaves exactly one reconnect timer pending |
| `PluginConnection.WsManager.ReconnectTimerFires` | plugin/background.js:121-124 | the timer clears itself, then connects when there is no socket (otherwise the socket and `nextId` stay); URL, heartbeat and `lastPongTime` unchanged |
| `PluginConnection.WsManager.Reconnect` | plugin/background.js:127-136 | the old socket loses its `onclose` (so the close path cannot schedule a second reconnect), the heartbeat stops, and a new socket is connecting at once |
| `PluginConnection.WsManager.HeartbeatTick` | plugin/background.js:96-106 | nothing unless OPEN; otherwise `{type:'ping', t: now}`, and a forced reconnect (one new socket, no heartbeat) exactly when `now - lastPongTime > 60000`; timers, URL and `lastPongTime` unchanged |
| `PluginConnection.WsManager.Send` | plugin/background.js:139-143 | sends only on an OPEN socket, otherwise drops the frame |
| `PluginConnection.WsManager.Alarm` | plugin/background.js:146-156 | the `ws_keepalive` alarm connects exactly when there is no socket; timers, heartbeat, URL and `lastPongTime` unchanged |
| `PluginConnection.WsManager.ChangeUrl` | plugin/background.js:23-28 | a new `wsUrl` in local storage (other areas are ignored by the listener) causes one forced reconnect to that URL: one new socket, the old socket's `onclose` detached, no heartbeat, the reconnect timer and `lastPongTime` unchanged |
| `PluginConnection.WsManager.PeerClosing` | plugin/background.js:61 | the server's closing handshake moves the socket to CLOSING until its close event; every other field unchanged |
| `PluginConnection.TwoClosesOneTimer` | plugin/background.js:118-125 | two closes before the timer fires still leave one pending reconnect |
| `PluginConnection.TimeoutOnce` | plugin/background.js:102-105 | after a pong timeout no heartbeat runs, so no second timeout can fire on that connection |
| `PluginQueue.Fresh` | plugin/background.js:172 | the filtered list is no longer than the queue and holds only queued entries that are at most 10 000 ms old |
| `PluginQueue.Messages` | plugin/background.js:178-182 | delivery sends each surviving entry's `msg`, in order |
| `PluginQueue.MessagesAppend` | plugin/background.js:178-182 | delivering two runs of entries one after the other sends their messages in that order |
| `PluginQueue.FreshMembers` | plugin/background.js:172 | an entry survives the filter exactly when it was queued and is at most 10 000 ms old |
| `PluginQueue.FreshAppend` | plugin/background.js:172 | filtering distributes over concatenation, so enqueue order is delivery order |
| `PluginQueue.FreshAll` | plugin/background.js:172 | when every entry is fresh nothing is dropped |
| `PluginQueue.FreshNone` | plugin/background.js:172-173 | when no entry is fresh everything is dropped |
| `PluginQueue.FreshLast` | plugin/background.js:227 | an entry enqueued at the moment of the flush is delivered, last |
| `PluginQueue.Window` | plugin/background.js:172 | a message queued at T is still delivered at T + 10 000 ms and dropped at T + 10 001 ms |
| `PluginQueue.MessageQueue.constructor` | plugin/background.js:162 | the queue starts empty |
| `PluginQueue.MessageQueue.Enqueue` | plugin/background.js:164-167 | appends `{msg, timestamp: now}` to the tab's list, creating it if needed; other tabs unchanged |
| `PluginQueue.MessageQueue.Flush` | plugin/background.js:169-188 | no list: nothing; otherwise the list is deleted and exactly its fresh messages are delivered in order, with the script injected iff some survive |
| `PluginQueue.MessageQueue.TrySend` | plugin/background.js:227 | enqueue then flush: the tab receives what is still fresh for it followed by the payload, and its list is gone |
| `PluginQueue.MessageQueue.FlushTwice` | plugin/background.js:169-188 | a second flush straight after the first delivers nothing |
| `PluginQueue.MessageQueue.OpenedTab` | plugin/background.js:227-237 | the two `trySend` calls of a new tab deliver the payload twice |
| `DraftRouter.Default` | background.js:116 | a destructuring default replaces only an absent field |
| `DraftRouter.CfTarget` | background.js:125-135 | a submit page is found exactly when either regex matches, whatever substrings the URL holds: a contest match gives `contest/<match[1]>/submit` and id `match[2]`, else a problem-set match gives `problemset/submit` and id `match[1] + match[2]`, a non-empty id on Codeforces; otherwise both are empty |
| `DraftRouter.OnMessage` | background.js:47-58 | parse failures, pongs and frames without a truthy `url` and `code` yield no task; any other frame yields exactly `handleOJ` of its own fields |
| `DraftRouter.HandleOJ` | background.js:116-147 | at most one task, only for a recognised judge, with `language` defaulted to `text` when absent |
| `DraftRouter.LuoguTask` | background.js:120-121 | a Luogu task targets `url#submit` while its payload keeps the original `url` |
| `DraftRouter.NowcoderTask` | background.js:145-146 | a Nowcoder task keeps `url` as target and payload URL |
| `DraftRouter.ElsewhereNoTask` | background.js:116-147 | any other URL yields no task |
| `DraftRouter.CfEmitted` | background.js:124-142 | on Codeforces a task exists exactly when one regex matches, and a contest match wins over a problem-set match |
| `DraftRouter.ContestMatchRoute` | background.js:126-141 | any Codeforces URL on which the contest regex matches opens the contest's submit page for `match[1]`, with problem `match[2]` unless a hint overrides it |
| `DraftRouter.ProblemsetMatchRoute` | background.js:127-141 | any Codeforces URL on which only the problem-set regex matches opens the problem-set submit page with problem `match[1] + match[2]` unless a hint overrides it |
| `DraftRouter.ContestRoute` | background.js:126-141 | a contest page opens the contest's submit page with problem `<x>` unless a hint overrides it |
| `DraftRouter.ProblemsetRoute` | background.js:127-141 | a problem-set page opens the problem-set submit page with problem `<d><x>` unless a hint overrides it |
| `DraftRouter.TestVector` | test.py:5 | the job from test.py asks for problem `4A` here too |
| `DraftRouter.TargetSameSite` | background.js:116-147 | a task's target and payload URLs are on the job's own judge |
| `DraftConnection.DraftWsManager.constructor` | background.js:14-17 | the initial fields: no socket, the default URL, lock released |
| `DraftConnection.DraftWsManager.Connect` | background.js:34-39 | a no-op while there is a socket or the lock is held; otherwise takes the lock and opens a socket |
| `DraftConnection.DraftWsManager.Init` | background.js:19-31 | adopts the stored URL when truthy, else the default, then connects; pending timers and owed errors unchanged |
| `DraftConnection.DraftWsManager.Send` | background.js:82-86 | sends only on an OPEN socket, otherwise drops the frame |
| `DraftConnection.DraftWsManager.OnOpen` | background.js:41-45 | releases the lock and sends `{type:'hello', client:'chrome-extension'}` |
| `DraftConnection.DraftWsManager.OnMessage` | background.js:47-58 | yields exactly the tasks of `DraftRouter.OnMessage` |
| `DraftConnection.DraftWsManager.OnClose` | background.js:60-65 | clears the socket and the lock and adds one more pending connect timer, with no dedup |
| `DraftConnection.DraftWsManager.ConnectTimerFires` | background.js:64 | one pending timer fires and connects when there is no socket (otherwise socket, lock and `nextId` stay); owed errors unchanged |
| `DraftConnection.DraftWsManager.Reconnect` | background.js:72-80 | detaches `onclose`, retires the socket, releases the lock and connects at once |
| `DraftConnection.DraftWsManager.ChangeUrl` | background.js:24-29 | a new `wsUrl` in any storage area causes a reconnect to that URL |
| `DraftConnection.DraftWsManager.KeepAlive` | background.js:172-179 | without a socket the alarm connects; with one, socket, lock and `nextId` stay, and an OPEN socket gets `{type:'ping'}`; timers and owed errors unchanged |
| `DraftConnection.DraftWsManager.OnError` | background.js:67-69 | as written: an error event closes the current socket, whichever socket erred, and a still-connecting current socket then owes its own error; with no socket the handler throws; URL, lock and timers unchanged |
| `DraftConnection.DraftWsManager.OnErrorOwn` | background.js:67-69 | corrected: an error event closes the socket that erred and no other; URL, lock and timers unchanged |
| `DraftConnection.TwoClosesTwoTimers` | background.js:60-65 | two closes before any timer fires leave two pending connect timers |
| `DraftConnection.StaleErrorClosesReplacement` | background.js:67-80 | a URL change while the first socket is connecting, followed by that socket's error, closes the replacement, which then owes its own error |
| `DraftConnection.StaleErrorChain` | background.js:67-80 | as written the failure propagates: after a second URL change the closed replacement's own error closes the next socket |
| `DraftConnection.StaleErrorSpared` | background.js:67-80 | with the corrected handler the same events leave the replacement connecting |
| `Content.Lookup` | content.js:152 | a table lookup finds an entry exactly when the language is present and its lower case is a key |
| `Content.TableValues` | content.js:140-152 | in all three tables (the Nowcoder one cited here) every entry is a non-empty name different from the default, so `\|\| default` fires exactly on a missing key |
| `Content.LookupIgnoresCase` | content.js:152 | all three lookups give the same answer for a language and its lower case |
| `Content.NodeEntries` | content.js:253-254 | `javascript` and `typescript` both map to the Codeforces entry "Node.js" |
| `Content.CppEntry` | content.js:25 | `cpp` in any letter case is Luogu's "C++23" |
| `Content.LuaMissing` | content.js:246-257 | `lua` has no Codeforces entry, so the fragment is null |
| `Content.LuoguLanguage` | content.js:23-35 | Luogu: a known key in any letter case gives its entry; an absent, empty or unknown language gives "自动识别语言" |
| `Content.NowcoderLanguage` | content.js:140-152 | Nowcoder: the same, through `language?.toLowerCase()` |
| `Content.CodeforcesLanguage` | content.js:246-257 | Codeforces: the fragment is the table entry itself (`\|\| null` never discards one), so it is null exactly on an absent or unknown language |
| `Content.ReplaceAll` | content.js:136 | a global single-character `replace` leaves no occurrence when the replacement lacks the character, and changes nothing when the character does not occur |
| `Content.Escape` | content.js:135-138 | the three chained `replace` calls, backslashes first, equal the one-pass reference escape, and the text grows by exactly its backslashes, backticks and dollars |
| `Content.EscapeEach` | content.js:135-138 | the reference escape: one backslash before each backslash, backtick and dollar; the output is longer by their number |
| `Content.ReplaceAllAppend` | content.js:135-138 | a global single-character `replace` distributes over concatenation |
| `Content.ChainEach` | content.js:135-138 | the chain escapes each character on its own: a later `replace` never touches what an earlier one inserted |
| `Content.ChainHead` | content.js:135-138 | on one character the chain prefixes a backslash exactly to a backslash, backtick or dollar |
| `Content.UnescapeEscape` | content.js:135-138 | removing the backslash of every `\c` pair recovers the input |
| `Content.UnescapeEach` | content.js:135-138 | removing the backslash of every `\c` pair inverts the reference escape |
| `Content.ReadEach` | content.js:135-138 | a template literal whose body is the reference escape of a text without CR evaluates to that text |
| `Content.ReadEscaped` | content.js:182 | the injected template literal evaluates to the original code, with no early end and no substitution, for any code without a carriage return |
| `Content.Dispatch` | content.js:1-11 | a message without a truthy `url` is ignored; the default log happens exactly for a URL on no known judge |
| `Content.DispatchSites` | content.js:7-9 | the handler chosen follows the judge order Luogu, Codeforces, Nowcoder; Codeforces gets `code.source` as code and `code.problem` as problem |
| `Options.TrimStart` | options.js:14-15 | drops exactly the leading ECMAScript white space |
| `Options.TrimEnd` | options.js:14-15 | drops exactly the trailing ECMAScript white space |
| `Options.Trim` | options.js:14-15 | `trim()` returns the middle of the input, between its leading and its trailing white space, and has no white space at either end |
| `Options.OrDefault` | options.js:14-15 | the trimmed input, or the default when it trims to empty |
| `Options.TrimSurrounded` | options.js:14-15 | trimming returns exactly the text between the leading and trailing white space |
| `Options.SpaceTrimsAway` | options.js:14-15 | a string of ECMAScript white space trims to the empty string |
| `Options.StartStops` | options.js:14-15 | leading white space is removed up to the first other character, and nothing beyond it |
| `Options.EndStops` | options.js:14-15 | trailing white space is removed back to the last other character, and nothing before it |
| `Options.TrimIdempotent` | options.js:14-15 | trimming twice is trimming once |
| `Options.StripOnePrefix` | options.js:18 | one leading `ws://` or `wss://` is removed, and only one (`ws://ws://x` keeps `ws://x`) |
| `Options.StripScheme` | options.js:18 | `replace(/^wss?:\/\//, '')` removes exactly a leading `wss://` or `ws://` (the input is that prefix plus the result), and leaves a host starting with neither unchanged, even if a prefix occurs later |
| `Options.Save` | options.js:14-18 | the saved host is the trimmed input with one prefix stripped, or `127.0.0.1` when the input is blank; the saved port is the trimmed input, or `10044` when it is blank |
| `Options.BarePrefixSavedEmpty` | options.js:14-18 | the default is applied before stripping, so a host of just `ws://` or `wss://` is saved as the empty string |
| `Drafts.CfTargetsAgree` | plugin/background.js:201-207 | the two drafts resolve the same Codeforces target on every URL except a divergent one; a found target always has a problem id |
| `Drafts.DraftsAgree` | background.js:116-147 | except for a divergent URL or an empty `language`, both drafts open the same tab with the same code and language, and their payload URLs name the same judge |
| `Drafts.EmptyLanguage` | background.js:116 | an empty `language` becomes `text` in plugin/background.js but stays empty in background.js |
| `Drafts.DivergentJob` | background.js:126-135 | a URL containing `/contest/` that fails the contest regex but matches the problem-set one is dropped by plugin/background.js and routed by background.js |
| `Drafts.PluginDelivery` | content.js:1-11 | a tab opened by plugin/background.js reaches its own judge's content handler with the job's code, and the language resolved through that judge's table |
| `Drafts.DraftDelivery` | content.js:1-11 | the same for a task of background.js |
| `Drafts.NowcoderCodeArrives` | content.js:134-182 | the Nowcoder editor receives exactly the job's code when the code has no carriage return |

## Left out

- Browser and Chrome APIs are events or outputs of the model and are not themselves modelled:
  - `chrome.tabs.create` and the `onUpdated` listener;
  - `chrome.scripting.executeScript` and `chrome.tabs.sendMessage`;
  - `injectAndSend` (background.js:94-111), and delivery failures reported through
    `chrome.runtime.lastError`;
  - `chrome.storage` reads and writes;
  - creating the alarms, and `chrome.runtime.getPlatformInfo`.
- Time and timers: intervals, periods and delays (30 s heartbeat, 1000 ms reconnect, 800 ms and
  500 ms tab delays, alarm periods) are not measured. A timer firing is an event that may happen
  in any order allowed by the methods' preconditions.
- Events a socket can no longer fire are excluded by preconditions. A retired socket fires no
  `open` or `message`. A handler that was detached does not run.
- `chrome.runtime.onStartup` and `onInstalled` (plugin/background.js:34-35, background.js:190-191):
  both just call `connect`, which is `Connect`.
- plugin/background.js `onerror` (lines 57-59) only logs, so there is nothing to model.
- `reconnect(force)`: the `force` flag of plugin/background.js is never read, so `Reconnect` has
  no parameter.
- The WebSocket constructor throwing on a malformed URL is not modelled: `Connect` always yields a
  socket. In the source such a throw leaves `connecting` (or `lockReconnect`) set with no socket,
  and only a reconnect clears it.
- A storage change that removes `wsUrl` is not modelled. `changes.wsUrl.newValue` would then be
  undefined, and `ChangeUrl` takes a string.
- JSON parsing: a frame is either unparsable or a record of optional string fields. Fields of other
  JSON types are not modelled. A frame that parses to `null` makes plugin/background.js throw
  inside its handler, which drops it like a parse failure.
- `toLowerCase` is modelled on ASCII letters only. Only U+0130 and U+212A lower-case to ASCII
  letters outside ASCII itself, and neither yields a table key.
- Keys inherited from `Object.prototype` used as a language name (`constructor`, `toString`) are
  not modelled; they would make the lookups return a function.
- `Content.ReadEscaped` models the template-literal escapes that the escape produces, plus line
  terminator normalisation. Any other escape sequence in a template body reads as unmodelled
  (None).
- The DOM automation of content.js (`handleLuogu`, the body of the Nowcoder script,
  `handleCodeforce`) and all of plugin/content.js are site-specific page scripting.
- The options page's load handler, its status message and its storage write are not modelled.
  The fact that it saves `host`/`port` while both background scripts read `wsUrl` is not
  modelled either.
- server.js and test.py are not part of this model, except test.py:5 as a test vector.
  plugin/options.js is not part of this model either.

## Findings

| source | as written | input that shows it | evidently intended | confidence | as-written member | corrected member |
|---|---|---|---|---|---|---|
| background.js:67-69 | `onerror` closes `this.ws`, the manager's current socket, not the socket whose error fired | a storage change of `wsUrl` while the first socket is still CONNECTING: `reconnect` closes that socket, which fails and fires `error`; by then `this.ws` is the replacement, and the handler closes it. Nothing in this code writes `wsUrl` (the options page stores `host` and `port`), so the trigger needs a write to `wsUrl` from outside | close the socket that erred, so a failed connection reaches its own `onclose` and a retired socket cannot affect its replacement | low to medium (needs an outside write to `wsUrl`), not executed | `DraftConnection.DraftWsManager.OnError` (counterexample `DraftConnection.StaleErrorClosesReplacement`) | `DraftConnection.DraftWsManager.OnErrorOwn` (`DraftConnection.StaleErrorSpared`) |
