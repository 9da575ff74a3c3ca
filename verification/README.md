# Proofs about the sign-in, session, key-refresh and tunnel code

`dafny verify dfyconfig.toml` checks the whole project (Dafny 4.11).

The repository is a service library written in Rust. Four of its parts are state machines
whose promises hold only over whole runs; they are modelled here together with the pure
code they rest on, and those promises are proved.

- **Sessions** (`Sessions.dfy`, `Crowds.dfy`): the in-memory session store, with a lifetime, a
  throttled lazy sweep, a cap per user and a cap overall. No sequence of inserts, lookups and
  removals can tell it from a store that drops every expired session at once (only the count of
  held sessions can), and one user's sign-ins displace at most `MAX_PER_SUBJECT` sessions of
  everybody else, a bound that is attained.
- **Sign-in** (`Cookies`, `Forms`, `Flows`, `Handlers`, `Jars`, `Pruning`, `Answers`; then the world of `Worlds` with
  `Bindings`, `Loops`, `Seats`, `Tabs`, `SignIns`, and the failing inputs of `FailingTabs` and
  `FailingLoops`): any number of browsers, whose state is nothing but cookies, and a server that
  answers `/auth/login`, `/auth/callback`, `/auth/logout` and `/auth/me`. A request carries the
  cookies of the moment it is sent, is taken up later, a callback in two steps with the provider
  in between, and its answer acts on the jar of the moment it arrives; any number of requests
  are on their way at once, and any may be lost. Includes the texts involved, read by the code
  that reads them: the Cookie and Set-Cookie headers, UTF-8 and the form encoding of the retry
  query.
- **Tunnel** (`Packets`, `Sockets`, `Health`, `Watchdog`): the WireGuard forwarder. One stack
  task, one acceptor and any number of streams share a socket set in which touching an absent
  handle is a panic; beside it the packet queue, the reaper, the port counter, the health
  handle and the watchdog.
- **Refresh gates** (`Jwks`, `Discovery`, with the books they keep and the counting in `Rates`):
  concurrent tasks around one mutex held across a fetch, any of which may be cancelled at any
  await point.

Each machine is a total `Step` on an immutable state, and `Run` folds it over any sequence of
actions; an action that is not enabled changes nothing, so "every run" is "every sequence of
actions". The code that works by changing fields is a class beside the machine
(`Sessions.SessionStore`, `Handlers.Reply`, `Packets.PacketQueue`, `Sockets.Forwarder`,
`Health.WgHealth`, `Watchdog.Marker`, `Jwks.JwksStore`, `Discovery.Provider`), and its methods
are proved to do exactly what the machine's functions say.

What is assumed of the surroundings: clocks do not run backwards; the cipher opens a value only
for the state this process sealed it for; minted ids, states and sealed values are new and
URL-safe; an honest browser obeys Set-Cookie, and sends every live cookie once, in any order over
any number of Cookie headers; the provider grants a code once, exchanges it only for the verifier
of its challenge, and puts the nonce of that request into the token. One client of the world is
an adversary whose cookies may be anything at any time.

## Where the code and its comments part

- **Sign-ins started at once.** "Most sign-in cookies a browser keeps at once" is five
  (`src/login/handlers.rs:24-27`), but pruning sees only the cookies a request brought. Six tabs
  that ask before one of them is answered leave six (`FailingTabs.SixTabsHoldSix`). The exact
  number is one more than those brought that stayed and those that arrived since
  (`Jars.LoginFlowCount`, `Tabs.AnswerCountsExactly`); one sign-in at a time keeps to five
  (`Tabs.FiveFlowsAtMost`).
- **Callbacks at once.** "Restarting once" (`src/login/handlers.rs:316-341`) likewise looks at the
  marker a request brought: two tabs that come back together are both restarted
  (`FailingLoops.TwoTabsRestart`). Restarts are five minutes apart exactly if every failed
  callback answered within that time of one had been sent with the marker in a readable header
  (`Loops.RestartsApartExactly`), as it is with one callback at a time (`Loops.NoRedirectLoop`).
- **Unreadable Cookie headers.** A Cookie header holding any character outside visible ASCII is
  skipped whole (`src/login/cookie.rs:65`), and cookies the service did not set travel in the
  same header. Then neither pruning nor the marker is seen, and both limits fail with requests
  one after another (`FailingTabs.SixWithACity`, `FailingLoops.TwiceWithACity`), in any number
  (`FailingTabs.UnreadableCookieAddsUp`, `FailingLoops.UnreadableCookieLoops`). Browser binding
  depends on none of this.
- **"They only evict their own"** (`src/login/session.rs:24-25`) is not quite kept: a user below
  the cap of their own evicts somebody else exactly if the store is full and a session of
  somebody else is among its oldest (`Sessions.EvictsOthersExactly`). Over a whole run such
  evictions are at most `MAX_PER_SUBJECT` (`Sessions.OneUserDisplacesFew`), and can be as many
  (`Crowds.DisplacementIsAttained`).
- **One key fetch per interval "regardless of load"** (`src/auth.rs:24-25`) holds of the fetches
  that complete. A validation cancelled while it fetches never arms the cooldown: whenever the
  gate is open, any number of fetches can begin at one instant
  (`Jwks.AbandonedFetchesAreUnbounded`). The fetches begun are an interval apart if and only if
  none begins within an interval of one that was abandoned
  (`Jwks.BegunRefreshesAreSpacedExactly`). The mark is also set by a failed refresh, not only by
  the last successful one.
- **One discovery attempt per window** (`src/login/provider.rs:25-29`) fails in the same way while
  there is no client (`Discovery.AbandonedAttemptsAreUnbounded`), and holds under the same
  condition, but for one gap after the first discovery
  (`Discovery.BegunAttemptsAreSpacedExactly`). Refreshes are marked when they begin, so theirs
  holds even when they are cancelled (`Discovery.BegunRefreshesAreRare`).
- **Health.** The age is measured before the clock is read for its stamp, so the age limit and
  the freshness limit bound the handshake by 185 seconds on their own if and only if that takes
  a nanosecond at most (`Health.LagMatters`); otherwise the longest delay adds to them, and the
  sum is attained (`Health.HealthIsTruthful`, `Health.LagIsAttained`).

## Model

| member | source | states |
|---|---|---|
| `Sessions.LazyStoreIsIndistinguishable` | src/login/session.rs:91-172 | For every sequence of insert, get and remove under a non-decreasing clock, the answers the lazy store can give are exactly those a store can give that drops expired sessions before every operation; ties on age broken arbitrarily in both. |
| `Sessions.EagerRunFollows` | src/login/session.rs:91-172 | Every run of the lazy store is matched by an eager run with the same answers that ends with the same live sessions. |
| `Sessions.LazyRunFollows` | src/login/session.rs:91-172 | And every eager run by a lazy one, down to the same live sessions. |
| `Sessions.CapsAlwaysHold` | src/login/session.rs:21-26 | Every store a run reaches holds at most the maximum overall and at most the maximum of any one user. |
| `Sessions.DeployedCaps` | src/login/session.rs:21-26 | With the constants of the source: from an empty store, never more than 10 000 sessions, nor 20 of one user. |
| `Sessions.InsertIsExact` | src/login/session.rs:91-123 | What an insert leaves: every session but the expired ones, if the sweep interval has passed, and one that makes room, if the user or the store is at its maximum, an oldest of the user's or of all; and the new one, with its expiry. |
| `Sessions.ExpiredLeaveInTime` | src/login/session.rs:27-29 | After every sign-in of every run, no session held was created longer ago than the lifetime and the sweep interval together. |
| `Sessions.DeployedLeaveInTime` | src/login/session.rs:27-29 | With the constants of the source: eight hours and a minute. |
| `Sessions.DeployedTimes` | src/login/session.rs:91-141 | In a deployment with the default lifetime a session just stored is found for exactly eight hours, and a sign-in sweeps exactly if the last sweep was a minute ago. |
| `Sessions.LiveVictimMeansAllLive` | src/login/session.rs:97-111 | The session evicted is live if and only if every session it was chosen among is live. |
| `Sessions.EvictsOthersExactly` | src/login/session.rs:97-108 | A sign-in can evict a session of somebody else if and only if the user is below the per-user maximum, the store is full, and a session of somebody else is among its oldest. |
| `Sessions.OneUserDisplacesFew` | src/login/session.rs:24-26 | In a run where only one user signs in, the sessions of others evicted are at most the per-user maximum, and at most the maximum overall, however long the run. |
| `Crowds.DisplacementIsAttained` | src/login/session.rs:91-123 | For all limits there is such a run, after others filled an empty store, that evicts exactly that many. |
| `Crowds.DeployedDisplacement` | src/login/session.rs:21-26 | In a deployment: from an empty store to 10 000 sessions of others, of which one user then takes 20. |
| `Sessions.DisplacementMeasure` | src/login/session.rs:97-111 | The sessions of others evicted were held at the start; if there is any, then the others held at the start exceed the maximum less the per-user maximum by at least the number evicted. |
| `Sessions.InsertedIsFound` | src/login/session.rs:112-141 | A session just inserted is found, whole and with its expiry, exactly as long as less than the lifetime has passed, and is dropped by the first lookup after that. |
| `Sessions.RemovedIsGone` | src/login/session.rs:143-145 | A removed session is not found again, and no other is touched. |
| `Sessions.SessionStore.constructor` | src/login/session.rs:74-76 | Empty, swept now. |
| `Sessions.SessionStore.OldestOf` | src/login/session.rs:100-103 | Finds a session that none of the given ones is older than; none only if none is given. |
| `Sessions.SessionStore.SweepIfDue` | src/login/session.rs:94-96 | Once the interval has passed, leaves exactly the live sessions and restarts the interval; before that, changes nothing. |
| `Sessions.SessionStore.ChooseVictim` | src/login/session.rs:97-108 | An oldest of the user's own sessions at the per-user cap, else an oldest of all at the overall cap, else none. |
| `Sessions.SessionStore.Admit` | src/login/session.rs:109-121 | The victim leaves, the new session enters with its expiry and creation time, and nothing else changes. |
| `Sessions.SessionStore.Insert` | src/login/session.rs:91-123 | Without an id nothing changes; with one, the store takes exactly the specified insert step. |
| `Sessions.SessionStore.Get` | src/login/session.rs:125-141 | Answers the session within its lifetime; drops an expired one and answers none. |
| `Sessions.SessionStore.Remove` | src/login/session.rs:143-145 | That session leaves, and nothing else changes. |
| `Sessions.RemoveSteps` | src/login/session.rs:143-145 | Which is the specified remove step. |
| `Sessions.SessionStore.Count` | src/login/session.rs:147-150 | The number held: no fewer than are live, and never above the cap. |
| `Cookies.NamesAreDistinct` | src/login/cookie.rs:30-42 | No flow cookie is the session or the retry marker, flows of different states have different names, and the state is read back from the name. |
| `Cookies.PairsOfPrinted` | src/login/cookie.rs:59-69 | Whatever cookies a browser prints over any number of headers, the reader sees those of the readable headers, all of them and in order. |
| `Cookies.PairsRoundTrip` | src/login/cookie.rs:59-69 | With every header readable it sees exactly the cookies sent; values may contain `=`. |
| `Cookies.PairsAreReadable` | src/login/cookie.rs:61-69 | Whatever a request brings, every name and value read of it is visible ASCII. |
| `Cookies.FindIsFirstMatch` | src/login/cookie.rs:71-76 | A lookup finds the first pair with exactly that name, and none only if there is none. |
| `Cookies.ReadRoundTrip` | src/login/cookie.rs:71-76 | Reading a name from printed headers is the first exact match among the cookies sent. |
| `Cookies.SetRoundTrip` | src/login/cookie.rs:44-57 | A browser reading a Set-Cookie text recovers the name, the value and exactly the attributes `Path=/`, `HttpOnly`, `SameSite=Lax`, the lifetime, and `Secure` just for a secure deployment. |
| `Cookies.HostNamesAreHonoured` | src/login/cookie.rs:14-57 | The session, the retry marker and the flows are named with `__Host-` and set `Secure` in a secure deployment, and neither in a plain one, so that a browser keeps them; always hidden from scripts, `Lax`, for the whole host, with the lifetime given. |
| `Cookies.SetTextIsAHeaderValue` | src/login/handlers.rs:370-384 | A Set-Cookie text of a readable name and value is a valid header value, whatever its attributes. |
| `Cookies.DecimalRoundTrip` | src/login/cookie.rs:45-46 | The lifetime as printed reads back as the same number, and is safe inside the header. |
| `Cookies.LifetimesAreSpelled` | src/login/cookie.rs:45-46 | The lifetimes the service sets, as they are printed. |
| `Forms.Utf8RoundTrip` | src/login/handlers.rs:330-337 | Encoding a text as UTF-8 and decoding it leniently gives the text back, for every text. |
| `Forms.LossIsMarked` | src/login/handlers.rs:330-337 | Conversely, lenient decoding of any bytes encodes back to them or contains a replacement character; nothing over-long and no surrogate is taken for a character. |
| `Forms.PercentRoundTrip` | src/login/handlers.rs:330-337 | Percent-encoding and decoding gives every byte string back, and the encoded form holds no `&` or `=`. |
| `Forms.FormRoundTrip` | src/login/handlers.rs:330-337 | Serialized fields parse back to the same fields in the same order (section 5 of the WHATWG URL Standard). |
| `Forms.SerializedIsForm` | src/login/handlers.rs:330-338 | Whatever the fields, the form consists of ASCII letters and digits, `*`, `-`, `.`, `_`, `%`, `+`, `&` and `=`, so it can stand in a Location. |
| `Forms.BytesAreSpelled` | src/login/handlers.rs:330-337 | Single bytes as the WHATWG form encoding spells them, in upper-case hex digits. |
| `Flows.SafeReturnToIsFixed` | src/login/flow.rs:138-158 | What is honoured is itself honoured unchanged. |
| `Flows.ReturnToIsExact` | src/login/flow.rs:46-158 | Of all texts, exactly those of at most 256 bytes of UTF-8 that begin with one slash only and contain no control, white space, quote or backslash are kept; everything else becomes `/`. |
| `Flows.UrlPathIsKept` | src/login/flow.rs:138-158 | Every URL path of this service with its query is kept, up to 256 characters. |
| `Flows.AsciiReturnToIsExact` | src/login/flow.rs:138-158 | Of the texts in visible ASCII, quotes and backslashes apart, exactly those of at most 256 characters are kept that begin with a slash and that a browser resolves to a path on this origin. |
| `Flows.ValidStateIsExact` | src/login/flow.rs:51-55 | A state may name a flow cookie exactly if it is 16 to 64 digits of base64url. |
| `Flows.ReturnToStaysOnOrigin` | src/login/flow.rs:138-158 | Whatever is asked for, a browser resolving the result as a WHATWG URL stays on this origin. |
| `Flows.SealedFlowOpens` | src/login/flow.rs:106-135 | A flow opens for its own state only, and whole; to the millisecond it is younger than the lifetime if it opens, and opens if it is a second short of it. Its issue time is read at any age, for its own state only. |
| `Flows.RetryQueryReadsBack` | src/login/handlers.rs:329-338 | The retry query, read by the login handler's extractor, gives the return path and the step-up mark it was made of. |
| `Flows.RetryQueryIsSpelled` | src/login/handlers.rs:330-337 | The retry query is the form encoding of `returnTo` with the path and, just for a step-up, of `stepUp=1`. |
| `Flows.AgainKeepsMeaning` | src/login/handlers.rs:316-338 | A restart of a flow with an acceptable path is read back and starts a sign-in with the same path and step-up. |
| `Flows.RetryKeepsMeaning` | src/login/handlers.rs:73-97 | And every flow a login starts is such a flow, whatever its query said. |
| `Handlers.NewestFirstSorts` | src/login/handlers.rs:125 | The sorted flows are a permutation of those held, newest first and those that do not open last. |
| `Handlers.NewestFirstIsStable` | src/login/handlers.rs:125 | Flows of one issue time keep the order in which they were sent, as do those that do not open. |
| `Handlers.PruningIsExact` | src/login/handlers.rs:116-134 | Of a list of flows with the issue times of those that open, at most four are kept, all openable; every one that does not open is dropped; an openable one is dropped only if four at least as new were kept; none is lost or invented. |
| `Handlers.CallbackCookies` | src/login/handlers.rs:152-240 | A restart sets the marker and had not found one, a completed sign-in sets the session and clears the marker, any answer may clear the one flow, and no callback sets any other cookie. |
| `Handlers.FailureIsRestartOrRefusal` | src/login/handlers.rs:180-229 | A callback that failed (no open flow, provider down, exchange failed, token without the nonce or without a signature that verifies with the keys at hand or fetched again) is refused if the marker is read from its headers and restarted if not; no other callback is either. |
| `Handlers.LoginAlwaysSets` | src/login/handlers.rs:108-112 | With URL-safe minted texts every cookie of a login's answer is a valid header value, so the sign-in does start, with a step-up exactly if asked. |
| `Handlers.CallbackAlwaysSets` | src/login/handlers.rs:232-238 | With a URL-safe session id every cookie of a callback's answer is a valid header value, and no session is withdrawn. |
| `Handlers.CreatedExactly` | src/login/handlers.rs:157-229 | A session is created if and only if the query has a code, a state and no error, the flow opened, the provider is up and answers with a token that has the flow's nonce and a signature that verifies, at once or after the keys were fetched again, and an id was minted. |
| `Handlers.CreatedFromOpenFlow` | src/login/handlers.rs:217-235 | The session created carries the token's user under the id minted, replaces the session the browser brought, and is withdrawn exactly if its cookie cannot be set. |
| `Handlers.OpenFlowCompletes` | src/login/handlers.rs:175-239 | Conversely, an open flow and a token with its nonce that verifies, if need be with fresh keys, create one and lead to the flow's return path. |
| `Handlers.UnreadableHeadersLoop` | src/login/handlers.rs:180-184 | A browser whose Cookie headers are all unreadable is restarted by every callback, marker or not. |
| `Handlers.UnreadableHeadersPruneNothing` | src/login/handlers.rs:118-134 | And starting a sign-in clears none of its flows. |
| `Handlers.Reply.Append` | src/login/handlers.rs:373-384 | Adds one Set-Cookie after those already there if its text is visible ASCII, and else leaves them and says so; where the HTTP library draws that line is an assumption. |
| `Handlers.ClearRest` | src/login/handlers.rs:126-133 | The loop with its counter clears, in order, exactly the flows beyond those kept. |
| `Handlers.PruneFlowCookies` | src/login/handlers.rs:118-134 | Appends one clearing cookie for each flow to be dropped, which `Pruning.PruningOverVault` identifies, after what the answer already sets; none of them is refused as a header value. |
| `Handlers.SendToProvider` | src/login/handlers.rs:86-113 | The redirect carries the challenge, state, nonce and step-up, prunes first and then sets the new flow; if that cannot be set, the answer is an error instead. |
| `Handlers.Login` | src/login/handlers.rs:73-114 | The whole answer of `/auth/login`, its three failures included. |
| `Handlers.RestartReply` | src/login/handlers.rs:321-341 | Refuses if the marker is read, else redirects to start again and sets the marker. |
| `Handlers.SessionIsReplaced` | src/login/handlers.rs:217-229 | After a sign-in the new session is held, with the token's user and its expiry, the one the browser brought is gone, and the caps still hold. |
| `Handlers.StoreSession` | src/login/handlers.rs:217-229 | The store takes one insert step, and only then loses the session replaced. |
| `Handlers.SettledIsExact` | src/login/handlers.rs:224-235 | Of the sessions, that step takes just the one replaced, and the new one if its cookie could not be set. |
| `Handlers.WithdrawSession` | src/login/handlers.rs:232-235 | A session whose cookie cannot be set leaves the store again, and nothing else does. |
| `Handlers.Callback` | src/login/handlers.rs:152-240 | The whole answer of `/auth/callback`, its Set-Cookies in order, and what it does to the session store, for every failure. |
| `Handlers.FinishReply` | src/login/handlers.rs:188-216 | The same from an open flow on. |
| `Handlers.TokenReply` | src/login/handlers.rs:213-239 | The same from a token response on: verification first, then the id, then the session. |
| `Handlers.SignedReply` | src/login/handlers.rs:217-239 | From a verified token on: the session stored, its cookie set and the marker cleared, or the session withdrawn and an error answered. |
| `Pruning.PruningOverVault` | src/login/handlers.rs:106-134 | What a sign-in sets, by what this process sealed: the flow cookies read divide into kept and cleared; at most four are kept, each with a value sealed here for the state in its name; one of that kind is cleared only if four are kept and none of them is older; then the new flow is set for 1800 s. |
| `Pruning.OthersAreCleared` | src/login/handlers.rs:118-134 | Every flow cookie read whose value was not sealed here for the valid state in its name is cleared. |
| `Pruning.OnlyFlowsAreCleared` | src/login/handlers.rs:118-134 | Nothing but flow cookies read from the request is cleared. |
| `Pruning.OursIsClearedForNewer` | src/login/handlers.rs:24-27 | With each name sent once, one sealed here is cleared only for four others sealed here, each at least as new, that are not. |
| `Pruning.FewAreKept` | src/login/handlers.rs:24-27 | A browser that brought four such flows or fewer loses none of them. |
| `Pruning.OtherTabSurvives` | src/login/handlers.rs:116-134 | So a second tab's sign-in leaves the first tab's flow in the jar as it was, whatever else happened to the jar meanwhile. |
| `Answers.LoginRefused` | src/login/handlers.rs:73-113 | The three ways a sign-in does not start, with their status and reason; none sets a cookie. |
| `Answers.LoginStarts` | src/login/handlers.rs:80-113 | Otherwise the redirect carries the S256 challenge of the verifier sealed, the state that names the cookie, the nonce, and the demand for credentials just for `stepUp=1`. |
| `Answers.FlowOpensExactly` | src/login/handlers.rs:175-179 | A callback opens a flow if and only if this process sealed it for the state, which is a valid one, less than 1800 s ago, in the value that the cookie of that name brought. |
| `Answers.QueryRefused` | src/login/handlers.rs:156-166 | A query with an error, or without its code or state, is answered 400 with its reason, and no cookie. |
| `Answers.UnknownFlow` | src/login/handlers.rs:180-184 | A callback without its flow is sent round with the marker set for 300 s, or refused with 403 if it brought the marker. |
| `Answers.UnprovenFlow` | src/login/handlers.rs:188-215 | So is one whose provider is down, whose exchange fails or whose token does not verify, each with its reason and with the flow's path and step-up. |
| `Answers.BrokenExchange` | src/login/handlers.rs:191-212 | A provider without a token endpoint is answered 500, and a response without an ID token 502. |
| `Answers.ProvenFlow` | src/login/handlers.rs:213-239 | With a token that verifies: a redirect to the flow's path that sets the session for its lifetime and clears the marker, or 500 if no id is minted or the cookie cannot be set, and then the session is withdrawn. |
| `Answers.FlowIsSpent` | src/login/handlers.rs:185-186 | Single use: once the answer to a callback has arrived, however it ended, the browser does not hold the flow of its state. |
| `Answers.ArrivalSpends` | src/login/handlers.rs:343-349 | The same of every arrival in the world. |
| `Jars.ReadFromJar` | src/login/cookie.rs:71-76 | Nothing is read from a browser's request that its jar did not hold, live, with that value, when it was sent. |
| `Jars.ReadFromGroups` | src/login/cookie.rs:71-76 | What is read of a request on its way is among the cookies it carries. |
| `Jars.ReadWholeJar` | src/login/cookie.rs:71-76 | From a readable jar, exactly what it holds is read. |
| `Jars.ReadExactly` | src/login/cookie.rs:61-76 | A cookie is read if and only if it travels in a readable header. |
| `Jars.FlowsAfterLogin` | src/login/handlers.rs:106-134 | Whatever became of the jar since the request was sent, the flow cookies after its answer are exactly the new one, those brought that were neither dropped nor gone, and those that arrived meanwhile. |
| `Jars.LoginSetsFlow` | src/login/handlers.rs:106-113 | The new flow's cookie is among them, with its lifetime, whatever the pruning cleared. |
| `Jars.LoginBoundsFlows` | src/login/handlers.rs:24-27 | At most five of them besides those in unreadable headers and those that arrived meanwhile; at most five in all if the headers were readable and none arrived. |
| `Jars.LoginFlowCount` | src/login/handlers.rs:106-134 | For a new state the exact number, and with it when the bound of five holds: if and only if those that stayed and those that arrived are four at most. |
| `Jars.UnreadableJarKeepsAll` | src/login/handlers.rs:118-134 | A sign-in of which no header is readable leaves one flow cookie more. |
| `Jars.CallbackAddsNoFlow` | src/login/handlers.rs:152-240 | After any callback's answer the flow cookies of any jar are a subset of those before. |
| `FailingTabs.TabsAtOnceAddUp` | src/login/handlers.rs:116-134 | However many tabs of a browser with an empty jar ask before one is answered, a run ends with a flow of each. |
| `FailingTabs.SixTabsHoldSix` | src/login/handlers.rs:24-27 | With six tabs, six flows, in a run from an initial world. |
| `FailingTabs.UnreadableCookieAddsUp` | src/login/handlers.rs:118-134 | From every world with nothing on its way, a browser with one live cookie that is not ASCII has a run of any number of sign-ins, one at a time, that leaves it that many flows more. |
| `FailingTabs.SixWithACity` | src/login/handlers.rs:24-27 | From an initial world in which a browser holds one such cookie and no flow, six sign-ins one at a time leave it six flows. |
| `Tabs.AnswerCountsExactly` | src/login/handlers.rs:106-134 | In every run, when the answer to a sign-in reaches an honest browser, the exact number of flows it then holds, and when they are five at most. |
| `Tabs.FiveFlowsAtMost` | src/login/handlers.rs:24-27 | In every run a browser whose jar starts readable, with five flows at most, and that starts one sign-in at a time, holds five at most at every moment. |
| `Bindings.BrowserBinding` | src/login/handlers.rs:168-240 | In every run, with any codes, states and cookies and however requests and answers overtake each other: a session created for an honest browser rests on a flow sealed for that browser and that state less than 1800 s before it was opened, on a token with that flow's nonce whose signature verified, and on a grant of that token's user for the flow's challenge and nonce. |
| `Bindings.RunIsBound` | src/login/flow.rs:14-21 | The invariants behind it: honest jars and requests hold only flows sealed for them, answers set no others, opened flows were sealed for this state and recently, every stored path is acceptable; each step keeps them. |
| `Bindings.OpenedIsOurs` | src/login/handlers.rs:175-179 | A flow opened from an honest browser's request was sealed for it, for this state, and less than the lifetime ago. |
| `Bindings.EverySessionIsRecorded` | src/login/handlers.rs:217-223 | Every callback that creates a session adds the one record, of that browser at that time, with its token and whether its signature verified, that the binding is about. |
| `Bindings.RestartKeepsMeaning` | src/login/handlers.rs:316-338 | In every run the redirect of a restart with an open flow carries that flow's path and step-up, and its query is read back by the login handler as a sign-in for the same. |
| `Loops.RestartsIffUnseen` | src/login/handlers.rs:321-341 | An answer restarts its browser if and only if the callback failed and no marker travelled in a readable header of it. |
| `Loops.RestartsApartExactly` | src/login/handlers.rs:316-341 | In every run, the restarts that reach an honest browser with no completed sign-in between them are 300 s apart if and only if every failed callback answered within 300 s of one had been sent with the marker in a readable header. |
| `Loops.MarkerAfterCallback` | src/login/handlers.rs:236-239 | A restart sets the marker for 300 s, a completed sign-in removes it, and a refusal or any other answer leaves it as it was. |
| `Loops.NoRedirectLoop` | src/login/handlers.rs:22-23 | A browser whose jar starts readable, with one callback on its way at a time, is in no run restarted twice within 300 s without a completed sign-in between. |
| `FailingLoops.TwoTabsRestart` | src/login/handlers.rs:188-206 | A run in which two callbacks of a browser with an empty jar are sent before one is answered ends with two restarts at one instant. |
| `FailingLoops.UnreadableCookieLoops` | src/login/handlers.rs:321-328 | With one live cookie that is not ASCII a browser can be restarted any number of times at once, one callback after another. |
| `FailingLoops.TwiceWithACity` | src/login/handlers.rs:321-328 | So can a browser that holds nothing else, twice. |
| `FailingLoops.TwoAtOnceAreNotApart` | src/login/handlers.rs:22-23 | Either of these logs breaks the spacing of restarts. |
| `Seats.MeTellsTheTruth` | src/login/handlers.rs:293-303 | In every run, a user that `/auth/me` tells an honest browser is the user of the session of that browser's last completed sign-in when it asked, not signed out of by then, created by its own callback less than the lifetime ago, and ended by nobody since. |
| `Seats.SeatIsLast` | src/login/handlers.rs:293-303 | The session of a browser's last completed sign-in, as that is told, is the one of the last sign-in in the log with no sign-in or sign-out of that browser after it. |
| `Seats.SessionAfterCallback` | src/login/handlers.rs:227-239 | A completed sign-in leaves no session cookie but its own, and every other answer leaves the session cookie as it was. |
| `SignIns.OwnFlowOpens` | src/login/handlers.rs:175-179 | The cookie of a browser's own flow opens while a second or more of its lifetime is left. |
| `SignIns.ReturnCompletes` | src/login/handlers.rs:175-239 | A browser that holds its flow and returns with a code granted for it is signed in: at its path, with the session stored for the token's user, and the session cookie set. |
| `SignIns.SignInCompletes` | src/login/handlers.rs:73-240 | The whole round: a sign-in is started for an honest browser, a user grants exactly what the redirect asked for, everybody including that browser does anything; if it still holds the flow and the code is unspent, a second before the lifetime ends, it is signed in as that user at the path it asked for, if that is one to be honoured, else at `/`. The redirect forces credentials just for a step-up. |
| `SignIns.SomeVictim` | src/login/session.rs:100-108 | Whatever the store holds, it can decide whom to evict for the new session, so that round is never blocked there. |
| `SignIns.SignedInIsTold` | src/login/handlers.rs:293-303 | And `/auth/me` tells a readable browser the user of the session it holds, if the store has it within its lifetime, and nobody if not. |
| `Worlds.LookingIsAStep` | src/login/session.rs:125-141 | A lookup in the world is a lookup step of the session store. |
| `Worlds.StoringIsAStep` | src/login/handlers.rs:217-235 | A sign-in in the world is an insert step of it, and then the replaced session goes. |
| `Worlds.EndingIsAStep` | src/login/handlers.rs:276-278 | A sign-out in the world is a remove step of it. |
| `Packets.PushAppends` | src/wg/device.rs:135-138 | Pushing onto the flat queue appends one packet to those it stands for. |
| `Packets.PopTakesFirst` | src/wg/device.rs:143-147 | Popping removes and gives the first packet, or nothing from an empty queue. |
| `Packets.FlatRefinesFifo` | src/wg/device.rs:120-152 | Over every mix of enqueues and dequeues, empty packets included, the flat queue answers as a plain queue of packets does and ends standing for the same packets. |
| `Packets.PacketQueue.Enqueue` | src/wg/device.rs:135-138 | One packet at the back; lengths still add up to the bytes held. |
| `Packets.PacketQueue.Dequeue` | src/wg/device.rs:140-147 | The front packet, whole; an empty one from an empty queue. |
| `Packets.PacketQueue.IsEmpty` | src/wg/device.rs:149-151 | True exactly if no packet is held. |
| `Packets.Token.RxConsume` | src/wg/device.rs:98-106 | Hands over the front packet and nothing of the one before it. |
| `Packets.Token.TxConsume` | src/wg/device.rs:108-118 | Queues exactly what the writer leaves in a buffer of the asked length, given the previous bytes cut or zero-extended. |
| `Packets.Device.EnqueueReceived` | src/wg/device.rs:37-40 | Appends to the receive side and leaves the send side alone. |
| `Packets.Device.DequeueSent` | src/wg/device.rs:42-50 | Takes the front of the send side, if any, and leaves the receive side alone. |
| `Packets.Device.DrainSent` | src/wg/forward.rs:302-307 | The drain loop ends with every packet of the send side, in order, and the send side empty. |
| `Sockets.StepKeeps` | src/wg/forward.rs:272-456 | Every atomic section of every task keeps: the task's list is the socket set, without duplicates and bounded; each socket has one owner; ports follow attempts; no abandoned mark predates its socket. |
| `Sockets.NoAbsentHandleIsTouched` | src/wg/forward.rs:275-299 | In every run, with freed handles reused at once, the list is the socket set, each socket is in transit, in a stream or abandoned, at most 128 are open, and the next lookup of any task finds its handle. |
| `Sockets.RequestsAreMet` | src/wg/forward.rs:327-354 | In every run an open request is met exactly if fewer than 128 sockets are open and its connect succeeds; a failed connect spends a port, a refusal at the ceiling does not; otherwise nothing changes. |
| `Sockets.DroppedNow` | src/wg/forward.rs:550-561 | A dropped stream's socket is marked as abandoned at that moment, and no other socket, mark or stream changes. |
| `Sockets.ReapIsExact` | src/wg/forward.rs:283-299 | After a pass, what is left abandoned is not closed and marked less than 30 s ago; what is gone was abandoned and closed or marked 30 s ago; marks go with their sockets; owned sockets stay. |
| `Sockets.GraceEmptiesTheSet` | src/wg/forward.rs:288-297 | Once every abandoned socket is past its grace, a pass leaves exactly the owned ones. |
| `Sockets.ReusedHandleStartsClean` | src/wg/forward.rs:296-297 | A reused handle is never abandoned when given out, and an abandoned mark is never older than the socket it stands beside. |
| `Sockets.PortsCycle` | src/wg/forward.rs:343-344 | The k-th connect of a run, counting every request taken up below the ceiling, failed ones too, uses port 49152 + k mod 16384 (the dynamic ports of section 6 of RFC 6335), so two open sockets share one if and only if their attempts differ by a multiple of 16384. |
| `Sockets.Forwarder.constructor` | src/wg/forward.rs:227-264 | No sockets, and the first port next. |
| `Sockets.Forwarder.ReapOne` | src/wg/forward.rs:283-298 | One socket of the pass: kept, or taken out together with its mark. |
| `Sockets.Forwarder.RetainKept` | src/wg/forward.rs:283-299 | The pass over the list keeps exactly the sockets owned or in grace, though the set shrinks as it goes. |
| `Sockets.Forwarder.ReapPass` | src/wg/forward.rs:279-300 | The whole pass, list included, is the specified reap step. |
| `Sockets.Forwarder.OpenSocket` | src/wg/forward.rs:327-354 | At the ceiling nothing changes but the refusal; otherwise a port is spent, and a socket that connects joins the set and the list and is on its way to the acceptor. |
| `Sockets.Forwarder.AskForSocket` | src/wg/forward.rs:433-438 | The acceptor waits for an answer. |
| `Sockets.Forwarder.CollectAnswer` | src/wg/forward.rs:439-446 | The socket passes from transit to a stream, or there is none. |
| `Sockets.Forwarder.TouchStream` | src/wg/forward.rs:466-548 | A stream's lookup finds its socket, and changes no other. |
| `Sockets.Forwarder.DropStream` | src/wg/forward.rs:550-561 | The stream's socket becomes abandoned, dated now, and has no other owner. |
| `Health.HealthIsTruthful` | src/wg/forward.rs:129-167 | Under every interleaving of single loads and stores, the stack task alive or not, a reader that answers ok began at most 184.999999998 s, plus the longest delay from measuring the age to reading the clock for its stamp, after a handshake. |
| `Health.LagIsAttained` | src/wg/forward.rs:133-138 | Whatever the delay, there is a run with just that delay and one handshake in which a reader answers ok at exactly that bound. |
| `Health.LagMatters` | src/wg/forward.rs:392-393 | All readers of all runs delayed by at most L answer ok only within 185 s of a handshake if and only if L is at most a nanosecond. |
| `Health.LiveTunnelReadsHealthy` | src/wg/forward.rs:144-167 | What a reader answers, exactly: ok if and only if the published age is under 180 s and less than 5 s have passed since the stamp cut to the millisecond. |
| `Health.DeadTaskReadsUnhealthy` | src/wg/forward.rs:140-148 | Five seconds after the last stamp no reader answers ok. |
| `Health.PublishedIsCut` | src/wg/forward.rs:134-137 | The cells hold the age cut to whole seconds, and none exactly if there was no handshake, and the stamp cut to whole milliseconds. |
| `Health.PublishIsARun` | src/wg/forward.rs:133-138 | An uninterrupted `set` is a run of the machine that leaves those cells. |
| `Health.ReadIsARun` | src/wg/forward.rs:144-167 | An uninterrupted reading is one that answers what the cells say. |
| `Health.WgHealth.constructor` | src/wg/forward.rs:114-120 | No handshake yet. |
| `Health.WgHealth.Set` | src/wg/forward.rs:133-138 | Leaves the cells that the run of the machine leaves. |
| `Health.WgHealth.StackAlive` | src/wg/forward.rs:140-148 | Alive exactly while less than five seconds have passed since the stamp, the floors included. |
| `Health.WgHealth.LastHandshakeSecs` | src/wg/forward.rs:150-161 | The stored age while the stack task is alive, none after. |
| `Health.WgHealth.HandshakeOk` | src/wg/forward.rs:163-167 | Ok exactly if the stamp is fresh and the stored age is under 180 s. |
| `Watchdog.WatchdogIsExact` | src/wg/forward.rs:366-408 | A history of ticks and failed receives is one the program can have if and only if each tick bounces the tunnel exactly when it reads no handshake or one at least 180 s old, and for more than 30 s no tick read a younger one, no rebuild succeeded and the task did not just start. |
| `Watchdog.Marker.constructor` | src/wg/forward.rs:266-270 | Starts healthy, at the given instant. |
| `Watchdog.Marker.TimerTick` | src/wg/forward.rs:388-409 | Publishes the age, then: a handshake under 180 s old moves the marker and nothing bounces; otherwise it bounces exactly if the marker is more than 30 s back, and a rebuild that succeeds moves the marker. |
| `Watchdog.Marker.ReceiveError` | src/wg/forward.rs:366-378 | A failed receive moves the marker exactly if the rebuild succeeds. |
| `Rates.WindowBound` | src/auth.rs:24-26 | Instants a gap apart, one gap possibly short: a closed window holds at most one more than its length divided by the gap, and one more for the short gap. |
| `Rates.CountIsOfIndices` | src/auth.rs:24-26 | The count of a window is the number of instants in it. |
| `Jwks.OneRefreshAtATime` | src/auth.rs:277-301 | In every run at most one task holds the refresh, only for a key still missing, and it began a cooldown after the last completed fetch, failed ones included. |
| `Jwks.CompletedRefreshesAreRare` | src/auth.rs:24-26 | In every run, cancellations included, any window of length T sees at most 1 + T/60 s completed refreshes, by their starts and by their ends. |
| `Jwks.BegunRefreshesAreRareUnlessAbandoned` | src/auth.rs:277-301 | Of the fetches begun it sees at most that many plus those whose task was cancelled while fetching. |
| `Jwks.BegunRefreshesAreSpacedExactly` | src/auth.rs:24-26 | In every run the fetches begun are 60 s apart if and only if none begins less than 60 s after the beginning of one whose task was cancelled while fetching. |
| `Jwks.BegunRefreshesAreRareIfWaitedOut` | src/auth.rs:24-26 | Then any window of length T sees at most 1 + T/60 s of them. |
| `Jwks.AbandonedFetchesAreUnbounded` | src/auth.rs:284-292 | In every state with the mutex free and the gate open any number of fetches can begin, and be abandoned, at one instant. |
| `Jwks.LockFetchesExactly` | src/auth.rs:277-292 | In every run, a waiting validation that gets the free mutex with its key missing begins to fetch if and only if no fetch completed in the last 60 s, and is refused at once otherwise. |
| `Jwks.ValidatedIsExact` | src/auth.rs:277-307 | An uninterrupted validation: a key at hand is found without a fetch; a missing one within 60 s of the mark is not, without a fetch; otherwise the mark moves to the end of the fetch, and keys and verdict are those fetched, if it succeeds. |
| `Jwks.KnownKeyNeverWaits` | src/auth.rs:277-307 | A validation whose key is at hand is decided at once, even while another holds the mutex. |
| `Jwks.ValidatedIsARun` | src/auth.rs:277-307 | One validation that nothing interrupts is a run of the machine with that state and verdict. |
| `Jwks.JwksStore.constructor` | src/auth.rs:277-287 | The initial keys and no cooldown. |
| `Jwks.JwksStore.FindKey` | src/auth.rs:272-307 | The key lookup of a validation: without a key id nothing is fetched; with one, keys, mark and answer are those of the uninterrupted run, case by case. |
| `Discovery.AttemptsAreSpaced` | src/login/provider.rs:112-139 | In every run at most one attempt is in flight, completed ones do not overlap, one starts 30 s after the end of a failed one, and 30 s after the start of the one before unless that was the first success. |
| `Discovery.CompletedAttemptsAreRare` | src/login/provider.rs:25-30 | Any window of length T sees at most 2 + T/30 s completed attempts start, and at most 1 + T/30 s while none has succeeded. |
| `Discovery.BegunRefreshesAreRare` | src/login/provider.rs:122-124 | Any window of length T sees at most 1 + T/30 s refreshes begin, cancelled ones included. |
| `Discovery.BegunAttemptsAreRareUnlessAbandoned` | src/login/provider.rs:112-139 | Of the attempts begun it sees at most 2 + T/30 s plus those whose task was cancelled while fetching. |
| `Discovery.BegunAttemptsAreSpacedExactly` | src/login/provider.rs:25-30 | In every run the attempts begun are 30 s apart, but for the gap after the first discovery, if and only if none begins less than 30 s after the beginning of one whose task was cancelled while fetching; while there is no client there is no such gap. |
| `Discovery.BegunAttemptsAreRareIfWaitedOut` | src/login/provider.rs:25-30 | Then any window of length T sees at most 2 + T/30 s of them, and at most 1 + T/30 s while there is no client. |
| `Discovery.AbandonedAttemptsAreUnbounded` | src/login/provider.rs:119-136 | In every state with the mutex free and the gate open for a first discovery any number of attempts can begin, and be abandoned, at one instant. |
| `Discovery.LockAttemptsExactly` | src/login/provider.rs:112-127 | In every run, a waiting call that gets the free mutex begins an attempt if and only if it is a refresh or nothing was ever discovered, the last attempt did not fail in the last 30 s, and, for a refresh, no refresh began in the last 30 s. |
| `Discovery.AttemptEnds` | src/login/provider.rs:127-139 | A success replaces the client and clears the failure mark; a failure keeps the client and is marked. |
| `Discovery.DiscoveredIsExact` | src/login/provider.rs:112-139 | An uninterrupted call, case by case: barred by a client or a mark it changes nothing; otherwise marks and client are those of the attempt. |
| `Discovery.ClientIsNeverLost` | src/login/provider.rs:101-106 | Once there is a client there always is one, whatever fails later. |
| `Discovery.DiscoverIsARun` | src/login/provider.rs:91-106 | An uninterrupted call is a run of the machine, and `client` answers what the cell then holds. |
| `Discovery.Provider.constructor` | src/login/provider.rs:79-89 | No client and no marks. |
| `Discovery.Provider.Discover` | src/login/provider.rs:112-139 | The gate, the two marks and the cell end up as in the uninterrupted run. |
| `Discovery.Provider.GetClient` | src/login/provider.rs:91-99 | Answers the cell; discovers first only if it was empty. |
| `Discovery.Provider.Rediscover` | src/login/provider.rs:101-106 | Discovers again as the gate allows, even with a client. |

## Left out

Not modelled:

- What `validate_for` does once it has the key: decoding the token and checking its claims.
- Cryptography, JWT decoding, base64, JSON and random numbers: ideal functions and fresh values instead.
- HTTP itself: a code exchange, a discovery and a key fetch end in success or failure as the environment decides.
- smoltcp, boringtun and the UDP socket: only whether a socket is closed and how old the handshake is.
- Bodies of answers, log lines, the sanitizing of the provider's error text, and the state prefix that is logged.
- `created_wall` of a session, which only words a log line about clocks that disagree.
- The branches of `dev_no_auth`, `authenticate` and the origin checks; a `/auth/logout` in the world is one that passed them.
- Configuration, OpenAPI, peers, jobs, the HTTP helper, the language-model client and the release script.

Simplified:

- A callback has two steps at the server, opening its flow and finishing: the exchange, the verification with its key refresh and the storing of the session are one step, and a request cancelled between them is one that is lost.
- A sweep and a reap pass use one clock reading each, where the code reads the clock per entry; an insert in the world and a watchdog tick likewise.
- The atomics of the health handle are sequentially consistent, where the code uses relaxed ordering.
- A stack task that stops for good is modelled for the health handle only. Shutting the runtime down, and an acceptor or stream task dropped before it first runs, are not: they would leave a socket without an owner.
- Names, values and lifetimes of a browser's cookies are modelled, and its limits on number and size, which may evict cookies early, are not. Two cookies of one name for different paths are not.
- Single use of a flow is what the browser's cookie gives, as in the code: the server does not remember spent flows.
- A Location or Set-Cookie is data in the world; its text is what `Flows.RetryQuery` and `Cookies.SetText` print, and the round trips connect the two. That the HTTP library accepts a return path as a header value is taken for granted, and the model draws the line for Set-Cookies at visible ASCII; every text the program mints is within it (`Handlers.LoginAlwaysSets`, `Handlers.CallbackAlwaysSets`).
- Poisoned locks do not occur.

Weaker than what their source does, or conditional:

- `Sockets.Forwarder.RetainKept`: requires the invariant of the list, which `Sockets.StepKeeps` shows every section keeps.
- `Handlers.Callback`: requires that the session cookie's lifetime is the store's in whole seconds, which is how the code computes it.
- `Handlers.ClearRest`: requires flows whose clearing cookies are valid header values, which `Handlers.PruneFlowCookies` shows every flow read from a request to be.
- `Sessions.SessionStore.Count`: the upper bound is stated for a store within its caps, which `Sessions.CapsAlwaysHold` shows every store is.
