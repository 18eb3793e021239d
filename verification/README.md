# Slack relay and agent: a verified model

The repository connects Claude Code sessions to Slack threads. An **agent** runs beside each
session and keeps a WebSocket to the **relay**. The relay receives Slack events, forwards
thread messages and permission verdicts to the agent whose session is bound to the thread,
posts replies and permission prompts, issues agent tokens to an admin who logs in through
OpenID Connect, and keeps users, tokens and bindings in one state file.

The model states what each part promises and proves it for all inputs, all runs and all
interleavings.

- **Interleavings** (`Relay`, `RelayHub`, `RelayHistory`, `RelayCounts`, `RelayLookups`,
  `RelayAnswers`, `RelayRace`, `RelayEffects`). Slack handlers and agent connections are program counters over the shared
  tables. A step is what
  a handler does between two points where another may run: one acquisition of a lock, one
  socket operation, one Slack call. A log records what happened. Matching a verdict and
  removing the request are separate steps because the lock is released in between, so two
  answers to one prompt can both be delivered: `RelayRace` gives a schedule.
  `RelayAnswers` says exactly when: a request is answered twice if and only if some handler
  matches it while another that matched it still stands before its removal.
  `RelayEffects` says what each handler and connection achieves when it runs alone, from
  any state, in terms of the tables, queues and texts only.
- **Objects** (`Permission.Tables`, `Hub`, `Dedupe`, `Sessions`, `Store`, `Agent.Loop`). The
  state that the program changes in place is a class. `Tables`, `Dedupe`, `Sessions` and
  `Loop` are proved against the functions that the step relations use, and `Hub.Run` refuses
  what the handshake step refuses. `Store.Disk`, `Store.Keeper` and the rest of `Hub` have
  contracts of their own: they show one call without interference, the steps show all
  interleavings.
- **Durability and login** (`Admin`, `Durability`, `LoginHistory`, `LoginUses`,
  `LoginCounts`, `LoginEffects`). Every file operation of a save may fail, the process may stop between any two steps and start again,
  and logins, token requests and binding changes interleave. The log survives restarts;
  memory does not.
- **Calendar** (`Calendar`, `Rfc3339`, `DayNumbers`, `Timestamps`). The closed form of the
  date is proved against a calendar that walks one day at a time, and the text against an
  independent reader. Section and appendix numbers in the comments refer to RFC 3339.
- **Text** (`Chunk`, `Mrkdwn`, `PercentEncoding`, `Verdict`). The splitter, the escapes and
  the hand-written parser, each against an independent definition.
- **Reconnect loop** (`Agent`, `AgentRuns`, `AgentLaws`). A script says how the awaits of a
  run complete; the loop logs all it does, and the laws compare the log with the script.

`Text`, `Counting` and `Wrappers` hold what these share. Steps are taken in any order that
their guards allow, so a statement about every feasible list of steps is one about every
schedule. Clock readings, random tokens, the outcomes of Slack calls, socket writes, token
exchanges and file operations are parameters of the steps. Clock readings need not increase.

## Model

| member | source | states |
|---|---|---|
| RelayHistory.VerdictProvenance | crates/relay/src/routes/slack.rs:70-127 | Every verdict frame on an agent's socket was queued for the session that this connection had registered, after a handler had matched it and then removed the request; the match satisfies `AnswersRequest` for that session. |
| RelayHistory.MatchAnswersRequest | crates/relay/src/permission.rs:74-143 | Every match answers a request that a registered connection of the session recorded for the thread that was then its latest binding, that nobody touched since, that is at most 1800 seconds old by the matching clock, and whose thread was bound by the answering, allowed user to that session. |
| RelayHistory.InboundProvenance | crates/relay/src/routes/slack.rs:78-126 | Every inbound frame carries, unchanged, a message of an accepted delivery from an allowed user in a thread that was bound, when looked up, to the session the receiving agent had registered. |
| RelayLookups.LookupsAreConserved | crates/relay/src/routes/slack.rs:93-126 | For every handler and every chat id, user and text, in every run: lookups = matches + inbound messages queued + inbound messages that found the session offline + one if the handler stands before that. |
| RelayLookups.RefusedPromptsAreWithdrawn | crates/relay/src/permission.rs:122-142 | After Slack refuses a piece of a prompt, the connection's next act is the withdrawal of that request, and until then it stands before it; a request is withdrawn for no other reason than a refused piece or an invalid chat id. |
| RelayEffects.MessageAlone | crates/relay/src/routes/slack.rs:70-127 | Running alone from any state, the handler of a delivery ends: a duplicate, a stranger or an unbound thread changes no queue and no request; an answer to a pending request of the thread puts the verdict on the session's queue and removes the request; anything else puts the message itself there; an offline session gets nothing. The event id is remembered among the last 1000. |
| RelayEffects.RequestAlone | crates/relay/src/permission.rs:93-143 | Running alone, a request takes one post for each piece of its prompt and is then pending for the latest thread; if piece n is refused or the thread id is invalid it is withdrawn after that, and no trace of it is left. |
| RelayEffects.SelectAlone | crates/relay/src/routes/slack.rs:223-255 | An allowed user's choice binds channel:ts to that session, user and time; a stranger's, or one whose root post is refused, binds nothing. |
| RelayEffects.UnbindAlone | crates/relay/src/routes/slack.rs:163-201 | An allowed user's unbind removes exactly this user's threads whose part before the first colon is the channel; a stranger's removes nothing. |
| RelayEffects.Admission | crates/relay/src/routes/agent_ws.rs:74-107 | A connection is let in if and only if its first frame is a hello of version 1 with a free name of 1 to 150 characters, none of them a control character; every other case has its own message. |
| RelayEffects.ConnectAlone | crates/relay/src/routes/agent_ws.rs:52-120 | A connection that is let in is registered, welcomed and serving; another gets one error frame and never appears in the hub. |
| RelayEffects.ServeAlone | crates/relay/src/routes/agent_ws.rs:121-138 | A serving connection sends the first message of its queue; if that fails it loses the whole queue and frees its name. |
| RelayEffects.ReplyStep | crates/relay/src/routes/agent_ws.rs:166-177 | A non-empty reply to channel:thread, split at the first colon and both parts given, is cut into pieces for posting; any other is dropped. |
| RelayHistory.RemovalIsFinal | crates/relay/src/routes/slack.rs:93-104 | After a request is removed or withdrawn, no handler matches its id until an agent records the id again. |
| RelayHistory.InvalidIdsAreLoaded | crates/relay/src/permission.rs:122-126 | A request is withdrawn for an invalid chat id only if that binding was loaded from the state file; threads bound from Slack always have a channel and a timestamp. |
| RelayAnswers.TwoAnswersOnlyInGap | crates/relay/src/routes/slack.rs:93-99 | Two matches of one id answer the same recorded request if and only if, in the state just before the second, the first handler still stands between its match and its removal and nobody has recorded the id anew. |
| RelayAnswers.OneAnswerPerRequest | crates/relay/src/routes/slack.rs:93-104 | No recorded request is answered twice, by any or by a chosen set of handlers, if and only if the run has no such race among them. |
| RelayAnswers.VerdictAnswers | crates/relay/src/routes/slack.rs:93-113 | Every queued verdict has one match by its own handler, of the same id and behaviour, and answers the request recorded at `InsertionOf`. |
| RelayAnswers.OneVerdictPerInsertion | crates/relay/src/permission.rs:111-139 | Any two queued verdicts of one id answer different insertions if and only if no two handlers that both deliver race for a request. |
| RelayAnswers.OneMessagePerAcceptance | crates/relay/src/routes/slack.rs:70-127 | Every queued message belongs to one accepted delivery, and two messages never to the same one, also when an event id is accepted again after the window. |
| RelayCounts.VerdictsAreConserved | crates/relay/src/routes/slack.rs:93-113 | For every id: matches = verdicts queued + verdicts that found the session offline + handlers still on their way. |
| RelayRace.TwoVerdictsForOneRequest | crates/relay/src/routes/slack.rs:93-104 | Races happen: a feasible run in which one insertion yields two queued verdicts. |
| RelayCounts.OneMessagePerDelivery | crates/relay/src/routes/slack.rs:70-127 | Under any interleaving, any 1001 consecutive accepted event ids are distinct, hub messages for an id never outnumber its acceptances, and an id inside the window causes at most one hub message, never both a verdict and an inbound message. |
| RelayHub.HubIsRegistrations | crates/relay/src/routes/agent_ws.rs:52-101 | In every run the hub maps a name to a connection if and only if that connection has registered the name and not yet unregistered. |
| RelayHub.IncumbentStays | crates/relay/src/hub.rs:21-32 | No step but the owner's own unregister removes or replaces an entry, so a duplicate or failed handshake leaves the incumbent alone. |
| RelayHub.FramesAreFifo | crates/relay/src/routes/agent_ws.rs:109-139 | A connection sends nothing, one Error, or Welcome followed by a prefix of the messages queued for it, in order; each queued message is sent, in flight, waiting, or lost when the queue was dropped. |
| Hub.Hub.Register | crates/relay/src/hub.rs:21-28 | A free name gets the new queue; a taken one keeps its own and the caller is refused. |
| Hub.Run | crates/relay/src/routes/agent_ws.rs:52-101 | A connection that runs while no other comes or goes is refused with exactly the message of the handshake rules, sends what `Serve` sends under its own name otherwise, and in every case leaves the table as it found it. |
| Hub.Hub.List | crates/relay/src/hub.rs:35-39 | Exactly the connected names, strictly ascending. |
| Hub.Hub.Send | crates/relay/src/hub.rs:41-44 | One poll: it waits exactly while the owner's queue is full, else succeeds if and only if the name is connected and its receiver alive; then the message is last in that queue, and no other queue changes. |
| Hub.Serve | crates/relay/src/routes/agent_ws.rs:109-139 | The frames sent are Welcome and then, with the messages lost at the end, exactly what was queued before and during the call, in order; it ends only when the socket closes or a send fails. |
| Permission.Tables.SweepOld | crates/relay/src/permission.rs:56-58 | An entry goes if and only if it is more than 1800 seconds old (exactly 1800 stays); what stays is unchanged. |
| Permission.LatestInIsLatest | crates/relay/src/permission.rs:62-71 | In whatever order the map is walked, the result is the session's binding that all others precede by creation time, then chat id, or nothing if there is none. |
| Permission.LatestUnique | crates/relay/src/permission.rs:62-71 | There is only one such result. |
| Permission.Tables.Record | crates/relay/src/permission.rs:101-120 | Sweeps and, if the session has a binding, records the request for its latest thread. |
| Permission.Tables.Match | crates/relay/src/permission.rs:74-89 | A verdict is found if and only if the text parses, its id names a request at most 1800 seconds old that was recorded for this thread and session, and the answering user bound the thread; the entry stays. |
| Permission.Tables.HandleRequest | crates/relay/src/permission.rs:93-143 | Without interference: the pieces of the prompt text for this tool call are posted in order to the latest thread up to the first refusal; the request is pending afterwards if and only if all were posted, and every other entry stays exactly if it is at most 1800 seconds old. |
| Permission.Tables.Unbind | crates/relay/src/routes/slack.rs:191-201 | A binding survives, unchanged, if and only if its user differs or the part of its chat id before the first colon is not the channel (for a channel without a colon); the result counts the others. |
| Permission.BoundThenUnbound | crates/relay/src/routes/slack.rs:191-247 | A thread that was just bound is removed by its own user's unbind in its channel, and by no other user's and in no other channel. |
| Permission.Tables.Bind | crates/relay/src/routes/slack.rs:236-247 | Every other binding stays, and a thread bound later than all others of its session becomes the session's latest, the one its next request goes to. |
| Dedupe.Dedupe.FirstSeen | crates/relay/src/slack/events.rs:95-106 | True if and only if the id is not among the last `capacity` accepted ids, for every capacity including zero; the ring and the set keep agreeing. |
| Dedupe.AcceptedSpaced | crates/relay/src/slack/events.rs:79-107 | Any `capacity + 1` consecutive accepted ids are pairwise distinct. |
| Durability.LockFreeAgreement | crates/relay/src/auth/routes.rs:47-59 | In every run with failing saves, crashes and restarts: when the store lock is free, memory and file hold the same users and tokens, and the same bindings if no save was attempted or the last succeeded. |
| Durability.CrashLeavesOldOrNew | crates/relay/src/store.rs:49-68 | A crash at any point leaves a file that loads; during a save it is exactly the old store or exactly the new one. |
| Durability.IssuedTokensSurvive | crates/relay/src/auth/routes.rs:181-197 | Every token that was shown is accepted by the store that any later restart loads. |
| Durability.UsersGrowByAdmin | crates/relay/src/auth/routes.rs:123-134 | The user list is the initial one plus at most the admin, once, in the file and in memory. |
| LoginHistory.CookiesFollowLogins | crates/relay/src/auth/routes.rs:89-151 | Every cookie names the non-empty admin user and follows an id_token of that user with the nonce issued together with a state that the same callback used up less than 600 seconds after it was begun. |
| LoginHistory.TokensFollowCookies | crates/relay/src/auth/routes.rs:169-197 | Every agent token was shown to a request carrying a cookie that was set earlier for the admin, less than 86400 seconds before by the clock that checked it. |
| LoginUses.StatesAreUsedOnce | crates/relay/src/auth/session.rs:27-40 | Every use of a state follows a beginning of that state with the same nonce and nothing else about the state in between, so each beginning is used at most once; the use is valid if and only if it comes within 600 seconds. |
| LoginUses.OneCookiePerCallback | crates/relay/src/auth/routes.rs:89-151 | One callback uses at most one state and sets at most one cookie. |
| LoginCounts.CookiesAreEarned | crates/relay/src/auth/session.rs:27-48 | Over all interleavings and restarts: cookies set <= states used in time <= states used <= states begun; between two uses of one state it is begun again, and no callback uses a second state or sets a second cookie. |
| LoginEffects.LoginAlone | crates/relay/src/auth/routes.rs:89-151 | Running alone with saves that succeed, a callback whose state is pending and unexpired and whose id_token has the right issuer, audience, nonce, expiry and the admin as subject adds the admin, on file too, and sets a cookie for 86400 seconds; any other uses the state up and changes nothing else. |
| LoginEffects.TokenAlone | crates/relay/src/auth/routes.rs:169-197 | A token request with an unexpired cookie and a label of 1 to 64 characters after trimming stores hash, label and time, on file too, and shows the token; any other changes nothing. |
| LoginEffects.ChangeMakes | crates/relay/src/auth/routes.rs:129-133 | Each change of the store touches only its own part: a user is added once, a token is appended, a thread is bound, or a user's threads in a channel go. |
| LoginEffects.BootStep | crates/relay/src/store.rs:39-46 | A start without a file has an empty store, with a file what it holds, and a file that does not parse stops it; logins and cookies are gone. |
| Sessions.Sessions.Begin | crates/relay/src/auth/session.rs:27-33 | From now on, taking the state yields the nonce before 600 seconds have passed and nothing afterwards; taking any other state yields what it did before. |
| Sessions.Sessions.TakePending | crates/relay/src/auth/session.rs:37-40 | Yields the nonce only before the expiry; afterwards the state yields nothing at any time. |
| Sessions.Sessions.CreateCookie | crates/relay/src/auth/session.rs:43-48 | The cookie answers with its user before the expiry and with nothing from then on. |
| Store.AcceptToken | crates/relay/src/store.rs:71-76 | True if and only if the hash of the token is stored. |
| Store.Disk.Save | crates/relay/src/store.rs:49-68 | Whichever operation fails, the file holds the old content on failure and the new store on success. |
| Store.Keeper.Commit | crates/relay/src/auth/routes.rs:47-59 | A failed save changes neither memory nor file; a change that changes nothing needs no save; otherwise both take the new store. |
| Store.Keeper.MutateAndSave | crates/relay/src/routes/slack.rs:191-201 | Memory always takes the change, the file only when the save succeeds. |
| Calendar.CivilIsNaive | crates/relay/src/auth/routes.rs:202-210 | On every day before and after 1970 the closed form gives the date reached by walking single days from 1970-01-01. |
| Rfc3339.CivilFromDays | crates/relay/src/auth/routes.rs:201-210 | No intermediate value leaves `i64`, for every day that an `i64` of seconds can give, with Rust's truncating division. |
| Rfc3339.FieldsAreNaive | crates/relay/src/auth/routes.rs:200-217 | For every `i64` the printed date is that of the naive calendar, all fields are in range, and date and time add up to the input. |
| DayNumbers.DayNumberOfNaive | crates/relay/src/auth/routes.rs:202-210 | Counting days by summing year and month lengths undoes the walk. |
| DayNumbers.DateOrder | crates/relay/src/auth/routes.rs:202-210 | Calendar order of dates is the order of their day counts. |
| Timestamps.RoundTrip | crates/relay/src/auth/routes.rs:200-217 | The text reads back to the same second if and only if the time lies in the years 0000 to 9999. |
| Timestamps.StringOrderIsTimeOrder | crates/relay/src/auth/routes.rs:200-217 | In those years the texts sort as strings exactly as the times do. |
| Chunk.Chunk | crates/relay/src/chunk.rs:11-32 | The loop ends and returns a split: pieces that concatenate to the text, none empty or too long, each but the last cut after the last newline of its window or else at the limit. |
| Chunk.SplitUnique | crates/relay/src/chunk.rs:4-10 | There is no other such split. |
| Chunk.NeighboursExceed | crates/relay/src/chunk.rs:20-29 | Two consecutive pieces together exceed the limit. |
| Chunk.PieceCount | crates/relay/src/chunk.rs:20-30 | n characters give at most 2 * (n / (max + 1)) + 1 pieces. |
| Chunk.DestinationParts | crates/relay/src/routes/agent_ws.rs:167-173 | The destination is channel and thread if and only if the chat id is channel, colon, thread, with no colon in the channel and neither part empty. |
| Chunk.PostReply | crates/relay/src/routes/agent_ws.rs:166-187 | Posts the first pieces in order to channel and thread of the chat id and stops at the first refusal; an invalid chat id or an empty text posts nothing. |
| Chunk.PostsArePrefix | crates/relay/src/routes/agent_ws.rs:177-186 | Under any failures the posts concatenate to a prefix of the reply, and to all of it exactly when every piece went out. |
| Verdict.ParseIffMatches | crates/relay/src/permission.rs:17-38 | The parser yields an id and a behaviour if and only if the text matches the expression for verdicts, written out in literals: white space, y or yes for Allow and n or no for Deny in either case, white space, the id's letters in either case, white space. |
| Verdict.QuotedAnswers | crates/relay/src/permission.rs:41-53 | The two answers that the prompt quotes are read as Allow and Deny of that id if and only if the id is five lower-case letters without l. |
| Verdict.PromptShows | crates/relay/src/permission.rs:41-53 | The prompt shows tool, description and input in this order, each escaped character by character, and quotes both answers with the id as it came. |
| Verdict.PromptBrackets | crates/relay/src/permission.rs:41-53 | The prompt is free of angle brackets if and only if the id, the one value put in unescaped, is. |
| Mrkdwn.EscapeIsOnePass | crates/relay/src/slack/api.rs:29-34 | The three replacements equal one pass, character by character. |
| Mrkdwn.EscapeConcat | crates/relay/src/slack/api.rs:29-34 | Escaping distributes over concatenation. |
| Mrkdwn.NoBrackets | crates/relay/src/slack/api.rs:29-34 | The result holds no angle bracket. |
| Mrkdwn.EscapeInjective | crates/relay/src/slack/api.rs:29-34 | A left-to-right entity decoder undoes it, so different values stay different. |
| PercentEncoding.PercentEncode | crates/relay/src/auth/oidc.rs:13-24 | The byte loop returns the concatenation of the encoded bytes. |
| PercentEncoding.EncodedWellFormed | crates/relay/src/auth/oidc.rs:13-24 | Only unreserved characters and %XX with upper-case digits occur (sections 2.1 and 2.3 of RFC 3986). |
| PercentEncoding.DecodeEncoded | crates/relay/src/auth/oidc.rs:13-24 | Percent-decoding recovers every byte string. |
| PercentEncoding.AuthorizeUrlParameters | crates/relay/src/auth/oidc.rs:27-35 | Splitting the query at & and = and decoding recovers exactly the six parameters, for all four values. |
| Agent.Loop.DrainWhile | crates/agent/src/ws.rs:53-69 | Takes and drops whatever MCP sends, and nothing else, until the awaited event comes; a closed MCP side ends the dropping, not the wait. |
| Agent.Loop.Serve | crates/agent/src/ws.rs:137-185 | A session follows the step function through all frames and messages and ends exactly where that function goes to sleep. |
| Agent.Loop.Run | crates/agent/src/ws.rs:84-190 | The nested loops do, on every script, exactly what the step function says. |
| AgentRuns.WaitClosedForm | crates/agent/src/ws.rs:92-188 | After k failures since the start or the last Welcome the next wait is min(initial * 2^k, max) if initial <= max; otherwise it is initial for k = 0 and max from then on. |
| AgentRuns.MessagesAreConserved | crates/agent/src/ws.rs:105-187 | The messages taken from MCP fall, in order, into alternating stretches: taken offline and all dropped, or taken on one connection that sent Hello and then exactly their texts, except perhaps a last one whose send failed and after which nothing was taken. |
| AgentLaws.FramesReachClaude | crates/agent/src/ws.rs:137-163 | The notifications offered to Claude are, in order and field by field, exactly those of the messages and verdicts that the script sends into a session. |
| AgentLaws.MessagesAreRead | crates/agent/src/ws.rs:53-69 | The messages taken are, in order, exactly those that MCP hands over outside the sending of Hello until it is heard to be closed. |
| AgentLaws.Lifecycle | crates/agent/src/ws.rs:94-189 | From any point of any run: a failed attempt, an error, a broken or ended stream, a failed send or a closed MCP leads to a sleep of the present wait; a connection opens, sends Hello and serves; a timer starts the next attempt; nothing else, unparsed and non-text frames included, moves the loop. |

## Left out

- HTTP, WebSocket and TLS transport, axum routing and the Slack and OpenID clients; their calls succeed or fail arbitrarily.
- HMAC, SHA-256, base64, hex and random bytes: the hash is an arbitrary function and tokens are arbitrary values, so a token counts as accepted when its hash is stored.
- JSON: a file is the store that it parses to, a frame is the message that it parses to, and an MCP message carries its text if it has one.
- `classify`, the field checks of `candidate_from_event` and `selected_session`, the decoding inside `parse_id_token` (its checks of the claims are in `Admin`), `mcp.rs`, `stdio.rs`, `commands.rs`, `config.rs`, `html.rs`, `dev.rs` with its injected events and `dev` token, both `main.rs` files, and log lines.
- The wording of offline notices, of root posts and of command responses; the posts are steps that succeed or fail.
- Liveness: a sender waits while a queue is full, so nothing is claimed about progress; neither are real durations.
- Stop of the machine: a crash is the end of the process, and file operations that were completed persist (the program does not sync the directory after the rename).
- `handle_message`, the login handlers and the socket task `run` as single method bodies: they are cut into steps on values, since other handlers run in between; aliasing of the shared state is not captured there.
- Chunk.Chunk: requires a positive limit for a non-empty text; with a limit of 0 the loop would not advance, and every caller passes 3900.
- Timestamps.StringOrderIsTimeOrder: only for the years 0000 to 9999, the range for which section 5.1 of RFC 3339 promises it.
- Sessions.Sessions.Begin: times are unbounded integers, so an overflow of `now + 600` near the end of the `i64` range is not modelled; the same holds for cookie expiries and for ages of requests.
- AgentRuns.WaitClosedForm: waits are unbounded, so an overflow of `wait * 2` for a `Duration` near its maximum is not modelled.
- Hub.Hub.Send: looks the name up and polls the send in one call; in `Relay` these are two steps, since the sender is cloned out of the table first.
- Hub.Run: connections that come and go meanwhile are the steps of `Relay`.
- Agent.Loop.Serve: the JSON envelope of a notification is left out, and whether standard output takes it is ignored by the code and not modelled.
- Permission.Tables.Unbind: for a channel that itself contains a colon only the prefix test is stated.
- Hub.Serve: what an agent's own frames make the relay do is left to `Permission.Tables.HandleRequest` and `Chunk.PostReply`.
- Permission.Tables.HandleRequest: runs without interference; interleaved requests are the steps of `Relay`.
