# Token supervisor: a verified model

The program is a console tool that keeps one worker process per stored
account token. It has two halves.

The supervisor (`app.js`):
- keeps the tokens in a newline-separated file;
- starts one worker per token and forgets a worker when its process exits;
- sends commands to the workers, either to every stored token or to one;
- asks every worker for its status and waits for a reply or a 3-second timeout.

The worker (`worker.js`):
- logs in with its token;
- answers each command envelope (`status`, `join`, `disconnect`,
  `sendMessage`, `sendDM`) with exactly one reply that carries the command's
  request id.

The model is a set of pure functions over immutable values:

| module | file | what it models |
|---|---|---|
| `Text` | `text.dfy` | ECMAScript `trim`, `split("\n")` and `join("\n")` |
| `Seqs` | `seqs.dfy` | `filter` and order-preserving subsequences (helpers) |
| `Protocol` | `protocol.dfy` | command and reply envelopes, thrown errors and `String(err)` |
| `TokenStore` | `token_store.dfy` | `loadTokens`, `saveTokens`, and the list edits of `addToken` and `removeToken` |
| `Registry` | `registry.dfy` | the `workers` map, `startWorker` and its exit handler, `addToken`, `removeToken`, the bulk loops, `tokenControl`, start-up |
| `Correlator` | `correlator.dfy` | `getWorkerStatus` as a probe, and the status table of `viewAllTokens` |
| `Supervisor` | `supervisor.dfy` | everything above as one event-driven state machine with an invariant |
| `Worker` | `worker.dfy` | the worker's state, `safeLogin`, and the `process.on("message")` dispatcher |

Outside interactions are values:
- The token file is an `Option<string>`; `None` means the file does not exist.
- Forking, killing and sending to a worker are returned as `Registry.Effect`s.
- Process exits, worker messages and timer expiries are events of `Supervisor.Step`.
- Request ids are inputs. In the source an id is `Date.now() + Math.random()`.
  Near 1.8e12 a double has a resolution of 2^-12, so the random part keeps only
  about 4096 distinct values per millisecond. Two ids drawn in the same
  millisecond collide with probability about 1/4096, and n ids with about
  n²/8192. `Correlator.NoCrossResolution` therefore assumes distinct ids, and
  `Correlator.QueryOnMessage` states what a reply does when ids repeat.
- Every call into the chat library that can fail is decided by a `Worker.Env`
  input: how the login ends, whether the voice join throws, and which fetch or
  send throws.

The `sendMessage` branch posts three texts: the message, then the message
followed by "1", then followed by "2" (`worker.js:122-125`). The model keeps
this behaviour as written, in `Worker.ChannelTexts`.

A status probe whose worker has been killed is never reclaimed. Both the
probe's reply listener (`app.js:398`) and its timer (`app.js:405-406`) look
the worker up again by token, and they throw when the entry is gone. The model
keeps these handlers as written, in `Correlator.OnMessageAsWritten` and
`Correlator.OnTimeoutAsWritten`, next to corrected versions; see Findings.

## Model

| member | source | states |
|---|---|---|
| Text.TrimStart | app.js:15 | the result is a suffix of the input; everything dropped is ECMAScript white space; the result does not start with white space |
| Text.TrimEnd | app.js:15 | the result is a prefix of the input; everything dropped is white space; the result does not end with white space |
| Text.TrimEmptyIffBlank | app.js:15 | `t.trim() === ""` holds exactly when every character of `t` is white space, the empty line included; this is the meaning of `Text.Trim`, which has no contract of its own |
| Text.Split | app.js:15 | `split` on one separator gives at least one piece, and no piece holds the separator |
| Text.JoinSplit | app.js:15 | joining the pieces of a split with the separator rebuilds the text |
| Text.SplitJoin | app.js:15-19 | splitting the join of a non-empty list of separator-free pieces gives back the same list; with `Text.JoinSplit` this is the meaning of `Text.Join`, which has no contract of its own |
| TokenStore.IsEntryIffTrimmed | app.js:15 | a line counts as an entry exactly when its `trim()` is not empty |
| TokenStore.Load | app.js:13-16 | no file gives no tokens; every loaded token is non-blank and has no newline |
| TokenStore.LoadKeepsEntryLines | app.js:13-16 | the loaded tokens are the file's non-blank lines: in file order, untrimmed, each as often as it occurs, and no blank line |
| TokenStore.LoadAfterSave | app.js:18-20 | `TokenStore.Save`, which has no contract of its own, is undone by loading: saving a list of non-blank, newline-free tokens and loading it back gives exactly that list |
| TokenStore.SaveKeepsLoaded | app.js:13-20 | re-saving what was loaded does not change what loads next |
| TokenStore.WithToken | app.js:124-127 | the token ends up in the list; an absent token is appended after the unchanged old list; a present token changes nothing; no-duplicates is preserved |
| TokenStore.WithoutToken | app.js:198 | the token no longer occurs; the rest is a subsequence of the old list, so it keeps its order |
| TokenStore.WithoutTokenCounts | app.js:198-199 | every other token keeps each of its occurrences |
| Registry.StartWorker | app.js:22-25 | a token with a handle is a no-op; otherwise one spawn with a handle no other token holds; other entries untouched; the registry invariant is kept |
| Registry.StartWorkerIdempotent | app.js:22-25 | starting the same token twice spawns at most once, and the second start changes nothing |
| Registry.OnExitAsWritten | app.js:33-36 | the exit handler as written removes the token's entry, whichever process it holds, and touches no other entry |
| Registry.OnExit | app.js:33-36 | the corrected exit of worker h removes the token's entry only while that entry is h; no other entry changes; the invariant is kept |
| Registry.AddToken | app.js:122-131 | a stored token changes nothing; an absent one is saved and gets a worker (spawned unless it already has one); the file becomes the old list plus the token; other entries untouched; the invariant is kept |
| Registry.AddTokenAppends | app.js:124-127 | for a non-blank, newline-free token that is absent, the stored list afterwards is the old list with the token appended; no-duplicates is preserved |
| Registry.RemoveToken | app.js:186-205 | an empty list does nothing; otherwise the stored list loses every occurrence of the token, its worker (if any) is killed, and its entry alone is deleted |
| Registry.BlankTokenIsNeverStored | app.js:122-131 | an added blank token gets a worker but never appears in the stored list |
| Registry.ReAddGivesFreshHandle | app.js:186-205 | removing and then re-adding a token gives it a handle newer than every earlier handle |
| Registry.StaleExitDropsSuccessor | app.js:33-36 | after remove and re-add, the killed worker's exit as written deletes the successor's entry; the corrected handler keeps it |
| Registry.FanOut | app.js:232-234 | one delivery per list element that has a handle, in list order, each to that element's handle |
| Registry.Broadcast | app.js:376-378 | bulk sends follow the stored list, one per occurrence of a token with a handle; a handle whose token is not stored receives nothing |
| Registry.JoinAllTokens | app.js:231-234 | a `join` for the given server and channel goes to every stored token that has a worker, in stored order |
| Registry.LeaveAllTokens | app.js:375-378 | a `disconnect` with an empty payload goes to every stored token that has a worker, in stored order |
| Registry.SendMessageToChannel | app.js:357-369 | a `sendMessage` goes to every stored token that has a worker, in stored order |
| Registry.SendMessageToUser | app.js:45-57 | a `sendDM` goes to every stored token that has a worker, in stored order |
| Registry.SendTo | app.js:174-179 | one command to the token's worker, and nothing when it has none |
| Registry.StartAll | app.js:412 | starting a list gives exactly one worker per distinct token, each spawned once, with distinct handles |
| Registry.Boot | app.js:412 | at start-up exactly the loaded tokens get workers, one spawn each |
| Correlator.Request | app.js:391-403 | without a handle the status resolves at once to offline and nothing is sent; otherwise one `status` command with the probe's id goes to the token's worker and the probe listens with its timer armed |
| Correlator.OnMessage | app.js:396-401 | a probe resolves exactly on the first reply from its worker carrying its id, with that reply's payload; any other message leaves it unchanged |
| Correlator.OnMessageAsWritten | app.js:396-401 | the listener as written throws a TypeError exactly when it matches a reply and the token has no entry any more; otherwise it acts as the corrected listener |
| Correlator.ReplyAfterExitCrashes | app.js:396-401 | when a worker exits after being asked and its reply is still delivered, the listener as written throws, while the corrected listener records the reply |
| Correlator.OnTimeoutAsWritten | app.js:405-408 | the timer as written throws a TypeError exactly when the token has no entry any more, even for an answered probe; otherwise it acts as the corrected timer |
| Correlator.OnTimeout | app.js:405-408 | expiry resolves an unresolved probe to offline, keeps a resolved probe's value, and detaches the listener |
| Correlator.ResolvesOnce | app.js:391-409 | once resolved, neither a message nor the timer changes a probe's value |
| Correlator.TimerAfterExitCrashes | app.js:405-407 | when a worker exits after being asked, its pending timer as written throws, answered or not; the corrected timer resolves normally |
| Correlator.TimerAfterRemoveCrashes | app.js:405-407 | removing a token while its answered probe's timer is pending makes the timer as written throw |
| Correlator.StartQuery | app.js:208-211 | one probe per stored entry, duplicates included, each a `getWorkerStatus` call with its own id; a `status` command for every entry with a worker, exactly as many commands as such entries, and no other sends |
| Correlator.QueryOnMessage | app.js:396-401 | a message changes exactly the probes it answers, keeping each probe's token, id and timer; with distinct ids it changes at most one probe |
| Correlator.QueryOnMessageAsWritten | app.js:396-401 | delivering a message to every listener as written throws exactly when some probe it answers has lost its token's entry; otherwise every probe gets the corrected listener's result |
| Correlator.QueryTimeout | app.js:405-408 | a timer changes only its own probe, which is resolved and has no timer afterwards; in a finished table it changes no row |
| Correlator.StartQueryFollows | app.js:211 | the i-th probe of a fresh query belongs to the i-th stored entry and carries the i-th id |
| Correlator.EventsKeepOrder | app.js:211 | messages and timers never move a probe away from its entry |
| Correlator.NoCrossResolution | app.js:395-397 | with distinct ids, one reply resolves at most one probe, even when two probes ask the same worker |
| Correlator.ExpireAll | app.js:405-408 | once every timer has fired, every well-formed probe has resolved, so the view completes |
| Correlator.StatusesFollowStoredOrder | app.js:211-214 | the finished table lists the stored tokens in stored order |
| Correlator.QueryOfRegistry | app.js:207-211 | a view probes every stored entry; a probe listens exactly when its token has a worker |
| Supervisor.Step | app.js:22-36 | operator actions and exits leave the probes alone; an exit is handled once for its process; a view leaves the registry alone and appends the probes of a fresh query after the old ones; messages and timer expiries touch only the probes and send nothing; only they can end the supervisor, only with the handlers as written, and only with the `.off` TypeError |
| Supervisor.InitialInv | app.js:412 | the start-up state meets the invariant and shows the menu |
| Supervisor.StepPreservesInv | app.js:22-36 | every enabled event keeps the invariant, with either build: issued, injective handles; every entry's process still running; earlier views finished; probes well formed, each asking an issued worker |
| Supervisor.RemoveBeforeTimerCrashes | app.js:186-205 | with one stored token: view, receive the reply, remove the token, let the timer fire; the supervisor as written ends with the TypeError, the corrected one keeps the reply |
| Supervisor.ViewEndsAfterTimers | app.js:211 | after a view starts, the table has one row per stored entry, and it completes once the timers of that view have fired |
| Worker.SafeLogin | worker.js:27-48 | without a token it only logs that the worker is idle; otherwise a new client is created, ready exactly when the login succeeds; a rejected login leaves a client with no user |
| Worker.Boot | worker.js:7-10 | an empty or missing argument leaves no token and no client; the worker is ready exactly when a token was given and the login succeeded |
| Worker.LoginIfNeeded | worker.js:75-77 | a ready client is left alone; otherwise the worker logs in; afterwards it is ready exactly when it was, or a token exists and the login succeeds; token and voice state are kept |
| Worker.FirstVoiceGuild | worker.js:61-69 | finds the first guild, in cache order, where the user's voice state has a channel; none only if no guild qualifies |
| Worker.StatusReport | worker.js:55-71 | `ready` holds exactly when a client with a user exists; when not ready, all fields are null and `inVoice` is false; `displayName` falls back to `username`; the voice fields come from the first guild with a voice channel, and `inVoice` holds exactly when one exists |
| Worker.FindGuild | worker.js:78 | `cache.get(id)` returns a cached guild with that id, or nothing when none has it |
| Worker.JoinVoice | worker.js:73-100 | no payload throws on the destructuring; a null client throws; an invalid or unjoinable target fails with "Invalid guild/channel"; a throwing join fails with its message; only success sets `currentVoice` to the payload's ids and adds a connection; nothing else changes the voice state |
| Worker.DisconnectVoice | worker.js:101-118 | the target is the payload's server id if truthy, else the current one; no target gives "Not connected"; no live connection gives "No connection found" with the state unchanged; otherwise the connection goes and `currentVoice` is reset |
| Worker.SendToChannel | worker.js:119-132 | succeeds exactly when the payload and client exist and none of the fetch and three sends throws; success posts the three texts in order; a failure replies with the error's message after the posts made before it |
| Worker.SendToUser | worker.js:133-144 | succeeds exactly when the payload and client exist and neither the fetch nor the send throws; success sends the one DM; a failure replies with the error's message |
| Worker.Execute | worker.js:54-148 | no branch emits a reply of its own or changes the worker's token |
| Worker.ConcludeReplies | worker.js:149-152 | the closing effects of `Worker.Conclude`, which has no contract of its own, hold exactly one reply, last, and a thrown error becomes `{success:false, error:String(err)}` |
| Protocol.Describe | worker.js:150-151 | `String(err)` starts with the error's name and ends with its message, joined by ": " when both are non-empty |
| Worker.Dispatch | worker.js:50-153 | a falsy message or a non-`cmd` type does nothing; a command gets exactly one reply, as its last effect, with its request id |
| Worker.StatusIsReadOnly | worker.js:55-71 | `status` replies with the report of the current state and changes nothing |
| Worker.UnknownCommandIsHarmless | worker.js:145-148 | an unknown command replies "Unknown command" and leaves the state as it was, so a later `status` reports the same |
| Worker.JoinWithoutCredentialFails | worker.js:27-31 | a worker started without a token answers `join` with the `String` of the null-client TypeError |

## Left out

- The console interface: menus, prompts, coloured and centred output, `listTokens`, `pause` and `exitApp`. The `searchToken` lookup only picks which token `Registry.SendTo` addresses. All of this is presentation.
- The file system, `child_process.fork`, `kill` and the IPC channel. The model returns spawns, kills and sends as effects.
- The 3-second delay. Its expiry is an event, and any order of replies, exits and expiries is allowed.
- The clock and randomness that produce request ids. Ids are inputs.
- Registry.JoinAllTokens, Registry.LeaveAllTokens, Registry.SendMessageToChannel and Registry.SendMessageToUser use one request id for every send of a loop. The source reads the clock once per send, and nothing ever correlates those ids.
- The invite-link join flow (`app.js:239-348`). It is network access plus interactive browser automation, with no logic of its own to verify.
- The chat and voice libraries' internals:
  - a login's outcome is an input;
  - the guild cache is a sequence in iteration order, and `get` returns the first match;
  - a channel's `joinable` is a field;
  - live voice connections are a set of guild ids.
- The worker's log and event lines, their text and colour, `sendEvent`, and the supervisor's printing of `event` messages (`app.js:27-31`). Only the kind of each log line is kept.
- `lastReady` and the `ready` and `error` client events. A successful login sets the user at once.
- Interleaving inside a worker. The handler is `async`, so two commands may interleave at their `await`s; the model runs each command to completion.
- The `workers` table is a plain JavaScript object (`app.js:11`), so a token equal to an inherited property name, such as "constructor", "toString" or "__proto__", behaves differently from the map of the model. `startWorker` finds a truthy inherited value and forks nothing. The bulk loops and `tokenControl` call `.send` on it and throw "is not a function". `getWorkerStatus` calls `.on` on it and throws, which rejects the status table of `viewAllTokens`. The model treats every token as an ordinary key.
- Supervisor.Step: the bulk commands are not events of the state machine, since they read the state without changing it.
- Correlator.StartQuery states which `status` commands are sent and how many, not their order. Sends to different workers have no order between them, and each reply is matched to its probe by request id, so the order of the sends changes nothing in the table.
- Registry.AddTokenAppends is stated for tokens without a newline. Interactive input is one line. A token containing a newline would come back from the file as several tokens.

## Findings

| source | as written | input that shows it | evidently intended | confidence | as-written member | corrected member |
|---|---|---|---|---|---|---|
| app.js:398-407 | the status timer always fires. It and the reply listener look the worker up again by token, and call `.off` on `undefined` when the entry is gone, which throws a TypeError in the supervisor | view the tokens, then remove one of them within 3 seconds, even after its reply has arrived; or a worker replies and then exits before the reply is handled | detach the listener from the worker that was asked, and cancel the timer when the reply arrives | medium, not executed | Correlator.OnTimeoutAsWritten, Correlator.OnMessageAsWritten, Correlator.TimerAfterRemoveCrashes, Correlator.ReplyAfterExitCrashes, Supervisor.RemoveBeforeTimerCrashes | Correlator.OnTimeout, Correlator.OnMessage |
| app.js:33-36 | the exit handler deletes `workers[token]`, whichever process the entry now holds | remove a token, then add it again before the killed worker's exit notice arrives; the new worker loses its entry and keeps running unaddressed | remove the entry only while it still holds the process that exited | low, not executed | Registry.OnExitAsWritten, Registry.StaleExitDropsSuccessor | Registry.OnExit |

`Supervisor.Step` takes a `Build`. `AsWritten` runs the exit handler, listener and timer as written. `Corrected` runs `Registry.OnExit`, `Correlator.OnMessage` and `Correlator.OnTimeout`, and it never faults.
