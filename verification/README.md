# Verified core of the meeting bot

The meeting bot joins LiveKit rooms, listens, answers by voice, draws flowcharts, keeps meeting
timers, and talks to a retrieval (RAG) server and to MCP tool servers. This project models the
parts of it whose correctness depends on long or arbitrary histories, and proves what they are
meant to guarantee. `dafny verify dfyconfig.toml` checks everything.

Each stateful part has the same shape. A `class` carries the program's own fields, and its
methods change them as the program does. A `datatype` holds the same state as a value, with one
function per handler, and each method is proved to take the value where its handler function
says. Runs are arbitrary sequences of events in which only enabled events occur (an armed timer,
a socket that exists). The theorems are about all runs, and are stated against a notion that
does not mention the handlers: walks in a graph, the whole character stream, a log of facts, the
full history of opinions, the runtime's own table of live timers, the multiset of audio frames.

| file | part of the bot | main theorems |
|---|---|---|
| `Flowchart.dfy` | column and lane of flowchart nodes | `Layout`, `DepthIsDistance`, `PlacementUnique`, `LaneExact`, `BranchRange` |
| `StdioLines.dfy`, `McpClient.dfy` | MCP client over stdio | `ChunkingIrrelevant`, `RunFramed`, `OutcomeIsRead`, `GenuineIffNoStray` |
| `RagQuestions.dfy` | pending questions and their timers | `OutcomeIff`, `OpenWhileArmedIff`, `LostForever`, `ExactIffNoBlankHit`, `SettledOnceIff` |
| `RagReconnect.dfy` | bounded reconnection | `AttemptsBounded`, `ReconnectsBounded`, `ThreePerSocket`, `ExactlyThreeIffOneSocket` |
| `RagStatements.dfy` | statement buffers and their flush | `BufferIsRecent`, `FlushStatementBuffer`, `FlushRebuilds` |
| `Hangul.dfy` | jamo decomposition and similarity | `RecomposeUndoes`, `DecomposeInjective`, `OnlyReadingIff`, `SimilarityPerfect` |
| `ResponseLock.dfy` | response lock and watchdog | `StartsCurrentIff`, `NoFiringStarts`, `OnlyHolderReleases`, `InFlightExactly`, `PlayersBounded` |
| `Playback.dfy` | drift-compensated playback | `NoDrift`, `CatchesUp`, `DriftFreeIff`, `Player.Play` |
| `VoiceActivity.dfy`, `Utterances.dfy` | utterance buffering | `RunSizes`, `DeliveredOnce`, `UtteranceContains`, `DeliversIff`, `SilenceDelivers` |
| `MeetingTimer.dfy` | meeting timers | `RunKeeps`, `TimeConserved`, `WarnsOncePerExtension`, `StartedAndLeftAlone`, `PausedStays` |
| `WfcEngine.dfy`, `Perplexity.dfy` | participant cells, rules and sessions | `CellsAlwaysOk`, `PropagationExact`, `FiringRate`, `SpeechProtects`, `ConfusionIsWorstStretch` |
| `OpinionLog.dfy` | opinion cooldown | `CooldownExact`, `ExactIffPlain`, `RepeatsSpaced` |

## Where the code falls short of what one would expect

These are theorems too. In each case the code is modelled as it is.

- A RAG answer to a question with sources clears the question's timer and deletes its entry before
  it reads the list of sources. If that is not an array, or holds a null, reading it throws and the
  question is never settled. Questions are open exactly while their timers are armed if and only if
  no such answer arrives (`RagQuestions.OpenWhileArmedIff`), and a question lost this way stays
  unsettled for good (`RagQuestions.LostForever`).
- A RAG answer whose text is missing or empty is matched against a pending question called
  "unknown", and then deletes the entry for its own text instead. The answered question stays in
  the table. The tables hold only open questions throughout a run if and only if no such answer
  meets such a question (`RagQuestions.ExactIffNoBlankHit`).
- Connecting while no socket is open yet makes another one, and giving up resets the counter that
  the close of the other socket then starts again. A room whose retries all fail comes to rest after
  exactly three of them if and only if it has one socket (`RagReconnect.ExactlyThreeIffOneSocket`);
  with m sockets the bound is 3m (`RagReconnect.ThreePerSocket`), and it is reached
  (`RagReconnect.BoundReached`).
- Opinion records are keyed by `room:evidence`. The cooldown answers correctly in every history
  if and only if neither id contains a colon (`OpinionLog.ExactIffPlain`).
- The watchdog frees a lock without stopping its holder, so requests can overlap. The number in
  flight is exactly the number of firings, plus one for a taken lock, less the exits of requests that
  had lost it (`ResponseLock.InFlightExactly`).
- The check before audio is followed by an awaited broadcast, so a request can start audio when it is
  no longer the current one: exactly when another took the lock since its check
  (`ResponseLock.StartsCurrentIff`). Then two requests can play at once (`ResponseLock.TwoPlayers`).
- The phrase that fills a long silence is a detached task. If the language model fails, its request
  exits and frees the lock while the phrase goes on, so two speeches can play, or one can start with no
  lock held, without the watchdog (`ResponseLock.AbandonedPlayer`, `ResponseLock.AbandonedStart`).
  Without a firing, what starts audio belongs to the holder of the lock if and only if its request has
  not ended (`ResponseLock.NoFiringStarts`).
- The MCP client takes any message with the id of an open call for its reply, also a request of the
  server's own, which MCP revision 2024-11-05 allows. Calls are settled by genuine replies only if and
  only if no such message arrives (`McpClient.GenuineIffNoStray`).
- Playback stays within a fixed lag, however long it goes on, if and only if timeouts fire at
  most 29 ms late (`Playback.DriftFreeIff`).
- A cell of the study session can lose all its candidates, exactly when an observation of medium
  confidence fits none of them (`WfcEngine.EmptiedIff`).
- Letter rows determine the word among words in which no letter stands outside a syllable
  (`Hangul.DecomposeInjective`). Among all words, a word is the only one with its row if and only if
  the row has no initial letter directly before a vowel letter (`Hangul.OnlyReadingIff`).
- A one-minute timer started by voice gets a one-minute warning and so never warns
  (`MeetingTimer.VoiceWarningFits`, `MeetingTimer.LeftAlone`).

## Assumptions

Handlers are atomic between awaits. Clocks give integer milliseconds; theorems that need a clock
that does not go back say so. Floating-point numbers are exact reals. Times, loudness, the state
suggested by a spoken line, the best matching evidence, lower-casing and the reading of a JSON line
are inputs. The message of an MCP error reply is a string, as section 5.1 of JSON-RPC 2.0 demands. A
RAG message that cannot be read, or whose answer is not text, is thrown out before it changes
anything and does not occur as an event. Observed states of the study session are among the six of
its type; the code does not check this, and unknown ones observed at low confidence would raise a cell's
entropy above 1.
Promises, sockets and timers are entries of tables in the state.

## Model

| member | source | states |
|---|---|---|
| `Flowchart.Layout` | src/livekit/voice-bot.service.ts:1314-1342 | For every edge list (cycles, parallel edges, unlisted ids) the loop ends; the ids given a depth are exactly the reachable ones, and each has the length and the lane of its least walk (shortest, then earliest edges). |
| `Flowchart.PushChildren` | src/livekit/voice-bot.service.ts:1331-1340 | Appends one entry per out-edge in list order, one deeper; a single edge inherits the lane, several get their offsets. |
| `Flowchart.FindStart` | src/livekit/voice-bot.service.ts:1297-1312 | The first node of type start, else the first node no edge points to, else none. |
| `Flowchart.PlaceNodes` | src/livekit/voice-bot.service.ts:1293-1352 | Every listed node keeps its id and position; reached nodes are placed by their least walk from the chosen start, all others by list position in lane 0. |
| `Flowchart.DepthIsDistance` | src/livekit/voice-bot.service.ts:1320-1341 | A placed node's depth is attained by a walk from the start and no walk is shorter. |
| `Flowchart.PlacementUnique` | src/livekit/voice-bot.service.ts:1320-1341 | The placement contract fixes depth and lane: no second pair satisfies it. |
| `Flowchart.LeastWalkUnique` | src/livekit/voice-bot.service.ts:1320-1341 | An id has at most one least walk, so "discovery path" is well defined. |
| `Flowchart.BranchMeaning` | src/livekit/voice-bot.service.ts:1331-1340 | The lane of a path is 0 when it has no fork, and otherwise the non-zero offset of the edge taken at its last fork. |
| `Flowchart.LaneExact` | src/livekit/voice-bot.service.ts:1331-1340 | Every placed id sits in lane 0 if its least walk passes no node that two or more edges leave; otherwise, with n edges of the last such node listed before the one taken, in lane -1 for n = 0, 1 for n = 1 and n - 1 beyond. |
| `Flowchart.RankCount` | src/livekit/voice-bot.service.ts:1329-1337 | The index of an edge, and whether its node is a fork, by counting the edges that leave the node. |
| `Flowchart.BranchRange` | src/livekit/voice-bot.service.ts:1331-1340 | Lanes lie between -1 and max(1, largest out-degree - 2). |
| `Flowchart.OutEdgesExact` | src/livekit/voice-bot.service.ts:1329-1329 | The filtered list holds exactly the edges leaving the node, each once, in list order. |
| `Flowchart.RankIsIndex` | src/livekit/voice-bot.service.ts:1336-1337 | The index used for the offset is the number of earlier edges out of the same node. |
| `Flowchart.VisitNew` | src/livekit/voice-bot.service.ts:1321-1340 | Visiting a new id keeps the queue in strictly ascending walk order above everything visited and accounts for every edge out of a visited node. |
| `Flowchart.SkipVisited` | src/livekit/voice-bot.service.ts:1321-1322 | Dropping an already visited entry at dequeue loses no walk. |
| `Flowchart.VisitDecreases` | src/livekit/voice-bot.service.ts:1320-1323 | Each visit shrinks the finite set of ids still unseen, which is why the loop ends. |
| `Flowchart.ClosedIsLeast` | src/livekit/voice-bot.service.ts:1320-1341 | Once the queue is empty, every walk from the start ends at a visited id whose recorded walk is at most it. |
| `StdioLines.JoinSplit` | src/mcp/client/mcp-client.service.ts:281-282 | Joining the pieces of a split gives the text back, and no piece contains a newline. |
| `StdioLines.SplitJoin` | src/mcp/client/mcp-client.service.ts:281-282 | Splitting joined newline-free pieces gives the pieces back. |
| `StdioLines.SplitAppend` | src/mcp/client/mcp-client.service.ts:278-282 | Appending text only affects the unfinished last piece. |
| `StdioLines.BlankIsTrimmed` | src/mcp/client/mcp-client.service.ts:285-285 | A line is skipped exactly when trimming white space at both ends leaves nothing of it. |
| `McpClient.ChunkingIrrelevant` | src/mcp/client/mcp-client.service.ts:274-294 | Receiving a stream in any chunks leaves the whole connection in the state that receiving it at once does. |
| `McpClient.ReceiveTwice` | src/mcp/client/mcp-client.service.ts:278-293 | Two chunks in a row act as their concatenation. |
| `McpClient.RunFramed` | src/mcp/client/mcp-client.service.ts:274-294 | In every run, however requests, timers and chunks interleave, the handled lines are the non-blank lines of the whole stream in order, the buffer is its unterminated tail, and the messages acted on are the readable ones among those lines. |
| `McpClient.RunKeeps` | src/mcp/client/mcp-client.service.ts:204-316 | In every run ids count the calls, exactly the open calls are pending, each under its own id, a fired timer means a settled call, and every outcome is the one the facts decide. |
| `McpClient.StepKeeps` | src/mcp/client/mcp-client.service.ts:204-316 | Each event keeps that invariant. |
| `McpClient.CallsSettleByOwnId` | src/mcp/client/mcp-client.service.ts:214-239 | Call k has id k+1, is open exactly while that id is pending, is settled once its timer has fired, and has an outcome exactly when the first message with its id, write error or timer for it after its sending says so. |
| `McpClient.OutcomeIsRead` | src/mcp/client/mcp-client.service.ts:299-316 | In every run a call is rejected with a text exactly when the first thing about its id after its sending is a message with that error, resolved with a result exactly when it is a message without an error and with that result, and failed or timed out exactly when it is its write error or timer. |
| `McpClient.StepLogs` | src/mcp/client/mcp-client.service.ts:204-294 | What each event adds to the facts: a sending while connected, the readable messages of the finished lines in order, a write error, a timer. |
| `McpClient.GenuineIffNoStray` | src/mcp/client/mcp-client.service.ts:299-316 | In every run calls are settled by genuine replies (or write errors or timers) only, if and only if no message that is not a reply arrived with the id of a call still open. |
| `McpClient.StepGenuine` | src/mcp/client/mcp-client.service.ts:274-316 | An event lets a call be settled by something other than a reply exactly when one of its lines is such a message when its turn comes. |
| `McpClient.PingSettlesCall` | src/mcp/client/mcp-client.service.ts:303-315 | A run in which the server's own request with id 1 settles call 1. |
| `McpClient.OutcomeStands` | src/mcp/client/mcp-client.service.ts:226-239 | A settled call keeps its outcome under any continuation of the run (duplicates, late timers, late write errors). |
| `McpClient.VerdictMeaning` | src/mcp/client/mcp-client.service.ts:299-316 | The verdict of a log about an id is o exactly when the first fact about the id after its sending is o. |
| `McpClient.McpConnection.SendRequest` | src/mcp/client/mcp-client.service.ts:204-223 | Without a connection nothing changes; otherwise the next id is taken and the call is pending under it. |
| `McpClient.McpConnection.OnWriteError` | src/mcp/client/mcp-client.service.ts:226-231 | Drops the id and rejects the call if it is still open. |
| `McpClient.McpConnection.OnTimeout` | src/mcp/client/mcp-client.service.ts:234-239 | Rejects only a call still pending, and removes it. |
| `McpClient.McpConnection.HandleResponse` | src/mcp/client/mcp-client.service.ts:299-316 | Looks at the id alone: unknown ids change nothing; a known id is removed and its call settled by the error or the result. |
| `McpClient.McpConnection.HandleLine` | src/mcp/client/mcp-client.service.ts:284-292 | Blank lines are skipped, unreadable ones have no effect, others are handled as responses. |
| `McpClient.McpConnection.HandleStdout` | src/mcp/client/mcp-client.service.ts:274-294 | Handles the finished lines of buffer plus chunk in order, keeps the unfinished one, and keeps the invariant. |
| `RagQuestions.RunKeeps` | src/rag/rag-client.service.ts:173-503 | In every interleaving (repeated texts, reconnects, stale timers) an armed timer belongs to an open question, every table entry names a question of that table and text that is settled or about to be, and entries with sources name open ones. |
| `RagQuestions.StepKeeps` | src/rag/rag-client.service.ts:173-503 | Each event keeps that invariant. |
| `RagQuestions.LostExactly` | src/rag/rag-client.service.ts:173-503 | In every run a question is armed exactly while it is open, unless an answer with unreadable sources hit it; then, and only then, it is neither settled nor armed. |
| `RagQuestions.OpenWhileArmedIff` | src/rag/rag-client.service.ts:178-192 | All questions of a run are open exactly while their own timers are armed if and only if no answer with unreadable sources hit a question with sources. |
| `RagQuestions.StepLoses` | src/rag/rag-client.service.ts:178-192 | A step loses exactly the question such an answer hits, and none that was lost comes back. |
| `RagQuestions.SettledInTime` | src/rag/rag-client.service.ts:407-413 | A question asked more than 30 s (plus how late timers fire) ago is settled if and only if no such answer hit it. |
| `RagQuestions.LostForever` | src/rag/rag-client.service.ts:178-192 | A question lost that way stays unsettled in every continuation of the run. |
| `RagQuestions.UnreadableSourcesLose` | src/rag/rag-client.service.ts:184-192 | A concrete run of three events that loses a question. |
| `RagQuestions.OutcomeStands` | src/rag/rag-client.service.ts:408-413 | Whatever follows, the first settlement of a question stays the first. |
| `RagQuestions.StepExactIff` | src/rag/rag-client.service.ts:165-201 | From tables holding only open questions, a step leaves them so exactly when it is not an answer without text that meets a pending question "unknown". |
| `RagQuestions.ExactIffNoBlankHit` | src/rag/rag-client.service.ts:165-201 | Throughout a run every entry is an unsettled question if and only if the run has no such answer. |
| `RagQuestions.SettledOnceIff` | src/rag/rag-client.service.ts:173-503 | In every run resolve or reject is called at most once per question if and only if no answer or disconnect meets the entry of a question already settled. |
| `RagQuestions.StepSettles` | src/rag/rag-client.service.ts:173-503 | A step settles a question at most once, and one already settled exactly in such a meeting. |
| `RagQuestions.OpenSettles` | src/rag/rag-client.service.ts:165-503 | From any good state an open question is answered exactly when a readable answer comes to its entry, timed out exactly when its own timer fires, rejected as disconnected exactly when a disconnect meets its plain entry, and settled by nothing else. |
| `RagQuestions.OutcomeIff` | src/rag/rag-client.service.ts:165-503 | In every run the first outcome of a question is of the kind of the first such event that came to it. |
| `RagQuestions.AskFiles` | src/rag/rag-client.service.ts:397-468 | An accepted question is new, open, armed and filed under its text in its table; a refused one leaves no trace. |
| `RagQuestions.FiledStays` | src/rag/rag-client.service.ts:173-503 | It stays filed until something comes for the same text or the room's connection changes. |
| `RagQuestions.FiledIsAnswered` | src/rag/rag-client.service.ts:178-201 | While it is filed, a readable answer with its text answers it and takes it off; a plain one gives way to one with sources. |
| `RagQuestions.ConnectionKnownIff` | src/rag/rag-client.service.ts:98-142 | A room has a connection exactly from an opening to the next disconnect or forgetting. |
| `RagQuestions.OpenUntilLost` | src/rag/rag-client.service.ts:473-476 | A connection takes questions until its socket is lost or its room disconnected. |
| `RagQuestions.DisconnectEndsAll` | src/rag/rag-client.service.ts:481-517 | After a disconnect the room is unknown, its plain table empty, and questions with sources are still in theirs. |
| `RagQuestions.SettledOnce` | src/rag/rag-client.service.ts:173-503 | In particular in every run without an answer without text that meets a question "unknown". |
| `RagQuestions.BlankHitBreaks` | src/rag/rag-client.service.ts:165-200 | Every such answer leaves a settled question in the table. |
| `RagQuestions.BlankAnswerLeavesEntry` | src/rag/rag-client.service.ts:165-200 | A concrete run of three events that does so. |
| `RagQuestions.PendingQuestions.OnOpen` | src/rag/rag-client.service.ts:98-109 | A new context with empty tables becomes the room's; older contexts stay as they are. |
| `RagQuestions.PendingQuestions.Ask` | src/rag/rag-client.service.ts:397-468 | Refused when not connected; otherwise the question enters the right table under its text, possibly displacing another, with an armed timer. |
| `RagQuestions.PendingQuestions.HandleAnswer` | src/rag/rag-client.service.ts:159-201 | The table with sources is tried first with the text itself: the timer is cleared and the entry deleted, and the question is answered only if the sources can be read. Then the plain table is tried with the text or "unknown"; the entry of the text itself is deleted. |
| `RagQuestions.PendingQuestions.OnTimeout` | src/rag/rag-client.service.ts:408-413 | Rejects the question and deletes its text from the table of its own context. |
| `RagQuestions.PendingQuestions.RejectAll` | src/rag/rag-client.service.ts:499-502 | Rejects each question of the plain table once and no other question. |
| `RagQuestions.PendingQuestions.Disconnect` | src/rag/rag-client.service.ts:492-517 | Rejects and empties the plain table, closes the socket and forgets the room; questions with sources are left to their timers. |
| `RagReconnect.RunKeeps` | src/rag/rag-client.service.ts:70-142 | From any good state, every armed reconnect timer is the recorded one of its room and the other way round, sockets stay with their rooms, and recorded counts are 1 to 3. |
| `RagReconnect.AttemptsBounded` | src/rag/rag-client.service.ts:241-272 | In every run of a new client the counter is at most 3 and a room has at most one reconnect timer. |
| `RagReconnect.LedgerBalances` | src/rag/rag-client.service.ts:132-272 | From any good state, while all retries of a room fail and nobody calls connect or disconnect for it: reconnects, the waiting timer and the counter balance at three to a give-up, every give-up has used up a socket, and the room comes to rest only by being given up. |
| `RagReconnect.LedgerCounts` | src/rag/rag-client.service.ts:132-272 | In such a run the room's events are bounded from both sides by its reconnects, sockets and give-ups. |
| `RagReconnect.ReconnectsBounded` | src/rag/rag-client.service.ts:241-272 | From any good state such a room sees at most three reconnects for each socket and waiting timer it has, less the attempts already counted (and one more for a waiting timer). |
| `RagReconnect.EndsGivenUp` | src/rag/rag-client.service.ts:241-272 | Such a room can go on until it is given up; then nothing about it is left, and there were exactly three reconnects to a give-up. |
| `RagReconnect.ThreeAttempts` | src/rag/rag-client.service.ts:241-272 | After a loss in a room with exactly one socket and no retry behind it, there are at most three automatic reconnects and seven events; the room is at rest exactly after the seventh, and then it was three reconnects and the room is forgotten. |
| `RagReconnect.ThreePerSocket` | src/rag/rag-client.service.ts:241-272 | With m sockets there are at most 3m reconnects and 7m events; at rest there were 3g reconnects for some 1 <= g <= m give-ups, and the room is forgotten. |
| `RagReconnect.BoundReached` | src/rag/rag-client.service.ts:241-272 | From every state of a room with m sockets and no retry behind it some failing run has exactly 3m reconnects. |
| `RagReconnect.ExactlyThreeIffOneSocket` | src/rag/rag-client.service.ts:241-272 | With no retry behind it and at least one socket, a room whose retries all fail always comes to rest after exactly three reconnects if and only if it has exactly one socket. |
| `RagReconnect.TwoConnects` | src/rag/rag-client.service.ts:70-88 | Two calls of connect before a socket opens give a room two sockets, and their loss leads to six reconnects in some run. |
| `RagReconnect.CloseSchedules` | src/rag/rag-client.service.ts:132-137 | An abnormal close takes one socket and arms the next retry, unless a timer waits already or, after the third, the room is given up. |
| `RagReconnect.TimerReconnects` | src/rag/rag-client.service.ts:264-269 | A firing timer is unrecorded and leaves the room with a socket: one new one unless the room is connected after all. |
| `RagReconnect.OtherRoomsUntouched` | src/rag/rag-client.service.ts:241-272 | An event of one room changes nothing of what decides another room's retries. |
| `RagReconnect.TriesCounted` | src/rag/rag-client.service.ts:241-272 | In every run of a new client the counter is the number of reconnects scheduled since the last opening, disconnect or giving up. |
| `RagReconnect.OpenResets` | src/rag/rag-client.service.ts:98-112 | An opened socket is the room's connection, ready for use, with no attempt counted. |
| `RagReconnect.ReopenedHasThree` | src/rag/rag-client.service.ts:98-112 | A room whose only socket has opened gets exactly three reconnects when it is lost, however many it had before. |
| `RagReconnect.DisconnectForgets` | src/rag/rag-client.service.ts:481-517 | A disconnect leaves no timer, counter or connection of the room. |
| `RagReconnect.DisconnectSilences` | src/rag/rag-client.service.ts:481-517 | From then on there is no automatic reconnect until a socket of the room is lost. |
| `RagReconnect.NormalCloseForgets` | src/rag/rag-client.service.ts:138-141 | A normal close forgets the room's connection and schedules nothing. |
| `RagReconnect.Connections.ConnectRoom` | src/rag/rag-client.service.ts:70-88 | Makes one new socket unless the room's socket is open. |
| `RagReconnect.Connections.HandleOpen` | src/rag/rag-client.service.ts:98-112 | The socket becomes the room's connection and the counter is forgotten. |
| `RagReconnect.Connections.Schedule` | src/rag/rag-client.service.ts:241-272 | Nothing while a timer waits; at the limit the room is forgotten; else the count goes up and one timer is armed and recorded. |
| `RagReconnect.Connections.HandleClose` | src/rag/rag-client.service.ts:132-142 | A close other than 1000 schedules; a normal one forgets the connection; the invariant is kept. |
| `RagReconnect.Connections.HandleTimer` | src/rag/rag-client.service.ts:264-269 | Unrecords the timer, then connects; the invariant is kept. |
| `RagReconnect.Connections.DisconnectRoom` | src/rag/rag-client.service.ts:481-517 | Disarms the timer, forgets the counter and, with a connection, drops it; the invariant is kept. |
| `RagStatements.BufferIsRecent` | src/rag/rag-client.service.ts:323-347 | After any recordings and emptyings a room's buffer is the last 100 (or fewer) statements recorded since it was last emptied. |
| `RagStatements.EmptiedForgets` | src/rag/rag-client.service.ts:519-524 | What was recorded in a room before it was emptied has no bearing on anything later. |
| `RagStatements.SinceSorted` | src/rag/rag-client.service.ts:337-344 | With a clock that does not go back these are in time order. |
| `RagStatements.RunCapped` | src/rag/rag-client.service.ts:331-344 | So every buffer has at most 100 statements, in time order. |
| `RagStatements.CutExists` | src/rag/rag-client.service.ts:362-368 | In a sorted buffer the age limit cuts at one position. |
| `RagStatements.ValidOnesAreSuffix` | src/rag/rag-client.service.ts:362-368 | What the age filter keeps is the suffix after that position. |
| `RagStatements.ResendSays` | src/rag/rag-client.service.ts:377-389 | Whatever other rooms do in the pauses, what is recorded while a list is sent says what the list says. |
| `RagStatements.FlushRebuilds` | src/rag/rag-client.service.ts:352-392 | If nothing of the room interleaves, a flush leaves a buffer whose speaker and text sequence is what it handed on. |
| `RagStatements.StatementBuffers.AddToStatementBuffer` | src/rag/rag-client.service.ts:323-347 | Appends to the room's buffer, dropping the oldest at 100: the buffers stay what the history leaves behind. |
| `RagStatements.StatementBuffers.SendStatement` | src/rag/rag-client.service.ts:279-302 | Always records; sends exactly when connected. |
| `RagStatements.StatementBuffers.YoungStatements` | src/rag/rag-client.service.ts:358-368 | Collects the statements at most 60 s old, in order. |
| `RagStatements.StatementBuffers.Resend` | src/rag/rag-client.service.ts:381-389 | Hands on the list in order, sends what is handed on while connected, and records each statement again, with any recordings and emptyings in the pauses. |
| `RagStatements.StatementBuffers.FlushStatementBuffer` | src/rag/rag-client.service.ts:352-392 | Hands on exactly the suffix of the buffer no older than 60 s, in order, whatever is recorded, emptied or disconnected in its pauses; what it does to the buffers is one emptying and one recording per statement. |
| `RagStatements.StatementBuffers.ClearBuffer` | src/rag/rag-client.service.ts:519-524 | The room has nothing recorded any more, no other room notices, and the buffers stay what the history leaves behind. |
| `Hangul.DecomposeHangul` | src/intent/intent-classifier.service.ts:367-385 | The loop computes the letter row that `RecomposeUndoes` shows to be readable. |
| `Hangul.ProgramTables` | src/intent/intent-classifier.service.ts:368-370 | The three tables have 19, 21 and 28 entries in ascending order, of consonants, of vowels, and of a blank and consonants; all other results about letters hold for any such tables. |
| `Hangul.PushLetters` | src/intent/intent-classifier.service.ts:374-382 | One character contributes itself, or its initial, vowel and non-empty final. |
| `Hangul.Digits` | src/intent/intent-classifier.service.ts:374-381 | The quotients and remainders stay inside the letter tables and determine the code. |
| `Hangul.ComposeUndoes` | src/intent/intent-classifier.service.ts:368-381 | Looking the letters up in the tables gives back the syllable. |
| `Hangul.ReadsLast` | src/intent/intent-classifier.service.ts:373-383 | A reader going from the right peels off exactly the last character's letters, whatever precedes them. |
| `Hangul.RecomposeUndoes` | src/intent/intent-classifier.service.ts:367-385 | For words with no bare letters the reader undoes decomposition. |
| `Hangul.DecomposeInjective` | src/intent/intent-classifier.service.ts:367-385 | Two such words have the same letter row exactly when they are equal. |
| `Hangul.SyllablesHaveNoBareLetters` | src/intent/intent-classifier.service.ts:374-378 | Words made of precomposed syllables are such words. |
| `Hangul.OnlyReadingIff` | src/intent/intent-classifier.service.ts:367-385 | Among all words, bare letters included, a word is the only one with its row if and only if the row has no initial letter directly before a vowel letter. |
| `Hangul.SyllablePrintsPair` | src/intent/intent-classifier.service.ts:379-380 | Every word with a syllable prints such a pair. |
| `Hangul.PairReadsTwice` | src/intent/intent-classifier.service.ts:374-382 | A row with such a pair is the row of two different words: itself, and the one with the syllable of the pair instead. |
| `Hangul.BareLettersCollide` | src/intent/intent-classifier.service.ts:375-378 | The smallest such collision. |
| `Hangul.JamoSimilarity` | src/intent/intent-classifier.service.ts:408-428 | For any lower-casing, computes the score of the following rows. |
| `Hangul.CountMatches` | src/intent/intent-classifier.service.ts:418-425 | The loop computes the tally of the common positions: 1 for equal letters, 0.6 for similar ones. |
| `Hangul.SimilaritySymmetric` | src/intent/intent-classifier.service.ts:403-428 | The score is symmetric, for all strings, although the table of similar letters is not. |
| `Hangul.MatchesBounded` | src/intent/intent-classifier.service.ts:418-425 | The tally of n positions lies in [0, n] and is n exactly when the rows agree there. |
| `Hangul.RowPerfect` | src/intent/intent-classifier.service.ts:412-427 | Any two rows score in [0, 1], and 1 exactly when equal and non-empty. |
| `Hangul.SimilarityPerfect` | src/intent/intent-classifier.service.ts:408-428 | For words whose lower-cased forms have no bare letters the score is in [0, 1], and is 1 exactly when these forms are equal and non-empty. |
| `Hangul.SyllablesPerfect` | src/intent/intent-classifier.service.ts:408-428 | For words of precomposed syllables, which lower-casing leaves alone, the score is 1 exactly for equal non-empty words. |
| `Hangul.ScoreCounts` | src/intent/intent-classifier.service.ts:403-428 | The score is the number of agreeing positions plus 0.6 times the number of differing ones where one letter lists the other as similar, over the longer row; 0 for lengths more than three apart and for two empty words. |
| `ResponseLock.RunKeeps` | src/livekit/voice-bot.service.ts:2591-2621 | In every run requests in flight have distinct ids, a taken lock has a running holder, every other request is over 60 s old, and what is being said has its request's id, which is nobody else's, and outlives its request only if it is the detached phrase. |
| `ResponseLock.BeginKeeps` | src/livekit/voice-bot.service.ts:2591-2621 | Starting, or being refused, keeps that invariant. |
| `ResponseLock.WatchKeeps` | src/livekit/voice-bot.service.ts:2339-2350 | So does the watchdog, whether it fires or not. |
| `ResponseLock.SpeakKeeps` | src/livekit/voice-bot.service.ts:3225-3234 | So does the beginning of a speech, awaited or detached. |
| `ResponseLock.CheckKeeps` | src/livekit/voice-bot.service.ts:3481-3484 | So does the check before audio, passed or not. |
| `ResponseLock.EndKeeps` | src/livekit/voice-bot.service.ts:3340-3345 | So does the exit of any request, stale or current, with or without a phrase going on. |
| `ResponseLock.OnePassesCheck` | src/livekit/voice-bot.service.ts:3481-3484 | At any moment at most one speech passes the check before audio, and it has the current id. |
| `ResponseLock.CurrentSinceCheck` | src/livekit/voice-bot.service.ts:3481-3492 | From a passed check on, a speech has the current id exactly as long as no request has taken the lock. |
| `ResponseLock.StartsCurrentIff` | src/livekit/voice-bot.service.ts:3481-3492 | A speech that starts audio, whether or not its request still runs, has passed its check, and has the current id if and only if no request took the lock since. |
| `ResponseLock.FailedCheckSilences` | src/livekit/voice-bot.service.ts:3481-3484 | A speech that fails its check is never heard. |
| `ResponseLock.WatchdogFires` | src/livekit/voice-bot.service.ts:2339-2350 | The watchdog frees the lock exactly when its holder took it more than 60 s ago, and stops no request and no speech. |
| `ResponseLock.StaleStart` | src/livekit/voice-bot.service.ts:3481-3492 | A run in which an old request starts audio while a new one holds the lock, because the broadcast between check and audio is awaited. |
| `ResponseLock.NoFiringStarts` | src/livekit/voice-bot.service.ts:3225-3345 | Without a watchdog firing, what starts audio belongs to the holder of the lock if and only if its request has not ended. |
| `ResponseLock.AloneWithoutFiring` | src/livekit/voice-bot.service.ts:2591-2621 | Without a watchdog firing, a request in flight holds the lock and is the only one. |
| `ResponseLock.AbandonedStart` | src/livekit/voice-bot.service.ts:3225-3237 | A run without a firing in which a phrase starts audio after its request has failed, with nobody holding the lock. |
| `ResponseLock.AbandonedPlayer` | src/livekit/voice-bot.service.ts:3225-3237 | A run without a firing in which such a phrase plays beside the speech of the next request. |
| `ResponseLock.PlayersBounded` | src/livekit/voice-bot.service.ts:3490-3492 | Speeches playing at a time are at most the taken lock, the firings not paid for by stale exits, and the abandoned phrases together; so at most one without a firing and without a request that failed while its phrase went on. |
| `ResponseLock.PlayersCount` | src/livekit/voice-bot.service.ts:3490-3492 | Each player belongs to a request in flight, one each, or has been abandoned. |
| `ResponseLock.AbandonedCounted` | src/livekit/voice-bot.service.ts:3236-3237 | Phrases without a request are at most as many as exits with a phrase going on. |
| `ResponseLock.TwoPlayers` | src/livekit/voice-bot.service.ts:3490-3492 | With one firing two requests can play at once. |
| `ResponseLock.OnlyHolderReleases` | src/livekit/voice-bot.service.ts:3340-3345 | A taken lock is freed by an exit exactly when the exiting request holds it. |
| `ResponseLock.NoOrphanLock` | src/livekit/voice-bot.service.ts:3340-3345 | With no request in flight the lock is free. |
| `ResponseLock.InFlightExactly` | src/livekit/voice-bot.service.ts:2339-2350 | Requests in flight plus exits of requests that no longer hold the lock are exactly the watchdog firings plus one for a taken lock. |
| `ResponseLock.OverlapIff` | src/livekit/voice-bot.service.ts:2339-2350 | Two or more requests are in flight exactly when the firings exceed the stale exits by at least one with a taken lock, by at least two with a free one. |
| `ResponseLock.WatchdogOverlap` | src/livekit/voice-bot.service.ts:2339-2350 | One firing can give two requests in flight. |
| `ResponseLock.RoomContext.TakeLock` | src/livekit/voice-bot.service.ts:2591-2621 | Takes the lock and stamps it with the time, exactly when free and not otherwise blocked; keeps the invariant. |
| `ResponseLock.RoomContext.CheckStuck` | src/livekit/voice-bot.service.ts:2339-2350 | Frees a lock held for more than 60 s and changes nothing else; keeps the invariant. |
| `ResponseLock.RoomContext.MayStartAudio` | src/livekit/voice-bot.service.ts:3481-3484 | For any speech, also one whose request has ended, the check with its exemption for id 0 amounts to having the current id; keeps the invariant. |
| `ResponseLock.RoomContext.Finish` | src/livekit/voice-bot.service.ts:3340-3345 | Releases exactly when the id is still current; keeps the invariant. |
| `ResponseLock.RoomContext.SpeechGoesOn` | src/livekit/voice-bot.service.ts:3473-3496 | Speeches begin, start audio and are over, or fail, without touching the lock; keeps the invariant. |
| `Playback.PrepareFrames` | src/livekit/voice-bot.service.ts:3355-3369 | Sample j of frame k is little-endian sample 480k+j of the recording, zero past its end, and the frames are the fewest that hold the bytes. |
| `Playback.SampleMeans` | src/livekit/voice-bot.service.ts:3363-3365 | A sample is the signed 16-bit number of its two bytes, low one first, and 0 past the end. |
| `Playback.LagStep` | src/livekit/voice-bot.service.ts:3396-3399 | The next lag is this one less 29 ms, or none, plus the lateness of the timeout. |
| `Playback.NeverEarly` | src/livekit/voice-bot.service.ts:3394-3403 | No frame goes out before its due time. |
| `Playback.NoDrift` | src/livekit/voice-bot.service.ts:3371-3407 | With timeouts 0 to d ms late and d at most 29, frame k is sent between 30k and 30k+d ms, for every k. |
| `Playback.CatchesUp` | src/livekit/voice-bot.service.ts:3371-3407 | After a stall of any length the lag falls by at least 29-d ms per frame until it is within d. |
| `Playback.StallEnds` | src/livekit/voice-bot.service.ts:3371-3407 | So for d at most 28 a stall of n ms is over within n frames. |
| `Playback.ThirtyDrifts` | src/livekit/voice-bot.service.ts:3396-3399 | Timeouts always 30 ms late fall one more millisecond behind per frame. |
| `Playback.DriftFreeIff` | src/livekit/voice-bot.service.ts:3371-3407 | The lag is bounded over all playbacks with lateness at most d if and only if d is at most 29. |
| `Playback.Player.SendFrame` | src/livekit/voice-bot.service.ts:3376-3403 | Sends the next frame in order unless interrupted or done, and gives the wait for the next. |
| `Playback.Player.Play` | src/livekit/voice-bot.service.ts:3371-3407 | The chain of timeouts sends all frames, or those before a barge-in, in order, each at the time the drift theorems speak of. |
| `VoiceActivity.RunSizes` | src/livekit/voice-bot.service.ts:2379-2450 | For every track the pre-buffer holds at most 15 frames, at most 192000 bytes stay buffered, and each utterance has more than 16000 and at most 192000 plus 16 largest frames of bytes. |
| `VoiceActivity.GrowthBound` | src/livekit/voice-bot.service.ts:2380-2422 | One frame adds at most the pre-buffer and itself. |
| `VoiceActivity.RunPresent` | src/livekit/voice-bot.service.ts:2379-2450 | No frame is in two places or twice in one, and every voiced frame is kept. |
| `VoiceActivity.StepPresent` | src/livekit/voice-bot.service.ts:2379-2450 | A step adds at most its own frame, gives up no frame already in an utterance or the audio buffer, and keeps a voiced one. |
| `VoiceActivity.DeliveredOnce` | src/livekit/voice-bot.service.ts:2424-2450 | No frame occurs in two extracted utterances or twice in one. |
| `VoiceActivity.VoiceNotLost` | src/livekit/voice-bot.service.ts:2380-2398 | Every voiced frame is in an utterance or still buffered for one. |
| `Utterances.UtteranceContains` | src/livekit/voice-bot.service.ts:2379-2450 | An utterance consists of exactly these frames since the last delivery: the voiced ones, the weak ones after recording started, and the last fifteen unvoiced ones before; recording starts at the first voiced frame with another one before it and no silence between. |
| `Utterances.DeliversIff` | src/livekit/voice-bot.service.ts:2424-2430 | A frame completes an utterance exactly when more than 192000 bytes are gathered with it, or more than 16000 and more than 50 weak or silent frames have come since the last strong voice or delivery. |
| `Utterances.SilenceDelivers` | src/livekit/voice-bot.service.ts:2425-2450 | With more than 16000 bytes buffered, any frames without strong voice of which 51 are weak or silent deliver an utterance that begins with what was buffered. |
| `Utterances.ShortNeedsQuiet` | src/livekit/voice-bot.service.ts:2426-2428 | An utterance of at most 192000 bytes is delivered only after more than 50 such frames. |
| `Utterances.TrackTells` | src/livekit/voice-bot.service.ts:2379-2450 | For every track the handler's flags, buffer and pre-buffer are what the frames since the last delivery say. |
| `Utterances.QuietCounted` | src/livekit/voice-bot.service.ts:2385-2450 | The silence counter counts the weak and silent frames since the last strong voice or delivery. |
| `VoiceActivity.TrackHandler.TotalLength` | src/livekit/voice-bot.service.ts:2425-2425 | The fold is the number of buffered bytes. |
| `VoiceActivity.TrackHandler.Remember` | src/livekit/voice-bot.service.ts:2405-2408 | Keeps the latest 15 frames. |
| `VoiceActivity.TrackHandler.Buffer` | src/livekit/voice-bot.service.ts:2380-2422 | Voice, weak and silent frames go where the handler function says, with the counters. |
| `VoiceActivity.TrackHandler.Extract` | src/livekit/voice-bot.service.ts:2424-2450 | Hands out the buffer exactly when the utterance is complete, and then resets everything. |
| `VoiceActivity.TrackHandler.HandleFrame` | src/livekit/voice-bot.service.ts:2379-2450 | One step of the run, returning the utterance it completes. |
| `MeetingTimer.RunKeeps` | src/mcp/tools/timer.tool.ts:46-231 | In every run each uncleared interval is the one recorded for its room, and a room has one exactly while its timer is running or warning. |
| `MeetingTimer.StepKeeps` | src/mcp/tools/timer.tool.ts:46-231 | Each command and tick keeps that. |
| `MeetingTimer.TimeConserved` | src/mcp/tools/timer.tool.ts:46-213 | With non-negative minutes, target times 60 is always the remaining seconds plus the seconds counted since the start, and the remainder is not negative. |
| `MeetingTimer.StepConserves` | src/mcp/tools/timer.tool.ts:64-203 | Each event other than a start conserves time. |
| `MeetingTimer.WarnsOncePerExtension` | src/mcp/tools/timer.tool.ts:74-79 | Two warnings of one timer, in any run and for any minutes, have an extension between them. |
| `MeetingTimer.LeftAlone` | src/mcp/tools/timer.tool.ts:64-90 | After n ticks a timer has warned once iff warning < target and n reached (target-warning)*60, and ended once iff n reached target*60. |
| `MeetingTimer.TicksOnly` | src/mcp/tools/timer.tool.ts:46-95 | In any run, a started room given no command is changed by its own ticks only. |
| `MeetingTimer.StartedAndLeftAlone` | src/mcp/tools/timer.tool.ts:46-95 | So in any run, whatever other rooms do, its state and notifications are those of the closed form. |
| `MeetingTimer.PausedStays` | src/mcp/tools/timer.tool.ts:100-109 | In any run, from a pause of a known room to its next resume, extension, start or stop the timer is paused with the time it had, no interval counts it, and it announces nothing, whatever other rooms do. |
| `MeetingTimer.ResumedCountsOn` | src/mcp/tools/timer.tool.ts:114-152 | A timer resumed with time left counts on from there and ends when that time has been counted. |
| `MeetingTimer.LeftToTicks` | src/mcp/tools/timer.tool.ts:46-203 | From any event on, a room given no command is changed by its own ticks only. |
| `MeetingTimer.CountsDown` | src/mcp/tools/timer.tool.ts:64-90 | A counting timer after n seconds in closed form, from whatever time it has left. |
| `MeetingTimer.StartShows` | src/mcp/tools/timer.tool.ts:46-95 | A started timer runs with all its time before it, and an interval counts it. |
| `MeetingTimer.PauseShows` | src/mcp/tools/timer.tool.ts:100-109 | A paused timer keeps its time, and no interval counts it. |
| `MeetingTimer.ResumeShows` | src/mcp/tools/timer.tool.ts:114-152 | A paused timer that is resumed runs with the time it had, counted; any other is left as it is. |
| `MeetingTimer.ExtendShows` | src/mcp/tools/timer.tool.ts:157-203 | An extended timer has the minutes more; a warning or ended one runs again, counted, and a paused one stays paused. |
| `MeetingTimer.StopShows` | src/mcp/tools/timer.tool.ts:208-213 | A stopped timer and its interval are gone; without a timer the other commands change nothing. |
| `MeetingTimer.VoiceWarningFits` | src/livekit/voice-bot.service.ts:2955-2957 | The voice default warning is positive and shorter than the target exactly for targets of at least two minutes. |
| `MeetingTimer.TimerTool.StopTimerInterval` | src/mcp/tools/timer.tool.ts:225-231 | Clears and forgets the room's interval, if any. |
| `MeetingTimer.TimerTool.StartInterval` | src/mcp/tools/timer.tool.ts:64-92 | Creates an interval and records it. |
| `MeetingTimer.TimerTool.StartTimer` | src/mcp/tools/timer.tool.ts:46-95 | Replaces timer and interval; keeps the invariant. |
| `MeetingTimer.TimerTool.PauseTimer` | src/mcp/tools/timer.tool.ts:100-109 | Pauses a known timer and clears its interval; keeps the invariant. |
| `MeetingTimer.TimerTool.ResumeTimer` | src/mcp/tools/timer.tool.ts:114-152 | Succeeds exactly for a paused timer, which gets a new interval; keeps the invariant. |
| `MeetingTimer.TimerTool.ExtendTimer` | src/mcp/tools/timer.tool.ts:157-203 | Adds the minutes to both fields, restarts a warning or ended timer, and creates an interval only where there is none; keeps the invariant. |
| `MeetingTimer.TimerTool.StopTimer` | src/mcp/tools/timer.tool.ts:208-213 | Forgets timer and interval and returns the timer; keeps the invariant. |
| `MeetingTimer.TimerTool.CountDown` | src/mcp/tools/timer.tool.ts:72-87 | One second off: the new timer, whether it has ended, and the notifications, warning before end. |
| `MeetingTimer.TimerTool.OnTick` | src/mcp/tools/timer.tool.ts:64-90 | Counts, warns and ends as the closure does; keeps the invariant. |
| `WfcEngine.CollapseState` | src/perplexity/wfc-engine.service.ts:186-230 | Computes the updated cell of the following rows. |
| `WfcEngine.CollapseKeepsCell` | src/perplexity/wfc-engine.service.ts:186-230 | At any confidence, candidates stay duplicate-free and entropy stays candidates/6, or 0 with the one candidate observed. |
| `WfcEngine.CollapseMeans` | src/perplexity/wfc-engine.service.ts:186-230 | What an observation leaves: at high confidence the observed state alone; at medium the candidates equal to it or compatible, observed if only one is left; at low the candidates and it; with the entropy of each. |
| `WfcEngine.CompatibilityShape` | src/perplexity/wfc-engine.service.ts:235-246 | Which states are neighbours both ways, the three one-way pairs, and that no state is its own neighbour or leads to disengagement. |
| `WfcEngine.ConfusionIsWorstStretch` | src/perplexity/wfc-engine.service.ts:219-224 | After any observations the confusion count is the largest balance of confused over reassuring ones in any final stretch, the initial count included. |
| `WfcEngine.CollapseCounts` | src/perplexity/wfc-engine.service.ts:219-224 | Every observation counts, whatever its confidence. |
| `WfcEngine.NarrowedIsFilter` | src/perplexity/wfc-engine.service.ts:200-203 | Medium confidence keeps exactly the candidates equal to or compatible with the observation. |
| `WfcEngine.EmptiedIff` | src/perplexity/wfc-engine.service.ts:200-209 | A cell is emptied exactly by a medium-confidence observation no candidate fits. |
| `WfcEngine.CellEntropyRange` | src/perplexity/wfc-engine.service.ts:393-407 | A good cell's entropy is in [0, 1]. |
| `WfcEngine.CalculateSessionEntropy` | src/perplexity/wfc-engine.service.ts:158-168 | The loop computes the mean entropy, 0 for nobody. |
| `WfcEngine.SessionEntropyRange` | src/perplexity/wfc-engine.service.ts:158-168 | The mean over good cells is in [0, 1]. |
| `WfcEngine.SortSorts` | src/perplexity/wfc-engine.service.ts:266-269 | The sorted rules are a permutation in descending priority. |
| `WfcEngine.FirstEligibleIsBest` | src/perplexity/wfc-engine.service.ts:271-296 | The first eligible rule of a descending list has the highest priority among the eligible. |
| `WfcEngine.ChoiceIsChoice` | src/perplexity/wfc-engine.service.ts:255-303 | The loop's choice is the eligible rule above all other eligible ones, and none only if none is eligible. |
| `WfcEngine.ChoiceUnique` | src/perplexity/wfc-engine.service.ts:255-303 | There is only one such choice. |
| `WfcEngine.RulesMean` | src/perplexity/wfc-engine.service.ts:22-140 | When each of the six rules applies, counted in participants: 40 percent confused, one confused three times, a teacher and a learner, entropy above 0.7, somebody disengaged for 30 s, everybody understanding. |
| `WfcEngine.RestTimes` | src/perplexity/wfc-engine.service.ts:40-139 | How many seconds each rule rests after it has fired. |
| `WfcEngine.PriorityOrder` | src/perplexity/wfc-engine.service.ts:40-139 | The order of the rules. |
| `WfcEngine.LevelAddsNothing` | src/perplexity/wfc-engine.service.ts:173-177 | The levels begin at 0.33 and 0.66, and with a fresh entropy the summary rule only asks for more than 0.7. |
| `WfcEngine.Engine.Propagate` | src/perplexity/wfc-engine.service.ts:255-303 | Fires at most one rule, that one, and starts exactly its cooldown. |
| `Perplexity.CellsAlwaysOk` | src/perplexity/perplexity.service.ts:41-236 | After any messages in any rooms every cell is good, session entropies are in [0, 1] and at most 50 transcripts are kept. |
| `Perplexity.FiringsSpaced` | src/perplexity/wfc-engine.service.ts:271-295 | Over all rooms, two firings of a rule are at least its cooldown apart. |
| `Perplexity.FiringRate` | src/perplexity/wfc-engine.service.ts:271-295 | Over all rooms, a rule fires at most W/cooldown + 1 times in any window of W ms. |
| `Perplexity.HourlyRate` | src/perplexity/wfc-engine.service.ts:40-139 | How often each rule can fire in an hour, over all rooms. |
| `Perplexity.PropagationExact` | src/perplexity/perplexity.service.ts:277-299 | A message that asks for it, at least 500 ms after the last propagation of its session, fires exactly the rule that is due; an earlier one, or one that does not ask, fires nothing. |
| `Perplexity.UpdateReachesCell` | src/perplexity/perplexity.service.ts:128-148 | A state update collapses the participant's cell and no other. |
| `Perplexity.ReportReachesCell` | src/perplexity/perplexity.service.ts:161-182 | A report makes all its observations of a cell in order, at 0.7 where no confidence is given, unless speech protects the cell. |
| `Perplexity.EntropyFresh` | src/perplexity/perplexity.service.ts:189-194 | Reports and telling lines bring the session entropy and its level up to date; nothing else changes them. |
| `Perplexity.LinesAreRecent` | src/perplexity/perplexity.service.ts:206-216 | In every run a session remembers the last fifty lines spoken in it, in order. |
| `Perplexity.PresentIff` | src/perplexity/perplexity.service.ts:99-119 | In every run exactly the participants who joined the session and have not left since have a cell, one each. |
| `Perplexity.OtherSessionsUntouched` | src/perplexity/perplexity.service.ts:128-236 | A message of one room changes no other session. |
| `Perplexity.WindowFills` | src/perplexity/wfc-engine.service.ts:272-275 | The last of n firings in a window comes at least n-1 cooldowns after its beginning. |
| `Perplexity.ActionsPaced` | src/perplexity/perplexity.service.ts:277-299 | A session's history entries are at least 500 ms apart. |
| `Perplexity.ReportSparesProtected` | src/perplexity/perplexity.service.ts:157-182 | No report, however long, changes a cell read from speech in the last 5 s. |
| `Perplexity.SpeechShows` | src/perplexity/perplexity.service.ts:220-229 | A spoken line that suggests a state makes the speaker's cell show it with certainty. |
| `Perplexity.SpeechProtects` | src/perplexity/perplexity.service.ts:157-236 | For five seconds it goes on to show that state, through every report of every room, joinings, leavings and whatever other participants do or say. |
| `Perplexity.PerplexityService.TryPropagate` | src/perplexity/perplexity.service.ts:277-299 | At most one propagation per 500 ms; records the action and returns the rule that fired. |
| `Perplexity.PerplexityService.HandleStateUpdate` | src/perplexity/perplexity.service.ts:128-148 | Unknown rooms and participants change nothing; otherwise collapse, then propagate. |
| `Perplexity.PerplexityService.ApplyReport` | src/perplexity/perplexity.service.ts:161-182 | The batch loop applies the updates in order, skipping protected cells, with default confidence 0.7. |
| `Perplexity.PerplexityService.HandleEntropyReport` | src/perplexity/perplexity.service.ts:153-194 | Batch, new session entropy, then propagation. |
| `Perplexity.PerplexityService.UpdateSessionEntropy` | src/perplexity/wfc-engine.service.ts:412-415 | Entropy and its level are refreshed together. |
| `Perplexity.PerplexityService.AddTranscript` | src/perplexity/perplexity.service.ts:199-236 | Keeps the last 50 lines; an inferred state collapses the speaker's cell and stamps it. |
| `Perplexity.PerplexityService.HandleTranscript` | src/perplexity/perplexity.service.ts:443-462 | Adds the line; if it suggests a state, refreshes the session entropy and propagates. |
| `OpinionLog.CooldownExact` | src/agent/evidence/opinion.service.ts:230-289 | For ids without a colon the pruned map answers exactly as the full history since the room's last clear. |
| `OpinionLog.ExactIffPlain` | src/agent/evidence/opinion.service.ts:230-289 | It does so in every history if and only if neither id has a colon. |
| `OpinionLog.ColonInRoom` | src/agent/evidence/opinion.service.ts:278-282 | For a room with a colon, clearing its prefix forgets its opinions. |
| `OpinionLog.ColonInEvidence` | src/agent/evidence/opinion.service.ts:230-232 | For evidence with a colon, another room's opinion is mistaken for it. |
| `OpinionLog.MapFollowsHistory` | src/agent/evidence/opinion.service.ts:243-289 | A kept record is the last sharing; a missing one is over ten minutes old or never was. |
| `OpinionLog.RecordsAreYoung` | src/agent/evidence/opinion.service.ts:243-270 | When an opinion has just been shared it is recorded, and no record is older than ten minutes. |
| `OpinionLog.LastSharedIsLatest` | src/agent/evidence/opinion.service.ts:230-289 | The last sharing is the latest one not cleared since. |
| `OpinionLog.RepeatsSpaced` | src/agent/evidence/opinion.service.ts:87-100 | Two opinions with the same room and evidence and no clear between them are at least five minutes apart. |
| `OpinionLog.OpinionService.IsOnCooldown` | src/agent/evidence/opinion.service.ts:230-238 | Says whether the record is younger than five minutes; for ids without a colon, whether the evidence was shared in the room in the last five minutes and not cleared since. |
| `OpinionLog.OpinionService.RegisterOpinion` | src/agent/evidence/opinion.service.ts:243-252 | Records the opinion and prunes. |
| `OpinionLog.OpinionService.CleanupOldRecords` | src/agent/evidence/opinion.service.ts:257-270 | Deletes exactly the records over ten minutes old. |
| `OpinionLog.OpinionService.ClearRoomHistory` | src/agent/evidence/opinion.service.ts:275-289 | Deletes exactly the keys with the room's prefix and keeps the map true to the history. |
| `OpinionLog.OpinionService.DeleteAll` | src/agent/evidence/opinion.service.ts:267-269 | Deletes exactly the given keys. |
| `OpinionLog.OpinionService.AnalyzeAndRespond` | src/agent/evidence/opinion.service.ts:36-110 | Speaks exactly past every check, then remembers it; silence changes nothing; every opinion in the history passed the gate. |

## Left out

- Calls to language models, speech recognition and synthesis, LiveKit, S3, calendars and HTTP, and the Nest modules around them: their results are inputs.
- Text handling by regular expressions (wake words, intent patterns, speech corrections, the inference of a state from a spoken line), JSON reading and the details of lower-casing.
- The other users of `isPublishing` and `currentRequestId` (study-session speech, vision, diagram explanation, timer announcements), which set them without an ownership check: the lock theorems are about the owner-checked path and the watchdog.
- The order of audio inside an utterance (the first voiced frame precedes the pre-buffer), loudness and calibration arithmetic, the loudness gate and the per-user limit applied to an extracted utterance.
- Statement retries with back-off when a send throws, mock statements injected past the size cap, the start and end times a statement carries, and exactly-once delivery to the RAG server, which the flush does not promise.
- `RagStatements.StatementBuffers.SendStatement`: a send that throws, and the retry it leads to, are not modelled.
- `RagQuestions.PendingQuestions.Ask`: a send that throws is not modelled; the socket has just been found open, and sending on an open socket does not throw.
- `McpClient.McpConnection.HandleResponse`: an error message that cannot be turned into a string, which would leave its call unsettled, is excluded by the assumption above.
- Report requests of the RAG client and the ten-second connection timeout, which appears only as the abnormal close it causes.
- Output of an old MCP server process after its name has been connected again, and characters whose UTF-8 bytes are split between chunks.
- `startedAt`, `endTime` and fractional minutes of meeting timers.
- The payloads of study-session actions, the participants they affect and the entropy change reported with them.
- Depth of flowchart nodes the search does not reach carries no graph meaning; the model only says that it is the list position.
- Cells, contexts and promises are values in sequences and maps, so sharing of one array or object between two holders is not captured.
- The diagram cache, study quizzes, search cache, insight filter, transcription chunking, diagram printers, maps and recordings would only add easy members.
