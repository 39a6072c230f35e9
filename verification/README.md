# A verified model of the agentic loop

This project models the parts of the agentic-loop library where a mistake would be silent, and proves what they promise.
It verifies with Dafny 4.11: `dafny verify dfyconfig.toml`.

**The conversation and the run over it.** A conversation is a tree whose nodes only ever join; a request is one path of
it, cut at the newest compaction and read back as flat messages. `Tree`, `Convert`, `NormalForm`, `StreamString` and
`Messages` model the data and its conversions; `Reading` says what each kind of node reads as. `Session` is the object
every change goes through; what each of its methods does is stated as a function of a value, the `Ledger`, and what a
change keeps is proved about that value.
`Protocol` says when a path may be sent: every call answered once, before the next compaction; `Prompt` says what that
means for the flat messages of a request. `RunRecord`, `RunTurn`, `RunStep` and `RunLoop` model a session's turn as the
class `Run`. What the others answer (provider, tools, hooks, host, inbox, watch, summarizer) is a parameter, the `World`;
what may fail, and when other goroutines queue messages, is arbitrary. A run keeps a log of what passed between it and
the others, and its one theorem, on `RunOn`, ties the log to the session on every exit. `RunAnswer` reads the answer of a
run off its log, `RunHead` says what a request begins with after a compaction, `RunPhase` what comes before each turn's
call, and `RunPath` accounts for every node that joins. `RunPass` counts the calls that the loop's branches allow, and
`RunCap` has whole runs that make more than their cap. `Dispatch` is the concurrent part of a batch as a small-step
machine, and `RunDispatch` says that its results are what a run records, each on its own call; `AutoCompact`,
`MessageQueue`, `SessionApi`, `Dedup`, `Fingerprint` and `StateCheck` are the parts around it.

**Documents without framing.** `XmlWrite` writes through an escaper (`Escape`, on `Utf8`), `DocRead` finds where a
document ends from its bytes alone, and the two are proved to agree. `DocGrammar` is documents as others may write them,
with comments, sections and either quote, each read as one. `XmlStream` is the response writer on top, and `XmlTree` the
tree that its bytes print.

**Other machines.** `ArgScan` reads members of a JSON object as they stream, against the grammar of section 4 of RFC
8259; `ArgLax` is the language it takes, exactly. `Anthropic` assembles a streamed response and compares it with the
whole one. `WebSocket` is frames and masking (section 5 of RFC 6455), on any stream of bytes. `Registry` is
longest-prefix mount routing.

Nothing here was executed; the proofs are about the model.

## Where the code does not do what is said of it

Where a law fails, one lemma has an input that shows it and another says exactly when it holds. The last three entries
are no laws: they say what the code does where its documentation is silent or says otherwise.

- Finishing a finished stream field with another value drops the old one (`FinishTwiceLoses`, `KeepsExactlyWhenGentle`).
- Normalizing a transcript is not idempotent on an assistant turn whose only parts are empty texts and images: it keeps a
  node, and then reads back as a turn without one (`HollowVanishes`, `NormalForm.NormalAgain`).
- An Anthropic stream and the whole response differ on an empty text block and on an empty opaque payload
  (`EmptyBlocksDiffer`, `StreamIsWhole`).
- Summarizing in parts need not end where the cut takes one message only, although every message can be summarized
  (`NeverEnds`, `EchoNeverSettles`, `EndsHere`, `EndsExactly`).
- A queue the host supplies is closed by the first turn, and the next turn refuses what waited, silently; a turn that
  returns before it registers the close of its queue leaves messages in a queue no one holds (`HostQueueLoses`,
  `EarlyReturnLoses`, `LosesExactly`).
- `MaxTurns` is documented as a cap on model calls (internal/loop/run_config.go:48). It caps turns, and a turn may make an
  overflowing call, its retry and a wrap-up call (`OneTooManyRun`, `BoundIsReachedRun`, `CapHoldsForRuns`).
- The argument scanner takes texts that section 4 of RFC 8259 does not (`ExtraCommaPasses`, `LoosePasses`,
  `TakesExactly`).
- Normalizing a mount path twice is not normalizing it once when the path ends in white space before a slash
  (`NormalTwiceDiffers`, `Registry.NormalAgain`).
- A document seems to end inside a comment whose text begins with ">" or "->", as that completes the mark that ends it
  (`CommentIsCutShort`, `CommentCutExactly`, `GrammarIsDocument`).
- A WebSocket stream that breaks off inside a frame may read as one that ended (`CutIsClean`, `CleanExactly`).
- A sub-agent report goes through the queue, and is dropped when a host queue is closed, because the refusal is not looked
  at (internal/loop/run_loop.go:113-118, `Deliver`).
- The code after the turn loop (internal/loop/run_loop.go:504-516) is never reached: the last permitted turn always ends
  the run (`Body`).
- The content of a deduplicated result is the one it repeats only as far as SHA-256 digests differ (`MarkerHasContent`).

## Model

| member | source | states |
|---|---|---|
| StreamStrings.StreamString.Append | core/streamstring.go:144-162 | a delta joins the open value; on a finished field the finished value is kept as a revision and the field opens again with it |
| StreamStrings.StreamString.Finish | core/streamstring.go:164-180 | an open value that differs is kept as a streamed revision; a finished one is overwritten without a trace |
| StreamStrings.StreamString.Restart | core/streamstring.go:185-193 | what streamed is kept as a retry revision, and the field is empty and open; an empty field without history does not change |
| StreamStrings.StreamString.Set | core/streamstring.go:195-200 | an edit keeps the value it replaces under its own source |
| StreamStrings.StreamString.Revisions | core/streamstring.go:128-136 | the history oldest first, its last entry the current value |
| StreamStrings.WriteSays | core/streamstring.go:144-200 | what each write makes of a field, value by value and source by source |
| StreamStrings.KeepsExactlyWhenGentle | core/streamstring.go:144-200 | a write keeps every value the field keeps if and only if it is gentle: it may finish a finished field only with a value that begins with the old one, unless an older entry already does |
| StreamStrings.NothingIsLost | core/streamstring.go:144-200 | over every list of writes in which a finish of a finished field repeats its value, the history only grows and every value ever held begins some entry |
| StreamStrings.FinishTwiceLoses | core/streamstring.go:164-180 | the input that loses a value: finishing a finished field with something else |
| Messages.EffectiveParts | core/message.go:205-227 | the parts when there are any, else the flattened fields as parts in the order reasoning, text, calls |
| Messages.SyncViews | core/message.go:230-251 | afterwards the flattened fields say exactly what the parts say, and the parts are untouched |
| Messages.ViewsRoundTrip | core/message.go:205-251 | reading flattened fields as parts and flattening those gives text and calls back always, and reasoning if and only if no redacted block also carries reasoning of its own |
| Messages.ToolArgs | core/message.go:41-46 | arguments on the wire are never blank: blank ones become the empty object, others stay |
| Trees.Tree.Add | core/tree.go:55-86 | the node joins under its parent with an id of its own, exactly one place in the tree, and nothing else changes; a foreign parent or an id that is taken is refused |
| Trees.Tree.PathTo | core/tree.go:118-131 | the root-to-leaf path of the parent links |
| Trees.PathIsUnique | core/tree.go:118-131 | a list of nodes is a path to the leaf (it starts under the root, and each is the parent of the next) if and only if it is this one |
| Trees.PathRefsGrow | core/tree.go:55-86 | a tree that grows changes no path it already had |
| Trees.Tree.AllNodes | core/tree.go:133-153 | the walk yields every node of the tree and nothing else |
| Trees.Tree.WalkIsWhole | core/tree.go:133-153 | depth-first over the children lists reaches exactly the nodes that were added |
| Convert.MessageFromNodes | core/convert.go:9-20 | the assistant turn of one call: one part a node, none for an empty text |
| Convert.MessagesFromPath | core/convert.go:80-125 | the path read left to right with an open group per call record is the reading Flatten defines; the lemmas in Readings say what that is for each kind of node |
| Convert.NodesFromMessage | core/convert.go:157-219 | the nodes a flat message becomes, an assistant turn under one fresh record, the first node on the message's id |
| Convert.FlattenApart | core/convert.go:80-125 | a path cut where no live node continues the turn it is cut in reads as its two halves one after the other, so the shorter request is a prefix of the longer |
| Convert.ReadAlike | core/convert.go:80-125 | paths whose nodes differ only in where they live and in made-up ids read the same |
| Readings.AloneReads | core/convert.go:22-125 | whatever stands around it, a live node of a host, a result or a summary reads as exactly one message: its role, id and kind, its content part by part, the id it answers and whether it failed |
| Readings.SummaryReads | core/convert.go:118-120 | a live compaction reads as exactly one message of the user's: the heading and then the summary |
| Readings.SkippedReads | core/convert.go:94-97 | what is superseded or of a host's own kind reads as nothing, and parts nothing |
| Readings.TurnReads | core/convert.go:80-125 | the live output of one model call reads as exactly one message of the assistant's, on the first node's id, whose text, reasoning and calls are those of the nodes in order |
| NormalForm.RoundTrip | core/convert.go:80-219 | any list of flat messages, stored as nodes and read back, is its pointwise normal form: system becomes user, empty assistant texts and assistant kinds go, blank arguments become the empty object, assistant turns without a node vanish, opaque payloads are exact |
| NormalForm.NormalAgain | core/convert.go:80-219 | normalizing again changes nothing if and only if the message is not a turn whose only parts are empty texts and images, a text among them |
| NormalForm.HollowVanishes | core/convert.go:80-219 | such a turn, which the second pass drops |
| Protocol.SettledMeansAnsweredOnce | internal/loop/session.go:136-151 | the running count of open calls ends empty if and only if every live call on the path has exactly one result, after it and with no compaction between them, and every result has its call |
| Protocol.WindowKeepsPairs | internal/loop/session.go:80-95 | a window that starts at a compaction holds a call if and only if it holds its result |
| Protocol.MarkClosesAll | internal/loop/session.go:155-161 | taking open calls off the wire closes exactly those |
| Ledgers.RequestsExtend | internal/loop/session.go:80-99 | while nothing added continues a turn the newest request carried, that request is a prefix of the window |
| Ledgers.SoundTold | internal/loop/session.go:66-73 | a flat message joins: every invariant of the conversation holds again and the newest request reads as before |
| Ledgers.SoundStreamed | internal/loop/session.go:342-376 | a model call joins: its parts stand on the path under a record of their own that belongs to no host, every invariant holds again, and the newest request reads as before |
| Ledgers.SoundWithout | internal/loop/session.go:155-161 | superseding calls that came after the newest request changes neither that request nor any invariant |
| Ledgers.SoundCompacted | internal/loop/session.go:102-117 | a compaction starts an empty window and keeps every invariant |
| Ledgers.WindowExtendsSent | internal/loop/session.go:97-99 | in every sound state the window begins with what the newest request carried |
| Ledgers.OpenMeans | internal/loop/session.go:136-151 | a call is open if and only if it is a live call of the loop on the path without a result |
| Ledgers.SettledAnswersAll | internal/loop/session.go:136-151 | nothing open means that every live call of the loop has exactly one result after it with no compaction between |
| Ledgers.ForeignKeeps | core/convert.go:184-190 | messages a host brings in, tool calls among them, open nothing the loop must answer |
| Prompts.SentIs | core/convert.go:80-125 | a request makes exactly the calls that are live on its path and answers exactly those its results answer, each in the order of the path |
| Prompts.IdsBalance | internal/loop/session.go:136-151 | the ids called are the ids answered and those still open, each as often |
| Prompts.OneResultEach | internal/loop/session.go:136-151 | where nothing is open, every id that a call of the loop has in the window is answered in it as often as it is called |
| Prompts.RequestBalances | core/convert.go:80-125 | so the next request has as many tool messages for an id as calls, if and only if what hosts brought does |
| StateCheck.IndexNodes | internal/loop/session_statecheck.go:23-45 | the index has a key for exactly the non-empty values the nodes hold: every revision and every opaque payload |
| StateCheck.EntriesAre | internal/loop/session_statecheck.go:23-45 | a node's values are every revision of its text and the opaque payloads of its reasoning |
| StateCheck.Missing | internal/loop/session_statecheck.go:48-57 | the report is the names of exactly the keys that are gone, each as often as keys with that name are, sorted; it is empty if and only if every key is still there |
| StateCheck.MissingMeansLost | internal/loop/session_statecheck.go:23-57 | unless two of the finitely many values the two trees hold have one digest, nothing is missing if and only if every value held before is held after |
| StateCheck.LaterLosesNothing | internal/loop/session_statecheck.go:81-100 | a tree that only grows and takes calls off the wire loses no value |
| StateCheck.WriteLosesNothing | internal/loop/session_statecheck.go:23-45 | nor does a write to a stream field, unless it extends an open value or finishes a finished one with another |
| Sessions.Session.Add | internal/loop/session.go:52-63 | the node is the new leaf; the path and the arena grow by it and nothing else |
| Sessions.Session.AppendFlat | internal/loop/session.go:66-73 | the ledger after is the ledger before with the message told: its nodes at the end of the path, under a fresh record, open calls unchanged |
| Sessions.Session.WindowPath | internal/loop/session.go:80-95 | the path from the newest compaction on, or all of it |
| Sessions.Session.Messages | internal/loop/session.go:97-99 | the window as flat messages |
| Sessions.Session.Compact | internal/loop/session.go:102-117 | a finished summary joins the path and the window starts at it; nothing before it changes |
| Sessions.Session.ToolResult | internal/loop/session.go:119-124 | the result closes its call and no other |
| Sessions.Session.OmitCalls | internal/loop/session.go:139-151 | every live call among the given nodes without a result gets one that says why; when those are the open calls, none is open afterwards |
| Sessions.Session.ReplaceCalls | internal/loop/session.go:155-169 | the live calls leave the wire and the replacement joins under the record of the last of them |
| Sessions.Session.AddText | internal/loop/session.go:172-176 | loop-written text joins the turn of its record |
| Sessions.Session.StreamCall | internal/loop/session.go:342-376 | the ledger after is the ledger before with the call streamed: its nodes are exactly what the pieces assembled, finished, in the order the parts began, all under one fresh record; everything older is untouched |
| Sessions.Session.Take | internal/loop/session.go:240-303 | one piece changes one part as Assembled says, and the first node takes the host's id unless the tree has it |
| Sessions.Session.CheckMonotonic | internal/loop/session_statecheck.go:81-100 | reports nothing, on any turn of any run |
| Queues.MessageQueue.Queue | internal/loop/message_queue.go:19-30 | the message is taken if and only if the queue is open |
| Queues.MessageQueue.Drain | internal/loop/message_queue.go:33-40 | everything queued is delivered and the queue is empty |
| Queues.MessageQueue.Close | internal/loop/message_queue.go:44-52 | closes the queue and gives back everything undelivered |
| Queues.MessageQueue.TakeAll | internal/loop/message_queue.go:59-77 | the loop that empties the queue delivers as Delivery defines, taking each message once |
| Queues.DeliveryOrder | internal/loop/message_queue.go:54-77 | a delivery takes every queued message from its own place: system messages first, each class in arrival order |
| Queues.DeliveryKeepsAll | internal/loop/message_queue.go:59-77 | a delivery is the same messages, each as often as it was queued |
| Dedup.OutputDeduper.Collapse | internal/loop/dedup.go:39-61 | a marker if and only if the tool and output are remembered, else the output itself with its key now the newest of at most 512; key list and map keep the same keys, each once |
| Dedup.OutputDeduper.Reset | internal/loop/dedup.go:31-36 | forgets everything |
| Dedup.TextTells | internal/loop/dedup.go:43-44 | the key text tells tool and digest apart whatever the tool is called |
| Fingerprints.BatchFingerprint | internal/loop/run_tools.go:13-19 | the loop prints every call, sized, in order |
| Fingerprints.FingerprintTells | internal/loop/run_tools.go:13-19 | two batches have one fingerprint if and only if they make the same calls with the same raw arguments in the same order |
| Decimals.DecimalTells | internal/loop/run_tools.go:13-19 | a printed number reads back as itself |
| RunRecords.PromptsGrowCalled | internal/loop/run_loop.go:200-202 | a prompt that extends the last one since the last compaction extends all of them |
| RunRecords.PromptedCalled | internal/loop/run_loop.go:200-202 | the prompt of the next call is the window, and it extends the last |
| RunRecords.StreakMeans | internal/loop/run_loop.go:257-261 | the repeat counter says that so many newest batches are the same and the one before is not |
| RunRecords.StuckBatch | internal/loop/run_loop.go:257-261 | comparing fingerprints with the last batch alone keeps the counter equal to the streak |
| RunRecords.BackedStill | internal/loop/dedup.go:39-61 | nothing the loop adds to the path takes an output away from the markers that stand for it |
| RunRecords.BackedFirst | internal/loop/run_loop.go:365-386 | an output recorded word for word backs its key on the window |
| RunRecords.BackedMarker | internal/loop/run_loop.go:365-386 | a marker whose key the deduper held has its output before it on the window, of the same tool |
| RunRecords.MarkerHasContent | internal/loop/run_loop.go:365-386 | unless an output on the path has the digest of a different one, a marker is preceded on its window by the very output it stands for, word for word and of the same tool |
| RunSteps.CalledKeeps | internal/loop/run_loop.go:200-204 | a call keeps what the log says of the session: every prompt so far is the flattened window as it stood when that call's parts began to join, and the newest is what was sent last |
| RunSteps.MessageKeeps | internal/loop/session.go:66-73 | a message told keeps it: the record grew by exactly the messages told and the calls made, in order |
| RunSteps.CompactedKeeps | internal/loop/autocompact.go:22-40 | a compaction keeps it: the summary stands where the log says and the window starts there; older prompts and results still read as they did |
| RunRecords.ResultOfCall | internal/loop/run_loop.go:363-396 | in a batch that is shown, the k-th call has a result on the path, on a call node of its id, tool and arguments, that shows what it came to |
| RunSteps.PutKeeps | internal/loop/run_loop.go:363-396 | a recorded result keeps it: the result shows its output word for word, or is a marker whose key has its output on the window |
| RunSteps.ReplaceKeeps | internal/loop/session.go:155-169 | a replaced batch keeps it, and is then exactly what is open |
| RunPaths.GrewReplaced | internal/loop/session.go:155-169 | so that everything on the path is still accounted for, its calls stand after the parts of the model call, and of what was there only the calls of that model call are off the wire |
| RunPaths.GrewCalled | internal/loop/session.go:342-376 | a model call keeps the path accounted for: its parts stand after everything older, all on the wire |
| RunPaths.OffTheWire | internal/loop/session.go:155-161 | of what joined during a run, only a tool call of a model call whose batch the host replaced is off the wire; then all calls of that model call are, and the replacement stands after its parts |
| RunRecords.BackedCompacted | internal/loop/autocompact.go:22-40 | a compaction takes every marker off the window, with the deduper reset |
| RunTurns.TurnCalls | internal/loop/run_call.go:22-24 | the flat calls of a turn are its tool-call nodes, one each, in order |
| RunTurns.LiveOfTurn | internal/loop/run_loop.go:277 | the nodes the batch answers are the calls of the turn's flat message one by one, in order: each has the id, the tool and the arguments of its call |
| RunTurns.StreamedTurn | internal/loop/run_loop.go:203-204 | a call made with nothing open leaves exactly its own turn open |
| RunTurns.SupersededTurn | internal/loop/session.go:155-161 | superseding a turn's calls leaves nothing open and the newest request unchanged |
| RunTurns.ReplacedBatch | internal/loop/session.go:155-169 | a replacement batch is then exactly what is open |
| RunTurns.BatchAnswered | internal/loop/run_loop.go:363-396 | recording the i-th result leaves the calls after it open and no others |
| Messages.TrimBlank | internal/loop/run_call.go:54-66 | trimming leaves nothing if and only if there was only white space |
| Messages.TrimCuts | internal/loop/run_call.go:54-66 | what it takes off at either end is white space, and what is left neither begins nor ends with any |
| RunTurns.FallbackOutput | internal/loop/run_call.go:54-66 | the text surfaced for a silent turn is never blank |
| RunLoop.RunOn | internal/loop/run_loop.go:17-517 | for every World (what provider, inbox, watch, summarizer, hooks, host and tools answer) and every failure: afterwards each live call of the loop has exactly one result after it with no compaction between, where what is not the loop's is exactly the nodes of the messages told; the record grew by exactly the messages told and calls made, in order, and each call was sent its window, with every earlier call of the loop answered, and after a compaction its first message is the newest summary under its heading; before each turn's call the queue was emptied, then the inbox asked, then the watch, and what the queue gave was told at once in its order; after the parts of its model call, or after the batch the host put in their place, the results of every batch recorded stand one by one, each on the call with that id, tool and arguments and showing what that call came to; nothing older changes, and of the nodes that joined each came from a host, from a model call, as a summary, in a replaced batch, as a result or as the loop's own text, off the wire only as a call of a batch the host replaced; no result is made up, and markers are backed and newly set only on results of this run; every message the inbox or the watch gave was told at once; requests only grow between compactions; calls are counted and within their caps; the nudge follows exactly the third recording of a batch in a row and a sixth never runs; every queued message is told once or handed back; the transcript returned is the window; without an error the answer is what the calls of the log wrote: the newest turn's text when it is not blank, else the text of a wrap-up call made since when that is not, else the turn's reasoning without the white space around it, else the placeholder, on the row of that turn and with the other parts of that call but its calls; with an error, an answer is the newest call's output without its calls, and there is one whenever that call failed with something streamed or had asked for tools, but none once the next turn's boundary is under way; with a cap of N the run ends within 2N passes |
| RunLoop.CallsBounded | internal/loop/run_loop.go:132-502 | what RunOn keeps bounds the calls: at most 3N-1 under a cap of N, and at most N when auto-compaction is off and there are no tools or only one turn |
| RunPasses.PassBounds | internal/loop/run_loop.go:132-502 | under a cap of N, passes the branches allow are at most 2N and make at most 3N-1 calls |
| RunPasses.CallsAddUp | internal/loop/run_loop.go:132-502 | the calls are exactly one for each of at most N turns, those that overflowed and were retried, and the wrap-ups; so they stay within N if and only if the latter two fill no more than the turns that made none |
| RunPasses.CapHoldsExactly | internal/loop/run_loop.go:132-502 | the passes that the branches allow make at most N calls under a cap of N, whatever they are, if and only if auto-compaction is off and there are no tools or only one turn |
| RunPasses.OneTooManyLegal | internal/loop/run_loop.go:132-502 | otherwise the branches allow passes of N + 1 calls: one that overflows once, or wraps up once, and then every turn there may be |
| RunPasses.BoundIsReached | internal/loop/run_loop.go:132-502 | with auto-compaction and tools, the branches allow passes of 3N-1 calls |
| RunCaps.OneTooManyRun | internal/loop/run_config.go:48 | from every session at rest, so configured, there are a World, a log and a session afterwards for which all holds that RunOn says of these (Keeps, Leaves), with N + 1 calls, event by event: a call that overflows and a summary, or a silent turn and its wrap-up, then answers with a message waiting, then a last answer |
| RunCaps.BoundIsReachedRun | internal/loop/run_loop.go:132-502 | and such ones with 3N-1 calls |
| RunCaps.CapHoldsForRuns | internal/loop/run_config.go:48 | every World, log and session afterwards for which that holds stays within the cap if and only if auto-compaction is off and there are no tools or only one turn |
| RunLoop.Run.Turns | internal/loop/run_loop.go:132-502 | the loop over passes: each is one the branches allow, their calls are the calls counted, and under a cap of N, 2N passes are enough |
| RunLoop.Run.Body | internal/loop/run_loop.go:132-502 | one pass: another turn only below the cap and after one or two calls, asking again at most once a turn and with auto-compaction on, so the code after the loop is never reached under a cap |
| RunLoop.Run.Boundary | internal/loop/run_loop.go:136-184 | compaction, deliveries, watch and cap before a call keep every invariant, with every call answered; when it lets the turn go on, the queue was emptied, then the inbox asked, then the watch |
| RunLoop.Run.Watch | internal/loop/run_loop.go:155-176 | what the watch gave is told at once, and a failed watch ends the run |
| RunLoop.Run.Call | internal/loop/run_loop.go:200-204 | a model call is only made with every earlier call answered and with the window as its prompt; unless the host cancels it first, it is logged with the prompt, the tools and what was streamed, and leaves exactly its own turn open |
| RunLoop.Run.Failed | internal/loop/run_loop.go:206-235 | a failed call compacts and asks again at most once a turn, and otherwise ends the run with every call answered |
| RunLoop.Run.ToolBatch | internal/loop/run_loop.go:255-400 | a batch that repeats too often, is refused, aborted or run leaves every call answered |
| RunLoop.Run.RunBatch | internal/loop/run_loop.go:277-400 | dispatch, record and nudge; any failure on the way answers what is left |
| RunLoop.Run.RecordOne | internal/loop/run_loop.go:363-396 | the i-th result closes the i-th call; a marker is written only for an output the window shows |
| RunLoop.Run.RecordAll | internal/loop/run_loop.go:363-396 | the path grows by one result a call and nothing else, in call order; the i-th answers the i-th call node, which has the id, tool and arguments of the i-th call, and shows its output word for word, or is a marker that stands for exactly that output |
| RunLoop.Run.StopTurn | internal/loop/run_loop.go:247-251 | a turn that is stopped leaves every call answered; its answer is its own output without the calls |
| RunLoop.Run.DrainInbox | internal/loop/inbox.go:15-30 | every message the inbox gives joins the record, in order, before anything else |
| RunLoop.Run.Deliver | internal/loop/run_loop.go:113-118 | a report is queued as a system message, and dropped when the queue is closed |
| RunLoop.Run.NoteRan | internal/loop/run_loop.go:298-361 | a batch that ran to its end is logged with what each call came to, and only if it is not the sixth of its kind in a row |
| RunLoop.Run.NoteRecorded | internal/loop/run_loop.go:397-399 | once its results are recorded, the nudge is told exactly after the third of the same batch in a row |
| RunLoop.Run.NoteBatch | internal/loop/run_loop.go:257-261 | the counter is the number of consecutive equal batches |
| RunLoop.Run.Stop | internal/loop/run_loop.go:286-297 | the calls of an aborted batch without a result get one, and the run ends with the window as its transcript |
| RunLoop.Run.AskHost | internal/loop/events.go:191-207 | a replacement batch that passes is not empty and its ids are present and distinct |
| RunLoop.Run.Replace | internal/loop/run_loop.go:278-281 | after a replacement the batch to answer is the replacement, call by call with its id, tool and arguments; it stands right after the parts of the model call, whose calls are all off the wire |
| RunLoop.Run.EndTurn | internal/loop/run_loop.go:402-501 | a turn without tools ends the run on what the turn wrote, or if that is blank as EndSilent says, or takes another turn only when one is allowed |
| RunLoop.Run.EndSilent | internal/loop/run_loop.go:455-501 | a silent turn: queued messages first, then one tool-less request, whose text is the answer when it is not blank, then the reasoning; text may still join the turn because the wrap-up notice closed the request before it |
| RunLoop.Run.AskAnswer | internal/loop/run_loop.go:467-486 | the wrap-up call is counted, tool-less, and leaves nothing open |
| RunAnswers.PartsSay | core/convert.go:9-20 | the text, the reasoning and the parts of a call's flat message are those of the nodes it left, in order, an empty text left out |
| RunAnswers.TurnSurfaces | internal/loop/run_call.go:36-66 | what the loop surfaces of a turn is its text, else its reasoning without the white space around it, else the placeholder |
| RunAnswers.FallbackIs | internal/loop/run_call.go:54-66 | for a turn that wrote nothing: its readable reasoning, whatever blocks it came in, or the placeholder when that is blank |
| RunAnswers.TurnAnswers | internal/loop/run_loop.go:449-453 | the flat message of a turn that wrote something, without its calls, is the answer its events give |
| RunAnswers.WrapUpAnswers | internal/loop/run_loop.go:467-486 | a wrap-up that wrote something answers for a turn that did not, on the row of that turn |
| RunHeads.CallIsHeaded | internal/loop/autocompact.go:22-40 | the first message of a request, with a compaction before it and none between, is that summary's: the user's, of the kind of a compaction, heading and then summary |
| RunHeads.RunIsHeaded | core/convert.go:118-120 | so it is for every request of a run after a compaction |
| RunPhases.PreparedMeans | internal/loop/run_loop.go:136-176 | that a boundary is done means that since the newest call the queue was emptied, after that the inbox asked, and after that the watch |
| RunLoop.Run.Subagents | internal/loop/run_loop.go:406-447 | a report is delivered through the queue before the next turn, or the run ends with its answer recorded first |
| RunLoop.Run.Answer | internal/loop/run_loop.go:93-107 | ends on the answer unless something new is queued and a turn is left |
| RunLoop.Run.Surface | internal/loop/run_loop.go:449-462 | the answer of the turn by itself: what it wrote is left alone; one that wrote nothing gets the fallback, which joins the turn and is the answer |
| RunLoop.Run.Drain | internal/loop/run_loop.go:125-130 | everything queued joins the record in delivery order, and the queue is empty |
| RunLoop.Run.CapToWindow | internal/loop/contextwindow.go:101-116 | compacts or refuses, and keeps every invariant |
| RunLoop.Run.CompactNow | internal/loop/autocompact.go:22-40 | a compaction forgets outputs and starts the window; a failure changes nothing |
| RunLoop.NewConversation | internal/loop/session.go:41-43 | a new session is a state a run can start from |
| RunLoop.AppendAll | internal/loop/session_api.go:213-215 | the messages of a Send, of any role, keep it one |
| RunLoop.Run.Dispatch | internal/loop/run_loop.go:298-361 | without an error, each call comes to the result given from its stream when there is one under the id the hook left, and else to what the tool gives |
| Dispatch.RunsOnlyWhenAllowed | internal/loop/run_tools.go:26-58 | a tool runs if and only if it is known and the approver allows it, or there is none and it only reads |
| Dispatch.DenialSays | internal/loop/run_tools.go:60-67 | a denial never records a blank text: the stock message if the reason is blank, else the reason without the white space around it |
| Dispatch.EveryOrderIsSound | internal/loop/run_loop.go:298-361 | in every interleaving no call that may change something overlaps another call, and every result so far is the one its place in the order gives |
| Dispatch.Serializable | internal/loop/run_loop.go:298-396 | however reads interleave, the batch ends with the results and the tool state of running the calls one by one, as far as they go |
| Dispatch.RunsOneByOne | internal/loop/run_loop.go:298-396 | which are: the i-th call, unless its hook failed, came to what was given for its id when its stream was refused; or to an error that names the tool when there is none of that name; or, when it may run, to what the first tool of that name gives on its arguments in the state that the calls before it left; or else to an error that says it was denied, and why; nothing but running it changes the state, and the batch ends at a failed hook or a lost approval of a call that is not a read |
| Dispatch.AllServed | internal/loop/run_loop.go:298-361 | with hooks that pass and approvals that arrive, that is every call |
| RunDispatch.ConcurrentResolves | internal/loop/run_loop.go:298-396 | when every call is served and no approval is lost, what the concurrent batch collected, in call order, is what a run may record of it in a World whose tools give what running the calls one by one gives |
| RunDispatch.RecordedIsConcurrent | internal/loop/run_loop.go:298-396 | and in that World it is the only thing a run records of the batch, whatever the interleaving |
| RunDispatch.CallShowsItsOwn | internal/loop/run_loop.go:298-396 | and on the record of a run: the result on each call of the batch shows what that very call comes to when the batch runs one by one, which is what the concurrent one collected for it |
| RunDispatch.WorldExists | internal/loop/run_loop.go:298-396 | for every batch there is such a World |
| AutoCompact.SplitPoint | internal/loop/autocompact.go:67-78 | the user message at index 1 or later nearest the middle, the first on a tie, 0 when there is none |
| AutoCompact.OlderPaired | internal/loop/autocompact.go:64-78 | the older part of a cut keeps each call with its results |
| AutoCompact.RebuiltPaired | internal/loop/autocompact.go:60 | and so does the list with the summary in its place |
| AutoCompact.CompactToFit | internal/loop/autocompact.go:44-62 | for every transcript on which the search breaks off: gives what the search finds; the summary is the model's answer to a request standing in for the transcript, in which the messages before a cut nearest the middle made way for a summary found in the same way; every request keeps calls with results |
| AutoCompact.EndsHere | internal/loop/autocompact.go:44-62 | the search ends on a transcript if and only if, wherever it comes to a list whose cut takes one message only, that breaks off: the whole stops being too large, or the first message gets no summary, after finitely many summaries of it |
| AutoCompact.EndsExactly | internal/loop/autocompact.go:44-62 | it ends for every transcript if and only if the model settles, which is to break off on every such list |
| AutoCompact.OneMessageEndsExactly | internal/loop/autocompact.go:44-62 | where the cut takes one message only, ending is breaking off |
| AutoCompact.LighterSettles | internal/loop/autocompact.go:44-62 | a model settles when, while the whole stays too large, summaries of the first message alone weigh less than the message |
| AutoCompact.BriefSettles | internal/loop/autocompact.go:44-62 | a model that summarizes every lone message and settles |
| AutoCompact.EchoNeverSettles | internal/loop/autocompact.go:44-62 | one that does not, with the transcript on which it never ends |
| AutoCompact.ProgressExactly | internal/loop/autocompact.go:53-61 | a pass makes progress if and only if the cut takes more than one message or the summary is lighter than the one it replaces |
| AutoCompact.NeverEnds | internal/loop/autocompact.go:44-62 | two messages and a model that repeats itself: the loop never ends |
| SessionApi.NothingVanishes | internal/loop/session_api.go:189-260 | over every interleaving of the locked sections each message taken in is held exactly as often as it was taken in: queued, pending, handed back, told, or lost |
| SessionApi.NothingLost | internal/loop/session_api.go:189-260 | without a host queue, and with turns that reach the loop, nothing is ever lost |
| SessionApi.LosesExactly | internal/loop/session_api.go:202-208 | a step loses messages if and only if it starts a turn on a closed host queue while some wait, or finishes a turn whose own queue was left unclosed with some in it |
| SessionApi.HostQueueLoses | internal/loop/session_api.go:202-208 | the interleaving that loses one on a second Send with a host queue |
| SessionApi.EarlyReturnLoses | internal/loop/run_loop.go:18-48 | the one that loses one in a turn refused before it registers the close |
| SessionApi.PublicSession.Send | internal/loop/session_api.go:189-212 | starts a turn unless one runs or the session is closed, as the step says |
| SessionApi.PublicSession.Queue | internal/loop/session_api.go:249-260 | the message goes to the running turn, or waits, unless the session is closed |
| SessionApi.PublicSession.Finish | internal/loop/session_api.go:236-247 | the turn's undelivered messages are kept and the session is free |
| SessionApi.PublicSession.RunTurn | internal/loop/session_api.go:189-247 | a whole turn, as RunOn runs it, until the session is free: what it told joins what turns told, what it hands back is kept, and every message taken in stays in exactly one place |
| SessionApi.PublicSession.Close | internal/loop/session_api.go:320-335 | no further work is taken |
| ArgScan.ArgScanner.StepByte | internal/loop/argscan.go:61-165 | one byte moves the scanner as the eleven-state automaton says |
| ArgScan.ArgScanner.FeedDelta | internal/loop/argscan.go:46-54 | a delta is its bytes one by one |
| ArgScan.EndedStays | internal/loop/argscan.go:56-57 | once the scan has ended, nothing changes and no member comes out |
| ArgScan.ArgScanner.CompleteMember | internal/loop/argscan.go:168-176 | a key that does not decode stops the scan |
| ArgScan.AnyFragmentation | internal/loop/argscan.go:46-54 | however a text is cut up, the state and the members emitted are the same |
| ArgScan.InsideValue | internal/loop/argscan.go:131-149 | inside a nested value any well-formed value is only collected, however deep |
| ArgScan.ReadValue | internal/loop/argscan.go:106-156 | a value is read to its own end and no further |
| ArgScan.ObjectIsRead | internal/loop/argscan.go:46-176 | every well-formed object yields exactly its top-level members, in order, each once, values as written, and ends the scan |
| ArgScan.PrefixIsRead | internal/loop/argscan.go:46-176 | after any part of it, the first so many of them and nothing else |
| ArgScan.ExtraCommaPasses | internal/loop/argscan.go:74-86 | the scanner takes a comma before the first member, which the grammar does not |
| ArgScan.GapsMayBe | internal/loop/argscan.go:58-130 | each of the four characters of white space may stand in every gap of an object |
| ArgScan.NothingElseIsSpace | internal/loop/argscan.go:58-60 | and no other character is white space |
| ArgLax.TakesExactly | internal/loop/argscan.go:46-176 | the scanner is done with a text if and only if it begins with a loosely written object whose keys decode: commas and white space anywhere before a key, and for a value a string, any run of characters, strings and closed brackets between brackets of either kind, or whatever comes up to a comma, a brace or white space |
| ArgLax.LaxIsRead | internal/loop/argscan.go:46-176 | and then exactly its members come out, in order, their values as they are written |
| ArgLax.DoneIsLax | internal/loop/argscan.go:46-176 | which object that is, read off the scan |
| ArgLax.LoosePasses | internal/loop/argscan.go:74-156 | a bare word, brackets that do not match, and a comma after the last member pass, which the grammar does not allow |
| Utf8.DecodeIsEncode | core/xmlwrite.go:165-167 | what decodes is a scalar value and those bytes are its only encoding |
| Utf8.EncodeDecodes | core/xmlwrite.go:188 | an encoded rune decodes to itself whatever follows |
| Utf8.Examples | core/xmlwrite.go:188 | the examples of section 7 of RFC 3629 |
| Utf8.UnitsConcat | core/xmlwrite.go:165-172 | valid UTF-8 is walked the same whatever follows it |
| Escaping.Escape | core/xmlwrite.go:159-192 | with or without the fast path, every unit escaped by itself |
| Escaping.Needs | core/xmlwrite.go:195-212 | true exactly for a text with a unit the escaper changes |
| Escaping.ChangesExactly | core/xmlwrite.go:159-212 | the escaper changes a text if and only if the test says so |
| Escaping.CharacterEscapes | core/xmlwrite.go:165-192 | character by character: the markup characters, and in an attribute the quote and white space, become references, and every other is written as it is |
| Escaping.EscapedConcat | core/xmlwrite.go:147-192 | deltas cut between characters escape to the bytes of the whole |
| Escaping.EscapedNoMarkup | core/xmlwrite.go:147-192 | escaped text holds no angle bracket, and in an attribute no double quote |
| Escaping.EscapedAllowed | core/xmlwrite.go:215-224 | escaped text is valid UTF-8 without a restricted character |
| Escaping.ExpandUndoes | core/xmlwrite.go:147-192 | expanding references gives the text back if and only if it is valid UTF-8 |
| DocRead.DocScanner.FeedByte | core/docread.go:87-170 | one byte moves the scanner as Feed says, about which the lemmas of the grammar and of the writer speak |
| DocRead.ReadDocument | core/docread.go:22-48 | a document, a clean end, a cut, a read error or the cap: which one, and what is left unread, is decided by the bytes |
| DocRead.GivesTheDocument | core/docread.go:22-48 | a stream that begins with a document gives that document and what follows it |
| DocRead.GivesNothing | core/docread.go:22-48 | a strict part of a document is never taken for one |
| DocRead.ReadStream | core/docread.go:13-48 | a back-to-back stream with white space between comes apart into exactly its documents |
| DocGrammar.GrammarIsDocument | core/docread.go:69-179 | every document of the grammar is one for the scanner and no strict part of it is: a prolog of comments and instructions, elements with attributes in either quote, elements that close themselves, character data, comments, CDATA sections and instructions, whose contents are any text without the mark that ends them |
| DocGrammar.GrammarIsRead | core/docread.go:22-48 | behind white space and before anything else, it is exactly what is read |
| DocGrammar.GrammarCut | core/docread.go:22-48 | a stream that breaks off inside it gives no document |
| DocGrammar.CommentCutExactly | core/docread.go:97-111 | a comment, whose text does not hold its mark, is taken to end before the mark if and only if the text begins with a part that completes one: ">" or "->" |
| DocGrammar.CommentIsCutShort | core/docread.go:97-111 | a document seems to end inside such a comment |
| XmlWrite.Writer.Raw | core/xmlwrite.go:50-57 | after an error nothing more is written, and what the sink took is a part of what was meant |
| XmlWrite.Writer.StartElement | core/xmlwrite.go:101-108 | the tag is written and the name is on the stack |
| XmlWrite.Writer.EmptyElement | core/xmlwrite.go:111-117 | a self-closing tag leaves the stack |
| XmlWrite.Writer.EndElement | core/xmlwrite.go:120-130 | closes the innermost open element; with none open it is an error |
| XmlWrite.Writer.Element | core/xmlwrite.go:136-144 | an empty tag, or a start, the text and an end |
| XmlWrite.StartRuns | core/xmlwrite.go:101-108 | a start tag takes the reader one deeper, whatever its attributes hold |
| XmlWrite.EndRuns | core/xmlwrite.go:120-130 | an end tag takes it back up, and ends the document at the root |
| XmlWrite.DepthIsHeight | core/xmlwrite.go:36-144 | after every call the reader's depth is the writer's open stack |
| XmlWrite.WholeDocument | core/xmlwrite.go:43-144 | balanced calls make exactly one document |
| XmlWrite.CutDocumentRefused | core/docread.go:22-48 | what a failing sink took of a document is refused |
| XmlWrite.SplitDocuments | core/docread.go:13-48 | any number of written documents, back to back, are read back as exactly those |
| XmlStream.ResponseWriter.Text | core/xmlstream.go:41-48 | a delta goes into the open text part, which is opened when it is not |
| XmlStream.ResponseWriter.WritePart | core/xmlstream.go:61-65 | whatever was open is closed first |
| XmlStream.ResponseWriter.Finish | core/xmlstream.go:88-103 | the result, or the error when there is one, is written and the root closed |
| XmlStream.StreamStaysOpen | core/xmlstream.go:41-122 | however parts stream, exactly the root and the part that takes text are open |
| XmlStream.EveryResponseIsADocument | core/xmlstream.go:24-103 | every response that is closed or failed is exactly one document |
| XmlStream.DeltasAreOne | core/xmlstream.go:41-58 | two rune-aligned deltas of a text or thinking part write the bytes of their concatenation |
| XmlStream.StreamedPartIsWhole | core/xmlstream.go:41-65 | a streamed text or thinking part, once closed, has the bytes of the part written whole |
| XmlTrees.ResponseIsTree | core/xmlstream.go:24-103 | the bytes of an ended response are one printed tree of the grammar: each run of deltas of one kind is an element with their texts, each part is its own, and the result or the error comes last |
| Anthropic.ParseNonStream | core/anthropic_nonstream.go:36-107 | the text is that of the text blocks, the reasoning and the calls those of theirs, in order; the stop reason is the one given, else that of a call when there is one, else the end of the turn; usage is there when counts are, with the prompt the input and both cached counts, their sum with the output the total, and the cached counts as given |
| Anthropic.AnStream.OnEvent | core/anthropic_stream.go:169-255 | one event changes the stream as Next says |
| Anthropic.AnStream.Complete | core/anthropic_stream.go:286-312 | the completion of what has arrived |
| Anthropic.StreamInStep | core/anthropic_stream.go:134-255 | after any prefix, however deltas interleave over block indices, each block holds exactly what arrived for it |
| Anthropic.StreamIsWhole | core/anthropic_stream.go:134-312 | the streamed turn is the whole response's turn if and only if no text block and no opaque payload is empty; stop reason and usage always agree |
| Anthropic.EmptyBlocksDiffer | core/anthropic_stream.go:134-312 | the inputs on which they differ: one block of empty text, or of an empty payload |
| Anthropic.UsageIsSnapshot | core/anthropic_stream.go:262-280 | output counts are snapshots, never sums: the counts kept are those of the newest start, with the output count that came last |
| Anthropic.UsageFromEvents | core/anthropic_stream.go:262-312 | read off the events: usage is there exactly when some event reported counts; its completion is the last output count, its prompt the newest start's input with both cached counts, the total their sum, and the cached counts are that start's |
| Anthropic.StopFromEvents | core/anthropic_stream.go:286-304 | the last reason that came, else that of a call when an event began one, else the end of the turn |
| Anthropic.WholeTells | core/anthropic_nonstream.go:36-107 | the same of a whole response, field by field |
| WebSocket.Unmask | socket/websocket.go:174-178 | the payload in place becomes its exclusive or with the repeated key |
| WebSocket.MaskTwice | socket/websocket.go:174-178 | masking again takes the mask off |
| WebSocket.MaskedBit | socket/websocket.go:174-178 | a bit of the payload is flipped exactly where that bit of the key's byte at its place modulo four is set |
| WebSocket.LengthIsMinimal | socket/websocket.go:188-199 | the length is in the shortest form that says it |
| WebSocket.LengthForms | socket/websocket.go:188-199 | the length byte by byte: one byte below 126, two behind 126, eight behind 127, the most significant first |
| WebSocket.WsConn.WriteFrame | socket/websocket.go:185-207 | the bytes of one final unmasked frame; when a write fails, a prefix of them |
| WebSocket.WsConn.ReadFrame | socket/websocket.go:140-181 | the frame the bytes hold, or that it is too long, or that the stream ended between the parts of a frame or inside one |
| WebSocket.WriteThenRead | socket/websocket.go:140-207 | a written frame reads back as its opcode and payload, up to 64 MiB |
| WebSocket.SendThenRead | socket/websocket.go:140-181 | and a client's masked frame as well |
| WebSocket.FrameIsRead | socket/websocket.go:140-181 | a frame of any form is read: final or not, any form of the length, with a mask or without |
| WebSocket.ReadIsFrame | socket/websocket.go:140-181 | and what is read as a frame is one |
| WebSocket.AnyStream | socket/websocket.go:99-119 | every stream of bytes is frames that do not close, and then one that does or no frame |
| WebSocket.FramesAreRead | socket/websocket.go:99-119 | frames that do not close give the payloads of the data frames among them, a pong for each ping, and then whatever follows gives |
| WebSocket.ClosedStream | socket/websocket.go:99-119 | a stream that closes gives exactly what its frames up to there give, and ends cleanly, whatever follows |
| WebSocket.FragmentsJoin | socket/websocket.go:105-108 | a message in fragments reads like the message in one frame |
| WebSocket.OpcodesMean | socket/websocket.go:103-119 | opcodes up to 2 give their payload, 8 ends the stream cleanly, 9 is answered by a pong with its payload, and any other is passed over |
| WebSocket.CleanExactly | socket/websocket.go:99-163 | after them the end is a clean one if and only if a frame closes next or the stream breaks off between the parts of a frame |
| WebSocket.CutIsClean | socket/websocket.go:140-172 | so a stream cut after the head of a frame with a payload ends cleanly |
| WebSocket.WsConn.Read | socket/websocket.go:99-119 | on any bytes: some of what the frames to come carry, in order, or the end as those bytes have it; pings on the way are answered, and when that fails the read does, with no data lost |
| WebSocket.ReadAll | socket/websocket.go:99-119 | on any bytes, reads of any sizes give together the payloads up to the first frame that closes; where a pong cannot be written, the beginning of that |
| Registry.NormalizePrefix | vfs/provider.go:114-123 | replacing doubled slashes until none is left squeezes every run to one |
| Registry.NormalIsCanonical | vfs/provider.go:114-123 | a leading slash, no doubled one, none at the end |
| Registry.NormalKeeps | vfs/provider.go:114-123 | the names between the slashes stay what they are |
| Registry.ServesBySegments | vfs/provider.go:167-181 | a mount serves a path if and only if its names begin those of the path |
| Registry.NormalAgain | vfs/provider.go:114-123 | normalizing twice is normalizing once if and only if the path, without the white space around it and then the slashes around that, does not end in white space |
| Registry.NormalTwiceDiffers | vfs/provider.go:114-123 | the input on which it is not: a slash after a space |
| Registry.RegistrySort | vfs/provider.go:250-262 | the same mounts, deeper first and in byte order at one depth |
| Registry.ServersDiffer | vfs/provider.go:167-181 | two mounts that serve one path are equally deep only when they are the same |
| Registry.Mounts.Add | vfs/provider.go:125-146 | refused if and only if the prefix is taken in any case; else list and map gain the mount and stay sorted and in agreement |
| Registry.Mounts.Remove | vfs/provider.go:148-162 | list and map lose exactly that mount |
| Registry.Mounts.Resolve | vfs/provider.go:167-181 | the one deepest mount equal to or above the path, none if and only if there is none |

## Left out

- HTTP transports, headers, provider construction, the command line and the servers: I/O around the modelled logic.
- Pointers: a node is named by its place in an arena, a call record by a number, a tool by its name.
- Contexts, clocks, mutexes and goroutine scheduling: a locked section is one step, and a cancellation is an arbitrary error.
- Panics: a step that panics ends the run, and nothing is claimed of the state it leaves.
- Changing the leaf of a session, nodes a host adds to the tree during a run, extension nodes and host changes to a request: outside the run's invariants.
- Elapsed-time notices on a request, usage lists, state-loss reports of the provider side and host rows (announce, finalize): they change neither the tree nor the control flow.
- Retry, rate limiting, to-do lists, the sub-agent registry and text diffs: sub-agent reports are arbitrary messages.
- Texts of notices, prompts and markers are shortened; the summary's heading too. Only their being there matters to the proofs.
- Parsing of JSON and of server events, key decoding, base64 and SHA-256: functions with stated laws (the length of a digest; that a well-formed key decodes). Where digests must tell values apart, only the finitely many values at hand must not collide.
- Blob storage: what a blob reference reads back as is part of the node.
- Length: strings count characters where the source counts bytes; the byte-level modules let a character below 256 stand for a byte.
- Sessions.Session.WindowPath: for a window that is not on the path the method returns the whole path, as the source does; no run reaches that state.
- RunLoop.RunOn: the queue is always there, as a session's Send provides one; the nil cases of a direct call are not modelled. Its `fuel` bounds the passes observed of a run without a cap, so for those it is a statement about every finite part of the run.
- RunLoop.Run.Dispatch: reads run one after another here; their concurrency is in the module Dispatch, and that the two agree in RunDispatch.
- RunLoop.Run.CapToWindow: the size estimate of the new messages is arbitrary.
- RunLoop.Run.CompactNow: the summary is the World's; how it is found is in the module AutoCompact.
- The World answers by how many events there were before, so any behaviour of the others in one run is one World; that they may react to what they were sent adds nothing to that.
- Dispatch.Serializable: the approver answers for a call by its place in the batch, whenever it is asked.
- SessionApi.PublicSession.Close: waiting for the running turn is not modelled.
- Sessions.Session.StreamCall: a piece for a part that never began changes nothing; argument hooks that refuse a call appear in the run as results that are already there.
- XmlStream.ResponseWriter.WriteReport: usage is written without its raw object, whose parameter tree is not modelled.
- Anthropic.AnStream.OnEvent: error events, which end the stream, and the raw usage object are not modelled.
- Registry.Mounts.Add: lower case is that of ASCII letters; the path a provider is told is not modelled.
