# bkmail IMAP client: a verified model

This project models the two hard parts of the bkmail IMAP client and proves what they promise.

**The command engine.** `context_core` with its write pump and read pump pipelines commands over one
connection. Read and write completions arrive in either order, cancellation races with staging and with
replies, and teardown races with both pumps. `Engine.dfy` states it as a transition system: one event for
each section that runs under the core mutex. A `maybe_finish_close` that trails a section is part of it, and
so is, in one case that "Left out" names, the `connection_lost` behind it; a failed read, and a write that
fails while draining, run `connection_lost` as an event of its own. A run is any sequence of events that are
possible where they stand, so a theorem over `Possible(es)` holds for every interleaving of them.
`EngineInvariants`, `EngineSteps`, `EngineFrames`, `WireOrder` and `IdleSafety` carry the invariants;
`EngineTheorems`, `WireOrder`, `WireBreaks`, `IdleTheorems`, `Reordering`, `Teardown`, `Stranding`,
`Cancellation` and `Attribution` state the results, with `EngineRuns` for the pieces of concrete runs.
`ContextCore.dfy` is the object itself, a class whose methods run the source's loops (`PumpLoops.dfy`) over
its queue, registry and flags, each proved to take the state exactly where the transition system says. The
commands in its queue are the value machines of `Commands.dfy`; `Segments.dfy` is the class that renders them.

**The bytes.** `Framing` is a one-shot framer and `ResponseLexer.dfy` the resumable two-mode lexer that
refines it; `WholeFrames` and `FetchFrames` say which texts are one frame. `Tokens`, `FetchGrammar`,
`BodyGrammar`, `FetchWalk`, `FlagSets` and `FetchAttributes` give the grammar of FETCH data as readers and
printers with their round trips; `ParseCursor.dfy` and `FetchParse.dfy` are the mutable cursor and the
recursive readers, proved equal to the grammar; `ResponseParser.dfy` classifies frames and `EndToEnd` puts
the layers together. `Segments`, `SegmentMachine` and `Renderings` cover the segmented commands LOGIN,
APPEND and AUTHENTICATE; `MailText`, `MailRoundTrip` and `FetchMessage` the mails that APPEND prints and
FETCH reads; `Base64` and `EncodedWords` the encoders and the RFC 2047 decoder.

A `char` stands for an octet. A cell is named by the order of its submission instead of its address.

## What the code does not promise

The unconditional forms of some claims are false of the code. The model keeps the code's behaviour and
states exactly when the claim holds, or exhibits a run:

- A command keeps to the order of submission on the wire exactly when the pump stops behind it while a piece
  is left (`WireBreaks.InOrderExactly`): every LITERAL+ command of two or more pieces can be split
  (`WireBreaks.PlusIsSplit`), every idling IDLE can be passed (`WireBreaks.IdleIsSplit`), and an IDLE asked to
  end early can be cut short (`WireBreaks.AskedIdleIsCut`).
- A cancelled command that was never staged stays queued exactly when it waits for a continuation, which a
  fresh literal command already reports (`Cancellation.CancelBeforeSending`).
- A DONE is lost exactly when the continuation and the request are both handled before the flush of the
  IDLE line (`IdleTheorems.DoneIsLostOnlyWhenOvertaken`, `IdleTheorems.DoneCanBeLost`).
- After `close()`, a closed engine still holds exactly the commands that were written at the close and not
  answered since, unless `connection_lost` or `abandon` came in time (`Stranding.StrandedExactly`). A last read
  with data strands them (`Teardown.CloseCanStrand`), and so can EOF or a write error: the engine may be closed
  between the section that stops the pump and `connection_lost`, which then does nothing
  (`Stranding.EndOfFileComesTooLate`, `Stranding.WriteErrorComesTooLate`, `Stranding.EndOfFileCanStrand`).
- `skip_value` refuses system flags: a FETCH response with `FLAGS (\Seen)` yields no `BODY[]` section and no
  mail (`FetchWalk.FlagsHideTheSection`, `FetchMessages.FlagsLoseTheMail`); the exact condition is
  `FetchWalk.SectionExactly`.
- A literal directly behind an opening parenthesis is not recognised by the framer, which wants a space, a
  tilde or the start of the line in front of a marker; the response is cut there
  (`EndToEnd.FetchFramesExactly`).
- A reply whose text opens a response code and does not close it is malformed (`EndToEnd.TaggedReplyParses`).
- A BODYSTRUCTURE parameter that needs unescaping in both its name and its value may be lost: both views
  share one scratch buffer, and the first is read after the second overwrote it
  (`BodyGrammar.BodyStructureRoundTrip`, `BodyGrammar.EscapedPairDangles`).
- `read_astring` refuses exactly the rendered atoms that start with a tilde (`Renderings.LoginRoundTrip`).
- An APPEND mailbox with a line break is quoted as it is (`Renderings.AppendMailboxReadsBack`); with a CRLF in
  it the command is more than one line (`Renderings.BrokenMailboxFrames`, `Renderings.BrokenMailboxSplits`).
- `parse_fetch_attributes` is documented to store `BODY[]` with an empty specifier; it reads it over
  (`FetchAttributes.BareBodyIsDropped`).
- A mail of which no header field is rendered loses its body on the way back
  (`MailRoundTrips.MailRoundTrip`).

## Model

| member | source | states |
|---|---|---|
| WireOrder.WireIsInOrder | include/bkmail/imap/detail/write_pump.h:122-184 | Over every run whose commands keep the order, with any cancels and any teardown, the bytes handed to the transport are the commands' blocks in submission order, none split, each the first pieces of its command; only the last block, or one whose command got a tagged reply, may be partial |
| WireBreaks.InOrderExactly | include/bkmail/imap/detail/write_pump.h:122-184 | For every rendered command: the wire is in order in every run over it and over commands that keep the order, if and only if it is a segmented command that waits for the server or blocks the pipeline while a piece is left, or has one piece; LITERAL+ commands of two or more pieces and IDLE are the ones that break it |
| WireBreaks.PlusIsSplit | include/bkmail/imap/detail/write_pump.h:161-166 | For every command of two or more pieces that are all released at once, and any later command whatever: a run in which the later command's first piece goes out between the first two pieces |
| WireBreaks.IdleIsSplit | include/bkmail/imap/command/idle_command.h:109-120 | For every IDLE and any later command: a run in which that command goes out between the IDLE line and its DONE |
| WireBreaks.AskedIdleIsCut | include/bkmail/imap/command/idle_command.h:109-120 | For every IDLE asked to end before it was sent and any later command: a run in which the later command follows the half-sent IDLE, whose DONE was taken for flushed together with its line |
| WireOrder.ChainIsSequenced | include/bkmail/imap/detail/write_pump.h:131-167 | A list of genuine pieces in which each continues its block or opens a later one is the concatenation of the blocks, command by command |
| EngineSteps.RunsKeep | include/bkmail/imap/imap_context.h:292-607 | Every reachable state satisfies the invariant: conservation of cells, the staged flag marks exactly the cells of the write in progress, registry coherence, walls, the continuation route and what teardown leaves |
| EngineSteps.KickRouted | include/bkmail/imap/detail/write_pump.h:131-167 | Draining the queue keeps the walls, and the only line that is out and unanswered afterwards is the one the route names |
| EngineSteps.FlushRouted | include/bkmail/imap/detail/write_pump.h:396-413 | A flush keeps the walls and the route, whichever cells left the queue meanwhile |
| EngineSteps.WriteFailedKeeps | include/bkmail/imap/detail/write_pump.h:337-371 | A failed write lets go of its cells and keeps the invariant; while open the loss takes every other cell in the same step, and while draining it takes them in the step that follows, if the engine is not closed by then |
| EngineTheorems.ExactlyOnce | include/bkmail/imap/imap_context.h:413-460 | Each submitted cell is either still queued or has had exactly one terminal call, never both; a call that drops a handler silently happens on an abandoned engine only |
| EngineTheorems.CallsAreFinal | include/bkmail/imap/operation_base.h:526-568 | The log of terminal calls only grows, and an entry is never changed |
| EngineTheorems.RegistryIsARoute | include/bkmail/imap/imap_context.h:380-394 | While open, the registry is a one-to-one map from tags to the queued cells stamped with them, and the unregistered queued cells are exactly the detached ones |
| EngineTheorems.TaggedReplyCompletesItsCell | include/bkmail/imap/detail/read_pump.h:280-307 | A tagged reply completes the operation stamped with its tag and no other; a reply whose tag is not registered changes nothing |
| EngineTheorems.ContinuationReachesItsCell | include/bkmail/imap/detail/read_pump.h:358-379 | In every reachable open state at most one queued cell has its synchronizing line staged or on the wire unanswered; it is exactly the route, and a continuation request handled then, before or after the write completes, resumes that cell and changes no other |
| EngineTheorems.RouteOnlyNamesWaiters | include/bkmail/imap/detail/write_pump.h:151-160 | The continuation route only ever names a queued cell that waits for a continuation and of which something was staged, so no second challenge reaches a cell |
| Engine.TagsAreInjective | include/bkmail/imap/imap_context.h:380-394 | Different counter values never render to the same tag |
| Reordering.EitherOrderAgrees | include/bkmail/imap/detail/read_pump.h:358-379 | Handling the continuation before or after the completion of the write that carried its line gives the same queue, registry and calls; the orders differ in the route alone, and only when another wall is ahead |
| IdleTheorems.IdleOnTheWire | include/bkmail/imap/command/idle_command.h:81-132 | Under any number of cancels an IDLE puts at most one DONE on the wire, behind its line, and only after a continuation reached it |
| IdleTheorems.CancelNeverExtractsIdle | include/bkmail/imap/imap_context.h:474-494 | No cancellation, first or repeated, takes a registered IDLE out of the queue, completes it or unregisters it |
| IdleTheorems.DoneIsLostOnlyWhenOvertaken | include/bkmail/imap/command/idle_command.h:109-120 | An IDLE whose DONE counts as sent has it staged or on the wire if and only if its own first flush did not overtake it |
| IdleTheorems.SpoiledIsOvertaken | include/bkmail/imap/detail/write_pump.h:396-404 | The IDLEs recorded as overtaken are exactly those whose line was flushed when their DONE was already queued |
| IdleTheorems.QueuedDoneIsNotForgotten | include/bkmail/imap/command/idle_command.h:150-154 | A queued DONE stays queued until it is staged, unless the tagged reply or teardown comes first |
| IdleTheorems.DoneCanBeLost | include/bkmail/imap/command/idle_command.h:109-120 | A concrete run in which the continuation is handled before the flush of the IDLE line, the session is cancelled in between and DONE is never sent |
| Teardown.LossEmptiesTheEngine | include/bkmail/imap/imap_context.h:565-596 | From `connection_lost` on the registry is empty, there is no route, every queued cell belongs to the write in flight, and without a write the queue is empty |
| Teardown.LateSubmissionsFail | include/bkmail/imap/imap_context.h:437-455 | A submission that arrives outside the open phase has its handler failed at once and is in no later state queued |
| Teardown.LastWriteEmptiesTheEngine | include/bkmail/imap/detail/write_pump.h:337-371 | The completion of the in-flight write, good or bad, leaves a torn-down engine without cells |
| Teardown.ClosedMeansQuiet | include/bkmail/imap/imap_context.h:601-607 | The descriptor is closed only with neither pump running; a draining engine has one of them running, or a failed read or write on its way to `connection_lost`, which then closes it and leaves no cell |
| Teardown.StepsWindDown | include/bkmail/imap/imap_context.h:292-321 | The phase only moves forward; outside the open phase no step arms a read or a write or hands over bytes |
| Teardown.ClosedIsFinal | include/bkmail/imap/imap_context.h:601-607 | A closed engine stays closed and its queue never changes |
| Stranding.ClosedHoldsTheUnanswered | include/bkmail/imap/imap_context.h:292-321 | Over every run with an orderly `close()` that ends closed: if `connection_lost` or `abandon` came first no cell is left, and otherwise exactly the commands that were written when the close came and got no tagged reply since; none of them ever had its terminal call |
| Stranding.StrandedExactly | include/bkmail/imap/imap_context.h:565-607 | A closed engine still holds a command if and only if neither `connection_lost` nor `abandon` took effect and an orderly close left a written command unanswered |
| Stranding.EndOfFileComesTooLate | include/bkmail/imap/detail/read_pump.h:179-198 | From every draining state with a read being handled and a write in flight: EOF, then the completion of the write, closes the engine before `connection_lost` runs, and every cell outside that write stays queued without a call |
| Stranding.WriteErrorComesTooLate | include/bkmail/imap/detail/write_pump.h:337-371 | The mirror image: a write error, then a read that ends with data, closes the engine before the `connection_lost` of the write runs |
| Stranding.EndOfFileCanStrand | include/bkmail/imap/detail/read_pump.h:179-198 | A concrete run in which `close()` itself falls between the two sections of a read that ended with EOF, and a written command is neither answered nor failed |
| Teardown.CloseCanStrand | include/bkmail/imap/detail/read_pump.h:229-241 | A concrete run that ends closed with a command neither answered nor failed |
| Cancellation.CancelBeforeSending | include/bkmail/imap/imap_context.h:474-494 | A cell nothing of which was staged is withdrawn, with its one call, if and only if it does not wait for a continuation; otherwise it stays queued, unsent, detached or asked to end |
| Cancellation.CancelledBeforeSendingIsSilent | include/bkmail/imap/imap_context.h:476-481 | A command that never waits and is cancelled before anything of it was staged puts nothing on the wire, in any run before and after |
| Cancellation.DetachedLiteralIsStillSent | include/bkmail/imap/imap_context.h:491-493 | A cancelled literal command at the head of the queue is still the first thing the next write carries |
| Attribution.CommandsGetTheirOwnLines | include/bkmail/imap/detail/read_pump.h:326-344 | On cancel-free runs with a server that answers in order, every command absorbs exactly its own data lines in arrival order, and commands complete in submission order by their own tagged replies, for any mix of kinds and any pipeline length |
| ContextCores.ContextCore.Close | include/bkmail/imap/imap_context.h:292-321 | `close` takes the engine to the state the transition system names and keeps its invariant |
| ContextCores.ContextCore.Abandon | include/bkmail/imap/imap_context.h:331-374 | `abandon` likewise: cells dropped without a call, those of the write in flight kept |
| ContextCores.ContextCore.AllocateTag | include/bkmail/imap/imap_context.h:380-394 | Hands out the next counter value; the value is reserved until it is enqueued |
| ContextCores.ContextCore.EnqueueOperation | include/bkmail/imap/imap_context.h:413-460 | Queues and registers, or withdraws on a stop seen, or rejects outside the open phase, as the transition system says |
| ContextCores.ContextCore.Cancel | include/bkmail/imap/imap_context.h:238-249 | The erase-or-detach decision over the queue list equals the transition |
| ContextCores.ContextCore.PostKick | include/bkmail/imap/detail/write_pump.h:82-90 | Posts a kick only when open, idle, none posted and work queued |
| ContextCores.ContextCore.KickFired | include/bkmail/imap/detail/write_pump.h:193-207 | The posted kick clears its latch in a section of its own |
| ContextCores.ContextCore.Kick | include/bkmail/imap/detail/write_pump.h:122-184 | The drain loop fills the staging buffer with exactly the batch of the transition, in order, stages its cells and sets the route |
| ContextCores.ContextCore.Arm | include/bkmail/imap/detail/write_pump.h:266-321 | Hands the batch over when still open, otherwise retires its cells with the failure or silently when abandoned |
| ContextCores.ContextCore.OnWriteDone | include/bkmail/imap/detail/write_pump.h:326-451 | All endings of a write: error while open or draining, abandoned, open (flush, route, retirement) and draining |
| ContextCores.ContextCore.FailConnection | include/bkmail/imap/detail/write_pump.h:361-371 | What a write that failed while draining does next: `connection_lost` on the engine as others left it |
| ContextCores.ContextCore.ConnectionLost | include/bkmail/imap/imap_context.h:565-596 | Takes every unstaged cell with one failure each and clears registry and route |
| ContextCores.ContextCore.OnReadCompletion | include/bkmail/imap/detail/read_pump.h:136-167 | Dispatches unless abandoned or closed |
| ContextCores.ContextCore.OnReadError | include/bkmail/imap/detail/read_pump.h:179-196 | EOF and errors stop the pump, and the engine is free before `connection_lost` takes it |
| ContextCores.ContextCore.LoseConnection | include/bkmail/imap/detail/read_pump.h:197-198 | What the failed read does next: `connection_lost` on the engine as others left it |
| ContextCores.ContextCore.OnMalformed | include/bkmail/imap/detail/read_pump.h:220-227 | A fatal response loses the connection and stops the pump |
| ContextCores.ContextCore.DecideRearm | include/bkmail/imap/detail/read_pump.h:229-241 | Re-arms only while open and not suspended |
| ContextCores.ContextCore.ArmRead | include/bkmail/imap/detail/read_pump.h:101-125 | Arms, or winds the pump down when teardown or relocation won |
| ContextCores.ContextCore.OnTagged | include/bkmail/imap/detail/read_pump.h:280-307 | Takes the registered cell out of registry and queue and completes it; unknown tags are dropped; a registration without a cell is fatal |
| ContextCores.ContextCore.OnContinuation | include/bkmail/imap/detail/read_pump.h:358-379 | Clears the route and resumes its cell; without a route it is fatal |
| ContextCores.ContextCore.OnUntagged | include/bkmail/imap/detail/read_pump.h:313-352 | Command-scoped data goes to the earliest queued cell that wants its kind |
| PumpLoops.StageBatch | include/bkmail/imap/detail/write_pump.h:131-167 | The loop over the queue computes the batch, its bytes, the staged queue and the waiting cell |
| PumpLoops.FlushBatch | include/bkmail/imap/detail/write_pump.h:395-422 | The loop over the staged pointers, skipping those that left the queue, flushes, re-routes and extracts exactly the finished detached cells |
| PumpLoops.ExtractBatch | include/bkmail/imap/detail/write_pump.h:344-348 | Extracting the staged cells one by one takes those still queued, in queue order |
| PumpLoops.Partition | include/bkmail/imap/imap_context.h:513-522 | The erase-while-iterating loop splits the queue into the cells taken and those left, both in order |
| PumpLoops.Extract | include/bkmail/imap/imap_context.h:497-506 | Splices out the one cell searched for, or nothing |
| PumpLoops.FindOwner | include/bkmail/imap/detail/read_pump.h:338-343 | Finds the earliest cell that wants the kind |
| SegmentMachine.EachByteOnceInOrder | include/bkmail/imap/command/login_command.h:76-96 | However flushes and answers interleave, the bytes offered are the first pieces, each once and in order, never more than released: one more piece for each answer |
| SegmentMachine.AllIsOffered | include/bkmail/imap/command/append_command.h:112-134 | When nothing is pending and nothing awaited, the whole rendering was offered |
| SegmentMachine.FlushAndAnswerCommute | include/bkmail/imap/command/authenticate_command.h:105-133 | A flush and a continuation may come in either order |
| Segments.WeldJoins | include/bkmail/imap/command/login_command.h:163-168 | Cutting the buffer does not change its text |
| Segments.SegmentedCommand.AppendArg | include/bkmail/imap/command/login_command.h:171-188 | One argument is appended as an atom, a quoted string, or an announced literal that closes its piece |
| Segments.SegmentedCommand.CloseSegment | include/bkmail/imap/command/login_command.h:163-168 | Closing a piece records the open stretch of the buffer and starts the next one behind it |
| Segments.SegmentedCommand.RenderLogin | include/bkmail/imap/command/login_command.h:63-74 | The cuts tile the buffer and its pieces are those of the command; one piece is released, or all with LITERAL+ |
| Segments.SegmentedCommand.RenderAppend | include/bkmail/imap/command/append_command.h:90-112 | The same for APPEND: the line with mailbox, flags and date, then the message |
| Segments.SegmentedCommand.RenderAuthenticate | include/bkmail/imap/command/authenticate_command.h:73-102 | The same for AUTHENTICATE: one line with an initial response, or a line and the answer to its challenge |
| Segments.SegmentedCommand.NextSegment | include/bkmail/imap/command/login_command.h:76-81 | The piece that may be staged now, or none behind a wall |
| Segments.SegmentedCommand.OnSegmentFlushed | include/bkmail/imap/command/login_command.h:88-91 | One more piece is emitted, never more than released |
| Segments.SegmentedCommand.OnContinuation | include/bkmail/imap/command/login_command.h:93-96 | One more piece is released, never more than there are |
| Segments.Quote | include/bkmail/imap/command/login_command.h:153-160 | The quoting loop escapes exactly the quote and the backslash |
| Segments.AppendedFlags | include/bkmail/imap/command/append_command.h:263-279 | The flag list holds exactly the flags that are set, in wire order, separated by single spaces |
| Renderings.LoginRoundTrip | include/bkmail/imap/command/login_command.h:63-189 | For all user names and passwords, with or without LITERAL+, the rendered LOGIN is one frame, and the frame reads back to the tag and both arguments if and only if neither is an atom that starts with a tilde |
| Renderings.LoginIsWalled | include/bkmail/imap/command/login_command.h:171-188 | Every piece carries bytes, and each cut stands behind the announcement of an argument and in front of exactly its octets |
| Renderings.LoginIsOfferedInOrder | include/bkmail/imap/command/login_command.h:63-96 | What a LOGIN has offered is a prefix of its text, and without LITERAL+ no piece beyond the first unanswered literal |
| Renderings.AppendIsOfferedInOrder | include/bkmail/imap/command/append_command.h:90-134 | What an APPEND has offered is a prefix of its text, and without LITERAL+ no octet of the message before the server's answer |
| Renderings.AuthenticateIsOfferedInOrder | include/bkmail/imap/command/authenticate_command.h:73-133 | What an AUTHENTICATE has offered is its first pieces, and its answer never before the challenge |
| Renderings.WhichKeepTheOrder | include/bkmail/imap/detail/write_pump.h:161-166 | LOGIN keeps the order exactly without LITERAL+ or without literals, APPEND exactly without LITERAL+, AUTHENTICATE always |
| Renderings.ArgReadsBack | include/bkmail/imap/detail/parse_cursor.h:229-239 | `read_astring` gives back every rendered argument and stops behind it, except an atom that starts with a tilde, which it refuses |
| Renderings.AppendFrames | include/bkmail/imap/command/append_command.h:90-112 | APPEND is one frame whatever octets the message holds, when no CRLF stands in its mailbox and date; a lone CR or LF does no harm |
| Renderings.AppendIsWalled | include/bkmail/imap/command/append_command.h:90-112 | The only cut of APPEND stands behind the announcement of the message's exact length |
| Renderings.AppendMailboxReadsBack | include/bkmail/imap/command/append_command.h:244-260 | The rendered mailbox reads back if and only if it has no line break and is not an atom that starts with a tilde |
| Renderings.BrokenMailboxFrames | include/bkmail/imap/command/append_command.h:244-260 | For every mailbox with a CRLF in it: the first frame a receiver sees is the command up to that CRLF, if and only if that much of it does not end like the announcement of a literal |
| Renderings.BrokenMailboxSplits | include/bkmail/imap/command/append_command.h:244-260 | A concrete mailbox with a CRLF, of which the first frame is the first half of the command |
| Renderings.AuthenticateAnswers | include/bkmail/imap/command/authenticate_command.h:93-102 | The answer to the challenge decodes to the response; an empty response is the cancel line |
| Framing.FramesContinue | include/bkmail/imap/detail/read_pump.h:200-218 | Framing a prefix and going on with what it left gives the frames of the whole |
| Framing.MarkerIsTrailer | include/bkmail/imap/detail/response_lexer.h:151-182 | A literal marker, with or without plus, is recognised exactly when its number is below two to the 64th |
| Framing.TrailerIsMarker | include/bkmail/imap/detail/response_lexer.h:151-182 | Nothing but a marker behind a space, a tilde or nothing is taken for one |
| ResponseLexers.ParseUint64 | include/bkmail/imap/detail/response_lexer.h:151-182 | Accumulating digits with the overflow test yields the number exactly when it fits 64 bits |
| ResponseLexers.LiteralTrailer | include/bkmail/imap/detail/response_lexer.h:151-182 | The backward scan finds exactly the markers |
| ResponseLexers.ResponseLexer.NextCompleteResponse | include/bkmail/imap/detail/response_lexer.h:73-119 | Resuming where the last call stopped, the two-mode scan returns the first frame of the buffer as soon as it is complete, and nothing before |
| ResponseLexers.ResponseLexer.ConsumeResponse | include/bkmail/imap/detail/response_lexer.h:127-131 | Drops the frame with its CRLF and starts afresh |
| ResponseLexers.OnRead | include/bkmail/imap/detail/read_pump.h:200-218 | One read yields exactly the frames that the buffered bytes now complete |
| ResponseLexers.ReadStream | include/bkmail/imap/detail/read_pump.h:200-218 | For every byte stream and every split into reads the loop yields the frames of the one-shot framer, and keeps the same rest |
| ParseCursors.ParseCursor.ReadNumber | include/bkmail/imap/detail/parse_cursor.h:116-132 | A digit run below two to the 64th, consumed exactly; anything else is refused |
| ParseCursors.ParseCursor.ReadQuoted | include/bkmail/imap/detail/parse_cursor.h:136-171 | The quoted string of the grammar; a view into the text, or into the scratch buffer when it had escapes |
| ParseCursors.ParseCursor.ReadLiteral | include/bkmail/imap/detail/parse_cursor.h:175-214 | The literal of the grammar, tilde and plus included, its extent taken from its count |
| ParseCursors.ParseCursor.ReadAstring | include/bkmail/imap/detail/parse_cursor.h:229-239 | An atom or a string; what starts with a quote, a brace or a tilde is a string |
| ParseCursors.ParseCursor.ReadNstring | include/bkmail/imap/detail/parse_cursor.h:243-254 | `NIL` at an atom boundary, or a string |
| Tokens.StringRoundTrip | include/bkmail/imap/detail/astring.h:136-189 | A string printed as quoted or literal is read back, whatever follows it |
| Tokens.LiteralRoundTrip | include/bkmail/imap/detail/parse_cursor.h:175-214 | A literal holds any octets and is read back exactly |
| Tokens.NumberRoundTrip | include/bkmail/imap/detail/parse_cursor.h:116-132 | A printed number is read back up to its last digit |
| FetchGrammar.EnvelopeRoundTrip | include/bkmail/imap/detail/fetch_parse.h:128-175 | Every envelope is read back from its printed form plus any rest, and reading stops at the rest |
| FetchGrammar.SexpSkipped | include/bkmail/imap/detail/fetch_parse.h:81-96 | Of the values a server prints, with flags, literals and lists of any nesting, exactly those without a system flag (an atom behind a backslash) and without an atom that starts with a tilde are skipped, and skipping stops behind them; the others are refused |
| BodyGrammar.BodyStructureRoundTrip | include/bkmail/imap/detail/fetch_parse.h:179-270 | A printed BODYSTRUCTURE with any extension data and any rest is read back through valid views, stopping at the rest, if and only if it nests at most 32 levels and no parameter needs unescaping in both name and value; otherwise it is refused or a view into an overwritten buffer is used |
| BodyGrammar.EscapedPairDangles | include/bkmail/imap/detail/fetch_parse.h:179-205 | A concrete parameter whose name and value both carry escapes is read through an overwritten view |
| FetchParse.SkipValue | include/bkmail/imap/detail/fetch_parse.h:81-96 | The skipping loop consumes exactly one value of the grammar |
| FetchParse.ParseAddressList | include/bkmail/imap/detail/fetch_parse.h:128-149 | The loop reads exactly the address list of the grammar |
| FetchParse.ParseEnvelope | include/bkmail/imap/detail/fetch_parse.h:152-175 | The reader accepts and returns exactly what the grammar does |
| FetchParse.ParseBodyParams | include/bkmail/imap/detail/fetch_parse.h:179-205 | The reader returns the parameters, and knows when a view it holds was overwritten |
| FetchParse.ParseBodyStructure | include/bkmail/imap/detail/fetch_parse.h:213-270 | The recursive reader, with its depth bound and extension skipping, equals the grammar |
| FetchWalk.ParseBodySectionAttribute | include/bkmail/imap/detail/fetch_parse.h:334-355 | The walk with the section sink returns the section of the list: absent or malformed, NIL, or its octets |
| FetchWalk.SectionExactly | include/bkmail/imap/detail/fetch_parse.h:279-355 | For every attribute list a server may print and every section prefix: the walk succeeds if and only if every matching value is a string or NIL and every other value can be skipped, and then it yields the last matching value that is not NIL |
| FetchWalk.SectionIsTheLiteral | include/bkmail/imap/detail/fetch_parse.h:279-355 | With any attributes in front of it and behind it, the value of `BODY[]` is exactly the literal's octets if and only if every other value can be skipped; otherwise there is none |
| FetchWalk.FlagsHideTheSection | include/bkmail/imap/detail/fetch_parse.h:81-96 | Behind `FLAGS (\Seen)` no section is found, whatever follows |
| FetchFrames.ListFramesExactly | include/bkmail/imap/detail/response_lexer.h:151-182 | Behind any start of a line and in front of any bytes, the frame ends with a printed attribute list if and only if no literal inside it stands directly behind an opening parenthesis; otherwise it ends earlier |
| FlagSets.FlagsRoundTrip | include/bkmail/imap/detail/fetch_parse.h:101-124 | A printed flag list adds exactly its flags to those seen before, and reading stops behind it |
| FetchAttributes.ParseFlagList | include/bkmail/imap/detail/fetch_parse.h:101-124 | The loop reads exactly the flag list of the grammar, unknown names dropped |
| FetchAttributes.ParseFetchAttributes | include/bkmail/imap/detail/fetch_parse.h:363-419 | The walk with the attribute sink equals the grammar, key by key |
| FetchAttributes.AttributesRoundTrip | include/bkmail/imap/detail/fetch_parse.h:279-419 | An attribute list of any length and order reads to exactly its attributes, later ones replacing earlier ones, flags and sections adding up, if and only if every body structure in it is readable and every value of an unknown name can be skipped |
| FetchAttributes.BareBodyIsDropped | include/bkmail/imap/detail/fetch_parse.h:369-383 | A `BODY[]` attribute without a section name is read over |
| ResponseParsers.ParseResponse | include/bkmail/imap/detail/response_parser.h:61-75 | The parser returns exactly the classification of the frame |
| EndToEnd.TaggedReplyParses | include/bkmail/imap/detail/response_parser.h:236-293 | A reply to the command stamped with a counter value, with any text, is classified as tagged with its status, exactly its tag and what its text says, if and only if its text does not open a response code without closing it |
| EndToEnd.CodeIsRead | include/bkmail/imap/detail/response_parser.h:236-260 | A bracketed response code and the words behind it are told apart exactly |
| EndToEnd.ReplyNamesOneCommand | include/bkmail/imap/detail/response_parser.h:275-293 | The tag of a reply that parses names one counter value only |
| EndToEnd.FetchClassified | include/bkmail/imap/detail/response_parser.h:295-328 | `* n FETCH` data is classified with its number and with everything behind the word as payload |
| EndToEnd.FetchFramesExactly | include/bkmail/imap/detail/response_lexer.h:73-119 | A FETCH response with any octets in its literals, in front of any further bytes, is the first frame if and only if no literal stands directly behind an opening parenthesis; otherwise the first frame is shorter |
| EndToEnd.LiteralsAreOpaque | include/bkmail/imap/detail/fetch_parse.h:334-355 | For every octet string, lines that look like replies included, among any attributes in front and behind: the FETCH response that carries it is one frame, classified as data, whose `BODY[]` is exactly the octets if and only if every other value can be skipped |
| MailTexts.RenderMail | include/bkmail/imap/command/append_command.h:155-203 | The printer's loops produce the fields that have a value, in order, an empty line and the body |
| MailTexts.AppendAddresses | include/bkmail/imap/detail/fetch_parse.h:427-486 | The two nested loops split at the commas outside quotes and angle brackets and append the addresses in order |
| MailTexts.ParseHeaderBlock | include/bkmail/imap/detail/fetch_parse.h:493-559 | The line loop unfolds the fields and assigns each when its end is seen |
| MailRoundTrips.MailRoundTrip | include/bkmail/imap/command/append_command.h:155-203 | For clean fields and addresses and any body octets, rendering, splitting, unfolding and address parsing give back the same header and body if and only if a field was rendered or the body is empty |
| MailRoundTrips.ListReadsBack | include/bkmail/imap/detail/fetch_parse.h:427-486 | Every clean address list is read back from its printed form |
| MailRoundTrips.FoldedFieldReads | include/bkmail/imap/detail/fetch_parse.h:532-545 | However a value was folded, it is read as its parts joined by single spaces |
| FetchMessages.FetchMessageCommand.OnUntagged | include/bkmail/imap/command/fetch_message_command.h:100-126 | Splits a `BODY[]` section at its first empty line and appends the mail; other responses change nothing |
| FetchMessages.FetchedMailIsTheMail | include/bkmail/imap/command/fetch_message_command.h:100-126 | A clean mail served among any other attributes of a FETCH response is one frame and is classified as message data; a mail is assembled if and only if every other value can be skipped, and it is the mail served if and only if a field was printed or the body is empty |
| FetchMessages.FlagsLoseTheMail | include/bkmail/imap/command/fetch_message_command.h:100-126 | A response that begins with `FLAGS (\Seen)` assembles no mail |
| Base64.RoundTrip | include/bkmail/common/mail_header.h:80-99 | The B decoder inverts the base64 encoders on every octet string |
| Base64.AppendBase64 | include/bkmail/imap/command/authenticate_command.h:166-201 | The group loop appends exactly the encoding |
| Base64.Base64Encode | include/bkmail/imap/state/not_authenticated.h:59-94 | The other encoder computes the same encoding |
| EncodedWords.RunOfWordsDecodes | include/bkmail/common/mail_header.h:132-164 | A run of B and Q words separated by any linear white space decodes to its payloads joined, the plain text around it unchanged |
| EncodedWords.WordRoundTrip | include/bkmail/common/mail_header.h:51-122 | A printed word is read back whatever follows it, with its exact extent |
| EncodedWords.PlainIsUnchanged | include/bkmail/common/mail_header.h:132-164 | Text without the start of an encoded word is unchanged |
| EncodedWords.DecodeOneEncodedWord | include/bkmail/common/mail_header.h:51-122 | The index loops accept exactly the words of the grammar and leave the output alone otherwise |
| EncodedWords.DecodeEncodedWords | include/bkmail/common/mail_header.h:132-164 | The outer loop computes the decoded text and terminates |

## Left out

- WireOrder.WireIsInOrder: the server sends `+` only for a line already handed to the write; every order of cancels, replies and teardown is covered.
- WireBreaks.InOrderExactly: over runs whose other commands keep the order and whose continuations are solicited in that sense.
- EngineTheorems.ContinuationReachesItsCell: safety only; a cell detached in mid-handshake and then answered by a tagged NO stays queued as a wall, so no progress is claimed.
- EngineTheorems.RegistryIsARoute: for the open phase; after `close()` the registrations of staged cells outlive the cells.
- Attribution.CommandsGetTheirOwnLines: for runs without cancellation and a server that answers pipelined commands in order.
- Engine.TagsAreInjective: the counter is unbounded; the 64-bit wrap-around after two to the 64th commands is not modelled.
- ContextCores.ContextCore.Kick: the kick that a write completion chains is a step of its own, which may happen at any time, so every run of the code is a run of the model.
- ContextCores.ContextCore.OnWriteDone: while the engine is open, a write error and the `connection_lost` it calls are one step; the code releases the mutex in between, and what other threads do in that gap (a kick, a reply, a `close()`) is not modelled. While draining they are two steps.
- ContextCores.ContextCore.OnMalformed: the `connection_lost` of a protocol violation and the stop of the pump behind it are one step; in between the pump counts as running, so nobody can close the engine.
- ContextCores.ContextCore.FailConnection: the terminal calls of the cells of a write that fails while draining stand in the log before those of `connection_lost`; the code makes them after it.
- ContextCores.ContextCore.EnqueueOperation: the queue holds cells by value and pointers are identities; freshness of addresses, allocation failures and the moves of `unique_ptr` are not modelled. Terminal calls are entries of a log, made outside the lock in the code.
- ContextCores.ContextCore.OnUntagged: connection-scoped responses are broadcast to every operation and to the unsolicited table; none of the modelled commands absorbs them, so only the BYE flag is kept.
- Stranding.StrandedExactly: the gap behind a write error of an open engine is not among its runs, as said above.
- Segments.SegmentedCommand.OnContinuation: the branch of AUTHENTICATE that answers an extra challenge is not modelled; the route is cleared by the first continuation and only ever names waiting cells, so it is unreachable.
- Segments.SegmentedCommand.RenderAuthenticate: `render` leaves the emitted counter as it was constructed, and so does the model; a command is rendered once.
- Renderings.BrokenMailboxFrames: says where the first frame ends, not how the rest of the command is then read.
- Renderings.LoginRoundTrip: for arguments shorter than two to the 64th octets, as every length in the code.
- ResponseParsers.ParseResponse: the text of a bracketed response code is kept as it stands; its interpretation (PERMANENTFLAGS, APPENDUID and the like) is left out as a list of local facts.
- FetchParse.ParseBodyParams: a view into an overwritten scratch buffer is an outcome of its own, whatever bytes the code would then copy; when they happen to be the same the code reads the pair back.
- BodyGrammar.BodyStructureRoundTrip: the extension data holds no system flags, which the grammar of RFC 3501 does not allow there.
- FetchWalk.SectionExactly: for lists printed with single spaces, whose atoms are those of RFC 3501 or flags; other spacing is read by the same loops but not printed here.
- FetchAttributes.AttributesRoundTrip: section names without inner brackets; UIDs are stored modulo two to the 32nd as in the code.
- MailRoundTrips.MailRoundTrip: for addresses without delimiters where the reader would take them for such, without a source route, and values without line breaks or outer blanks; the content type is not read back by the code.
- EncodedWords.RunOfWordsDecodes: charsets are not transcoded, as in the code.
- The operation cells (`operation_model`): their one-shot guard never has to reject a second terminal call, because every cell gets at most one (`EngineTheorems.ExactlyOnce`); that a stopped operation reports the stop instead of its reply is not modelled.
- Search result loops: they do not advance on a character they do not expect, so no total claim holds.
- Single-line commands, capability sets, sequence sets, status items: short local facts.
- Sockets, TLS, timers, schedulers and I/O boxes: their completions are the events of the model.
- Layer 2 (`connect.h`, STARTTLS, session states) and the relocation hooks: lifetime glue; only the suspend flag is kept.
- The unsolicited table: a filter in front of handlers; its events change nothing in the engine.
- Error codes: how a status or a teardown reason maps to an error code is not part of the terminal calls.
