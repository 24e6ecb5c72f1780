# Verified models of the loop, session and hustle runtimes

This project models the parts of an agent runtime that hold state across many steps: the loop actor's
accepted-input protocol and its recovery from the journal, compaction of a loop's history, the checkpoint
controller and its admission gate, the hustle lanes and their controller, the streaming text forms, the
self-referential truncation markers and the argument checker's stack machine.

Code that changes things in place is modelled twice. A class or a method with loops has the source's own
form, and its postcondition equates the new state with a function of the old one. That function is a step
of a state machine over values, and the properties are proved over every run of that machine. What an
operation decides is also stated a second time, from the steps of a run and the guards of the source alone,
without the functions the machine is made of. A section
under a mutex, and an arm of an actor's select, is one atomic step; what a caller does between two
sections is a place of its own in the state. Contexts, clocks, appends, hooks, id generators and foreign
calls are parameters of the steps, so every outcome of theirs is covered.

| file | what it models |
|---|---|
| `Options.dfy`, `Utf8.dfy`, `Decimal.dfy` | missing values; UTF-8 as section 4 of RFC 3629 defines it; decimal numerals and their lengths |
| `ToolResultCapture.dfy` | the chunked UTF-8 scanner and the capped capture sink |
| `CompactionProjection.dfy` | the rune accumulator, the rune cap with its marker, recursive block projection |
| `ToolResultShape.dfy` | shaping a tool result to a byte limit, with its marker and span accounting |
| `MarkerRounds.dfy`, `MarkerMiscount.dfy` | below which length the marker is never wrong, and a text of that length on which it is |
| `EvidenceArguments.dfy` | the JSON argument checker against a recursive grammar |
| `CompactionTail.dfy`, `TailErrors.dfy` | validation of a transcript, segments, the budgeted choice and the cut; which error, which pairs |
| `ContextReplacement.dfy`, `ContextLedger.dfy` | compare-and-swap replacement of live history; when it happens and what the history is |
| `CompactionSlot.dfy`, `CompactionSignals.dfy` | the coalescing slot, its waiters and the once-only terminal; what signals do to an attempt |
| `AcceptedInput.dfy`, `LoopActor.dfy` | the accepted-input protocol: state machine and actor object |
| `Fates.dfy` | what becomes of every input at every step of the actor |
| `LateAdmission.dfy` | the actor with its admission requests numbered: whose result arrives |
| `OccupiedLoop.dfy` | the actor and its compaction slot as one machine |
| `AdmittedReplay.dfy` | the plan a restore computes, and the actor over a journal that survives crashes |
| `CheckpointController.dfy`, `CheckpointRuntime.dfy` | required requests, sweeps and workers: state machine and object |
| `CheckpointLaws.dfy` | what the controller does with a withdrawn request and with a pending walk |
| `CheckpointGate.dfy` | the writer-preferring admission gate |
| `Lane.dfy`, `HustleController.dfy` | one lane, and ownership of runs over two lanes |

`dafny verify dfyconfig.toml` checks everything.

## What the code does that its comments do not say

- Draining is not always empty when no turn runs: a request cancelled while its turn folds input leaves
  what it had drained behind, and the loop may go idle with it (`TargetedCancelStrands`).
  `DrainingWithoutATurn` says exactly when: such an end of a turn, and no step since that clears draining.
- A queued message can start while a compaction is pending, although the slot is said to freeze the inbox:
  an admission asked for before the attempt was opened is not asked about the slot when it comes
  (`StartsDespiteCompaction`). `StartsWhileOccupied` says that this is the only way.
- An interrupt sweep can be told success although a request it covers failed: shutdown takes the sweep out
  of its map, the failure is recorded with nobody to note it, and the idle edge that holds the sweep tells
  it before shutdown does (`ShutdownCanHideAFailure`). `SweepIsToldTheTruth` gives the exact condition.
- The number in the truncation marker can be wrong: on a text of exactly 10^13 bytes in ill-formed runs eight
  rounds are not enough (`CountCanBeWrong`). `MarkerCountIsExactIff` says when they are, in terms of digits
  and cuts; they always are for valid text and for every text below 10^13 bytes (`MarkerCountIsExact`).
- The whole-string cap and the accumulator differ on over-long text that shows an ill-formed byte
  (`CapsCanDiffer`); `CapsAgreeIff` says exactly when. In this program the whole-string cap never meets
  over-long text (`ProjectIsBlockText`), so the difference is not felt.
- Shutdown does not always wait for the running turn: an admission result that arrives meanwhile ends the
  actor (`LeavesWithTurn`). `LeavesWithTurnIff` says that this, and the end of the loop's own context, are the
  only ways to leave a turn behind; `ShutdownCutShortIff` says when such a result can be outstanding.
- An admission result carries no tag, so a turn can start on the result of an earlier request
  (`EarlierResultStarts`). `StartsOnEarlierIff` says exactly when it can: the loop waits with an input queued,
  and a request that a retraction, a delegate's cancellation or an interrupt gave up is still in flight.

## Assumptions

- The Host delivers a command id once, ids of runs, attempts, events and commands are minted once, and an
  append reported as failed is not durable; a failed admission commit is the exception and may be durable.
- A turn folds only what a drain of the same turn gave it, each once, and hands back one terminal.
- Publications whose errors are only logged may be lost: the resolution step is claimed, not the append.
- Text lengths fit a 64-bit `int`.

## Model

| member | source | states |
|---|---|---|
| `Utf8.ValidIffEncoded` | internal/loopruntime/tool_result_spill.go:226-267 | the byte-by-byte notion of validity the scanner and the cutters use is section 4 of RFC 3629: a text is valid exactly when it is the encoding of some scalar values |
| `Utf8.DecodeEncoded` | internal/loopruntime/tool_result_spill.go:226-267 | decoding what was encoded gives the scalar value back, whatever follows it |
| `Utf8.FullRuneDecides` | internal/loopruntime/tool_result_spill.go:233-265 | once enough bytes are there to decide the first character, more bytes never change the decision |
| `ToolResultCapture.Utf8Scanner.Write` | internal/loopruntime/tool_result_spill.go:233-265 | the chunk loop, with its held-back bytes, leaves the state the whole text so far determines |
| `ToolResultCapture.ScannerEqualsWholeText` | internal/loopruntime/tool_result_spill.go:226-267 | for every sequence of chunks the incremental verdict equals validity of the concatenation; at most three bytes are held back; the state does not depend on the chunking |
| `ToolResultCapture.CaptureSink.Write` | internal/loopruntime/tool_result_spill.go:110-136 | one write against any reply of the backing: counters, latched failure, digest input and scanner become those of the specification, and the caller is always told the whole chunk was taken |
| `ToolResultCapture.HealthySinkKeepsPrefix` | internal/loopruntime/tool_result_spill.go:110-181 | a sink whose backing never fails retains exactly the first min(ceiling, offered) bytes; counts, truncation flag, digest input and encoding are functions of the concatenation |
| `ToolResultCapture.AnyBackingKeepsPrefix` | internal/loopruntime/tool_result_spill.go:110-181 | over every run against a backing that may fail or take less, the sink holds and classifies a prefix of what was offered, and the first failure is the one reported for ever after |
| `ToolResultCapture.BackingDecides` | internal/loopruntime/tool_result_spill.go:110-136 | whatever the backing does, the sink holds exactly the bytes it took while it was asked, and reports a failure if and only if it is the first there was: the backing's own error, or that it took less than it was given |
| `CompactionProjection.GuessSettles` | internal/loopruntime/compaction_projection.go:369-396 | for every over-long result the marker iteration reaches its fixed point within its eight rounds, so the fallback is never taken |
| `CompactionProjection.CapIsExact` | internal/loopruntime/compaction_projection.go:257-313 | for every over-long text the cap is exactly 2000 runes, a prefix and a suffix around a marker that prints exactly the number of runes left out, and capping it again changes nothing |
| `CompactionProjection.CapsAgreeIff` | internal/loopruntime/compaction_projection.go:369-396 | the whole-string cap and the fragment cap give the same text if and only if the text is short or the runes shown are well-formed (an ill-formed byte that is shown becomes U+FFFD in the whole-string form) |
| `CompactionProjection.CapsDifferAtFront` | internal/loopruntime/compaction_projection.go:369-396 | they differ on every over-long text that begins with an ill-formed byte |
| `CompactionProjection.CapsCanDiffer` | internal/loopruntime/compaction_projection.go:369-396 | texts that show it: one ill-formed byte before 2000 letters or more |
| `CompactionProjection.SettleMarker` | internal/loopruntime/compaction_projection.go:374-388 | the marker loop computes the guess the specification ends with, on every length |
| `CompactionProjection.CapToolResult` | internal/loopruntime/compaction_projection.go:369-396 | the whole-string method computes the whole-string cap |
| `CompactionProjection.RuneAccumulator.Append` | internal/loopruntime/compaction_projection.go:243-255 | one more fragment: the head holds the first 2000 and slot j mod 2000 of the ring holds fragment j |
| `CompactionProjection.RuneAccumulator.AppendString` | internal/loopruntime/compaction_projection.go:229-241 | a string is fed as its fragments, in order |
| `CompactionProjection.RuneAccumulator.WriteFragmentsRing` | internal/loopruntime/compaction_projection.go:308-313 | reading the ring from the computed slot yields exactly the last fragments, unwrapped |
| `CompactionProjection.RuneAccumulator.Text` | internal/loopruntime/compaction_projection.go:257-292 | what head, ring and total render is the cap of everything that was fed |
| `CompactionProjection.StreamingEqualsWhole` | internal/loopruntime/compaction_projection.go:141-168 | for every list of blocks with valid texts, split however they are, the accumulator renders the whole-string cap of their concatenation |
| `CompactionProjection.ProjectIsBlockText` | internal/loopruntime/compaction_projection.go:170-227 | projecting a nested tool result and feeding it to the accumulator give the same text: the second cap is never felt |
| `CompactionProjection.ProjectsIff` | internal/loopruntime/compaction_projection.go:315-367 | a block projects exactly when nothing in it is nil or foreign and tool results nest at most 128 deep |
| `CompactionProjection.ProjectionIsValid` | internal/loopruntime/compaction_projection.go:315-367 | valid texts project to valid text at every level |
| `CompactionProjection.FragmentsSubadditive` | internal/loopruntime/compaction_projection.go:229-255 | joining texts never makes more runes, so pieces cut inside a character cannot push a body over the cap |
| `ToolResultShape.ShapeIsBounded` | internal/loopruntime/tool_result_shape.go:11-59 | for every byte string and positive limit the shaped text is valid UTF-8 within the limit: the normalized text, a prefix of it, or a prefix and a suffix that do not overlap around the marker |
| `ToolResultShape.MarkerCountIsExactIff` | internal/loopruntime/tool_result_shape.go:28-59 | for every byte string and limit for which the first marker fits, the number printed is exactly the number of source bytes left out if and only if not every one of the eight rounds makes the number a digit shorter with the room the last one gained moving the head cut or the tail cut; both numbers are named, and for valid input the bytes left out are those between the two cuts |
| `ToolResultShape.ChangesIffCutsMove` | internal/loopruntime/tool_result_shape.go:61-120 | more room changes the number if and only if it moves a cut, because characters of the normalized text and spans of the source begin at the same places; the difference is what lies behind the stretches gained |
| `MarkerRounds.BigGain` | internal/loopruntime/tool_result_shape.go:61-120 | a byte of room takes more than four off the number only if it completes an ill-formed run, and then the two bytes before it on that side took nothing |
| `MarkerRounds.FallingNeedsFourteen` | internal/loopruntime/tool_result_shape.go:36-48 | a number that falls in all eight rounds and would fall again began with fourteen digits or more, on a text with ill-formed runs |
| `MarkerRounds.MarkerCountIsExact` | internal/loopruntime/tool_result_shape.go:28-59 | so it is exact for valid text of any length an `int` can hold, and for arbitrary bytes below 10^13 |
| `MarkerMiscount.CountCanBeWrong` | internal/loopruntime/tool_result_shape.go:28-59 | and that bound is the best: a text of exactly 10^13 bytes in four ill-formed runs and some letters, where the marker prints 99 and 98 bytes are left out |
| `ToolResultShape.NoMarkerLongestPrefix` | internal/loopruntime/tool_result_shape.go:28-34 | when even the first marker does not fit, the longest prefix of whole characters within the limit is shown |
| `ToolResultShape.SpanWalkAccounts` | internal/loopruntime/tool_result_shape.go:61-93 | the span walk accounts for every source byte once: adjacent ranges add up and the whole normalized text is the whole source |
| `ToolResultShape.CutsAreTight` | internal/loopruntime/tool_result_shape.go:95-120 | both cuts fall on character boundaries and waste less than one character |
| `ToolResultShape.SettlesIff` | internal/loopruntime/tool_result_shape.go:28-48 | the loop ends on the guess after its last round whether it stops earlier or not, and that guess makes its own marker true if and only if some round lost no digit or the last room gained moves no cut |
| `ToolResultShape.SourceBytesForNormalizedRange` | internal/loopruntime/tool_result_shape.go:61-76 | the walk returns the source bytes behind a normalized range |
| `ToolResultShape.NextNormalizedSpan` | internal/loopruntime/tool_result_shape.go:78-93 | one span: a well-formed character, or a maximal run of ill-formed bytes shown as one replacement |
| `ToolResultShape.Utf8Boundary` | internal/loopruntime/tool_result_shape.go:95-106 | the head cut is the last character boundary within the budget |
| `ToolResultShape.Utf8TailBoundary` | internal/loopruntime/tool_result_shape.go:108-120 | the tail cut is the first character boundary within the budget from the end |
| `ToolResultShape.ShapeToolResultText` | internal/loopruntime/tool_result_shape.go:11-26 | the method computes the shaped text of the specification, for every text and limit |
| `EvidenceArguments.ValidEvidenceArguments` | internal/hustleruntime/tool_response.go:316-401 | the loop over an explicit stack accepts exactly what the abstract stack machine accepts, for every token stream and every way the decoder can stop |
| `EvidenceArguments.AcceptsIffArgumentObject` | internal/hustleruntime/tool_response.go:316-401 | the machine accepts a stream if and only if it is, read whole, one object of sections 4 and 5 of RFC 8259 with no repeated key in any object at any depth, within the depth, member and token limits |
| `EvidenceArguments.Complete` | internal/hustleruntime/tool_response.go:339-397 | every such object is accepted |
| `EvidenceArguments.Sound` | internal/hustleruntime/tool_response.go:339-397 | from an accepted stream the tree it was written from is recovered |
| `CompactionTail.ValidateBlocks` | internal/loopruntime/compaction_tail.go:255-308 | the recursive block check returns the first error the specification finds |
| `CompactionTail.CheckBlocksIs` | internal/loopruntime/compaction_tail.go:255-308 | blocks pass exactly when nothing in them is nil or foreign and tool results nest at most 128 deep |
| `TailErrors.CheckFinds` | internal/loopruntime/compaction_tail.go:255-308 | a block check reports an error if and only if it is that of the first block, in reading order, that is foreign or nested too deep |
| `CompactionTail.ValidateTranscript` | internal/loopruntime/compaction_tail.go:154-226 | the loop over messages with its open-call map returns the verdict and the pairs of the specification and fills in every token estimate |
| `CompactionTail.ValidIffCompletelyPaired` | internal/loopruntime/compaction_tail.go:154-226 | a transcript validates if and only if its messages are well-formed, its tail starts at a user message, and, said without any map, every call is closed by the next event about its id, every result closes a call, and no pair crosses the derived prefix |
| `TailErrors.ErrorIsFirstFault` | internal/loopruntime/compaction_tail.go:154-226 | validation fails with an error if and only if it is the first fault in the order of the messages: a message that is unknown, ill-formed or cannot be encoded, a missing anchor, a call or result that cannot be, a pair across the derived prefix, or at the end a call left open |
| `TailErrors.EventsAre` | internal/loopruntime/compaction_tail.go:187-225 | the calls it sees are exactly the tool-use blocks of assistant messages, and the results exactly the tool-result messages |
| `TailErrors.EventsInOrder` | internal/loopruntime/compaction_tail.go:187-225 | in the order of the messages, and one for each block or message |
| `TailErrors.PairsAreMatches` | internal/loopruntime/compaction_tail.go:187-225 | the pairs of a valid transcript are exactly its matching calls and results |
| `CompactionTail.BuildSegments` | internal/loopruntime/compaction_tail.go:128-152 | segments run from one user message to the next and carry the sum of their estimates, modulo 2^64 as the source adds them |
| `CompactionTail.ChooseSegments` | internal/loopruntime/compaction_tail.go:93-114 | in 64-bit arithmetic, the choice is the longest suffix within both limits, apart from the newest segment, which is always kept; the guards keep the running sum from wrapping around |
| `CompactionTail.BudgetedIsUnique` | internal/loopruntime/compaction_tail.go:93-114 | there is only one such choice |
| `CompactionTail.SegmentIndex` | internal/loopruntime/compaction_tail.go:116-126 | the newest segment starting at or before a message, or none |
| `CompactionTail.AdjustCut` | internal/loopruntime/compaction_tail.go:66-84 | the adjusting loop terminates inside the segment range at the greatest segment, at or before the choice, whose start splits no call from its result |
| `CompactionTail.SelectTail` | internal/loopruntime/compaction_tail.go:38-91 | every limit and transcript: the first failing check, or head and retained that together are the transcript, cut at that segment |
| `CompactionTail.SelectionKeepsPairs` | internal/loopruntime/compaction_tail.go:66-90 | a selection splits no pair, starts at a user message past the derived prefix, and is empty only when there is nothing but derived messages |
| `CompactionTail.NoCallLosesItsResult` | internal/loopruntime/compaction_tail.go:66-90 | every call of a valid transcript stays on the same side of the cut as its result, in terms of the events alone |
| `CompactionTail.ClosedAtCut` | internal/loopruntime/compaction_tail.go:191-225 | where a cut splits no pair, no call is open |
| `CompactionTail.TailIsValidAgain` | internal/loopruntime/compaction_tail.go:154-226 | the summary and the retained tail, with a derived prefix of one, pass the same validation |
| `CompactionTail.CompactionShrinks` | internal/loopruntime/compaction_executor.go:41-65 | an accepted candidate leaves a well-paired history whose genuine messages are a suffix of the old ones and strictly fewer |
| `CompactionTail.AppendKeepsPairs` | internal/loopruntime/loop.go:3418-3420 | a whole turn appended to a well-paired history leaves it well-paired: no call of one is matched by a result of the other |
| `CompactionTail.CompactionsKeepPairs` | internal/loopruntime/context_replacement.go:73-83 | through any sequence of turns and compactions, each under limits of its own, the history stays well-paired, and its genuine messages are, untouched and in order, the end of everything said, shorter by at least one message for each compaction |
| `ContextReplacement.LoopContext.CommitMutation` | internal/loopruntime/context.go:129-149 | a mutation changes history and basis only if preflight and append both succeed, and then raises the revision by one |
| `ContextReplacement.LoopContext.AcceptMeasurement` | internal/loopruntime/loop.go:3069-3103 | a measurement is taken only at the current basis and generation |
| `ContextReplacement.LoopContext.FinishCompaction` | internal/loopruntime/context_replacement.go:31-83 | the outcome is applied exactly when nothing moved and the terminal is appended; otherwise nothing changes |
| `ContextReplacement.ReplacesWhatItSummarised` | internal/loopruntime/context_replacement.go:73-83 | over every run, when a compaction is applied the live messages are the selected head followed by the retained tail, and they become the summary followed by that tail, untouched |
| `ContextReplacement.ChangeForcesRejection` | internal/loopruntime/loop.go:3237-3311 | any turn start, step, fold or configuration change between start and outcome makes the outcome a rejection that leaves the history alone |
| `ContextReplacement.ChangeAfterCapture` | internal/loopruntime/loop.go:3112-3117 | so does one between the capture of the candidate and its start |
| `ContextReplacement.ReplacementKeepsPairs` | internal/loopruntime/context_replacement.go:73-83 | with a selection of the tail algorithm, replacement keeps the history well-paired and shrinks it |
| `ContextLedger.AppliedIff` | internal/loopruntime/context_replacement.go:31-83 | over every run, an outcome is applied if and only if no change was committed since the attempt's basis, the last measurement accepted is of that basis, model and request, the count is good, the terminal has an id and a revision, and it was appended; otherwise nothing changes; earlier compactions do not matter |
| `ContextLedger.HistoryIs` | internal/loopruntime/context.go:129-149 | the live history is what was there at first, or the last summary and the tail it retained, and then everything committed since; the revision counts its changes |
| `ContextLedger.MeasurementIs` | internal/loopruntime/loop.go:3069-3103 | the measurement the loop holds is the last one accepted, if no change was committed since |
| `CompactionSlot.CompactionControl.AdmitCommand` | internal/loopruntime/compaction_control.go:227-272 | opening, joining, duplicate and full, and the new waiter list |
| `CompactionSlot.SortIsInsert` | internal/loopruntime/compaction_control.go:263-271 | however the joined list is sorted, there is one result: the canonical insertion |
| `CompactionSlot.CompactionControl.ReachBoundary` | internal/loopruntime/compaction_control.go:318-343 | shutdown and interrupt outrank starting, and only a rejection clears the slot |
| `CompactionSlot.CompactionControl.CompleteAttempt` | internal/loopruntime/compaction_control.go:345-357 | only the pending attempt is cleared |
| `CompactionSlot.CompactionFinalizer.FinalizeAttempt` | internal/loopruntime/compaction_finalization.go:262-309 | the first terminal of an attempt stands; a repeat appends nothing |
| `CompactionSlot.CompactionFinalizer.PublishWaiterOutcomes` | internal/loopruntime/compaction_finalization.go:358-372 | the waiters are told in order up to the first failing append |
| `CompactionSlot.AtMostOneTerminal` | internal/loopruntime/compaction_finalization.go:262-309 | over every run, failures included, an attempt has at most one terminal |
| `CompactionSlot.WaitersAreCanonical` | internal/loopruntime/compaction_control.go:253-272 | over every run the waiters are distinct, bounded by the capacity and in canonical order |
| `CompactionSlot.ExactlyOneOutcome` | internal/loopruntime/loop.go:1054-1079 | without an append or mint failure each command admitted to an attempt that has left the slot has exactly one outcome, and one admitted to the pending attempt has none yet |
| `CompactionSlot.OutcomesAgree` | internal/loopruntime/compaction_finalization.go:358-405 | an outcome says what the terminal of its attempt says, and without a terminal it is a rejection |
| `CompactionSignals.FlagsAreSignals` | internal/loopruntime/compaction_control.go:293-310 | the two flags say exactly that an interrupt came while the pending attempt was pending, and that a shutdown came |
| `CompactionSignals.BoundaryObeysSignals` | internal/loopruntime/compaction_control.go:315-343 | at a boundary a pending attempt is started if and only if neither signal came; otherwise the slot is freed, there is no terminal, and the waiters are told of a rejection in order |
| `CompactionSignals.SignalOutranksStart` | internal/loopruntime/compaction_control.go:315-343 | an attempt signalled before its boundary is never in progress at any time, gets no terminal from then on, and whatever its waiters are told is a rejection |
| `CompactionSignals.StartedUnsignalled` | internal/loopruntime/compaction_control.go:315-335 | an attempt in progress was started at a boundary before which no signal came |
| `CompactionSignals.OutcomeObeysSignals` | internal/loopruntime/loop.go:3237-3301 | the first appended terminal says success if and only if the work succeeded and no signal had come, and exactly when the slot is freed |
| `CompactionSignals.WhoWaits` | internal/loopruntime/compaction_control.go:227-272 | who waits after a command: the one that opens an attempt, and every other that is not waiting yet and finds room |
| `CompactionSignals.BasisStays` | internal/loopruntime/compaction_control.go:274-283 | the basis of an attempt is the first usable one it was given, and stays |
| `CompactionSignals.FailedIff` | internal/loopruntime/compaction_finalization.go:262-405 | the runs about which nothing more is claimed are exactly those in which a mint or an append failed or an attempt was given up |
| `AcceptedInput.RunKeeps` | internal/loopruntime/loop.go:1844-2065 | in every state of every run each input is accounted for once, drained and queued inputs are in the order of acceptance, and a live turn can fold only what is draining |
| `AcceptedInput.ExactlyOnePlace` | internal/loopruntime/loop.go:2070-2201 | every input seen is in exactly one of inbox, draining, answered and carried over, stale admission results and targeted cancels included |
| `AcceptedInput.AnsweredOnce` | internal/loopruntime/loop.go:1785-1829 | no input is resolved twice |
| `AcceptedInput.LeavesNothingUnresolved` | internal/loopruntime/loop.go:2027-2043 | an actor that left, other than by a closed command channel, has answered every input or carries it over, and what it carries over has a durable acceptance |
| `AcceptedInput.OrderIsKept` | internal/loopruntime/loop.go:2050-2066 | draining followed by inbox is in the order of acceptance |
| `AcceptedInput.StepCause` | internal/loopruntime/loop.go:1652-1757 | a live turn goes on with its cause unless this very step started or resumed it |
| `AcceptedInput.DrainingWithoutATurn` | internal/loopruntime/loop.go:2366-2395 | in a reachable state without a turn something is draining if and only if a turn that ended normally, or was cancelled by its own request, left entries it had not folded and no interrupt, failed turn, failed admission or end of the loop has cleared them since |
| `AcceptedInput.TargetedCancelStrands` | internal/loopruntime/loop.go:2373-2378 | the input that shows it: a cancelled request leaves the loop idle with an accepted input draining and no turn to fold it |
| `AcceptedInput.TwoSubmits` | internal/loopruntime/loop.go:1844-1896 | and the run that leads there |
| `Fates.FateIsMet` | internal/loopruntime/loop.go:1844-2395 | over every run and step, an input in line meets exactly the fate the guards of the arms give it: it stays, drains, is answered and how, or is carried over |
| `Fates.ArrivalIsMet` | internal/loopruntime/loop.go:1844-2009 | and so does the input a submit, delegate or runtime admission brings: queued as what, started, refused and how, or not taken |
| `Fates.QueuesAreMet` | internal/loopruntime/loop.go:2027-2160 | inbox and draining hold exactly what those fates put there |
| `Fates.StatusIs` | internal/loopruntime/loop.go:2084-2126 | whether the loop is idle, waiting, running or shutting down after a step |
| `Fates.FlagsAre` | internal/loopruntime/loop.go:2246-2279 | when the running turn can still be cancelled, and when it counts as cancelled for its own request |
| `Fates.LeavesIff` | internal/loopruntime/loop.go:2746-2781 | the steps with which an actor leaves by itself |
| `Fates.StartedIsTheCause` | internal/loopruntime/loop.go:1652-1757 | whoever is told that its turn started is the cause of the turn that runs |
| `Fates.InterruptKeepsHumans` | internal/loopruntime/loop.go:2379-2385 | at the end of an interrupted turn everything people sent stays queued in order and its first is started, fails to start or makes the loop wait; everything machines sent is returned, once |
| `Fates.FailureGivesBackAll` | internal/loopruntime/loop.go:2355-2395 | a turn that failed, or whose end could not be committed, gives everything back, once, and starts nothing |
| `AcceptedInput.LeavesWithTurnIff` | internal/loopruntime/loop.go:3313-3322 | when an actor leaves by itself its turn is still running if and only if it left on an admission result while shutting down, or on the end of the loop's context during a turn |
| `AcceptedInput.LeavesWithTurn` | internal/loopruntime/loop.go:3315-3321 | the run that shows it, on a gated loop: submit, retract, submit, admission, shutdown, and the other request's result |
| `LateAdmission.WaitEndsIff` | internal/loopruntime/loop.go:2182-2279 | which arms give up the request a waiting loop made: a retraction or delegate cancellation of the only queued input, an interrupt that leaves no human input, a shutdown, and no other |
| `LateAdmission.Balance` | internal/loopruntime/loop.go:2104-2124 | in every reachable state the requests in flight are the one waited for and those given up in flight, less the results taken in vain and the goroutines gone |
| `LateAdmission.LateIff` | internal/loopruntime/loop.go:2104-2124 | a result nobody waits for is outstanding if and only if more requests were given up in flight than were absorbed since |
| `LateAdmission.StartsOnEarlierIff` | internal/loopruntime/loop.go:3313-3361 | a turn can start on an earlier request's result if and only if the loop waits with an input queued and such a result is outstanding |
| `LateAdmission.TakesItsOwn` | internal/loopruntime/loop.go:3313-3361 | as long as no arm has given a request up in flight, every result the loop takes is that of the request it waits for |
| `LateAdmission.ShutdownCutShortIff` | internal/loopruntime/loop.go:3315-3321 | while the loop shuts down every result that can arrive is one nobody waits for, any one ends the actor with its turn running, and one is outstanding if and only if more requests were given up than absorbed |
| `LateAdmission.EarlierResultStarts` | internal/loopruntime/loop.go:2104-2124 | the run that shows both: the second input's turn starts on the first request's result, and the second request's own result ends the actor during shutdown |
| `OccupiedLoop.RunKeeps` | internal/loopruntime/compaction_control.go:218-225 | over every run of actor and slot together inputs and waiters are each accounted for, and the actor holds its inbox exactly while an attempt is pending |
| `OccupiedLoop.OccupiedFreezes` | internal/loopruntime/loop.go:2084-2160 | from the opening of an attempt until it is cleared nothing new starts draining and no new admission is asked for |
| `OccupiedLoop.OccupiedFolds` | internal/loopruntime/loop.go:3396-3430 | what folds meanwhile was draining before the attempt was opened |
| `OccupiedLoop.StartsWhileOccupied` | internal/loopruntime/loop.go:3313-3373 | a queued input starts meanwhile if and only if the step is the arrival of an admission, and then the loop has been waiting for it since before the attempt was opened |
| `OccupiedLoop.NothingStartsUnlessWaiting` | internal/loopruntime/compaction_control.go:218-225 | a loop that does not wait for admission when an attempt is opened starts nothing until the slot is cleared |
| `OccupiedLoop.WaitingCanStart` | internal/loopruntime/loop.go:3313-3373 | and one that waits, with an input queued, starts it as soon as the admission comes |
| `OccupiedLoop.StartsDespiteCompaction` | internal/loopruntime/loop.go:3335-3361 | the run that shows it: submit, compact, admission |
| `OccupiedLoop.ResumesIff` | internal/loopruntime/loop.go:921-925 | an idle loop with queued input goes on with it when the slot is freed if and only if everything about the attempt was published |
| `OccupiedLoop.ShutdownEndsAttempt` | internal/loopruntime/loop.go:2746-2781 | a shutdown that finds no turn running rejects an attempt that has not started and leaves one in progress to its outcome |
| `LoopActor.Loop.constructor` | internal/loopruntime/loop.go:902-921 | a loop starts idle with empty queues |
| `LoopActor.Loop.ReturnQueuedInbox` | internal/loopruntime/loop.go:2027-2043 | both queues are swept, draining first, carry-over entries kept when the loop goes away |
| `LoopActor.Loop.RetainUserQueuedInbox` | internal/loopruntime/loop.go:2050-2066 | human entries stay in order, machine entries are returned |
| `LoopActor.Loop.RequestStartAdmission` | internal/loopruntime/loop.go:2084-2126 | when an admission is requested, when a turn starts at once, and what a failed start answers |
| `LoopActor.Loop.DecideSubmit` | internal/loopruntime/loop.go:1844-1897 | every branch of a submit |
| `LoopActor.Loop.AdmitDelegate` | internal/loopruntime/loop.go:1902-1950 | every branch of a delegate admission |
| `LoopActor.Loop.AdmitRuntimeInput` | internal/loopruntime/loop.go:1961-2009 | every branch of a Host admission, and exactly when it replies success |
| `LoopActor.Loop.FindQueued` | internal/loopruntime/loop.go:2182-2201 | the first entry of an id, and the queue without it |
| `LoopActor.Loop.CancelQueuedInput` | internal/loopruntime/loop.go:2182-2201 | a retraction |
| `LoopActor.Loop.CancelDelegateRequest` | internal/loopruntime/loop.go:2246-2279 | a targeted cancellation, queued or active |
| `LoopActor.Loop.HandleInterrupt` | internal/loopruntime/loop.go:2697-2744 | the interrupt arm |
| `LoopActor.Loop.HandleShutdown` | internal/loopruntime/loop.go:2746-2781 | the shutdown arm, and exactly when it leaves |
| `LoopActor.Loop.DrainInbox` | internal/loopruntime/loop.go:2135-2160 | the leading foldable entries move to draining, in order, and are the reply; nothing moves while compaction blocks |
| `LoopActor.Loop.CommitFold` | internal/loopruntime/loop.go:3396-3430 | a committed fold leaves draining |
| `LoopActor.Loop.HandleAdmission` | internal/loopruntime/loop.go:3313-3373 | the admission arm, stale results included |
| `LoopActor.Loop.HandleTurnResult` | internal/loopruntime/loop.go:2325-2395 | the end of a turn |
| `LoopActor.Loop.HandleCancelled` | internal/loopruntime/loop.go:3456-3497 | the end of the loop's context |
| `LoopActor.Loop.ReleaseSlot` | internal/loopruntime/loop.go:921-925 | the slot is free again, and the inbox is resumed from or not |
| `LoopActor.Loop.Serve` | internal/loopruntime/loop.go:2880-3500 | one turn of the select, whichever arm is ready: the object moves as the machine does and keeps its invariant |
| `LoopActor.Loop.RunLoop` | internal/loopruntime/loop.go:898-3500 | over any schedule of arms the object goes through exactly that run, every input it ever took is in exactly one place at the end, and an actor that left by itself holds nothing |
| `AdmittedReplay.PlanAppliedAdmittedInputs` | internal/sessionruntime/admitted_input_replay.go:49-98 | the two loops compute the plan of the specification, and every entry of it is an input as first recorded: its loop and its blocks |
| `AdmittedReplay.PlanIs` | internal/sessionruntime/admitted_input_replay.go:49-98 | an id is planned if and only if some applied disposition of an input names it, no event names it as its cause, and its first recorded intent carries blocks |
| `AdmittedReplay.PlanOrdered` | internal/sessionruntime/admitted_input_replay.go:55-82 | the plan follows the first applied dispositions in the journal and names no input twice |
| `AdmittedReplay.PlanAsRecorded` | internal/sessionruntime/admitted_input_replay.go:84-96 | every entry of the plan carries the first recorded intent of its input |
| `AdmittedReplay.RunKeepsSystem` | internal/sessionruntime/admitted_input_replay.go:100-160 | over every run of actor steps, ambiguous commits, lost publications, crashes, restores and replays, nothing the actor holds or still owes is resolved in the journal |
| `AdmittedReplay.NeverLostNeverTwice` | internal/sessionruntime/admitted_input_replay.go:49-98 | an input whose applied disposition and non-empty intent are durable has exactly one durable resolving event and is in no later plan, or none and is offered again by the next restore, once |
| `AdmittedReplay.HeldIsRecoverable` | internal/loopruntime/loop.go:1961-2008 | whatever the actor holds as carry-over is already applied and unresolved in the journal, so a crash at that moment loses nothing |
| `AdmittedReplay.OfferIsHeldOrAnswered` | internal/sessionruntime/admitted_input_replay.go:119-160 | a replay the actor takes is from then on in exactly one place; one it refuses changes nothing in the actor, stays unresolved, and with a recorded intent is planned again |
| `AdmittedReplay.OffersAsRecorded` | internal/sessionruntime/admitted_input_replay.go:100-160 | over every run, whatever a restore still has to offer, and so whatever it offers, is an input as the journal first recorded it, however much was recorded since |
| `CheckpointController.RunKeeps` | internal/sessionruntime/checkpoint_controller.go:329-389 | the invariant over every interleaving of the controller's locked sections and of what callers do between them |
| `CheckpointController.RequestInOnePlace` | internal/sessionruntime/checkpoint_controller.go:684-759 | each number issued is in exactly one of completed, finished out of order, queued, running and being settled, and no other number is anywhere |
| `CheckpointController.WatermarkIsLongestPrefix` | internal/sessionruntime/checkpoint_controller.go:761-795 | the watermark is the longest prefix of the numbers recorded so far, whatever order they came in |
| `CheckpointController.StartsInOrder` | internal/sessionruntime/checkpoint_controller.go:741-759 | requests start in the order of their numbers, whatever is withdrawn between |
| `CheckpointLaws.WithdrawsItsOwn` | internal/sessionruntime/checkpoint_controller.go:716-733 | a withdrawal takes exactly the request it names off the queue, if it is still there, leaves the others in order, and gives its caller that one to settle |
| `CheckpointLaws.LeavesTheQueue` | internal/sessionruntime/checkpoint_controller.go:716-759 | a request leaves the queue if and only if its own withdrawal takes it or it is run in its turn |
| `CheckpointLaws.WithdrawnIsNeverRun` | internal/sessionruntime/checkpoint_controller.go:716-733 | a request withdrawn in time is never run, at any later state |
| `CheckpointLaws.SettlingWasWithdrawn` | internal/sessionruntime/checkpoint_controller.go:716-733 | what a caller has to settle is a request its own withdrawal took off the queue |
| `CheckpointController.SweepIsToldTheTruth` | internal/sessionruntime/checkpoint_controller.go:222-320 | under a required policy on step or turn end, a sweep that was resolved was registered at one step, taken by an idle edge at a later one and told after that edge's own end, when every request issued before the taking is recorded; it blames no request without cause; and what it is told is true of its edge and of the requests issued between registration and taking if and only if the edge failed or shutdown did not take it out of its map, while the edge was open, before the first of its failures was recorded |
| `CheckpointController.ShutdownCanHideAFailure` | internal/sessionruntime/checkpoint_controller.go:329-346 | the run that shows it: success told although a covered request was recorded failed |
| `CheckpointController.ReadySweepIsToldTheTruth` | internal/sessionruntime/checkpoint_controller.go:436-484 | without deferral a sweep is told of exactly the failures recorded before its edge took it, or of the edge's own |
| `CheckpointController.ShutdownBlamesTruly` | internal/sessionruntime/checkpoint_controller.go:297-305 | a sweep that shutdown ends for a request names one that failed after its registration |
| `CheckpointController.AnswerIsFinal` | internal/sessionruntime/checkpoint_controller.go:186-196 | a sweep is told at most once |
| `CheckpointController.NoSweepIsStranded` | internal/sessionruntime/checkpoint_controller.go:307-320 | every sweep begun was told, or waits in one map, for its edge, for a caller that holds it or for shutdown, and one deferred past its edge waits for a request not yet recorded |
| `CheckpointController.QuietMeansTold` | internal/sessionruntime/checkpoint_controller.go:297-346 | when no edge is open, every request is recorded and nobody holds a sweep, every sweep begun was told |
| `CheckpointController.CountIsWorkers` | internal/sessionruntime/checkpoint_controller.go:366-382 | the worker count is the number of live workers of every kind, and a non-empty queue always has a runner |
| `CheckpointController.NoWorkerAfterShutdown` | internal/sessionruntime/checkpoint_controller.go:329-352 | once shutdown has begun no worker starts, and the drain channel closes at zero and stays closed |
| `CheckpointLaws.PendingWaitsForSomebody` | internal/sessionruntime/checkpoint_controller.go:842-873 | in every reachable state a pending trigger waits for an active walk or a manual operation, never after a shutdown |
| `CheckpointLaws.PendingIs` | internal/sessionruntime/checkpoint_controller.go:563-613 | when a trigger is pending: it is walked by the step that ends the last thing it waits for, unless progress or a shutdown drops it |
| `CheckpointLaws.ActiveIs` | internal/sessionruntime/checkpoint_controller.go:563-613 | exactly when a walk is active |
| `CheckpointLaws.ManualsAre` | internal/sessionruntime/checkpoint_controller.go:526-560 | the manual operations under way are those begun before a shutdown less those finished |
| `CheckpointRuntime.Checkpoints.constructor` | internal/sessionruntime/checkpoint_controller.go:207-220 | a new controller is drained and empty |
| `CheckpointRuntime.Checkpoints.EnqueueRequired` | internal/sessionruntime/checkpoint_controller.go:690-707 | the first section of a required request |
| `CheckpointRuntime.Checkpoints.WithdrawRequired` | internal/sessionruntime/checkpoint_controller.go:716-733 | a caller that gives up takes back exactly its own request, if it has not started |
| `CheckpointRuntime.Checkpoints.TakeRequired` | internal/sessionruntime/checkpoint_controller.go:741-752 | one turn of the runner |
| `CheckpointRuntime.Checkpoints.AdvanceWatermark` | internal/sessionruntime/checkpoint_controller.go:776-783 | the loop that moves the watermark |
| `CheckpointRuntime.Checkpoints.RecordRequiredCompletion` | internal/sessionruntime/checkpoint_controller.go:761-795 | numbers, blame and readiness after one completion |
| `CheckpointRuntime.Checkpoints.BeginInterruptSweep` | internal/sessionruntime/checkpoint_controller.go:222-243 | a registration, before and after shutdown |
| `CheckpointRuntime.Checkpoints.TransferInterruptSweeps` | internal/sessionruntime/checkpoint_controller.go:263-295 | every live sweep is handed to the edge, ready or deferred, with the cutoff fixed, and the caller keeps the two slices |
| `CheckpointRuntime.Checkpoints.FinishIdleEdge` | internal/sessionruntime/checkpoint_controller.go:307-320 | the edge's end, on the slices it took whatever the maps hold by then |
| `CheckpointRuntime.Checkpoints.ResolveSettled` | internal/sessionruntime/checkpoint_controller.go:297-305 | one telling through the once-guard |
| `CheckpointRuntime.Checkpoints.CancelSweep` | internal/sessionruntime/checkpoint_controller.go:186-196 | a caller gives up |
| `CheckpointRuntime.Checkpoints.Leave` | internal/sessionruntime/checkpoint_controller.go:374-382 | the last worker out closes the drain channel |
| `CheckpointRuntime.Checkpoints.BeginShutdown` | internal/sessionruntime/checkpoint_controller.go:329-343 | the locked section: closing, with every sweep of both maps taken out and kept in a slice |
| `CheckpointRuntime.Checkpoints.EndSweep` | internal/sessionruntime/checkpoint_controller.go:344-346 | after the section, one telling of that slice |
| `CheckpointRuntime.Checkpoints.FinishBestEffort` | internal/sessionruntime/checkpoint_controller.go:842-864 | a finished walk starts the pending one, never after shutdown |
| `CheckpointRuntime.Checkpoints.BestEffortBoundary` | internal/sessionruntime/checkpoint_controller.go:563-579 | the first section of a best-effort boundary: without an active walk it starts one, never after shutdown |
| `CheckpointRuntime.Checkpoints.RejoinBoundary` | internal/sessionruntime/checkpoint_controller.go:594-613 | its second section: a walk of its own, or pending |
| `CheckpointRuntime.Checkpoints.BeginManualOperation` | internal/sessionruntime/checkpoint_controller.go:797-806 | a manual operation is a worker, refused after shutdown |
| `CheckpointRuntime.Checkpoints.FinishManual` | internal/sessionruntime/checkpoint_controller.go:545-556 | a finished manual operation starts the pending walk |
| `CheckpointRuntime.Checkpoints.Activated` | internal/sessionruntime/checkpoint_controller.go:810-824 | progress drops the pending walk |
| `CheckpointRuntime.Checkpoints.Serve` | internal/sessionruntime/checkpoint_controller.go:222-864 | one section under the mutex, whichever it is: the object moves as the machine does |
| `CheckpointRuntime.Checkpoints.RunSchedule` | internal/sessionruntime/checkpoint_controller.go:222-864 | over any interleaving of sections the object goes through exactly that run; at the end every request issued is in one place, what a result channel holds of a resolved sweep is true in the terms of the schedule unless its failure was missed, and once nobody is at work every sweep begun has its answer |
| `CheckpointRuntime.BlameAll` | internal/sessionruntime/checkpoint_controller.go:764-775 | exactly the sweeps the failed number belongs to learn of it |
| `CheckpointRuntime.SplitReady` | internal/sessionruntime/checkpoint_controller.go:784-790 | exactly the deferred sweeps that need not wait any longer leave the map |
| `CheckpointRuntime.MarkAll` | internal/sessionruntime/checkpoint_controller.go:310-317 | exactly the edge's sweeps learn of its end, and those whose requests are complete are given back |
| `CheckpointGate.WritersAreAlone` | internal/sessionruntime/checkpoint_admission.go:24-120 | in no interleaving is a writer inside together with a reader or another writer |
| `CheckpointGate.NoReaderPastAWaiter` | internal/sessionruntime/checkpoint_admission.go:24-49 | a reader is admitted only when no checkpoint waits or writes and no fault is latched |
| `CheckpointGate.ExecutionTriesIff` | internal/sessionruntime/checkpoint_admission.go:24-49 | an execution that tries is refused if and only if a fault is latched, let in if and only if none is and no checkpoint waits or writes, and otherwise waits |
| `CheckpointGate.CheckpointTriesIff` | internal/sessionruntime/checkpoint_admission.go:72-108 | a checkpoint that tries is let in if and only if nobody is inside, fault or not |
| `CheckpointGate.WaitingIsAnnounced` | internal/sessionruntime/checkpoint_admission.go:72-108 | the waiting count is the number of announced checkpoints on every path out of the wait, and the reader count the number of readers |
| `CheckpointGate.CountsPermit` | internal/sessionruntime/checkpoint_admission.go:65-115 | no decrement is of zero |
| `CheckpointGate.StepWakes` | internal/sessionruntime/checkpoint_admission.go:117-120 | a thread asleep on the current channel could not go on if it looked again, although acquiring the writer and entering as a reader do not notify |
| `CheckpointGate.NeverStuck` | internal/sessionruntime/checkpoint_admission.go:24-120 | while any thread is inside the gate some thread can move: no wakeup is lost |
| `CheckpointGate.AdmissionGate.TryEnterExecution` | internal/sessionruntime/checkpoint_admission.go:29-42 | one turn of a reader's loop |
| `CheckpointGate.AdmissionGate.TryEnterCheckpoint` | internal/sessionruntime/checkpoint_admission.go:87-97 | one turn of a checkpoint's loop |
| `CheckpointGate.AdmissionGate.AbandonCheckpoint` | internal/sessionruntime/checkpoint_admission.go:80-86 | a cancelled wait is taken back and announced |
| `Lane.RunKeeps` | internal/hustleruntime/lane.go:39-140 | in every reachable lane state executing and owned are the numbers of runs in those states and within their bounds, the queue is exactly the queued runs in order, no run was granted past an earlier queued one, and an open lane with a free slot has an empty queue or an ineligible head |
| `Lane.GrantSound` | internal/hustleruntime/lane.go:57-74 | granting ends with nothing left to grant and breaks none of it |
| `Lane.GrantFirstFair` | internal/hustleruntime/lane.go:57-74 | the run granted came before every run still queued |
| `Lane.StepLeaves` | internal/hustleruntime/lane.go:39-140 | a step leaves every other run as it was, or grants it if it was queued and eligible |
| `Lane.AdmittedIff` | internal/hustleruntime/lane.go:39-55 | a run is refused if and only if the lane was closed or all its places, concurrent and queued, are taken by unfinished runs |
| `Lane.StatesFollow` | internal/hustleruntime/lane.go:57-140 | over every run a step moves a run only as it asks and only from the state it has to be in, or grants an eligible queued one; eligibility is given exactly while queued, open and not cancelled |
| `Lane.HustleLane.constructor` | internal/hustleruntime/lane.go:31-37 | capacity is concurrent plus queued |
| `Lane.HustleLane.GrantLocked` | internal/hustleruntime/lane.go:57-74 | the grant loop computes the grants of the specification |
| `Lane.HustleLane.Admit` | internal/hustleruntime/lane.go:39-55 | admission, and exactly when it is refused |
| `Lane.HustleLane.MakeRunEligible` | internal/hustleruntime/lane.go:76-85 | eligibility, and exactly when it is refused |
| `Lane.HustleLane.CancelQueuedRun` | internal/hustleruntime/lane.go:87-102 | only a queued run is cancelled, and its slot is offered on |
| `Lane.HustleLane.BeginFinalizingRun` | internal/hustleruntime/lane.go:104-114 | only an executing run begins to finalize |
| `Lane.HustleLane.CompleteRun` | internal/hustleruntime/lane.go:116-123 | only a finalizing run completes |
| `Lane.HustleLane.CloseQueuedRuns` | internal/hustleruntime/lane.go:125-140 | closing takes every queued run, once |
| `HustleController.RunKeeps` | internal/hustleruntime/controller.go:192-292 | the invariant over every interleaving of run threads, closers and finish bodies |
| `HustleController.FinalizerExactlyOnce` | internal/hustleruntime/controller.go:246-292 | across grant, caller cancel, session cancel, close, poison and setup failure the finalizer of an owned run is called at most once, and exactly once when the run is done; the lane never refuses |
| `HustleController.NoErrorOnlyIfGranted` | internal/hustleruntime/controller.go:192-216 | waiting gives no error only for a granted run, and so does the whole call |
| `HustleController.ErrorIff` | internal/hustleruntime/controller.go:246-292 | the call reports an error if and only if the run was not granted, or the work, its finalizer or the cleanup failed |
| `HustleController.OwnedIff` | internal/hustleruntime/controller.go:107-143 | a run is owned if and only if nothing closed or poisoned the controller before and its lane has a place |
| `HustleController.NobodyIsForgotten` | internal/hustleruntime/execution.go:169-250 | a run whose finish has not begun is queued or executing, or its own thread or a closer is about to begin it |
| `HustleController.DrainedMeansFinished` | internal/hustleruntime/controller.go:145-175 | the drain signal is given at most once, and exactly when admission has closed and every run ever owned has been finalized, cleaned up and completed |
| `HustleController.NothingOwnedAfterClose` | internal/hustleruntime/controller.go:328-370 | once admission has closed nothing is owned any more |

## Left out

- `CheckpointController.RequestInOnePlace`: the 64-bit request and sweep counters do not wrap around.
- `Lane.RunKeeps`: the 64-bit sequence counter does not wrap around.
- `HustleController.RunKeeps`: ownership is modelled on values, because what it is about is the
  interleaving of threads; the lanes beneath it are objects as well.
- `AcceptedInput.RunKeeps`: admission results may arrive at any time, which includes every late one and
  some that no request would cause; `LateAdmission.dfy` has only those a request causes.
- `OccupiedLoop.RunKeeps`: a boundary may be reached at any time, which includes every one the source
  dispatches and some it does not.
- `CompactionTail.AppendKeepsPairs`: that a turn appends only complete pairs of calls and results is a
  condition of it; the tool loop that establishes it is not part of this model.
- `CompactionSlot.ExactlyOneOutcome`: nothing is claimed after a failed append or mint, and a refusal for
  want of room is logged without being counted as an outcome of an admitted command.
- File-system work of capture spilling: operating-system calls without logic of their own.
- Inference clients, hooks, tool execution, middleware and permission gates: steps that may fail.
- The executor's run table, retained-tail preflight and summary preparation: single-branch checks.
- The order of controls at a compaction boundary: they are steps that come before the boundary's own.
- Measurement, pressure levels and automatic triggering: only basis, generation, model and fingerprint
  matter to replacement.
- Preflight of a whole tool response and its byte totals: plain branching over sums.
- Process notifications, mode, inference and toolset changes beyond their effect on the basis.
- Event stamping, headers, fingerprints and JSON encoding: opaque.
