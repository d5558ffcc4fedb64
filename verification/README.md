# NimbleBrain conversation core: a verified model

NimbleBrain keeps a conversation as an append-only event log and derives everything else from it: the message
list a model sees, the compacted view of a long conversation, the window that fits a token budget, forks,
listings, and the live stream a viewer follows. This project models that derivation in Dafny and proves what it
is trusted for. A second group of modules covers three small stateful components beside it: the request rate
limiter, the promotion metrics and the canonical printing behind the argument digest.

`dafny verify dfyconfig.toml` checks everything.

## How it is modelled

- A log is a `seq<Event>`, a history a `seq<Message>`. A timestamp is an integer number of milliseconds; the
  source compares fixed-width ISO texts, which `IsoOrder` proves to order the same way. Where a theorem needs
  timestamps to be monotonic, strictly or not, it says so.
- The loops that the modelled code runs are methods with their own loops, in the module of what they compute;
  maps, filters and replacements by a regular expression are functions. Every object whose methods update its
  fields is a class
  (`RunCollections`, `MessageList`, `DerivedMetrics`, `ConversationIndex`, `ConversationLocator`,
  `EventSourcedConversationStore`, `RequestRateLimiter`, `ConversationEventManager`, `RunBus`,
  `MetricsEventSink`). Each method is proved equal to a function of its inputs or of the old state, and the
  theorems are about those functions.
- Fixed texts (markers, the summary seed, the truncation notice) are records of strings, and the theorems hold
  for any wording; `ENGLISH` and `SEED_WORDING` give the source's own. The escaping of closing tags, trimming,
  joining, ISO timestamps and grouped digits are modelled character by character.
- The token estimate of a message, the price of a call, the sort key of a listing and its search and access
  filter are arbitrary functions, so what is proved holds for each of them.
- The summary a model writes, the clock, new ids and the writes that fail are parameters. A directory is a map
  from conversation id to lines, and an operation on it is atomic.

## What is proved

Replay. A user message or a run start ends whatever came before it without being consumed, so a log replays part
by part (`BuildSplit`), appending whole turns never changes what was replayed (`ReconstructionGrows`), and any log
at all, unfinished, cancelled or interleaved, replays to a well-formed history (`HistoryIsWellFormed`). Its turns
stand in the order of the log and say what their events say: each user message and each response that says anything
has its one message, with its parts, its time and its calls' results (`HistoryStems`, `SpanAnswers`, `SpanResults`).

Compaction. The list a fold returns in memory is the list a later reload rebuilds from the log, however often the
log was compacted before. In a log with increasing timestamps this holds exactly when the message the plan
snapped to is a user turn and not a synthetic overlay (`FoldAgreesIffUserTurn`). At the default options, for every
budget with room for a message and every token estimate that follows the length of a text, there is a log on which
they disagree (`FoldAndReloadDisagree`, `SuchLogsExist`). Messages that share the boundary's time are kept too much
and never lost (`TieKeepsMore`). When a fold fires is stated exactly (`PlanFiresWhen`), and so is what its seed says
(`FoldOpensWithSummary`, `ReloadOpensWithSummary`). Operator turns never decay, and folding always comes to an end.

Windowing. The window is greedy, maximal, idempotent and monotone in its budget. A window that was cut keeps every
call beside its results exactly when the anchor makes no call (`WindowKeepsPairing`), as no log that was compacted
or opens with a user message replays to one that does.

Store, listings and streams. A listener that re-reads only what is announced equals a full rescan; paging is a
partition, over one directory or one workspace; a viewer that connects anywhere in a turn carries consecutive
sequence numbers from its cursor on, and what a cursor costs it is stated exactly (`CursorMisses`).

Beside the conversation. Fewer than twice the limit is admitted in any interval of a window's length, a bound that
is reached; a limit of 0 still admits the request that opens a window. Promotion samples are conserved over every
trace. Two argument values print alike exactly when they are equal ignoring key order. A skill's body cannot close
the fence it is delivered in, in any case or spacing.

## Where the code and its documentation differ

The model follows the code.

- Planning is documented to cut at a user turn, and replay to agree with it when timestamps are monotonic. The
  plan accepts any message of role `user`, a replayed connector overlay included
  (src/conversation/compaction.ts:160-162); then fold and reload differ.
- `boundBlocks` is documented to keep blocks that fit `budgetTokens` at four characters a token. A truncated block
  ends in an ellipsis beyond its room, so it passes that budget, by exactly one character when the budget covers
  the block's wrapper (`BoundedCost`, `LongBlockIsOver`). The budget is well below the summarizer's context.
- The retained operator block is documented never to exceed its cap. The cap bounds the lines and not the tags and
  preamble around them. Which folded turns give a block over the cap is stated on the turns themselves
  (`BlockPassesCap`); one that fills the default cap does (`FullCapIsPassed`). The lines alone pass the cap when it
  has no room for one timestamped character (`RetentionIsBounded`, `SmallCapIsPassed`), which the default cap has.
- A viewer is documented to be given a replay and then the tail with no gap or duplication
  (src/api/routes/conversation-events.ts:116-133). Numbers start again with each turn and the cursor is not checked
  against the log, so a cursor kept from a longer turn hides the start of the next one, or all of it so far
  (`CursorMisses`, `StaleCursorMissesTheTurn`).
- A marker is documented to sort between the two messages it stands between, since readers sort by time. It is dated
  after the message it follows, which can be an overlay or a result recorded before the answer in front of it; then
  the marker sorts before that answer (`HistoryInTimeOrder`, `MarkerOutOfOrder`).
- The window is documented never to split a call from its results. The first message is kept by itself, so in a
  history that opens with a calling message a cut window splits it from its results (`WindowKeepsPairing`).
- The index is documented never to list a conversation that `load` cannot return. It lists one whose header has
  no model, which `load` refuses as corrupted, and one with a line that parses and cannot be applied, such as
  `null` or a model response without usage, which the scan gives up and `load` fails on (`ListedAsLoaded`,
  `ListedAndNotLoaded`).

## Model

| member | source | states |
|---|---|---|
| Text.TrimBlank | src/conversation/compaction.ts:256 | a turn counts as blank exactly when it is whitespace throughout |
| Text.EscapeRemovesClosingForms | src/conversation/escape-closing-tags.ts:21-23 | no `<`, whitespace, `/` survives escaping |
| Text.EscapeFixpoint | src/conversation/escape-closing-tags.ts:21-23 | escaping changes a text if and only if it holds a closing form |
| Text.EscapeIdempotent | src/conversation/escape-closing-tags.ts:21-23 | escaping twice is escaping once |
| Text.EscapeGrowth | src/conversation/escape-closing-tags.ts:21-23 | a text grows at most two and a half times, and only the empty text escapes to nothing |
| Text.EscapePassesThrough | src/conversation/escape-closing-tags.ts:21-23 | text in which no closing form starts comes through unchanged, whatever follows |
| Text.EscapeSubstitutes | src/conversation/escape-closing-tags.ts:21-23 | a text taken apart at its first closing form: what is before stays, the form becomes the entity form whatever its whitespace, and the rest is escaped on its own |
| Text.TruncateKeepsEscaped | src/conversation/compaction.ts:269-276 | cutting an escaped text leaves it free of closing forms, so the rendered line stays contained |
| IsoOrder.IsoOrder | src/conversation/event-reconstructor.ts:175-183 | for years of four digits ISO texts compare exactly as the times they name, so the boundary filter on texts is a filter on times |
| Containment.NoFormSurvives | src/prompt/containment.ts:48-58 | no closing form of the tag survives in an escaped body, in any case or spacing |
| Containment.BodyStaysInside | src/prompt/containment.ts:48-58 | the one place in the fenced block where a closing form of its tag starts is its own last line, for any tag and body |
| Containment.LineFieldIsOneLine | src/prompt/containment.ts:72-79 | a sanitized field holds no newline and no other control character |
| Containment.SkillBlockIsFenced | src/prompt/containment.ts:96-109 | a connector overlay's block ends in its fence, which only its last line closes, whatever the overlay says |
| Containment.EscapeKeepsPlain | src/prompt/containment.ts:48-58 | text in which no closing form of the tag starts comes through unchanged, whatever follows it |
| Containment.EscapeReplacesForm | src/prompt/containment.ts:48-58 | a closing form in any case and spacing becomes the one entity form, and what follows it is escaped by itself |
| Containment.SkillBlockShowsBody | src/prompt/containment.ts:96-109 | the block holds the whole escaped body, which is the body itself when it holds no closing form |
| Containment.LineFieldKeeps | src/prompt/containment.ts:72-79 | every stretch of a field without control characters or outer whitespace is kept |
| ContentHelpers.GroupedWidth | src/engine/content-helpers.ts:175-207 | a larger count never prints narrower, which is why the marker reserved for the worst case is wide enough |
| ContentHelpers.GroupedReads | src/engine/content-helpers.ts:175-207 | a printed count reads back, digit by digit, as the count |
| ContentHelpers.SliceOnLineBoundary | src/engine/content-helpers.ts:133-141 | the cut is a prefix within the limit, at a line end past half of it or else at the limit itself |
| ContentHelpers.BoundIsCeiling | src/engine/content-helpers.ts:175-207 | a positive limit is never exceeded, and the text is unchanged if and only if it already fits |
| ContentHelpers.BoundIsFixedPoint | src/engine/content-helpers.ts:175-207 | bounding again at an equal or larger limit changes nothing, inline UI or not |
| ContentHelpers.BoundShowsPrefix | src/engine/content-helpers.ts:175-207 | a bounded text is a prefix of the original and a marker in which what is shown, all of it and the rest can be read |
| ContentHelpers.BoundPointsToUi | src/engine/content-helpers.ts:175-207 | with an inline UI the bounded text is the pointer with the text's length, cut to the limit if it is longer |
| ContentHelpers.ReplayedAsLive | src/engine/tool-call.ts:90-138 | a persisted tool record replays exactly the text the model saw live, for any output and any wording |
| SkillDelivery.PlaceGuidance | src/engine/skill-delivery.ts:323-343 | the loop over the deliveries computes the placement |
| SkillDelivery.GuidanceIsCarried | src/engine/skill-delivery.ts:323-343 | each tool result carries exactly the deliveries that held it, the last one also all that held none, in delivery order |
| Compaction.PlanCompaction | src/conversation/compaction.ts:136-172 | the two backward loops compute the plan: the latest cut that keeps the target, snapped to the nearest user message at or before it |
| Compaction.PlanThresholds | src/conversation/compaction.ts:147-172 | the same over given thresholds |
| Compaction.PlanFiresWhen | src/conversation/compaction.ts:136-172 | the plan fires if and only if the messages are over the trigger and the latest user turn from which the target is kept has at least the minimum before it; it cuts there, and else does nothing |
| Compaction.EstimateMessagesTokens | src/conversation/compaction.ts:124-128 | the estimate of a list is the sum over its messages |
| Compaction.PlanIsSafe | src/conversation/compaction.ts:136-172 | a plan folds at least the minimum, keeps at least the target, passes over no later user message before the token cut, and splits no tool group |
| Compaction.SelectRetainedOperatorMessages | src/conversation/compaction.ts:251-281 | the backward loop keeps the longest suffix of the folded turns that fits, or the newest turn cut to fit |
| Compaction.RetentionIsBounded | src/conversation/compaction.ts:251-281 | the retained lines as rendered, each with its newline, take at most four characters a token if and only if nothing is folded or the cap holds one timestamped character |
| Compaction.OversizedLineFills | src/conversation/compaction.ts:269-276 | the one oversized turn renders to a line that fills the cap exactly, or to one timestamped character |
| Compaction.SmallCapIsPassed | src/conversation/compaction.ts:269-276 | a cap and a turn for which the line shown passes the cap by one |
| Compaction.RenderedLength | src/conversation/compaction.ts:286-292 | the rendered block is its frame and its lines: the cost a line is selected by is what it takes in the text |
| Compaction.BlockIsBounded | src/conversation/compaction.ts:251-292 | the block passes the cap by no more than its frame if and only if the cap holds more than one timestamped character |
| Compaction.BlockPassesCap | src/conversation/compaction.ts:251-292 | for any folded turns and cap: the block is over the cap if and only if the newest line alone is, or some suffix of lines fits the cap without room for the frame while the next longer one does not fit |
| Compaction.FullCapIsPassed | src/conversation/compaction.ts:251-292 | a turn that fills the default cap is kept whole in a block that is over it, in any wording |
| Compaction.FoldedTurnSurvives | src/conversation/compaction.ts:251-281 | every folded turn is kept escaped, is the single one cut to the cap, or is older than all kept turns with the elision announced |
| Compaction.SeedCarriesLine | src/conversation/compaction.ts:286-324 | the seed's text contains the line of every retained turn |
| Compaction.SeedTellsElision | src/conversation/compaction.ts:286-324 | where turns were elided the seed's text says so |
| SummarySeed.FoldOpensWithSummary | src/conversation/compaction.ts:575-613 | what a fold that fires returns and records: the escaped summary between its tags, then the operator block if and only if some turn before the boundary is more than blank, an acknowledgement, and the messages from the boundary on |
| SummarySeed.ReloadOpensWithSummary | src/conversation/event-reconstructor.ts:164-195 | a reloaded history opens with the escaped summary of the last compaction record, and says no more in that message if and only if no user message dated before the boundary says anything |
| SummarySeed.SeedKeepsOrder | src/conversation/compaction.ts:286-292 | the retained turns' lines stand in the seed in the order of the turns |
| Compaction.BoundBlocks | src/conversation/compaction.ts:433-462 | the transcript kept is the longest suffix that fits, or the newest block cut; elided exactly when a block is dropped |
| Compaction.BoundedCost | src/conversation/compaction.ts:433-462 | the budget is met if and only if the newest block fits uncut, and is otherwise exceeded by exactly one character when it covers the wrapper |
| Compaction.LongBlockIsOver | src/conversation/compaction.ts:433-462 | a block for which what is kept passes the budget by exactly one character |
| CompactionProgress.FoldShrinks | src/conversation/compaction.ts:575-613 | a fold shortens the history exactly when it folds more than two messages, keeps the tail unchanged and keeps calls answered |
| CompactionProgress.FoldingEnds | src/conversation/compaction.ts:575-613 | n folds in a row with a minimum of m need at least n * (m - 2) + 3 messages, so repeated folding stops |
| ReplayLoops.RunCollections.AccumulateRunEvent | src/conversation/event-reconstructor.ts:373-388 | updating the collections in place adds exactly what the event contributes to its run |
| ReplayLoops.CollectRunEvents | src/conversation/event-reconstructor.ts:399-440 | the index loop returns the span's contents, the index past its own terminator but before a new turn, and the time of a cancellation |
| ReplayLoops.MessageList.AppendCancelledMarker | src/conversation/event-reconstructor.ts:521-543 | rewriting the last message closes the stopped run and touches nothing before it |
| ReplayLoops.MessageList.AppendRunMessages | src/conversation/event-reconstructor.ts:447-508 | pushing a run's messages appends exactly the messages of its span |
| ReplayLoops.BuildMessagesFromEvents | src/conversation/event-reconstructor.ts:242-268 | the loop computes the messages of the log, step by step |
| ReplayLoops.NormalizeContent | src/model/inbound-fit.ts:74-118 | the loop lifts metadata to options and drops what a prompt cannot carry |
| ReplayLoops.EnsureRoleAlternation | src/conversation/event-reconstructor.ts:845-886 | the loop with its one-message look-back computes the alternated history |
| ReplayLoops.ReconstructMessages | src/conversation/event-reconstructor.ts:154-203 | the whole pipeline, for either view |
| ReplayLoops.OperatorTurns | src/conversation/event-reconstructor.ts:288-298 | the loop lists the non-blank operator turns of the log in order |
| ReplayFidelity.UserContentKept | src/conversation/event-reconstructor.ts:920-933 | a user turn shows every text and every link written, in order and as written, and nothing else |
| ReplayFidelity.AnswerContentKept | src/model/inbound-fit.ts:74-118 | an answer shows every text, reasoning, file and returned call of its response, in order, with name, input and payload unchanged and the metadata as options, and nothing else |
| ReplayFidelity.CallsRecorded | src/conversation/event-reconstructor.ts:560-576 | an answer records exactly its calls that returned, in order, each with its input, output, outcome and duration |
| ReplayFidelity.SpanGathers | src/conversation/event-reconstructor.ts:373-388 | a run gathers its responses in log order, and of every call the last result, the last input and the last activation, from its own events alone |
| ReplayFidelity.RealAnswer | src/conversation/event-reconstructor.ts:686-742 | a response with text or a returned call is one message with all it says, dated and described by it, followed by the results of its calls |
| ReplayFidelity.GapAnswer | src/conversation/event-reconstructor.ts:644-676 | any other response is one message: its signed reasoning if it made no call, else the marker for how it ended; and none if it ended cleanly with nothing at all |
| ReplayFidelity.SpanAnswers | src/conversation/event-reconstructor.ts:447-508 | the answers of a run are its responses in log order, one for each but the silent ones, with the parts and records of that response |
| ReplayFidelity.SpanResults | src/conversation/event-reconstructor.ts:584-614 | every result in a run has the time and the text of its call's last record, alone or before its guidance, the name its call was made by, and the mark of the skill it activated |
| ReplayFidelity.StopIsTold | src/conversation/event-reconstructor.ts:521-543 | the end of a run adds nothing unless it was stopped; then the marker ends the last answer if that is text alone, is left out behind another answer, and is a message of its own otherwise |
| ReplayStability.BuildSplit | src/conversation/event-reconstructor.ts:242-268 | a log split before a user message or a run start replays to its two parts, concatenated |
| ReplayStability.AlternateConcat | src/conversation/event-reconstructor.ts:845-886 | the alternation pass on a history is the pass on its parts, joined by what the boundary needs |
| ReplayStability.ReconstructionGrows | src/conversation/event-reconstructor.ts:154-203 | appending whole turns without a compaction leaves the old history a prefix of the new, in either view and from any state |
| ReplayStability.OnlyLatestCompactionCounts | src/conversation/event-reconstructor.ts:164-195 | dropping every compaction but the last changes neither view |
| ReplayOrder.BuildStems | src/conversation/event-reconstructor.ts:242-268 | the turns a log replays to stem from events at increasing positions: exactly its user messages and the responses inside a run of their own that say anything, and stops |
| ReplayOrder.HistoryStems | src/conversation/event-reconstructor.ts:154-203 | the same of a whole history in either view: its turns come in log order from events the view keeps, and no user message or speaking response that it keeps is missing |
| ReplayOrder.TurnsInTimeOrder | src/conversation/event-reconstructor.ts:154-203 | where the log runs forwards in time, so do the user turns and answers of its history, a summary seed first |
| ReplayTimes.MarkersMarkGaps | src/conversation/event-reconstructor.ts:806-886 | every marker stands between a message that is no answer and a user message, tells whether tool results or no response came before, and is dated a millisecond after what it follows, at most like what it precedes |
| ReplayTimes.HistoryInTimeOrder | src/conversation/event-reconstructor.ts:845-886 | with its markers counted in, a history of such a log is in time order if and only if no marker is dated before the turn it comes after |
| ReplayTimes.MarkerOutOfOrder | src/conversation/event-reconstructor.ts:845-886 | a log in time order, with an overlay recorded before the run's first answer, whose history has a marker dated before that answer |
| ReplayWellFormed.ResponseIsPaired | src/conversation/event-reconstructor.ts:686-742 | one model response becomes an assistant message whose calls are all answered by what follows it, or a non-empty placeholder, or nothing |
| ReplayWellFormed.RunIsPaired | src/conversation/event-reconstructor.ts:447-543 | a run's messages are paired however it ended |
| ReplayWellFormed.AlternateIdempotent | src/conversation/event-reconstructor.ts:845-886 | the pass changes nothing the second time |
| ReplayWellFormed.HistoryIsWellFormed | src/conversation/event-reconstructor.ts:154-203 | any log in either view: calls answered in order by exactly the messages after them, no stray result, no empty answer, users only after assistants or between overlays, and erasing the markers gives back the replay |
| CompactionReplay.ReloadAfterFold | src/conversation/event-reconstructor.ts:171-195 | a reload of a log ending in its own fold is the fold's seed and the tail its timestamp leaves |
| CompactionReplay.FoldAgreesWithReload | src/conversation/event-reconstructor.ts:171-195 | with timestamps that never run backwards and a boundary user turn whose time nothing earlier shares, reload equals what the fold returned |
| CompactionReplay.TieKeepsMore | src/conversation/event-reconstructor.ts:171-195 | where earlier messages share the boundary's time, the reload keeps the whole tail the fold kept behind extra messages, all of that one time |
| CompactionReplay.FoldAgreesIffUserTurn | src/conversation/compaction.ts:158-171 | with increasing timestamps, reload and fold agree if and only if the boundary message is not an overlay |
| OverlayBoundary.PlanSnapsToOverlay | src/conversation/compaction.ts:136-172 | after a run cut short whose one call brought in an overlay: at the default options, for any estimate over the trigger under which the target falls between the overlay and the message after it, the plan folds four messages and its tail starts with the overlay |
| OverlayBoundary.FoldAndReloadDisagree | src/conversation/event-reconstructor.ts:171-195 | on those logs the reload is not the list the fold returned, whatever the summary says |
| OverlayBoundary.SuchLogsExist | src/conversation/compaction.ts:118-128 | for any frame, every estimate of a token for four characters of text that adds at most the frame, and every budget whose keep target exceeds the frame, has such a log, in the source's wording and with an overlay one character longer than the frame |
| OperatorRetention.UserTurnReplayed | src/conversation/event-reconstructor.ts:242-268 | a user message at or after the boundary is replayed as it was written, whatever surrounds it |
| OperatorRetention.TurnText | src/conversation/event-reconstructor.ts:273-280 | a turn's text is that of all the message's text parts in order and of nothing else, a newline between two, trimmed |
| OperatorRetention.TurnSays | src/conversation/event-reconstructor.ts:273-280 | a turn's text holds what each text part says, trimmed, and is just that when there is one |
| OperatorRetention.TurnIffSaid | src/conversation/event-reconstructor.ts:288-298 | a user message makes an operator turn if and only if some text part of it is not whitespace throughout |
| OperatorRetention.OperatorTurnSurvives | src/conversation/event-reconstructor.ts:164-195 | after any number of compactions whatever a user message says is in its tail as written, or in a folded turn that holds those words, and alone when it has no other text, which the seed shows whole or cut to the cap, or announces as elided |
| Window.GroupMessages | src/conversation/window.ts:50-77 | the nested loops compute the groups: a calling message with all its results, or one message |
| Window.WindowMessages | src/conversation/window.ts:122-171 | the backward loop that spends the budget computes the window |
| Window.GroupsFlatten | src/conversation/window.ts:50-77 | grouping loses and reorders nothing |
| Window.RegroupSuffix | src/conversation/window.ts:50-77 | grouping again from any group boundary gives the same groups |
| Window.WindowIsGreedy | src/conversation/window.ts:122-171 | the window is the anchor and a group-aligned suffix, within budget unless it is the anchor and the last group, and the next older group would not fit |
| Window.WindowIdempotent | src/conversation/window.ts:122-171 | windowing a window at the same budget changes nothing |
| Window.WindowMonotone | src/conversation/window.ts:122-171 | a larger budget never keeps less: the smaller window's tail is a suffix of the larger window |
| WindowPairing.GroupIsUnit | src/conversation/window.ts:50-77 | in a paired history a group is a call with exactly its results |
| WindowPairing.WindowKeepsPairing | src/conversation/window.ts:122-171 | a window of a paired history is paired if and only if it is the whole history or the anchor makes no call |
| WindowPairing.WindowedReplayIsPaired | src/conversation/window.ts:122-171 | the windowed replay of any log that was compacted or starts with a user message is paired and starts with a user turn |
| OverlayConservation.SpanCarriesItsOverlays | src/conversation/event-reconstructor.ts:750-776 | for any span, however it ended: the messages of a run name each overlay its span delivered as often as its target has results, never less than once; they name exactly what was delivered if and only if every overlay that rides a result rides one |
| OverlayConservation.DistinctCallsCarryOnce | src/conversation/event-reconstructor.ts:750-776 | where no response names a call id twice, the messages of a run name each overlay exactly once |
| OverlayText.OverlayIsShown | src/conversation/event-reconstructor.ts:750-803 | the block of each overlay the span delivered stands in the text of one of its messages |
| OverlayText.SpanIsTruthful | src/conversation/event-reconstructor.ts:750-803 | a message that names overlays holds, after its own text, the blocks of exactly the deliveries it names |
| OverlayPlacement.OverlayStandsInPlace | src/conversation/event-reconstructor.ts:447-508 | the block of an overlay stands behind exactly the answers recorded before it, or at the end of a run that had none yet |
| Fork.MessagesToForkEventLines | src/conversation/event-sourced-store.ts:239-250 | the loop writes every message's events, with run ids counted over assistant messages |
| Fork.ForkKeepsUserTurns | src/conversation/event-sourced-store.ts:681-757 | a fork at any message keeps the sequence of user contents, for every history |
| Fork.ForkRoundTrip | src/conversation/event-sourced-store.ts:681-757 | a fork reloads to the copied messages in role, content and time if and only if they hold no call or result and no two user messages meet |
| ConversationFiles.DeriveUsageMetrics | src/conversation/event-reconstructor.ts:892-908 | the loop sums tokens and cost and ends with the last model |
| ConversationFiles.LastModelIs | src/conversation/event-reconstructor.ts:892-908 | the last model is that of the response with no other after it |
| ConversationFiles.DeriveConversationMeta | src/conversation/event-reconstructor.ts:119-132 | the loop ends with the title the last title event set, or the default |
| ConversationFiles.DerivedMetrics.ApplyEvent | src/conversation/index-cache.ts:222-240 | what one event adds to the running metrics |
| ConversationFiles.DerivedMetrics.ApplyEventLine | src/conversation/index-cache.ts:209-240 | after a line the running metrics are those of the lines so far; a line that fails to parse or to apply is given up where it fails, its time set before |
| ConversationFiles.ScanLines | src/conversation/index-cache.ts:209-219 | the scan's metrics are the totals of all events past line 1, and its time that of the last line that set one |
| ConversationFiles.ParseFileHeader | src/conversation/index-cache.ts:246-280 | a file's summary, none without an id or an owner |
| ConversationFiles.PreviewTextIs | src/conversation/preview.ts:41-49 | a message previews as its first text part |
| ConversationFiles.TotalsConcat | src/conversation/event-reconstructor.ts:892-908 | totals over a log are the sums over its parts |
| ConversationFiles.SameTime | src/conversation/event-sourced-store.ts:156-169 | where every line applies, load and scan see the same time unless the last line that parses has none |
| ConversationFiles.ListedAsLoaded | src/conversation/event-sourced-store.ts:498-532 | a listed file loads if and only if its header names a model and every line that parses applies, and is then the same conversation with the same totals |
| ConversationFiles.ListedAndNotLoaded | src/conversation/index-cache.ts:246-280 | files that are listed and do not load: one without a model, one with a `null` line, one with a response without usage |
| ConversationListing.NewestFirstSorts | src/conversation/index-cache.ts:116-117 | the listing is a descending permutation |
| ConversationListing.NewestFirstIsStable | src/conversation/index-cache.ts:116-117 | entries of equal age keep their order |
| ConversationListing.TraversalReadsRest | src/conversation/index-cache.ts:107-142 | any traversal from a cursor reads what is left once each, in order |
| ConversationListing.TraversalEnds | src/conversation/index-cache.ts:107-142 | following the cursor terminates |
| ConversationListing.PagingIsPartition | src/conversation/index-cache.ts:107-142 | from the start the pages concatenate to the filtered, sorted list, a permutation of the matching entries |
| ConversationListing.ConversationIndex.Populate | src/conversation/index-cache.ts:43-71 | a scan gives one entry per id, the last file's; a populated index is left alone |
| ConversationListing.ConversationIndex.Remove | src/conversation/index-cache.ts:89-91 | exactly the named entry goes |
| ConversationListing.ConversationIndex.List | src/conversation/index-cache.ts:107-142 | one page of the sorted, filtered entries |
| ConversationListing.IndexPagesPartition | src/conversation/index-cache.ts:43-142 | whatever files a directory holds, its index pages as a partition |
| ConversationListing.ConversationLocator.EnsurePopulated | src/conversation/locator.ts:141-165 | the walk keeps one entry per id and skips files outside a workspace |
| ConversationListing.ConversationLocator.List | src/conversation/locator.ts:103-139 | one page of one workspace's entries |
| ConversationListing.LocatedStands | src/conversation/locator.ts:141-165 | the walk holds a summary for a workspace if and only if some file of it has that summary and no later located file has its id |
| ConversationListing.WorkspacePagesPartition | src/conversation/locator.ts:103-165 | paging one workspace reads, once each, exactly the matching summaries of its files that no later located file shadows |
| ConversationStore.EventSourcedConversationStore.constructor | src/conversation/event-sourced-store.ts:440-450 | a store opened over any directory whose headers name their own files is valid, has announced nothing and has a stale index |
| ConversationStore.EventSourcedConversationStore.Create | src/conversation/event-sourced-store.ts:475-496 | the new file, one announcement that names it, and a stale index |
| ConversationStore.CreatedLoads | src/conversation/event-sourced-store.ts:475-532 | what was created loads with its owner and model, dated when it was made, untitled |
| ConversationStore.EventSourcedConversationStore.AppendEvent | src/conversation/event-sourced-store.ts:806-815 | one line appended, one announcement, and an index that still lists the right conversations |
| ConversationStore.EventSourcedConversationStore.Append | src/conversation/event-sourced-store.ts:543-593 | a user message appends one line with its time and content and announces it; an assistant message with metadata appends the start, response and end of a run and announces each; anything else appends nothing |
| ConversationStore.UserAppendReloads | src/conversation/event-sourced-store.ts:543-554 | after a user message is appended the history is what it was, then this message with its content and time, with at most a marker between; what the user said gains exactly it |
| ConversationStore.AnswerAppendReloads | src/conversation/event-sourced-store.ts:556-593 | a settled answer without calls, appended with its metadata, is read back as the one new message, in role, content and time |
| ConversationStore.EventSourcedConversationStore.Delete | src/conversation/event-sourced-store.ts:652-666 | only the owner deletes; the file, its entry and an announcement go together |
| ConversationStore.OnlyOwnerReaches | src/conversation/event-sourced-store.ts:652-679 | a named caller reaches a conversation if and only if it loads and its header names the caller as owner |
| ConversationStore.EventSourcedConversationStore.Update | src/conversation/event-sourced-store.ts:668-679 | only the owner retitles; the title is an event, announced, and the reply is the reloaded conversation |
| ConversationStore.EventSourcedConversationStore.Fork | src/conversation/event-sourced-store.ts:681-719 | the full history up to the message goes to a new file of the same owner and model, announced once per write |
| ConversationStore.CopiedIsHead | src/conversation/event-sourced-store.ts:700-708 | a fork copies a head of the full history: all of it, as many messages as asked for, or all but the last of a negative count |
| ConversationStore.ForkLoads | src/conversation/event-sourced-store.ts:708-757 | the forked file loads under its own id with the owner and model it was forked from |
| ConversationStore.FindForkLastModel | src/conversation/event-sourced-store.ts:176-184 | the loop finds the model of the last assistant message that carries one |
| ConversationStore.EventSourcedConversationStore.WriteForkedMessages | src/conversation/event-sourced-store.ts:722-757 | the rewrite replaces the file and is announced by itself |
| ConversationStore.EventSourcedConversationStore.List | src/conversation/event-sourced-store.ts:644-650 | a page of the index, scanned first when stale |
| ConversationStore.IndexLists | src/conversation/index-cache.ts:43-71 | a fresh index lists exactly the files that have a summary |
| ConversationStore.ForkedFileReloads | src/conversation/event-sourced-store.ts:681-757 | the file a fork writes reloads with the copied user contents, and to the copied messages if and only if they hold no call or result and no two user messages meet |
| ConversationStore.IncrementalIsRescan | src/conversation/event-sourced-store.ts:413-428 | over any run of announced writes and reads, re-reading only what was named equals a rescan of every file |
| ConversationStore.ListenerMirrorsStore | src/conversation/event-sourced-store.ts:413-428 | a listener in sync with the directory a store opened that hears all the store announces holds what a scan of the store's files gives |
| ConversationStore.SilentWriteStaysStale | src/conversation/event-sourced-store.ts:413-428 | a write that stays silent leaves its entry wrong until that conversation is named, whatever else is |
| ConversationStore.SecondAnnouncementNeeded | src/conversation/event-sourced-store.ts:750-756 | a listener that read between a fork's writes and missed the second keeps an entry without messages |
| ConversationStore.FirstAnnouncementNeeded | src/conversation/event-sourced-store.ts:475-496 | unheard, the announcement of a creation leaves the conversation unknown |
| ConversationStore.ForkedCount | src/conversation/event-sourced-store.ts:239-250 | a forked file counts one message for every user and assistant message copied |
| TurnLog.RunBus.Begin | src/runtime/run-bus.ts:84-102 | a turn in progress is refused; otherwise the log starts empty |
| TurnLog.RunBus.Publish | src/runtime/run-bus.ts:130-164 | the next number in the log; nothing once the run is over; past the cap an error that ends it |
| TurnLog.RunBus.End | src/runtime/run-bus.ts:181-187 | only a running log changes status, or goes at once without a grace period |
| TurnLog.RunBus.Cancel | src/runtime/run-bus.ts:193-199 | only a running log is cancelled |
| TurnLog.StepsKeepNumbers | src/runtime/run-bus.ts:130-187 | numbers stay 1, 2, 3 and so on without a gap through every operation |
| TurnLog.PublishReachesReplay | src/runtime/run-bus.ts:130-175 | a viewer that has seen everything is replayed exactly the event published, or the error past the cap that ends the run, and no other conversation's replay changes |
| TurnLog.ReplayIsSuffix | src/runtime/run-bus.ts:171-175 | a replay above a cursor is a suffix of the log |
| ConversationEvents.ConversationEventManager.AddSubscriber | src/api/conversation-events.ts:74-117 | the stream starts with the subscribed frame and the whole replay, and only then is it registered |
| ConversationEvents.ConversationEventManager.Send | src/api/conversation-events.ts:124-142 | the pruning loop writes to exactly the addressed subscribers whose write succeeds and drops exactly those whose write fails |
| ConversationEvents.ConversationEventManager.PublishEvent | src/api/conversation-events.ts:124-142 | an event reaches exactly the conversation's subscribers |
| ConversationEvents.ConversationEventManager.BroadcastHeartbeat | src/api/conversation-events.ts:154-173 | a heartbeat reaches every subscriber |
| ConversationEvents.ConversationEventManager.RemoveSubscriber | src/api/conversation-events.ts:145-151 | one subscriber leaves and no stream changes |
| ConversationEvents.ConversationEventManager.StopAll | src/api/conversation-events.ts:52-61 | all subscribers leave and no stream changes |
| ConversationEvents.StreamIsExact | src/api/conversation-events.ts:74-151 | over any interleaving a stream gains exactly what its conversation published, in order, until its own write fails or it leaves; it stays registered if and only if neither happened |
| ConversationEvents.ReplayThenLive | src/api/conversation-events.ts:74-117 | a new viewer's stream is its replay, then every later event of its conversation |
| ConversationEvents.OthersFailuresAreInvisible | src/api/conversation-events.ts:124-142 | changing which other writes fail changes nothing in a viewer's stream |
| TurnStream.Runtime.PublishToRunBus | src/runtime/runtime.ts:1487-1490 | what is buffered is fanned out, and nothing else is |
| TurnStream.Runtime.Connect | src/api/routes/conversation-events.ts:116-133 | a viewer is given the buffer above its cursor |
| TurnStream.TurnTail | src/runtime/runtime.ts:1487-1490 | while a turn lasts, a stream gains consecutive numbers, up to the last one assigned while it is connected |
| TurnStream.ViewerMissesNothing | src/api/routes/conversation-events.ts:116-133 | no gap, duplicate or reordering from the cursor on, or from the last number assigned if the cursor is above it, wherever in the turn the viewer connects |
| TurnStream.CursorMisses | src/api/routes/conversation-events.ts:116-133 | of a turn it has rendered up to some number, a viewer is never given exactly the numbers after it up to the cursor or the last one assigned by then, so it misses nothing if and only if those are none |
| TurnStream.StaleCursorMissesTheTurn | src/api/routes/conversation-events.ts:116-133 | a turn of one event so far, of which a viewer with the cursor of a longer turn is given none |
| TurnStream.NextTurnFromItsStart | src/runtime/run-bus.ts:84-102 | a turn begun under a connected viewer is carried from number 1 |
| MetricsEvents.MetricsEventSink.Emit | src/adapters/metrics-events.ts:59-73 | an event takes the sink to the state its meaning gives |
| MetricsEvents.MetricsEventSink.TrackedRun | src/adapters/metrics-events.ts:174-194 | a run is tracked on first sight, displacing the oldest when there are too many |
| MetricsEvents.MetricsEventSink.FinalizeRun | src/adapters/metrics-events.ts:197-205 | the end of a tracked run counts its samples and forgets it |
| MetricsEvents.MetricsEventSink.CountPromotions | src/adapters/metrics-events.ts:201-203 | one sample for each promoted tool, used exactly when it was called |
| MetricsEvents.AfterIsWell | src/adapters/metrics-events.ts:174-194 | never more runs than the cap, each once, through every event |
| MetricsEvents.TracksEpisodes | src/adapters/metrics-events.ts:129-137 | the sink tracks exactly the open runs, each with the tools its episode promoted and called |
| MetricsEvents.CountersAreSamples | src/adapters/metrics-events.ts:197-205 | over any trace the counters are the samples owed by the episodes that ended |
| MetricsEvents.PromotionsAreConserved | src/adapters/metrics-events.ts:129-205 | samples emitted, promotions pending and promotions lost with dropped runs are together all distinct promotions |
| MetricsEvents.DropsOnlyOverCap | src/adapters/metrics-events.ts:174-194 | no run is ever dropped if and only if there were never more live runs than the cap |
| MetricsEvents.EndedRunIsSampled | src/adapters/metrics-events.ts:197-205 | within the cap the end of a run emits one sample for each tool promoted since it last ended, used exactly when it was also called |
| RateLimiter.RequestRateLimiter.ConsumeWithRetryAfter | src/api/rate-limiter.ts:37-52 | the decision and the table after one request |
| RateLimiter.RequestRateLimiter.Cleanup | src/api/rate-limiter.ts:55-62 | the loop removes exactly the expired windows |
| RateLimiter.RetryAfterIsExact | src/api/rate-limiter.ts:37-52 | a refused request made again q whole seconds later is admitted if and only if q is at least the advice |
| RateLimiter.CleanupIsInvisible | src/api/rate-limiter.ts:55-62 | cleanups at any points of a trace change no decision |
| RateLimiter.FewerThanTwicePerSpan | src/api/rate-limiter.ts:37-52 | over any trace fewer than twice the limit is admitted in any interval of a window's length |
| RateLimiter.AtMostLimitPerWindow | src/api/rate-limiter.ts:37-52 | at most the limit is admitted in the window a request opens |
| RateLimiter.SpanBoundIsReached | src/api/rate-limiter.ts:37-52 | for every limit and every window of two milliseconds or more, a trace that reaches the bound |
| CanonicalJson.PrintIsRender | src/api/mcp-input-relay.ts:45-54 | the recursive printer prints the canonical value: undefined members dropped, undefined items null, keys sorted |
| CanonicalJson.EquivalentIffCanonical | src/api/mcp-input-relay.ts:45-54 | two values are equal ignoring key order if and only if their canonical values are equal |
| CanonicalJson.ReadsBack | src/api/mcp-input-relay.ts:45-54 | a reader recovers a printed value from its text, whatever legitimately follows it |
| CanonicalJson.PrintIsCanonical | src/api/mcp-input-relay.ts:38-54 | two values print alike if and only if they are equal ignoring key order, so the digest input separates exactly unequal arguments |

## Left out

- HTTP routes, authentication, the MCP server, tool execution, the engine loop and every other subsystem.
- The file system: partial writes, renames, concurrent writers and asynchronous interleaving within one store operation; an operation is atomic.
- Parsing of JSON lines, header validation and the guard against binary payloads; a line is already an event, a header, malformed, `null`, a model response without usage, or a value that is no event; an event of a known type without a timestamp is not modelled.
- Parsing of tool input on replay and debug-only fields of events; a tool's input is a string.
- Model calls, their timeouts and failures: a summary is any text, or absent.
- UTF-16: strings are sequences of Unicode characters, so a length counts characters; keys are ordered by code point rather than code unit, which changes the order of two keys but not which values print alike.
- Years outside four digits and invalid dates; `localeCompare` on timestamps is integer order.
- Numbers JSON cannot carry: a number is its JSON text, so `NaN` and infinities, which print as null, are not values of the model.
- Lower-casing and substring search in listings: the filter is an arbitrary predicate.
- Negative page limits.
- `formatPart`, `summarizerTranscriptBudgetTokens` and the prompt of the summarizer: single expressions.
- `applyReasoningReplayPolicy`, token estimation and the mapping of engine events to conversation events: element-wise.
- The workspace binding, metadata and custom fields of a conversation header, and the path validation of ids.
- Aborted turns: `RunBus` keeps no abort signal, its grace timer may fire at any time after the end, and dropping a reservation by its signal is not modelled.
- The freshness of listed totals: after an append the per-directory index lists the right conversations with totals from its last scan.
- Latency, token, error and connector metrics, and the counts of tool calls, which are plain increments.
- ReplayStability.ReconstructionGrows: assumes that appended user turns and run starts are not dated before the boundary of a compacted log; an earlier date would change the seed or drop the head of a run.
- CompactionReplay.FoldAgreesWithReload: says nothing of a plan that folds no message, which the default minimum of four excludes.
- CompactionReplay.FoldAgreesIffUserTurn: says nothing of a plan that folds no message, which the default minimum of four excludes.
- ConversationStore.EventSourcedConversationStore.constructor: says nothing of a directory with a file whose header holds another id than its name; no operation of the store writes one.
- ConversationStore.EventSourcedConversationStore.List: the order in which a directory is read is a parameter.
- TurnStream.ViewerMissesNothing: covers one turn; the next one starts again from 1.
