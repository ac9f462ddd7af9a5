# Verification of the agent runtime's core

This project models five connected parts of the runtime and proves what they promise. Pure code is
modelled by functions, code that changes state step by step by methods and classes proved against
those functions, and concurrent code by step machines in which every stretch under a lock, every
channel operation and every return is a step of its own.

* The kernel scheduler (`Kernel`, `KernelRuns`, `KernelInvariants`, `KernelFairness`, `KernelProjection`,
  `KernelTheorems`, `KernelProgress`, `KernelOrigins`): process table, run queue, one-slot wake channel,
  per-instance reservation, recurring tasks, bounded history. Submitting and raising the interrupt are separate steps.
* The expression evaluator (`Values`, `Operators`, `Tokens`, `Grammar`, `Derivations`, `Printing`, `Shortest`,
  `Evaluator`, `Expressions`): a parser that evaluates while it parses, proved to refine "parse to a tree,
  then evaluate it"; the parser proved to be the grammar in its head comment, printing a round trip that
  wastes no token, and every operator told by what it computes, as text.
* The markdown parser and the session store on top of it (`Text`, `Section`, `Folding`, `Prose`,
  `Quoting`, `SectionFacts`, `BodyReading`, `SessionStore`, `SessionFormat`, `SessionLines`, `SessionFacts`,
  `SessionSections`, `SessionChapters`, `SessionRoundTrip`, `RestoredLines`, `SessionExact`): a whole state rendered and read
  back, and exactly which states come back as they were.
* The hash-chained trail (`Chain`, `TrailMarkdown`, `TrailRecord`, `TrailReading`, `TrailFile`, `TrailJsonl`,
  `PlainJson`, `Attempts`, `MarkdownAttempts`, `JsonlAttempts`, `ReasoningLog`, `TrailNumbering`): writer,
  resumption and verifier as one chain over any number of sessions, failed writes included.
* The governed cycle and its loops (`Places`, `Governance`, `Planning`, `PlanOrder`, `Reasoning`, `Stages`,
  `ParallelMap`, `Monitor`, `McpClient`, `McpRuns`, `ToolLoop`, `Panel`, `PanelTables`, `Budget`), with the model as an arbitrary oracle.

`dafny verify dfyconfig.toml` checks the whole project.

## What the proofs turned up

* The kernel reads the clock twice before it sleeps (kernel.go:457 and kernel.go:660) and the second
  scan skips tasks already due (kernel.go:685). A task falling due in between is noticed by neither:
  `KernelTheorems.WindowLosesATask` is such a run, and `KernelTheorems.NoLostWakeup` says that this is
  the only way to lose one.
* Normalizing a name is not idempotent: "-a" gives " a", which gives "a". It is on exactly the texts
  whose trimmed form neither starts nor ends with a hyphen or an underscore: `Folding.NormalizeTwice`.
* Of the single-line names an adaptation can have, its heading gives back exactly those that are not
  empty, have no blank at either end and do not end in a hash; trailing hashes read as the heading's
  closing run, and "x#" comes back as "x": `SessionLines.AdaptationNameKept`, `SessionLines.HashedName`.
* A session does not survive its markdown form whatever it holds. Lines of quoted text lose their
  trailing blanks (`Quoting.QuoteRoundTrip`), and a fact that says "yes" comes back as a flag
  (`SessionExact.FactsComeBackAs`). `SessionExact.RestoredAsRendered` says exactly which states survive.
* The in-memory Verify always starts at the genesis (reasoninglog.go:222). So an untouched log goes on
  verifying after a rotation exactly when no expired cycle with records stands before a kept cycle with
  records: `ReasoningLogs.RotationVerifies`, with a log of two cycles in
  `ReasoningLogs.RotateBreaksVerify`.
* A chain marker inside a record's content ends its block early. The file is found again as written
  exactly when no record holds one: `TrailFiles.FoundExactlyMarkerFree`; `TrailFiles.QuotedMarkerIsCut`
  is such a record. The untouched file then fails verification, unless the marker carries the right hash
  of the block it cuts short: `TrailFiles.VerifiesExactlyMarkerFree`.
* The tip moves before the write is tried (trailfile.go:141 and trailfile.go:162). So an untouched file
  verifies exactly when no session had a write accepted after one that failed; a failed write at the end
  of a session does no harm, and opening the file again heals it:
  `MarkdownAttempts.VerifiesExactlyWhenStopped`, `JsonlAttempts.VerifiesExactlyWhenStopped`, with two runs
  in the `ReopeningHeals` of either module.
* A panel keeps its record of who spoke by name, so it can conclude although someone never spoke. On
  which tables a moderator can bring that about is decided by the seats' names alone:
  `PanelTables.SomeoneCanBeLeftOut`.
* Scheduling collapses a workflow that was composed twice as soon as the model names it:
  `Planning.ReorderPermutes`, with such a plan in `Planning.TwiceComposedOnceNamed`.
* The comment above the evaluator's code calls it a parser into a tree that is then walked; the code
  evaluates while it parses, and `or` and `and` evaluate both operands (safeeval.go:158-163). The
  model follows the code.

## Model

| member | source | states |
|---|---|---|
| `KernelCore.BestIsSoonest` | kernel.go:362-381 | the scan picks the soonest-due task that is eligible, the first in the queue on a tie, and nothing only when nothing is eligible |
| `KernelCore.GapIsEarliest` | kernel.go:680-696 | the sleep bound is exactly the distance to the earliest due time later than the reading, and absent only when there is none |
| `KernelCore.Kernel.constructor` | kernel.go:165-187 | an empty kernel with an empty wake slot; the limit its history will be kept to is the one configured when positive, else 1024 |
| `KernelCore.Kernel.Submit` | kernel.go:234-256 | a task gets the next id, never used before, and joins the end of the queue; nothing else changes and the wake slot is left for Interrupt |
| `KernelCore.Kernel.Interrupt` | kernel.go:307-315 | the one-slot wake channel is full afterwards, however full it was |
| `KernelCore.Kernel.Cancel` | kernel.go:286-296 | the task with that id leaves the queue and nobody else moves; the answer says whether it was there |
| `KernelCore.Kernel.Soonest` | kernel.go:362-381 | the scanning loop agrees with the choice the specification makes |
| `KernelCore.Kernel.TakeReady` | kernel.go:362-392 | the chosen task is reserved, re-armed one period after the reading if it recurs, and removed if it does not; no choice changes nothing |
| `KernelCore.TakeIs` | kernel.go:362-392 | told from the queue alone: a take finds nothing exactly when every task is due later or, reserving, has a busy instance; else it picks the soonest due, the first queued on a tie; a recurring one stays at its place due exactly one period after the reading, a one-shot one leaves, and no other task changes |
| `KernelCore.Kernel.ReleaseInstance` | kernel.go:472-483 | exactly that instance stops being in flight |
| `KernelCore.Kernel.RecordDispatch` | kernel.go:581-594 | the dispatch is counted and appended, and only the newest entries up to the limit stay |
| `KernelCore.Kernel.UntilNext` | kernel.go:680-696 | the loop computes the gap to the earliest future due time |
| `KernelCore.NilTakeThenSleep` | kernel.go:654-696 | with one clock reading for both: a take that finds nothing means every due task's instance is busy, and the sleep lasts exactly to the earliest later due time |
| `KernelCore.SerialTakeReservesNothing` | kernel.go:322-349 | a take that does not reserve finds a task exactly when one is due, busy instance or not, and marks no instance: why one writer holds on the reserving path only |
| `KernelFairness.AfterKeepsUniqueIds` | kernel.go:234-296 | no submit, take, cancel or release makes two queued tasks share an id |
| `KernelFairness.TakeLowersRank` | kernel.go:362-392 | a take that passes over a ready task strictly lowers the number of tasks sorting before it, because a re-armed task lands later |
| `KernelFairness.OtherEventsKeepRank` | kernel.go:234-296 | no later submission, cancellation or release puts a task before a waiting one |
| `KernelFairness.BoundedBypass` | kernel.go:362-392 | a ready task whose instance is free at every take is taken within one more take than there are tasks sorting before it by due time and queue position |
| `KernelFairness.ConsecutiveFirings` | kernel.go:383-391 | for any clock readings at all, two consecutive takes of one recurring task are at least its period apart |
| `KernelFairness.FiringsSpan` | kernel.go:383-391 | the i-th and j-th firings are at least j - i periods apart |
| `KernelProjection.StepProjects` | kernel.go:234-392 | every step of the parallel kernel is exactly one queue event, or leaves queue, reservations and ids alone |
| `KernelProjection.BoundedBypassOfRuns` | kernel.go:362-468 | in every interleaving of submitters, loop, drain and workers: a queued due task whose instance is free at every take is taken within one more take than there are tasks sorting before it |
| `KernelProjection.FiringsSpanOfRuns` | kernel.go:383-391 | in every interleaving and for any clock readings, the i-th and j-th times a recurring task is taken after its submission are at least j - i periods apart |
| `KernelProjection.NextFiringOfRuns` | kernel.go:383-391 | in every interleaving, from the step that takes a recurring task to the next that takes or cancels it, the task is queued once and due exactly one submitted period after that step's reading |
| `KernelOrigins.DispatchedAsSubmitted` | kernel.go:234-594 | in every interleaving ids count the submissions, and every queued task, job in hand and recorded dispatch is of the submission its id names, on that submission's instance |
| `KernelInvariants.IdsKept` | kernel.go:234-392 | every step keeps ids unique across the queue, the jobs in hand, the log and the cancelled |
| `KernelInvariants.SingleWriterKept` | kernel.go:362-392 | every step of the reserving path keeps at most one unreleased job on an instance, and exactly those instances marked in flight |
| `KernelInvariants.ConservationKept` | kernel.go:234-594 | every step keeps each one-shot task in exactly one of queue, hand, log and cancelled, and each recurring one queued until cancelled |
| `KernelInvariants.HistoryKept` | kernel.go:581-594 | every step keeps the history equal to the tail of the full dispatch log |
| `KernelInvariants.WakeKept` | kernel.go:307-315 | every step keeps: a loop about to sleep or asleep has an interrupt raised or owed for any free task that was due when it looked, or a timer that covers the task, or the task fell between its two readings |
| `KernelInvariants.PoolsKept` | kernel.go:410-468 | every step keeps the worker slots equal to the jobs that hold them, for the loop and for the drain |
| `KernelInvariants.DrainKept` | kernel.go:410-449 | every step keeps the drain's launched, finished and returned counts in agreement with its jobs and its bound |
| `KernelInvariants.ReachableInv` | kernel.go:615-676 | all of these hold in every state any interleaving of submitters, cancellers, the loop, a drain and the workers can reach |
| `KernelTheorems.DrowsyLoopMissesNothing` | kernel.go:615-646 | in every interleaving a loop about to sleep that left a due task with a free instance has an interrupt raised, or someone still to raise one |
| `KernelTheorems.NoLostWakeup` | kernel.go:654-676 | a sleeping loop will notice every queued free task in time if and only if an interrupt is raised or owed, or no such task fell due between the take's reading and the sleep's |
| `KernelTheorems.WindowLosesATask` | kernel.go:654-696 | a run of ten steps in which a task falls due between the two readings and the loop sleeps with no timer and no interrupt |
| `KernelTheorems.TasksAreConserved` | kernel.go:234-594 | in every run a one-shot task is in exactly one of queued, taken, recorded and cancelled and is recorded at most once; a recurring task is queued unless cancelled |
| `KernelTheorems.OneWriterPerInstance` | kernel.go:454-483 | in every run an instance is marked in flight exactly when one unreleased job is on it, and there is never a second |
| `KernelTheorems.RunReturnsClean` | kernel.go:615-646 | a Run that has returned left none of its launches unreleased, and it never had more than its workers running |
| `KernelTheorems.HistoryIsTheTail` | kernel.go:581-612 | in every run the history is the last min(limit, dispatched) entries of the full log |
| `KernelTheorems.DrainIsBounded` | kernel.go:410-449 | a concurrent drain returns at most its maximum |
| `KernelTheorems.ShortDrainFoundNothing` | kernel.go:410-449 | in every interleaving a drain that returned fewer than its maximum has a last take, at the reading it returned on, that found nothing with none of its dispatches in hand; if the loop had stopped by then, no queued task was due at that reading |
| `KernelProgress.NeverStuck` | kernel.go:410-676 | with at least one worker, in every state any interleaving reaches, some thread of the kernel can take a step if and only if nothing is left to do: no job or owed interrupt, no drain under way, and the loop stopped or asleep with no timer and no interrupt raised |
| `KernelProgress.RestingTasksFellInTheWindow` | kernel.go:654-676 | when the kernel rests with its loop asleep, every queued task fell due between the loop's two readings |
| `Tokens.LexTerminates` | safeeval.go:75-125 | every accepted text's tokens end in one end mark and hold no other |
| `Tokens.QuotedEnd` | safeeval.go:85-97 | the scan of a string literal stops at the first matching quote, or at the end of the text |
| `Tokens.NumberEnd` | safeeval.go:98-103 | the scan of a number stops where the run of digits and dots does |
| `Tokens.NameEnd` | safeeval.go:104-109 | the scan of a name stops at the first character no name holds |
| `Tokens.Tokenize` | safeeval.go:75-125 | the index loop gives exactly the tokens the text spells from its front, or the same error |
| `Tokens.LexSpell` | safeeval.go:75-125 | any spelled token list is read back token for token, whatever stands in its strings |
| `Tokens.TwoCharactersFirst` | safeeval.go:110-115 | of two operators that start alike the longer is read, whatever follows |
| `Tokens.OneCharacterElse` | safeeval.go:116-120 | twelve characters are operators where none of those two-character ones stands |
| `Derivations.PhraseBeginsChain` | safeeval.go:9-20 | at a left-associative level a phrase is read up to where the chain may go on, and as the chain's left operand: what follows extends it to the left |
| `Derivations.PhraseParses` | safeeval.go:9-20 | a phrase of the grammar at any level, followed by something that does not continue it, is read whole and as its own tree |
| `Derivations.ParserIsTheGrammar` | safeeval.go:9-20 | over all token lists: the parser accepts exactly the phrases derived by the grammar, redundant parentheses included, and gives each its own tree |
| `Derivations.OneTree` | safeeval.go:9-20 | the grammar is unambiguous: phrases that read alike have one tree |
| `Grammar.EvaluatedNamesAreBound` | safeeval.go:153-192 | a tree that evaluates has every one of its names bound, also the operands or and and do not need |
| `Grammar.MissingNamesAreUnbound` | safeeval.go:331-397 | a missing-variable error names a variable of the tree that is not bound |
| `Printing.PrintedTokensParse` | safeeval.go:9-20 | the tokens of a tree, with only the parentheses the grammar needs, parse back to that tree and use up every token |
| `Printing.RoundTrip` | safeeval.go:75-125 | printing any printable tree to text, then tokenizing and parsing it, gives the same tree: comparison chains to the left, powers to the right under signs, the two-word not in, lists |
| `Shortest.NoPhraseIsShorter` | safeeval.go:9-20 | a phrase for a tree at any grammar level has at least as many tokens as the printer writes for it there, so at a tighter level than its own no tree is read without its parentheses |
| `Shortest.PrintIsShortest` | safeeval.go:9-20 | of all token lists that parse to a tree the printed one is a shortest: it has the fewest parentheses |
| `Evaluator.RestKeepsError` | safeeval.go:194-296 | once a left operand fails, every longer chain over it fails with the same error |
| `Evaluator.ExprParser.ParseOr` | safeeval.go:153-166 | fused or: the value, error and end position of evaluating the tree the grammar gives; both operands are always evaluated |
| `Evaluator.ExprParser.ParseAnd` | safeeval.go:168-181 | fused and: as for or |
| `Evaluator.ExprParser.ParseNot` | safeeval.go:183-192 | fused not refines its tree's evaluation |
| `Evaluator.ExprParser.ParseComparison` | safeeval.go:194-238 | fused comparison chains, with the backtrack of a not that no in follows, refine their left-associative tree |
| `Evaluator.ExprParser.ParseSum` | safeeval.go:240-267 | fused sums refine their tree |
| `Evaluator.ExprParser.ParseTerm` | safeeval.go:269-296 | fused products refine their tree |
| `Evaluator.ExprParser.ParseUnary` | safeeval.go:298-314 | fused signs refine their tree |
| `Evaluator.ExprParser.ParsePower` | safeeval.go:316-329 | fused powers refine their right-associative tree |
| `Evaluator.ExprParser.ParseAtom` | safeeval.go:331-397 | fused atoms refine their tree: literals, names, parentheses, lists |
| `Evaluator.ExprParser.ParseList` | safeeval.go:374-394 | the list loop collects exactly the values of the items, or the first item's error |
| `Evaluator.SafeEval` | safeeval.go:44-58 | the answer is v exactly when the whole text parses to one tree whose strict left-to-right evaluation is v; with a tree the error is the tree's own |
| `Evaluator.SuccessBindsEveryName` | safeeval.go:44-58 | an expression that evaluates has every name it mentions bound |
| `Evaluator.PrintedTreesMeanThemselves` | safeeval.go:44-58 | the text of a tree means the tree's value |
| `Expressions.JoinedDenotes` | safeeval.go:9-20 | for all texts that denote trees: the two in parentheses joined by an operator's symbol denote that operator applied to both |
| `Expressions.TwoOperatorsGroup` | safeeval.go:9-20 | of two operators in a row, as text, the tighter takes the middle; of two that bind alike the left does, but for powers the right |
| `Expressions.GroupedDenotes` | safeeval.go:362-371 | parentheses change nothing |
| `Expressions.SignedDenotes` | safeeval.go:183-192 | a sign before a text in parentheses applies to what the text denotes |
| `Expressions.SignGroups` | safeeval.go:298-329 | a sign takes what follows it up to the first operator that binds less tightly |
| `Expressions.NumberDenotes` | safeeval.go:98-103 | digits and dots that start with a digit, or with a dot before one, are a number |
| `Expressions.StringDenotes` | safeeval.go:85-97 | what stands between two quotes of a kind it does not hold is a string |
| `Expressions.NameDenotes` | safeeval.go:340-360 | a word of letters, digits and underscores that starts with no digit is a name, but for the seven that are constants |
| `Expressions.JoinedMeans` | safeeval.go:44-58 | SafeEval of two texts joined by an operator is the operator on their values |
| `Expressions.JoinedNumbers` | safeeval.go:44-58 | texts that mean numbers, joined by a comparison or by plus, minus or times, mean what the numbers' order or arithmetic says |
| `Operators.FirstErrorWins` | safeeval.go:153-181 | the first operand that fails fails the whole with its own error, or and and included |
| `Operators.NumbersCompare` | safeeval.go:473-499 | numbers compare as numbers do, by all six comparisons; an integer or a flag counts as its number |
| `Operators.StringsCompare` | safeeval.go:498-511 | strings compare in string order |
| `Operators.OthersDoNotCompare` | safeeval.go:473-513 | anything else has no order and fails |
| `Operators.EqualityIs` | safeeval.go:515-522 | two values are equal when they count the same or, one of them counting nothing, print the same |
| `Operators.MembershipIs` | safeeval.go:524-536 | a list holds what some item equals, a text what occurs in it as printed, and nothing else holds anything |
| `Operators.NumbersAdd` | safeeval.go:432-471 | plus, minus, times and power of numbers |
| `Operators.NumbersDivide` | safeeval.go:453-463 | division by a number other than zero, and the greatest integer at most the quotient |
| `Operators.NothingDividesByZero` | safeeval.go:453-468 | division, floor division and remainder by zero are refused |
| `Operators.NumbersLeaveRemainders` | safeeval.go:463-468 | a remainder is smaller than the divisor and of the dividend's sign |
| `Operators.OthersDoNotAdd` | safeeval.go:432-444 | two strings are joined by plus; no other operand that is no number is taken |
| `Operators.SignsAre` | safeeval.go:298-314 | plus leaves a value as it is, minus negates a number and refuses the rest |
| `Operators.ConnectivesAre` | safeeval.go:416-430 | not, and and or by the five falsy values; an integer zero is not among them |
| `Operators.ListIs` | safeeval.go:372-394 | a list literal has its items' values in order |
| `Operators.LiteralsAre` | safeeval.go:341-361 | strings, constants and names have their values; a name nobody bound fails by its name |
| `Operators.DigitsByPlace` | safeeval.go:331-340 | digits count by their places |
| `Operators.WholeNumberIs` | safeeval.go:331-340 | a whole number in decimal is that number |
| `Operators.FractionIs` | safeeval.go:331-340 | digits around one dot are the digits before it plus those after it over a power of ten |
| `Operators.OtherNumbersFail` | safeeval.go:331-340 | digits with a second dot, or no digit, are no number |
| `Folding.NormalizeTwice` | section.go:40-42 | normalizing a second time changes nothing if and only if the text is blank or its trimmed form neither starts nor ends with a hyphen or an underscore |
| `Folding.LeadingHyphen` | section.go:40-42 | the input "-a" gives " a", which gives "a" |
| `Section.FoldKeepsPrefix` | section.go:40-42 | characters that fold to nothing pass through unchanged |
| `Section.ParseDocument` | section.go:163-188 | the loop splits a text into its title, the paragraphs before any section, and the sections line by line |
| `Section.StructuredBody` | section.go:96-139 | the loop sorts each line of a section into fields, bullets, numbered items and wrapped items, and joins the rest to paragraphs |
| `BodyReading.BulletLine` | section.go:107-111 | a dash, a star or a plus and a blank make a bullet, however far indented and whatever was read before |
| `BodyReading.NumberedLine` | section.go:112-116 | digits, a dot or a parenthesis and a blank make a numbered item |
| `BodyReading.WrappedLine` | section.go:117-121 | an indented line of words goes on with the open item after one space |
| `BodyReading.FieldLine` | section.go:122-130 | a known field takes what stands after its first colon, trimmed; the last of one name counts and no other field changes |
| `BodyReading.ProseLine` | section.go:131-137 | a line of words that is no known field is prose and ends whatever list was open |
| `BodyReading.BlankLine` | section.go:102-106 | a blank line is a blank line of prose and ends whatever list was open |
| `BodyReading.LabelIs` | section.go:332-346 | a label is short, ends in a bare colon, starts with a letter and holds letters, digits, blanks, hyphens and underscores only |
| `BodyReading.HeadingIs` | section.go:27-31 | one to six hashes, a blank and a name are a heading of that level and name, with a closing run of hashes or without; seven are none |
| `BodyReading.DocumentLine` | section.go:170-186 | the first heading of level one above all sections is the title, every other opens a section, and any other line belongs to the open section or the preamble |
| `BodyReading.RunIsOneSpace` | section.go:40-42 | every run of blanks, hyphens and underscores between two words of a name becomes one space |
| `Section.Quote` | section.go:192-202 | each line behind a mark, an empty one as the bare mark |
| `Section.Unquote` | section.go:206-218 | the marked lines, trimmed, without their marks; every other line adds nothing |
| `Section.LabelledBlocks` | section.go:226-256 | the loop collects each label's quoted block under the label's normalized name |
| `Prose.Paragraphs` | section.go:260-279 | prose lines joined to paragraphs at the blank lines |
| `Prose.GroupsKeepLines` | section.go:260-279 | paragraphs keep every non-blank line, in order, invent none, and none but the open one is empty |
| `Prose.LineJoinsOrStarts` | section.go:260-279 | a line joins the paragraph of the line before it, and starts its own exactly after a blank line |
| `Prose.JoinedIs` | section.go:260-279 | line by line: a blank line adds nothing, any other is the text when it is the first, follows after one space, or after a blank line stands apart by an empty one |
| `Quoting.QuotedLine` | section.go:192-218 | one quoted line is read back without its trailing blanks |
| `Quoting.QuoteRoundTrip` | section.go:192-218 | quoting and unquoting any text gives it without the blanks its lines end in, so gives it back if and only if none of its lines ends in a blank |
| `Quoting.QuoteIsNeverStructure` | section.go:96-139 | for all text: no line of a blockquote is read as a heading, a bullet, a numbered item, a label, a wrapped item or a known field |
| `SectionFacts.LinesOfUnixLines` | section.go:167-169 | replacing CRLF takes one carriage return off the end of every line but the last |
| `SectionFacts.SectionRead` | section.go:170-186 | lines without headings all go to the open section |
| `SectionFacts.BlockRead` | section.go:226-256 | a label, its blockquote and a blank line make exactly one block, whatever stood before, with carriage returns at the ends of its lines or without |
| `SectionFacts.QuoteRead` | section.go:96-139 | a blockquote leaves a section's fields and lists alone |
| `SessionStore.Runtime.RenderMarkdown` | session_store.go:78-125 | the loops write exactly the specified document: head, compressed summaries, entries, experience, observed decisions in key order, adaptations |
| `SessionStore.RenderEntry` | session_store.go:87-106 | one entry's lines, with evidence and context only when there are any |
| `SessionStore.Runtime.RestoreMarkdown` | session_store.go:127-169 | the loop over the parsed sections assigns exactly the specified layers |
| `SessionStore.RestoreSection` | session_store.go:135-160 | one section dispatched by its normalized name |
| `SessionStore.EntryFromSection` | session_store.go:175-207 | an entry read from its fields, labelled blocks and bullets |
| `SessionFormat.ChaptersInOrder` | session_store.go:78-125 | summaries, entries, experience, observed decisions in key order, adaptations, each at its place |
| `SessionFormat.DocumentIs` | session_store.go:78-125 | the document is its head and then the chapters, each its heading and its pieces, joined by newlines |
| `SessionFormat.FactIs` | session_store.go:101-103 | a fact is written as its key, a colon and its text |
| `SessionFormat.ContextIs` | session_store.go:99-105 | a context is written below its label, a bullet a fact in key order; an empty one not at all |
| `SessionFormat.SectionKinds` | session_store.go:135-160 | a section is read by what its normalized name starts with; any other kind changes nothing |
| `SessionFormat.DefaultsAre` | session_store.go:140-186 | what a missing or unreadable field counts for: no observation, one decision, full confidence, no evidence without a basis, the clock for an instant |
| `SessionFormat.SignedIntegers` | session_store.go:346-351 | whole numbers are read with either sign |
| `SessionLines.ShownInt` | session_store.go:346-351 | any integer written in decimal is read back unchanged |
| `SessionLines.AdaptationNameKept` | session_store.go:116-122 | an adaptation's single-line name survives its heading if and only if it is non-empty, has no blank at either end and does not end in a hash |
| `SessionLines.HashedName` | session_store.go:116-122 | the name "x#" comes back as "x" |
| `SessionLines.DecimalCodecKeepsAll` | session_store.go:336-358 | the demand made of the time and number codec can be met, by one that reads every value back |
| `SessionFacts.FactIsRead` | session_store.go:191-199 | a bullet is cut back into its key and its value, also when the value is empty, whenever the key is trimmed, lacks a colon followed by a space, and lacks any colon in front of a blank value |
| `SessionFacts.FactKept` | section.go:49-64 | a fact is read back as what it was if and only if its text is trimmed and looks like no other kind of fact |
| `SessionFacts.CoerceReadsWhatIsSaid` | section.go:49-64 | over every text: it is read as the flag true exactly when it says true or yes, as false exactly when it says false or no, in any case and between blanks, else as the number read in it, else as itself without the blanks around it |
| `SessionFacts.FactsSayWhatIsRead` | session_store.go:191-199 | once its keys last, every fact of a context is read back as what its text says |
| `SessionFacts.ContextKept` | session_store.go:191-199 | the bullets of any context give it back if and only if every key and every fact of it lasts |
| `SessionSections.EntryBodyRead` | session_store.go:175-207 | an entry's section yields exactly its timestamp, its evidence fields and its context bullets, whatever its texts say |
| `SessionSections.EntryBlocksRead` | session_store.go:190-204 | an entry's section yields exactly its intent and its decision as labelled blocks, whatever they say, without the blanks their lines end in |
| `SessionSections.EntryIsRead` | session_store.go:175-207 | restoring any entry's section gives the entry with its decision as a string, its texts without trailing blanks, its evidence unless the basis is blank, and what its facts, number and instant read as |
| `SessionChapters.DocumentRead` | session_store.go:127-130 | the sections of a rendered document are its chapters in order, for any one-line runtime name |
| `SessionRoundTrip.RestoredIsKept` | session_store.go:78-169 | for every state whose unquoted texts each fit on a line: restoring the rendered document gives exactly the specified state, layer by layer, in order, with carriage returns and blanks accounted for |
| `RestoredLines.RestoredFits` | session_store.go:127-169 | no text at all is restored to a key, a fact, an evidence basis or an adaptation's name of two lines |
| `SessionExact.RestoredAsRendered` | session_store.go:78-169 | over every state, any readings of the clocks and any one-line runtime name: the state comes back as it was, decisions as strings, if and only if its unquoted texts fit on a line, its quoted lines end in no blank, its facts look like no other kind of fact, its keys and names can be told from what surrounds them, and its numbers and instants read back |
| `SessionExact.FactsComeBackAs` | session_store.go:78-169 | what each fact of any entry comes back as over the whole round trip, once the keys last: a flag as itself, a number as what its text says, a text as a flag when it says one of four words, as a number when one is read in it, else without the blanks around it |
| `Chain.VerifyLinks` | trailfile.go:232-255 | the verifier accepts exactly the trails whose every stored hash is reproduced, and otherwise names the first that is not |
| `Chain.VerifiedIsStamped` | trailfile.go:243-254 | the trails that verify are exactly those a writer could have stamped over their payloads |
| `Chain.TipIs` | reasoninglog.go:21-24 | the chain starts at a fixed word, and each tip is the hash of the tip before, a newline and the payload |
| `Chain.HashPinsPrefix` | reasoninglog.go:21-24 | two verifying trails that share a stored hash share it at the same place and agree on everything up to it, unless two of the texts hashed collide |
| `Chain.TipsNeverRepeat` | reasoninglog.go:21-24 | within a verifying trail no stored hash comes back |
| `Chain.UniqueSplit` | reasoninglog.go:21-24 | previous hash, newline and payload come apart in one way only |
| `Chain.TamperingIsReported` | trailfile.go:232-255 | any edit, insertion, removal or reordering before a surviving hash is reported at or before it |
| `Chain.LonePayloadEdit` | trailfile.go:232-255 | a lone edited payload is reported at exactly its record |
| `Chain.VerifiedPrefix` | trailfile.go:232-255 | a file with its tail cut off still verifies |
| `TrailMarkdown.MarkerLineFound` | trailfile.go:40-40 | a chain comment is found with its hash and is no record heading |
| `TrailMarkdown.MarkerLineLast` | trailfile.go:81-99 | a text ending in a chain comment has that hash as its last marker |
| `TrailMarkdown.MarkerAtIs` | trailfile.go:40-40 | a marker is a comment of exactly the chain form around a hash |
| `TrailMarkdown.FirstMarkerIs` | trailfile.go:272-272 | the marker found in a line is the one that starts first |
| `TrailMarkdown.LastMarkerIs` | trailfile.go:92-95 | the marker resumed from is the one that starts last |
| `TrailMarkdown.ChainLinksMd` | trailfile.go:268-290 | the scanning loop gives the links the line-by-line specification gives, each labelled by its block's heading up to the first dash |
| `TrailMarkdown.FramedRead` | trailfile.go:268-290 | a framed block followed by its comment is read as exactly one link, in any earlier state |
| `TrailMarkdown.FramingIsExact` | trailfile.go:268-290 | any block under a heading is found again if and only if no line below the heading starts another heading or holds a marker |
| `TrailMarkdown.HeadedRead` | trailfile.go:268-290 | a block with one heading gives exactly one link whatever else it holds: the block up to its first inner marker and that marker's hash, or the whole block and its tip |
| `TrailMarkdown.FoundWhole` | trailfile.go:268-290 | the payload comes back whole exactly when the block is framed, and otherwise with fewer lines |
| `TrailRecord.RecordMarkdown` | trailfile.go:190-226 | the loops write exactly the specified block: header, one-line inputs, longer inputs, rationale, long output |
| `TrailReading.LinesAre` | trailfile.go:190-226 | a record's block line by line: header, a bullet for each one-line input in key order, then each longer input, the rationale and a long output quoted in full under their labels |
| `TrailReading.HeaderIs` | trailfile.go:191-197 | the header starts with the stage and carries the clipped output and the model in parentheses |
| `TrailReading.CollapseIs` | trailfile.go:400-406 | collapsing turns every run of blanks into one space and drops those at the ends |
| `TrailReading.CapitalizeIs` | trailfile.go:408-413 | a label is its key with the first letter raised |
| `TrailReading.BulletsAreRead` | trailfile.go:199-212 | read by the section parser the block's bullets are its one-line inputs in key order, and after them only labels that are written like bullets |
| `TrailReading.BlocksAre` | trailfile.go:213-226 | read by the section parser the labelled blocks are exactly what the record quotes, without trailing blanks; of two labels that read alike the later counts |
| `TrailReading.PartIsThere` | trailfile.go:213-226 | each text quoted under a label that no later label repeats is there to be read |
| `TrailReading.NothingElseIsThere` | trailfile.go:213-226 | and no block is there that was not quoted |
| `TrailReading.ReasonsAreThere` | trailfile.go:218-223 | the rationale stands under why and a long output under output, whatever they and the inputs say |
| `TrailReading.LabelIsStage` | trailfile.go:268-290 | a broken record is reported under its stage |
| `TrailRecord.SplitKeys` | trailfile.go:201-208 | input keys are split by whether their value takes one line, each list in key order |
| `TrailRecord.CollapseIsOneLine` | trailfile.go:400-406 | a clipped output never breaks the header line |
| `TrailRecord.BlockHasOneHeading` | trailfile.go:190-226 | a record with single-line names renders to a block with one heading, whatever its content |
| `TrailRecord.BlockIsFramed` | trailfile.go:190-226 | a record with single-line names renders to a framed block if and only if no line below its header holds a chain marker |
| `TrailRecord.MarkerInRationale` | trailfile.go:218-220 | a marker on any line of a rationale is a marker in the block: the quote mark does not hide it |
| `TrailFiles.TrailFile.constructor` | trailfile.go:81-99 | opening finds the last marker, or the genesis, and the highest cycle number |
| `TrailFiles.HighestCycle` | trailfile.go:87-92 | the number resumed from is the highest of any cycle heading, zero without one |
| `TrailFiles.CycleNumberIs` | trailfile.go:40-41 | a cycle heading's number is the digits right behind its words |
| `TrailFiles.TrailFile.WriteRecord` | trailfile.go:118-169 | a closed file refuses and changes nothing; an open one moves the tip and appends the heading when the cycle changes, the block and the comment; a write that fails appends nothing, though the tip has moved |
| `TrailFiles.VerifyTrail` | trailfile.go:232-255 | verification of a markdown trail's text: intact exactly when every stored hash is reproduced, else the first record that fails, under its label |
| `TrailFiles.WriteKeeps` | trailfile.go:155-169 | one written record, whatever its content, keeps: whole lines, one link a record, the chain's tip as last marker, no cycle number lost |
| `TrailFiles.ResumeKeeps` | trailfile.go:81-99 | reopening the file finds exactly the tip the last session left |
| `TrailFiles.ManySessionsOneTip` | trailfile.go:48-169 | however records are split into sessions and whatever their content: one link a record, resuming finds exactly the tip of their chain, and every cycle number written is at most the one numbering resumes from |
| `TrailFiles.FoundExactlyMarkerFree` | trailfile.go:268-290 | the scanner finds exactly the blocks and hashes written if and only if no record's content holds a chain marker of its own |
| `TrailFiles.ManySessionsOneChain` | trailfile.go:48-169 | without such markers the file holds one chain, found again exactly, resumed at its tip, and accepted by the verifier |
| `TrailFiles.VerifiesExactlyMarkerFree` | trailfile.go:232-255 | over any sessions of records with single-line names: the untouched file verifies if and only if no record's content holds a chain marker, unless such a marker carries the right hash of its own cut block |
| `TrailFiles.InnerMarkerBreaksTheTrail` | trailfile.go:232-255 | even when a marker inside a record carries the right hash of the cut block, the untouched file fails at or before any marker-free record after it, unless texts collide |
| `TrailFiles.QuotedMarkerIsCut` | trailfile.go:268-290 | a record whose rationale quotes a chain marker is not found as it was written |
| `Attempts.VerifiesExactlyWhenOrderly` | trailfile.go:118-169 | over any writes, failed or accepted, split into any sessions: the chain verifies if and only if no session accepted a write after one that failed; else the break is at exactly the first such write |
| `MarkdownAttempts.VerifiesExactlyWhenStopped` | trailfile.go:118-169 | the untouched markdown file verifies if and only if no session had a write accepted after one that failed; else verification reports exactly the first such record |
| `MarkdownAttempts.ReopeningHeals` | trailfile.go:81-169 | a failed write and then an accepted one leave a file that does not verify; with the file opened again in between the same two leave one that does |
| `TrailFiles.AlteredTrailIsReported` | trailfile.go:232-255 | whatever stands in the file later, a surviving stored hash with anything different from what was stamped before it makes verification report a break at or before it |
| `TrailJsonl.ChainLinksJsonl` | trailfile.go:295-321 | the loop gives one link for every line whose object carries a chain, labelled by its stage or a question mark |
| `TrailJsonl.LinkOnIs` | trailfile.go:295-321 | a line whose object carries a chain gives its other fields as payload and the chain as stored hash; any other gives nothing |
| `TrailJsonl.HighestCycle` | trailfile.go:100-114 | opening finds the highest cycle number any line says, zero when none does |
| `TrailJsonl.LastChain` | trailfile.go:100-114 | and the last chain a line says, or the genesis when none does |
| `TrailJsonl.JsonlTrail.constructor` | trailfile.go:100-114 | opening finds the last chain value and the highest cycle number |
| `TrailJsonl.JsonlTrail.WriteRecord` | trailfile.go:118-149 | a closed file refuses; an open one moves the tip and appends one line whose chain covers the object without the chain field; a write that fails appends nothing, though the tip has moved |
| `TrailJsonl.ManySessionsOneChain` | trailfile.go:132-149 | over any canonical JSON library: one chain over any number of sessions, found again exactly, resumed at its tip, accepted, with every cycle number covered |
| `JsonlAttempts.VerifiesExactlyWhenStopped` | trailfile.go:118-149 | the untouched JSON-lines file verifies if and only if no session had a write accepted after one that failed; else verification reports exactly the first such line |
| `JsonlAttempts.ReopeningHeals` | trailfile.go:100-149 | a failed write and then an accepted one leave a file that does not verify; with the file opened again in between the same two leave one that does |
| `PlainJson.PlainJsonIsCanonical` | trailfile.go:175-186 | the assumption on the JSON library can be met: a concrete encoding with sorted keys is read back unchanged, on one line |
| `ReasoningLogs.ReasoningLog.SeedCycleNumbering` | reasoninglog.go:87-93 | numbering goes on from the larger of the seed and where it was |
| `ReasoningLogs.ReasoningLog.BeginCycle` | reasoninglog.go:98-109 | a new cycle takes a number above every seed and every number issued before, and its first record is the intent |
| `ReasoningLogs.ReasoningLog.Log` | reasoninglog.go:143-181 | a record is completed, linked to the tip and stored in the open cycle, or in a headless one under the next number |
| `ReasoningLogs.ReasoningLog.Rotate` | reasoninglog.go:116-137 | exactly the cycles started before the window go, and the count of them is returned; an empty window keeps all; a log that verified before verifies after if and only if no cycle that went and had records stood before one that stayed and has records |
| `ReasoningLogs.KeptInOrder` | reasoninglog.go:116-137 | a window keeps, in order, the cycles started at its cutoff or later and those without a start |
| `ReasoningLogs.RecordsAre` | reasoninglog.go:198-211 | the records of a log, cycle by cycle, in order |
| `ReasoningLogs.ReasoningLog.Verify` | reasoninglog.go:219-234 | true exactly when the records still held chain from the genesis; else the first that does not |
| `ReasoningLogs.VerifiesExactlyAsPrefix` | reasoninglog.go:219-234 | records taken from a chain verify from the genesis if and only if they are a prefix of it |
| `ReasoningLogs.RotationVerifies` | reasoninglog.go:116-137 | over any cycles whose records verify, what a retention window leaves verifies if and only if the window drops no records before records it keeps |
| `ReasoningLogs.RotateBreaksVerify` | reasoninglog.go:116-137 | a log of two cycles as BeginCycle writes them, the first out of the window: Verify is true before the rotation and false after it, though nothing was altered, unless two of the few texts hashed collide |
| `TrailNumbering.ResumeMarkdown` | loader.go:484-491 | open the markdown file any sessions left, seed the numbering, begin a cycle: its number exceeds every cycle number in the file, every earlier seed and every number issued before |
| `TrailNumbering.ResumeJsonl` | loader.go:484-491 | open the JSON-lines file any sessions left, seed the numbering, begin a cycle: its number exceeds every cycle number in the file, every earlier seed and every number issued before |
| `McpClients.McpClient.Register` | mcp_client.go:294-305 | a fresh id and its channel join the table unless the client is closed |
| `McpClients.McpClient.Deliver` | mcp_client.go:407-424 | a frame reaches the channel waiting for its id and no other; a frame nobody waits for changes nothing |
| `McpClients.McpClient.DrainPending` | mcp_client.go:428-439 | the table is emptied and every channel that was in it and had room holds nil |
| `McpRuns.StepKeeps` | mcp_client.go:294-439 | every step of requests, reader, drains, timeouts and clean-ups keeps: ids and channels belong to one request, the right to send on a channel is held once, and a request without an outcome is in the table, or its send has begun, or its reply is there |
| `McpRuns.NothingIsDiscarded` | mcp_client.go:420-438 | in every run each reply channel is sent to at most once and no send finds it full: neither default branch discards anything |
| `McpRuns.RepliesMatch` | mcp_client.go:322-339 | a frame that ends a request carries the request's id |
| `McpRuns.LateFramesDoNothing` | mcp_client.go:407-418 | in every run a frame for an id that has left the table changes nothing then or later, and one for an id not issued yet changes nothing at any time before it is issued |
| `McpRuns.OthersAreUntouched` | mcp_client.go:407-424 | whatever frame arrives, every other request keeps its place, phase and channel |
| `McpRuns.RegisterRunsThrough` | mcp_client.go:294-305 | a client starts open with an empty table, and the register step is what the method does |
| `McpRuns.DeliverRunsThrough` | mcp_client.go:407-424 | deliver run without interruption is its two steps and leaves no send over |
| `McpRuns.DrainRunsThrough` | mcp_client.go:428-439 | the drain run without interruption is its steps: the table is empty, every channel that was in it was empty and holds nil, every other is as before, and no send is left over |
| `McpRuns.DrainLeavesNobody` | mcp_client.go:428-439 | at any time after a drain, a request registered before it whose send is no longer pending has its reply ready |
| `ParallelMap.MapInline` | concurrent.go:22-28 | at most one item is mapped in place |
| `ParallelMap.StepKeeps` | concurrent.go:32-49 | every step of the launching loop and the goroutines keeps: taken slots are the goroutines that hold one, the wait group counts the unfinished, and a result slot is written exactly when its goroutine has written it |
| `ParallelMap.BoundedAndWrittenOnce` | concurrent.go:32-49 | whatever the schedule, no more calls than the limit run at once and no slot is written twice |
| `ParallelMap.ReturnsTheSequentialMap` | concurrent.go:21-49 | whatever the schedule, when the wait returns the results are those of the sequential map, each slot was written once and every semaphore slot is free |
| `ParallelMap.NeverStuck` | concurrent.go:39-48 | until it returns, some step can always be taken |
| `ParallelMap.RunsEnd` | concurrent.go:39-48 | every schedule has at most five steps an item and the return, and has returned exactly when it has taken them all |
| `Governance.ApproverAllowed` | policy.go:44-55 | anyone when no list is declared, else exactly the listed names up to normalization |
| `Governance.Judge` | policy.go:62-76 | a policy is violated exactly when its non-empty fallback parses and evaluates to a falsy value |
| `Governance.Governor.Govern` | pipeline.go:43-114 | the judgments, one for each place a policy stands at, are folded into the unresolved violations in policy order; a judge error gives none; one entry is written for each policy folded before the first error |
| `Governance.ViolationsInOrder` | pipeline.go:66-112 | the violations are the policies at the places where one is violated and not waived by an allowed approver, in policy order |
| `Governance.EntriesInOrder` | pipeline.go:66-112 | one entry a policy, in policy order |
| `Governance.EntryIs` | pipeline.go:72-100 | what is written of one policy, stage and text, by what the judge, the gate and the verdict say |
| `Governance.Governor.Enforce` | runtime.go:382-404 | a block when any violation is ungated or the verdict is a rejection, else a parked gate with its summary, else nothing |
| `Governance.SplitInOrder` | runtime.go:386-396 | what blocks and what waits, each in the order of the violations |
| `Governance.Governor.RunGate` | stages.go:31-41 | a governance stage is govern followed by enforce |
| `Governance.GateTrichotomy` | runtime.go:382-404 | a gate fails exactly on a judge error; otherwise it passes exactly when at every place the policy complies or is gated, approved and approver-allowed, blocks exactly when some violation is ungated or the verdict rejects, and otherwise parks |
| `Governance.StoppedPolicies` | runtime.go:382-404 | a blocked gate names exactly the blocking violations, a parked one exactly all that wait |
| `Planning.ResolveProcesses` | stages.go:464-478 | the named processes, each once, in the model's order |
| `Planning.ResolvedFromPool` | stages.go:464-478 | whatever the model names, only processes of the pool are found, none twice |
| `PlanOrder.ResolvedInNamedOrder` | stages.go:464-478 | exactly the processes some name stands for, each once, in the order of first mention; of several with one name the last in the pool is meant |
| `Planning.SelectProcesses` | pipeline.go:168-178 | the first process of each name, in order |
| `PlanOrder.SelectedAreFirst` | pipeline.go:168-178 | the candidates at the places where no earlier one has the name, in order |
| `Planning.SelectedAreCandidates` | pipeline.go:168-178 | selection invents no process and takes no name twice |
| `Planning.EveryNameSelected` | pipeline.go:168-178 | every candidate name keeps a process |
| `Planning.Compose` | pipeline.go:181-187 | the workflows of the selected processes in order |
| `Planning.ComposedIs` | pipeline.go:181-187 | process by process, each with its workflows in their own order |
| `Planning.ReorderWorkflows` | stages.go:507-527 | the named workflows, then the others in composed order |
| `PlanOrder.ScheduledOrder` | stages.go:507-527 | by positions: first the workflows the model named, once each, in the order of first mention; then every other as often and in the order it was composed |
| `PlanOrder.NamedRunFirst` | stages.go:507-527 | a workflow the model named runs before every one it did not name |
| `Planning.ReorderKeepsSet` | stages.go:507-527 | for every model answer scheduling keeps exactly the composed workflows |
| `Planning.ReorderPermutes` | stages.go:507-527 | scheduling is a permutation if and only if no workflow the model named was composed twice |
| `Planning.TwiceComposedOnceNamed` | stages.go:507-527 | a workflow composed twice and named once is scheduled once |
| `Reasoning.CycleState.RunStage` | stages.go:31-147 | each stage changes the cycle, stops it and writes the trail exactly as specified, also when a judge fails |
| `Stages.DiscoverLeaves` | stages.go:49-87 | discovery leaves the matching processes in order, those the model names in its order, or all when there are none |
| `Stages.SelectLeaves` | stages.go:93-120 | selection leaves the first candidate of each name, or of those the ones the model names in its order |
| `Stages.ScheduleLeaves` | stages.go:137-160 | scheduling leaves the named workflows in the model's order and then the rest as composed |
| `Stages.OthersLeave` | stages.go:31-41 | every other stage: composing, gates, reasoning, and those that only succeed or fail |
| `Reasoning.RunCycle` | runtime.go:203-238 | the tenant boundary first, then the stages in order until one stops the cycle, with exactly the specified trail |
| `Stages.RunIs` | runtime.go:226-237 | a run is a row of cycles, each what the stage before it left, ended after the last stage, at a cancellation or at the stage that stopped it; its trail is what those stages wrote, in order |
| `Reasoning.GatePassed` | stages.go:31-41 | a gate that lets the cycle on had the policy satisfied at every place and changed nothing else |
| `Reasoning.DecisionMeansGoverned` | cycle.go:39-57 | a decision of the default pipeline means: no tenant refusal, every runtime policy satisfied at the first gate, the plan is exactly the workflows of the selected processes, and every policy of each of them was satisfied at the second gate |
| `Monitor.InspectRuntime` | monitor.go:125-200 | the fold over the trail counts governance stops and waiting gates by stage and output, and classifies the health |
| `Monitor.BlockedCount` | monitor.go:150-182 | the blocked count is the number of trail entries that say governance stopped something |
| `Monitor.PendingCount` | monitor.go:155-165 | the pending count is the number of entries that say a person is waited for |
| `Monitor.HealthIs` | monitor.go:206-222 | broken exactly on a broken chain, attention exactly on failures or waiting gates over an intact one, else healthy |
| `Monitor.EntryCounts` | pipeline.go:63-113 | a policy's entry counts exactly when the policy is unresolved: as pending without a verdict, else as blocked |
| `Monitor.GateCounts` | pipeline.go:63-113 | over a whole gate the counts are the numbers of waiting and of other violations |
| `Monitor.ViolationsAdd` | pipeline.go:43-114 | waiting and other violations are together all that govern returns |
| `Monitor.SummaryCountsNothing` | runtime.go:398-403 | the summary of a parked gate is not counted again |
| `Monitor.HealthAgreesWithGovernance` | monitor.go:135-182 | over any cycles, pending is the number of violations found waiting for a verdict and blocked the number of all others found plus the tenant refusals |
| `Monitor.FleetHealth.Add` | monitor.go:313-325 | the fleet's totals stay the sums over its instances |
| `Monitor.FleetHealth.Status` | monitor.go:114-122 | the worst status of any instance |
| `Monitor.SortedIsStable` | monitor.go:328-336 | the order is worst first, names ascending within a rank, and instances alike in both keep their order: a stable permutation |
| `Monitor.WorstComeFirst` | monitor.go:328-336 | nobody stands before someone worse, and those of one status stand by name |
| `Monitor.FleetHealth.SortWorstFirst` | monitor.go:328-336 | afterwards the first instance has the fleet's status |
| `ToolLoop.ReasonWithTools` | tool_reasoning.go:27-94 | against any model: at most the allowed iterations and calls and at most three corrected turns; it ends decided, failed, or spent for exactly these reasons |
| `ToolLoop.NextIs` | tool_reasoning.go:36-92 | what the loop does with an answer, told by the history: corrected while fewer than three turns were, refused exactly when the same call failed since the last success |
| `ToolLoop.RefusedAreFailed` | tool_reasoning.go:75-91 | a call is refused exactly when it failed and no call of any kind has succeeded since |
| `ToolLoop.FailedResults` | tool_reasoning.go:172-176 | which results count as failed |
| `ToolLoop.RecoveriesAreBounded` | tool_reasoning.go:53-68 | no history the loop can produce holds more than three corrected turns |
| `ToolLoop.FailedCallIsNotRepeated` | tool_reasoning.go:70-90 | if two calls share a key and the earlier failed, some call strictly between them succeeded |
| `Panel.Convene` | panel.go:59-140 | at most min(rounds x personas, cap) turns, each the one the rules give; only a conclusion or an error ends the panel early |
| `Panel.NextIs` | panel.go:79-120 | what the panel does next with any transcript and any answer of the moderator |
| `Panel.AroundIs` | panel.go:83-83 | the turn goes to the first seat, else to the seat after the last speaker's |
| `Panel.NamedIsFirst` | panel.go:100-101 | a name stands for the first seat that carries it |
| `Panel.OnlySeatedSpeak` | panel.go:79-106 | only seated personas speak, whatever the moderator answers |
| `Panel.EarlyMeansEveryNameSpoke` | panel.go:90-95 | an early conclusion means every name at the table has spoken |
| `Panel.EarlyMeansEveryoneSpoke` | panel.go:90-95 | with distinct names that is every persona |
| `Panel.SharedNameIsEnough` | panel.go:347-354 | at a table of two who share a name, one turn the loop takes is enough for it to conclude without the other |
| `PanelTables.LeftOutIsShared` | panel.go:79-106 | whoever is left out of an early conclusion, some seat whose neighbour does not depend on it for the turn carries a name that occurs elsewhere |
| `PanelTables.SharedIsLeftOut` | panel.go:79-106 | given such a seat, a moderator and fewer turns than personas, each one the loop takes, conclude without it |
| `PanelTables.SomeoneCanBeLeftOut` | panel.go:90-95 | over every table: some moderator can conclude early with someone unheard if and only if the name at the end of some block is also carried at another seat, where a block ends at the last seat and before every seat that can be given the turn by name |
| `Panel.NoModelRotates` | panel.go:83-84 | with no model turn i belongs to persona i mod n |
| `Panel.RotationReachesEveryone` | panel.go:83-106 | n rotation turns in a row go once around the table, so everyone has spoken |
| `Panel.ConcludeIsObeyed` | panel.go:90-99 | a moderator that keeps concluding is obeyed after at most n refusals, if turns remain |
| `Panel.PanelCall` | panel.go:277-294 | the authored patterns joined in order, and the patterned workflows' personas, each once, in order of first mention |
| `Panel.StyleMeansPattern` | panel.go:277-294 | the joined style is empty exactly when no workflow authors a pattern, and then nobody convenes |
| `Panel.EachSeatedOnce` | panel.go:277-294 | nobody is seated twice and exactly the patterned workflows' personas are seated |
| `Panel.SeatsInOrder` | panel.go:277-294 | the seats are the delegated personas of the patterned workflows at the places of their first mention |
| `Budget.BudgetMonitor.constructor` | budget.go:44-55 | the positive thresholds, each once, ascending |
| `Budget.BudgetMonitor.Add` | budget.go:59-84 | the alerts are the thresholds reached that have not fired, in order, with the new total |
| `Budget.AlertsAreThePrefixReached` | budget.go:59-84 | over any non-negative amounts the alerts, in order, are exactly the declared thresholds at or below the fraction spent, ascending, each once |
| `Text.JoinOfLines` | section.go:170-186 | joining the lines of a text gives the text back |
| `Text.LinesOfJoin` | session_store.go:124-124 | the lines of joined pieces are the lines of the pieces in order |
| `Text.BeforeMeans` | monitor.go:334-334 | one text is before another when it is a proper prefix or has the smaller character where they first differ |
| `Text.SortedKeys` | pipeline.go:239-246 | exactly the keys of a map, in string order |
| `Text.SortedKeysDiffer` | pipeline.go:239-246 | no key of a map comes twice in the sorted list |

## Left out

- Section.Normalize: here as in every module a character stands for a byte; letters, digits and case are ASCII, while blanks are the full Unicode list.
- Values.Arith: real numbers stand for floating-point ones; rounding, infinities and not-a-number are not modelled.
- Values.Env: math.Pow and fmt.Sprint are arbitrary functions.
- SessionStore.Codec: instants and floating-point numbers are written and read by an arbitrary codec that writes one word on a line; time formats are not modelled, and which values read back is left to the codec.
- SessionStore.Atoi: integers of any size, so the 64-bit range check is not modelled.
- SessionStore.EntryOf: evidence sources are not part of the markdown session and are dropped, as the source does.
- SessionStore.Runtime.RestoreMarkdown: file access and the JSON form of the session are left out.
- KernelCore.Kernel.TakeReady: tasks are values, so a caller changing a task it holds is not modelled; verdicts and claims ride along unread and are left out.
- KernelRuns.Apply: every take reserves, as in the concurrent paths; the serial Tick and Drain reserve nothing, so the one-writer results do not cover them, and at most one drain runs at a time.
- KernelTheorems.NoLostWakeup: clock readings are arbitrary; that a timer fires on time is not modelled.
- Chain.HexOutput: SHA-256 (section 6.2 of FIPS 180-4) is any function with non-empty lower-case hexadecimal output; that the texts hashed do not collide is an explicit condition.
- TrailFiles.TrailFile.WriteRecord: a write that fails appends nothing; one that appends a part is not modelled.
- TrailRecord.RecordMarkdown: input values enter as the text the markdown view gives them, and the cycle heading's time as its text.
- TrailFiles.VerifiesExactlyMarkerFree: leaves out markers that carry the right hash of their own cut block; what they do is the row of `TrailFiles.InnerMarkerBreaksTheTrail`, which needs a marker-free record after them.
- TrailJsonl.Canonical: JSON objects are flat maps of field texts; that the library is canonical is an assumption, which `PlainJson.PlainJsonIsCanonical` shows can be met.
- TrailJsonl.JsonlTrail.WriteRecord: as for the markdown file, a write that appends a part is not modelled.
- ReasoningLogs.ReasoningLog.Log: a record's JSON is an arbitrary function of it; the sink and the trail writer are left out here.
- McpClients.Apply: subprocess start-up, the timers' durations and the wait in Close are left out; giving up is possible at any time, and a client that never connected counts as closed.
- Governance.OutputOf: rationales and notes are left out.
- Reasoning.StageOutcome: delegation, recall, research, formalizing, evidence, explanation, audit and memory enter as stages that succeed or fail and write their own notes.
- Reasoning.CycleState.RunStage: so the stages that neither plan nor govern are oracles.
- Reasoning.RunCycle: the usage record, retention and persistence that follow the stages are left out.
- Reasoning.Matching: which processes an intent's words match is an arbitrary predicate.
- Monitor.InspectRuntime: usage totals and the chain's result enter as parameters; freshness and the sparkline are left out.
- ToolLoop.World: argument rendering is left out; the key of a call is an arbitrary function of tool and arguments.
- ToolLoop.ReasonWithTools: the concluding model call of a spent loop is left out.
- PanelTables.SomeoneCanBeLeftOut: about panels whose turns suffice; the run it gives takes fewer turns than there are personas, so one round with no lower cap is enough.
- Panel.Convene: the synthesis of a decision and the tool calls inside a turn are left out.
- Budget.BudgetMonitor.Add: delivery to the callback and the log is left out.
- Reading trails back from JSON lines, argument blocks of tool calls, prompts and signatures, knowledge search, spawning, tenancy records, the command line and the server would add members settled by one branch or by a library.
