# Verification of the transaction utilities

This project models the parts of the repository in which many small steps have to fit together, and
proves what every run of them keeps. `dafny verify dfyconfig.toml` checks all of it with Dafny 4.11.

- **Payload event queues** (`Kernel`, `StableQueue`, `TimeOrderedList`, `DeltaList`, `PeqModel`,
  `PeqRuns`, `Peq`, `PeqWithGet`). `peq_with_cb_and_phase` keeps a hand-made time-ordered list with a
  free list, two parity buckets for delta cycles, an immediate bucket, and one event that has to be
  armed early enough. The classes refine a value-level state; the lemmas quantify over every run of
  that state under the scheduler rules of IEEE Std 1666-2011, sections 4.2 and 5.10, with any owner
  whose callbacks notify with zero or positive delay. `peq_with_get` refines the same stable queue.
- **Transaction-file scanner** (`ScannerTables`, `ScannerRules`, `Scanning`, `Scanner`). The
  compressed tables are a plain automaton, the automaton accepts the earliest rule that describes the
  text, and the refilling scanner returns the tokens of the text however the file hands it over.
- **Transaction-file parser** (`Grammar`, `ParserTables`, `ParserRuns`, `Translation`, `Meaning`,
  `Actions`, `Parser`, `Forms`, `RoundTrip`). The LALR tables accept exactly the sentences of the
  grammar, within 30 states of stack; these are exactly the files made of a first line, header lines
  and body lines; the actions build the mailbox that the lines ask for; and what a writer puts into a
  file is read back.
- **Instance-specific extensions** (`Extensions`): containers, pool, carriers and use counts.
- **Phase service** (`Phases`): a barrier over the participants of each runtime phase.
- **Type ids** (`TypeNames`, `TypeIds`): ids by explicit match and by short name.
- **Route graph** (`Routes`): connections, peers and handles.
- **Multi-sockets** (`MultiSockets`): the binding tables of initiator and target sockets.

Four facts about the code stand out. The setter for `lock` writes `id`
(`dpi/stl/dpi_smtdv_wrapper.cpp:167-171`), so on AHB lines the `id` of a transfer is its lock column.
The guard of the post-run phases (`uvm_ml_phase_service.cpp:233`) also holds before shutdown starts,
because both counters are then zero; `Phases.PostRunWaitsExactlyIf` says exactly which runs suffer.
A type match of an unqualified name is undone when a query gives another type of that short name an
id (`bp_framework_proxy.cpp:352-367`); `TypeIds.MatchLastsExactly` says exactly when a match lasts.
A target socket that is bound directly can still be bound to an enclosing socket
(`multi_passthrough_target_socket.h:264-278`), and then its initiators reach nobody;
`MultiSockets.Design.InitiatorRoundTrip` says exactly which sub-ports lead there and back.

## Model

| member | source | states |
|---|---|---|
| `StableQueue.InsertAt` | kernel/systemc-2.3.0/src/tlm_utils/peq_with_cb_and_phase.h:86-101 | Insertion is stable: the new entry comes last among those due at its time, and no other time's entries move. |
| `StableQueue.InsertMultiset` | kernel/systemc-2.3.0/src/tlm_utils/peq_with_cb_and_phase.h:74-101 | Nothing queued is lost or doubled by an insertion. |
| `StableQueue.InsertAtSplit` | kernel/systemc-2.3.0/src/tlm_utils/peq_with_cb_and_phase.h:88-91 | The place at which the list walk stops is the only one that keeps the order, so walking finds the stable place. |
| `TimeOrderedList.TimeOrderedList.FindPlace` | kernel/systemc-2.3.0/src/tlm_utils/peq_with_cb_and_phase.h:86-91 | The walk ends behind every element due no later and before the first later one. |
| `TimeOrderedList.TimeOrderedList.Insert` | kernel/systemc-2.3.0/src/tlm_utils/peq_with_cb_and_phase.h:74-101 | The linked list spells the stable insertion; live and free chains stay acyclic and disjoint; a node is allocated only when the live length reaches a new maximum. |
| `TimeOrderedList.TimeOrderedList.DeleteTop` | kernel/systemc-2.3.0/src/tlm_utils/peq_with_cb_and_phase.h:103-111 | Removes exactly the head, or nothing from an empty list, and recycles its node. |
| `TimeOrderedList.TimeOrderedList.Reset` | kernel/systemc-2.3.0/src/tlm_utils/peq_with_cb_and_phase.h:68-72 | Empties the list and keeps every node it ever allocated. |
| `DeltaList.DeltaList.Insert` | kernel/systemc-2.3.0/src/tlm_utils/peq_with_cb_and_phase.h:161-166 | The doubling vector keeps refining a first-in first-out sequence. |
| `PeqModel.NotifyEachSameBut` | kernel/systemc-2.3.0/src/tlm_utils/peq_with_cb_and_phase.h:217-230 | Delayed notifications made inside callbacks leave alone what is being drained: the present bucket, the immediate bucket and everything due now. |
| `PeqWithCallback.PeqWithCallback.NotifyIn` | kernel/systemc-2.3.0/src/tlm_utils/peq_with_cb_and_phase.h:217-230 | A delayed notification goes to the timed list or to the bucket that the next delta cycle puts out, and arms the event, as the value-level state says. |
| `PeqWithCallback.PeqWithCallback.CancelAll` | kernel/systemc-2.3.0/src/tlm_utils/peq_with_cb_and_phase.h:238-244 | All four containers are empty and no notification is pending. |
| `PeqWithCallback.PeqWithCallback.Fec` | kernel/systemc-2.3.0/src/tlm_utils/peq_with_cb_and_phase.h:248-280 | The process terminates, whatever its callbacks notify, in the state that the value-level drains describe. |
| `PeqRuns.FecCallsExactly` | kernel/systemc-2.3.0/src/tlm_utils/peq_with_cb_and_phase.h:248-275 | One run of `fec` calls back exactly the immediate payloads, then those of the present bucket, then those due now, each once and in order, and removes exactly these: the next cycle's bucket and every later timed entry stay queued. |
| `PeqRuns.FecArms` | kernel/systemc-2.3.0/src/tlm_utils/peq_with_cb_and_phase.h:257-278 | When `fec` returns, everything still queued has a wake-up pending no later than it is due. |
| `PeqRuns.StepKeeps` | kernel/systemc-2.3.0/src/tlm_utils/peq_with_cb_and_phase.h:217-280 | Every notification, cancellation, dispatch, delta cycle and advance of time keeps the wake-up armed and the account of calls asked for, made and queued balanced. |
| `PeqRuns.AgendaIsStableSort` | kernel/systemc-2.3.0/src/tlm_utils/peq_with_cb_and_phase.h:74-101 | The order in which timed payloads fall due is the stable sort by time of the notifications. |
| `PeqRuns.CalledExactlyOnce` | kernel/systemc-2.3.0/src/tlm_utils/peq_with_cb_and_phase.h:217-280 | In every run, at the end of every evaluation phase each call that is due has been made exactly as often as the steps of the run and the callbacks have asked for it since the last cancellation, at its time and in its delta cycle, and none that is not due. |
| `PeqRuns.CalledInOrder` | kernel/systemc-2.3.0/src/tlm_utils/peq_with_cb_and_phase.h:248-275 | In every run the timed calls made are the first ones of the stable sort by time of what the steps and the callbacks asked for, and delta and immediate calls follow the order in which they were asked for. |
| `PeqRuns.NotifiedIsCalled` | kernel/systemc-2.3.0/src/tlm_utils/peq_with_cb_and_phase.h:217-280 | A payload notified and not cancelled is called back: with delay w > 0, at that time; with zero delay, in the next delta cycle; and without a delay, at once. |
| `PeqRuns.AskedIsWanted` | kernel/systemc-2.3.0/src/tlm_utils/peq_with_cb_and_phase.h:217-275 | What the queue accounts for is what the steps of the run notify from outside and the callbacks from inside, each with its due time or delta cycle. |
| `PeqWithGet.PeqWithGet.GetNextTransaction` | kernel/systemc-2.3.0/src/tlm_utils/peq_with_get.h:56-72 | If the head is due now or overdue, it is returned and removed; otherwise nothing is, and the event is re-armed for the head's time. |
| `PeqWithGet.PeqWithGet.CancelEverything` | kernel/systemc-2.3.0/src/tlm_utils/peq_with_get.h:80-83 | Nothing is queued and no notification is pending. |
| `PeqWithGet.FetchedOnceInOrder` | kernel/systemc-2.3.0/src/tlm_utils/peq_with_get.h:43-83 | Over a whole run, across cancellations, nothing is handed out more often than the steps of the run ever notified it or before its due time, and due times never decrease; since the last cancellation, what was notified is what was handed out and what is queued. |
| `PeqWithGet.DrainedIsFetched` | kernel/systemc-2.3.0/src/tlm_utils/peq_with_get.h:43-72 | When the consumer has drained the queue, each transaction that is due has been handed out exactly as often as the steps of the run notified it, and none that is not due. |
| `PeqWithGet.NotifiedIsFetched` | kernel/systemc-2.3.0/src/tlm_utils/peq_with_get.h:43-72 | A transaction notified with delay w, or at once, and not cancelled has been handed out once the consumer has been woken at its due time or later. |
| `PeqWithGet.WakeUpArmed` | kernel/systemc-2.3.0/src/tlm_utils/peq_with_get.h:43-72 | If the consumer drains to 0 on each wake-up, a non-empty queue always has a wake-up armed by its head's time. |
| `ScannerTables.DefLevel` | dpi/stl/lex.yy.c:636-641 | The `yy_def` chain stays inside the tables and ends after at most three steps, for every state and class. |
| `ScannerTables.CompressedIsPlain` | dpi/stl/lex.yy.c:296-411 | For every state and class the compressed tables make the transition of the plain automaton. |
| `ScannerRules.PlainKinds` | dpi/stl/lex.yy.c:296-411 | One more character keeps a hexadecimal or identifier state exactly if it belongs to that class, and leads to a keyword state only along that keyword. |
| `ScannerRules.RunSpells` | dpi/stl/lex.yy.c:626-645 | A text leads to a keyword state only if it is the letters on the way to it. |
| `ScannerRules.AcceptsEarliest` | dpi/stl/dpi_smtdv_parser.l:15-37 | For every text, what the automaton accepts is the earliest rule whose pattern describes the text, and nothing exactly if none does. |
| `Scanning.TakesOne` | dpi/stl/lex.yy.c:627-653 | Although two rules match the empty text, every token takes at least one character. |
| `Scanning.StopsAtLongest` | dpi/stl/lex.yy.c:645-653 | Where the loop stops, the last accepting position is the longest match of the whole text. |
| `Scanning.PiecesOfText` | dpi/stl/lex.yy.c:614-657 | The pieces cut off a text are greedy longest matches and give the text back when joined. |
| `Scanning.OnlyCut` | dpi/stl/lex.yy.c:614-657 | There is no other greedy cut of a text. |
| `Scanning.TokensOfCut` | dpi/stl/lex.yy.c:580-922 | The tokens of a text are those of the pieces of its greedy cut: blanks give none, and the first piece of code 0 ends them. |
| `Scanning.NextToken` | dpi/stl/lex.yy.c:668-785 | Which terminal of the grammar the next piece of text becomes: each reserved word and sign its own, a hexadecimal number or another word an identifier with its text, an odd character the end of the input. |
| `Scanning.SeparatedIsGreedy` | dpi/stl/dpi_smtdv_parser.l:15-37 | A text made of described pieces with a separator between any two words is cut into just these pieces. |
| `Scanning.BlankSkipped` | dpi/stl/dpi_smtdv_parser.l:15-15 | A blank gives no token and changes none, and the end of the text is the end of the input. |
| `Scanner.Transit` | dpi/stl/lex.yy.c:636-642 | The search loop finds the plain automaton's transition. |
| `Scanner.NulInside` | dpi/stl/lex.yy.c:827-860 | A NUL that belongs to the text is scanned like any other odd character, and if it jams the automaton the match is already decided. |
| `Scanner.Chooses` | dpi/stl/lex.yy.c:647-653 | Backing up to the last accepting state chooses the longest match and its earliest rule. |
| `Scanner.Scanner.GetNextBuffer` | dpi/stl/lex.yy.c:933-1060 | Moving, growing and refilling keep every write inside the buffer and do not change the text from the token's start to the end of the file. |
| `Scanner.Scanner.NextMatch` | dpi/stl/lex.yy.c:614-916 | For any chunks in which the file arrives, the next match is the longest match of all that is left of the text. |
| `Scanner.Scanner.Yylex` | dpi/stl/lex.yy.c:580-922 | Each call returns the next token of the text as a whole and leaves the rest, independent of how reads split it. |
| `ParserTables.Decompressed` | dpi/stl/dpi_smtdv_parser.tab.c:542-639 | For every state and look-ahead the packed tables give the action of the uncompressed automaton. |
| `ParserRuns.StackBounded` | dpi/stl/dpi_smtdv_parser.tab.c:894-894 | However long the input, at most 30 states are stacked, so the branches that grow the stack are never reached. |
| `ParserRuns.ReduceFinds` | dpi/stl/dpi_smtdv_parser.tab.c:1434-1563 | Every reduction finds exactly its right-hand side on top, as derivations of its symbols. |
| `ParserRuns.StepGood` | dpi/stl/dpi_smtdv_parser.tab.c:1356-1563 | Every round keeps each stacked state's symbol derived by its tree, and comes nearer the end. |
| `ParserRuns.ParseSound` | dpi/stl/dpi_smtdv_parser.tab.c:1356-1563 | If the engine accepts, the tree it built derives the whole input from the start symbol. |
| `ParserRuns.ParseTree` | dpi/stl/dpi_smtdv_parser.tab.c:1356-1563 | In whatever context, the engine reads the yield of a derivation and then stands on the symbol derived. |
| `ParserRuns.AcceptsExactlySentences` | dpi/stl/dpi_smtdv_parser.tab.c:457-639 | The parser accepts a token sequence if and only if the grammar derives it. |
| `ParserRuns.Unambiguous` | dpi/stl/dpi_smtdv_parser.tab.c:457-482 | No token sequence has two derivations. |
| `Forms.SentencesAreFiles` | dpi/stl/dpi_smtdv_parser.tab.c:457-482 | The sentences of the grammar are exactly the files in plain form: a first line with the name, and then empty lines, header lines of the three kinds and body lines of the three buses with any number of beats, each ended by a line end. |
| `Meaning.DataMeans` | dpi/stl/dpi_smtdv_parser.tab.c:1479-1490 | A left-recursive list of beats adds its data words to the open transfer in column order. |
| `Meaning.PairsMean` | dpi/stl/dpi_smtdv_parser.tab.c:1463-1477 | Likewise with data words and byte enables. |
| `Meaning.LineMeans` | dpi/stl/dpi_smtdv_parser.tab.c:1493-1534 | The actions of a body line fill the transfer with exactly the columns of that line. |
| `Meaning.ProgramMeans` | dpi/stl/dpi_smtdv_parser.tab.c:1450-1541 | For every derivation the actions leave the mailbox named by the first line with one transfer for each body line, in order. |
| `Actions.ActionReady` | dpi/stl/dpi_smtdv_wrapper.cpp:190-224 | When the engine reduces, the mailbox exists before a transfer is made and a transfer is open before it is filled: the null checks never fire. |
| `Parser.MailBox.Push` | dpi/stl/dpi_smtdv_transfer.cpp:6-9 | A pushed transfer comes last, and reading starts over. |
| `Parser.MailBox.Next` | dpi/stl/dpi_smtdv_transfer.cpp:15-23 | Transfers are handed out one after another, and then none. |
| `Parser.RunAction` | dpi/stl/dpi_smtdv_parser.tab.c:1450-1541 | The action on the mailbox objects does to their value what the action of the rule means. |
| `Parser.YyParse` | dpi/stl/dpi_smtdv_parser.tab.c:1200-1563 | On the scanner of a file, `yyparse` accepts if and only if the tokens of the text are a sentence, and then leaves the mailbox the lines ask for. |
| `RoundTrip.WrittenIsRead` | dpi/stl/dpi_smtdv_parser.tab.c:1450-1541 | Written rows come back: for all names, rows, numbers and words, the text of the file is a sentence, and its mailbox holds the transfers of the rows in order, each field under its own name. |
| `RoundTrip.ReadBack` | dpi/stl/dpi_smtdv_parser.tab.c:1200-1563 | On the text of any such file `yyparse` accepts, however the file is read, and leaves the mailbox with the name and the transfers of the rows. |
| `Extensions.LiveUpdate` | kernel/systemc-2.3.0/src/tlm_utils/instance_specific_extensions.h:109-154 | Writing a slot changes the number of live slots by what it held and what it holds. |
| `Extensions.SetKeepsCount` | kernel/systemc-2.3.0/src/tlm_utils/instance_specific_extensions.h:118-126 | `set_extension` keeps the use count right if and only if it does not write null over a live slot. |
| `Extensions.Registry.Access` | kernel/systemc-2.3.0/src/tlm_utils/instance_specific_extensions.h:233-296 | The first access ties one unused container, a carrier and the transaction together; nothing any accessor sees changes. |
| `Extensions.Registry.SetExtension` | kernel/systemc-2.3.0/src/tlm_utils/instance_specific_extensions.h:118-126 | The named slot of one transaction holds the extension, null included, and every other slot of every transaction is as before; the use count on that transaction exceeds its live slots by one more exactly if null overwrote a live slot, and on no other transaction does it change. |
| `Extensions.Registry.ClearExtension` | kernel/systemc-2.3.0/src/tlm_utils/instance_specific_extensions.h:147-154 | The named slot is null, and every other slot of every transaction is as before. The container goes back to the front of the pool, empty, exactly when its last live slot goes and null was never written over a live slot; otherwise the pool stays as it was. |
| `Extensions.Registry.GetExtension` | kernel/systemc-2.3.0/src/tlm_utils/instance_specific_extensions.h:134-137 | Reading returns the slot and changes none. |
| `Extensions.Registry.NothingShared` | kernel/systemc-2.3.0/src/tlm_utils/instance_specific_extensions.h:196-300 | No two transactions share a container, use counts are the numbers of live slots and of slots overwritten by null, and pooled containers hold nothing of anyone. |
| `Phases.StepCounts` | kernel/UVM_ML-1.5.1/ml/backplane/uvm_ml_phase_service.cpp:194-229 | With one report per participant, only `run` and the present UVM phase can report, and the phase moves on exactly when the last participant has. |
| `Phases.FrameworksSeeTheScript` | kernel/UVM_ML-1.5.1/ml/backplane/uvm_ml_phase_service.cpp:112-244 | In every such run whose last `run` report comes after shutdown is under way, the notifications are exactly the script: the UVM phases end in order, once, when all have reported, and the post-run phases follow once. |
| `Phases.AllReportedAllSeen` | kernel/UVM_ML-1.5.1/ml/backplane/uvm_ml_phase_service.cpp:194-244 | When everyone has reported, the whole script has been seen. |
| `Phases.PostRunWaitsExactlyIf` | kernel/UVM_ML-1.5.1/ml/backplane/uvm_ml_phase_service.cpp:231-244 | The frameworks see the script throughout a run, with the post-run phases only after shutdown, if and only if the last report of `run` does not come before shutdown is under way; and likewise for the guard. |
| `Phases.PostRunTooEarly` | kernel/UVM_ML-1.5.1/ml/backplane/uvm_ml_phase_service.cpp:231-244 | Whenever `run` has one participant, its report before all others executes the post-run phases while reset is under way. |
| `Phases.EventsCarry` | kernel/UVM_ML-1.5.1/ml/backplane/uvm_ml_phase_service.cpp:126-244 | In every run, each notification of a runtime phase carries the time that was last reported with a valid unit, no other carries a time, and each names the right group. |
| `Phases.WholeScript` | kernel/UVM_ML-1.5.1/ml/backplane/uvm_ml_phase_service.cpp:57-98 | The script, spelled out phase by phase. |
| `Phases.Backplane.NotifyRuntimePhase` | kernel/UVM_ML-1.5.1/ml/backplane/bp_base_interconnect.cpp:596-629 | Each framework is told once, the same as all others, and the participants of all are summed. |
| `Phases.TotalAdds` | kernel/UVM_ML-1.5.1/ml/backplane/bp_base_interconnect.cpp:618-626 | The participants of two groups of frameworks add up, and one framework counts as what it reports. |
| `Phases.PhaseService.Start` | kernel/UVM_ML-1.5.1/ml/backplane/uvm_ml_phase_service.cpp:112-124 | Starting executes the pre-run phases and begins run and reset. |
| `Phases.PhaseService.SrvcNotifyPhaseDone` | kernel/UVM_ML-1.5.1/ml/backplane/uvm_ml_phase_service.cpp:194-244 | The service object makes exactly the step whose runs are proved about. |
| `TypeNames.BaseOfShort` | kernel/UVM_ML-1.5.1/ml/backplane/bp_utils.cpp:44-53 | Cutting off the qualifier first makes no difference to the base name. |
| `TypeNames.ShortIsShort` | kernel/UVM_ML-1.5.1/ml/backplane/bp_framework_proxy.cpp:286-301 | A short name is never qualified, and a name is its own short name exactly if it is not qualified. |
| `TypeNames.ShortNameMeans` | kernel/UVM_ML-1.5.1/ml/backplane/bp_framework_proxy.cpp:286-301 | The short name is what stands behind the last `::`, or the whole name. |
| `TypeIds.StepGrows` | kernel/UVM_ML-1.5.1/ml/backplane/bp_base_interconnect.cpp:991-1060 | No query and no match changes or removes an entry that a framework has. |
| `TypeIds.MatchLasts` | kernel/UVM_ML-1.5.1/ml/backplane/bp_base_interconnect.cpp:991-1060 | Once a match of two qualified names is accepted, both resolve to one id after any further matches and queries. |
| `TypeIds.StepApart` | kernel/UVM_ML-1.5.1/ml/backplane/bp_base_interconnect.cpp:991-1102 | Ids from matches and ids by short name never coincide, and every qualified entry comes from a match. |
| `TypeIds.LaterResolution` | kernel/UVM_ML-1.5.1/ml/backplane/bp_framework_proxy.cpp:303-369 | A name that resolves keeps its id while no entry with its short name is added; after that it resolves to its id by short name or is ambiguous. |
| `TypeIds.MatchLastsExactly` | kernel/UVM_ML-1.5.1/ml/backplane/bp_base_interconnect.cpp:991-1060 | An accepted match of any two names, qualified or not, still holds later if and only if the entries of both are untouched, or both have since got an entry by the same short name. |
| `TypeIds.MatchUndone` | kernel/UVM_ML-1.5.1/ml/backplane/bp_framework_proxy.cpp:303-369 | After two accepted matches, a query for another type with the same short name moves an unqualified name to another id, so that match no longer holds. |
| `TypeIds.QualifiedMatchAccepted` | kernel/UVM_ML-1.5.1/ml/backplane/bp_base_interconnect.cpp:991-1060 | In every state of every run, a match of two qualified names between two frameworks is accepted if and only if they are not both entered with different ids; entered names keep their id, and a new one gets the id of the other. |
| `TypeIds.PartnersJoin` | kernel/UVM_ML-1.5.1/ml/backplane/bp_base_interconnect.cpp:1010-1043 | A new qualified name can always be matched with one that has partners, whichever comes first, and then resolves to the id of every earlier partner. |
| `TypeIds.MatchRefusedExactly` | kernel/UVM_ML-1.5.1/ml/backplane/bp_base_interconnect.cpp:991-1060 | In every state of every run, a match of any two names is refused exactly if a name is ambiguous, both have different ids, one is known only by its short name and the other not at all, or both are of one framework; with an inactive framework it returns false and changes nothing. |
| `TypeIds.ShortEntryAnswers` | kernel/UVM_ML-1.5.1/ml/backplane/bp_framework_proxy.cpp:341-369 | Once a framework knows a short name, from a match or a query, every qualified name with that short name and no entry of its own gets its id, for the rest of the run. |
| `TypeIds.NameLeadsBack` | kernel/UVM_ML-1.5.1/ml/backplane/bp_framework_proxy.cpp:341-385 | In every run, the full name of an id that a framework knows leads back to that id if and only if the framework has not since entered that very name with another id. |
| `TypeIds.NamesGiven` | kernel/UVM_ML-1.5.1/ml/backplane/bp_framework_proxy.cpp:341-385 | After a match of two new names each framework has its own name for the common id; after the first query of a short name the asking framework has the full name and others the short one. |
| `TypeIds.QueryUnmatched` | kernel/UVM_ML-1.5.1/ml/backplane/bp_framework_proxy.cpp:341-369 | Without explicit matches a query never fails and returns the id of the short name. |
| `TypeIds.SameIdSameShortName` | kernel/UVM_ML-1.5.1/ml/backplane/bp_framework_proxy.cpp:303-369 | Over any interleaving of queries from any frameworks, two return the same id if and only if the names have the same short name. |
| `TypeIds.BaseNameOfId` | kernel/UVM_ML-1.5.1/ml/backplane/bp_framework_proxy.cpp:371-385 | From then on, for every framework, the base name of the id is the base name of the queried name. |
| `TypeIds.FrameworkProxy.Find` | kernel/UVM_ML-1.5.1/ml/backplane/bp_framework_proxy.cpp:303-324 | The loop over the entries finds the exact name, the only entry with that short name, or the ambiguity. |
| `TypeIds.Interconnect.TypeIdOf` | kernel/UVM_ML-1.5.1/ml/backplane/bp_framework_proxy.cpp:341-369 | The objects make exactly the query step whose runs are proved about. |
| `TypeIds.Interconnect.Register` | kernel/UVM_ML-1.5.1/ml/backplane/bp_base_interconnect.cpp:991-1060 | The objects make exactly the match step whose runs are proved about. |
| `Routes.Graph.RegisterRoute` | kernel/UVM_ML-1.5.1/ml/backplane/bp_transaction_interconnect.cpp:26-58 | The call succeeds if and only if both paths are known and the route exists already or kinds and interfaces are compatible. Then the route is there and both frameworks are told to connect their ends; no other route comes or goes, and the graph stays well formed: unique paths, fanout and fanin duplicate-free converses, peers registered. |
| `Routes.Graph.Connect` | kernel/UVM_ML-1.5.1/ml/backplane/bp_transaction_interconnect.cpp:43-57 | Between two registered connections a route succeeds exactly if it exists already or kinds and interfaces are compatible, and then each end's framework is told once. |
| `Routes.ServesExactly` | kernel/UVM_ML-1.5.1/ml/backplane/bp_transaction_interconnect.cpp:86-142 | One interface may drive another exactly if the other offers both modes of the same operation, getting and peeking in the same single mode, or is a master or slave with at least its mode. |
| `Routes.OnlyStandardNames` | kernel/UVM_ML-1.5.1/ml/backplane/bp_transaction_interconnect.cpp:86-142 | Connections with different interface names join only interfaces of the standard. |
| `Routes.DrivesExactly` | kernel/UVM_ML-1.5.1/ml/backplane/bp_transaction_interconnect.cpp:60-84 | Between interfaces of one name: a port drives anything, an export anything but a port, an initiator socket a target socket, and nothing else drives. |
| `Routes.Graph.AddConnection` | kernel/UVM_ML-1.5.1/ml/backplane/bp_base_interconnect.cpp:902-921 | A known path gets a connection without peers; an unknown one changes nothing. |
| `Routes.Graph.PreRunCleanup` | kernel/UVM_ML-1.5.1/ml/backplane/bp_base_interconnect.cpp:1347-1377 | The emptied registry is well formed again and has no routes. |
| `Routes.Graph.Write` | kernel/UVM_ML-1.5.1/ml/backplane/bp_transaction_interconnect.cpp:259-281 | Each provider of the producer gets the data once, also from a connection of an earlier elaboration. |
| `Routes.Graph.FindConnectionHandle` | kernel/UVM_ML-1.5.1/ml/backplane/bp_query_interconnect.cpp:31-46 | The handle found is the place of the connection that this framework has under this bind key; none is found exactly if there is no such connection in the registry. |
| `Routes.Graph.QueryFanoutHandle` | kernel/UVM_ML-1.5.1/ml/backplane/bp_query_interconnect.cpp:54-72 | The search always finds the provider's handle, so its failing assertion is unreachable. |
| `Routes.Graph.QueryFaninHandle` | kernel/UVM_ML-1.5.1/ml/backplane/bp_query_interconnect.cpp:80-97 | Likewise for the producer's handle. |
| `Routes.Graph.ThereAndBack` | kernel/UVM_ML-1.5.1/ml/backplane/bp_query_interconnect.cpp:54-97 | From a handle to a provider, exactly one fanin of that provider leads back to the start, by the same handle. |
| `MultiSockets.Design.Bind` | kernel/systemc-2.3.0/src/tlm_utils/multi_passthrough_initiator_socket.h:180-203 | A direct binding appends one numbered binder on each side, each leading to the other, and leaves all earlier entries of both tables as they were; it is refused exactly if one side is bound outwards. |
| `MultiSockets.Design.GetBaseInterface` | kernel/systemc-2.3.0/src/tlm_utils/multi_passthrough_target_socket.h:208-215 | A new binder gets the next number and comes last; nothing that leads anywhere changes. |
| `MultiSockets.Design.GetLastBinder` | kernel/systemc-2.3.0/src/tlm_utils/multi_passthrough_target_socket.h:298-301 | The target files the initiator's binder under its own last binder, which then leads back. |
| `MultiSockets.Design.BindInits` | kernel/systemc-2.3.0/src/tlm_utils/multi_passthrough_initiator_socket.h:242-256 | A hierarchical binding of initiators is refused after a direct one and ignored after another; otherwise it adds the child to the parent's tree, also beside other children. |
| `MultiSockets.Design.BindTargets` | kernel/systemc-2.3.0/src/tlm_utils/multi_passthrough_target_socket.h:264-278 | A hierarchical binding of targets is ignored if the parent has had a child; otherwise the child is taken over, also from another parent or when it is bound directly, and the tables of all sockets stay right. |
| `MultiSockets.Design.LeafOfTopInit` | kernel/systemc-2.3.0/src/tlm_utils/multi_passthrough_initiator_socket.h:273-273 | If no initiator encloses two others, a chain of initiators has one innermost socket, found from either end. |
| `MultiSockets.Design.LeafOfTopTarget` | kernel/systemc-2.3.0/src/tlm_utils/multi_passthrough_target_socket.h:295-295 | Likewise for targets. |
| `MultiSockets.Design.Elaborate` | kernel/systemc-2.3.0/src/tlm_utils/multi_passthrough_target_socket.h:237-259 | In whatever order the sockets are elaborated, each innermost socket ends up with the table of its outermost one; the binders of a tree of initiators call back the one elaborated last, those of a chain of targets its innermost one, and the binders of any other target nobody. |
| `MultiSockets.Design.SubPorts` | kernel/systemc-2.3.0/src/tlm_utils/multi_passthrough_target_socket.h:237-259 | After elaboration the sub-ports of an innermost socket are the bindings of its outermost one, in order; where an ordinary socket was bound, the sub-port leads to that socket. |
| `MultiSockets.Design.InitiatorRoundTrip` | kernel/systemc-2.3.0/src/tlm_utils/multi_socket_bases.h:162-173 | Sub-port k of an innermost initiator leads to the innermost target below the one bound, tagged j, and sub-port j of that target leads back, tagged k, if and only if the bound target is served (it has no parent and no child of it was taken away) and the initiator is the last elaborated of its tree; an unserved target's binder leads nowhere. |
| `MultiSockets.Design.TargetRoundTrip` | kernel/systemc-2.3.0/src/tlm_utils/multi_socket_bases.h:265-275 | Every sub-port j of a target leads to an initiator's callbacks, tagged k, whose sub-port k leads back here, tagged j. |
| `MultiSockets.Design.LateParent` | kernel/systemc-2.3.0/src/tlm_utils/multi_passthrough_target_socket.h:264-278 | In any design, a target that is bound directly and gets a parent afterwards leaves the initiator with a sub-port that leads nowhere, though nothing was reported. |
| `MultiSockets.Design.OnlyOneToElect` | kernel/systemc-2.3.0/src/tlm_utils/multi_passthrough_initiator_socket.h:212-235 | If no initiator encloses two others, every innermost initiator is the last elaborated of its tree. |

## Left out

- Time, delta counts, buffer sizes, ids and counters are unbounded; wrap-around and overflow are not modelled.
- Payload event queues: `notify` without a time and `cancel_all` from inside a callback. The first can cancel an armed delta notification without making the process run again, the second can make `delete_top` remove another element.
- Payload event queues: notifications before simulation starts, `next_time`, and the release of memory in destructors.
- PeqModel.NotifyEachSameBut: callbacks are a function from the number of the callback to the delayed notifications it makes; any one run of any owner is of that form.
- Scanner.Scanner.Yylex: `yyunput`, `yyinput` and switching between buffers are not used by the grammar and not part of this model; start state 2, which only a `^` pattern would use, is never entered.
- Scanner.Scanner.GetNextBuffer: a read that fails, and a terminal that delivers text again after reporting its end.
- Parser.YyParse: `yyerror` is rejection; the loop of `dpi_smtdv_parse_file` that calls `yyparse` until the end of the file is not part of this model, nor are error recovery, which the grammar does not use, and memory release.
- Translation: numbers are kept as the text that the wrapper converts; the conversions are iostream library behaviour.
- Meaning.LineMeans: on AHB lines `id` is what the code stores, the lock column, and `lock` stays unset.
- Extensions.Registry.Access: a module applies one operation to each accessor call; a reference kept over the release of its container is not modelled. Accessors and extension types are all registered before the first container is made. The per-accessor object with its two counter callbacks is folded into the container.
- Phases.FrameworksSeeTheScript: assumes a participant for every runtime phase and one report from each, after EXECUTING has returned; the pending stop requests of the debugger, top-level components and a framework that returns an error are not part of this model.
- TypeIds.IsStep: runs end where an assertion fails, as a query of a name with two short matches does; framework indicators are resolved by the caller, and merging two entries ends the program as in the code.
- Routes.Graph.RegisterRoute: which framework owns a path, its bind key, interface and kind are answers of the frameworks; the checks that the code stubs to true are not repeated.
- MultiSockets.Design.BindInits: hierarchical bindings lead from an enclosed to an enclosing module. That the kernel itself may refuse to bind the export of a parent to a second child is not part of this model, which lets it.
- Multi-sockets: binding started from the target's side, the dummy binder on unbound exports, and sockets without a registered callback.
- The simple, passthrough and TLM1 sockets, `bp_provided`, `bp_required`, the debugger console, the database code and the scripts: call forwarding, I/O or library behaviour.
