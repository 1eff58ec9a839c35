# yggmail's store-and-forward engine, modelled and verified

yggmail is a mail server for the Yggdrasil overlay: every address is an ed25519
key in hex at the domain `yggmail`, and every node keeps its own store.  A mail a
user sends is written to the Outbox with one queue row for each remote recipient;
a worker per destination reads its rows, writes each mail to the remote node,
deletes the row, and cleans the Outbox up.  The same store serves the user's IMAP
client.  This project models that engine in Dafny and proves what it keeps.
`dafny verify dfyconfig.toml` checks everything.

## The parts

* **Delivery protocol** (the modules whose names begin with `Delivery`).
  The queue as a transition system, one step per SQL statement, send or flag
  update, with any number of workers, `QueueFor` calls and manager ticks
  interleaved, and with storage errors, reported or silent, and restarts as
  further steps.  `DeliverySafety` holds the invariants, `DeliveryRuns` the
  theorems over runs, `DeliverySingle` and `DeliveryNecessity` when mail can be
  lost, `DeliveryRefusal` when a call can be refused, `DeliveryOnce` and
  `DeliveryTwice` when a body can be written twice, `DeliveryOrigin` where
  deliveries come from, `DeliveryRound` and `DeliveryTermination` the quiet round,
  and `DeliveryHistory` runs recorded state by state.  `Create` hands out
  `MAX(id) + 1`, so ids are reused while workers hold them in snapshots.  To say
  that a stale id still means the right mail, mails carry an identity and rows a
  ticket from a counter that never repeats; the system never reads either.
* **Relational store** (`Tables`, `TableLaws`, `Integrity`, `Numbering`, `Storage`;
  `Base` and `Sums` serve every part).  Three
  tables with primary keys, foreign keys and cascades; the statements as
  functions on their contents; the class `Store` whose methods change them in
  place; the sequence-number view.
* **Sender** (`OutboxView`, `Sender`, `SenderLaws`).  The class `Queues` with the
  store, the running flags and the code of `run`, `manager`, `queueFor` and
  `QueueFor`.  `Coupled` relates its store and flags to a protocol state kept as
  ghost, together with the history of steps that led to it; each statement is
  proved to be the protocol's next step.  `Transport` keeps every conversation held
  with another node, and only its `Send` adds one; the class keeps it equal to the
  sends of the history, so a send the protocol has recorded was really made.
  `SenderLaws` states the protocol's theorems of the class: of its flags, its tables,
  its history and what its transport has held.
* **IMAP batch operations** (`SeqSets`, `ImapMailbox`, `ImapLaws`).
* **Writer executor** (`WriterProtocol`, `WriterSafety`, `WriterRuns`).  `Do` and
  `run` with the racy start, the compare-and-swap and the unbuffered channel.
* **Addresses and sessions** (`Addresses`, `Sessions`, `Conversations`).  The last
  follows what a transport has held from the session that asked for it to the checks
  of the node that hears it.

## Assumptions

* Each SQL statement is atomic and foreign keys are on.  The `inboxes` view
  numbers a mailbox's rows by ascending id; its window does not say so.
* **A1.**  A worker's check for remaining rows never comes back empty for a mail
  whose `QueueFor` still comes to a remote recipient.  A `QueueFor` that runs as
  one step meets this trivially; A1 asks for less.
* **A2.**  `MailCreate` never returns an id that a worker has seen without rows and
  is about to mark.
* **A3.**  No IMAP client changes the Outbox.  The protocol has no such steps;
  `OtherMailboxesInvisible` shows that every statement on another mailbox leaves
  the protocol's view of the store as it was.
* Neither A1 nor A2 holds of every schedule.  Both follow where no call comes to
  more than one remote recipient before its first unusable one
  (`SingleIsGuarded`), and that condition, which a caller can check, is exact:
  every other list of recipients has a run without storage errors that loses a
  queued mail (`LosesNothingIff`, `MultiLoses`).
* Storage errors are steps of the protocol: a call reports one, or a write whose
  transaction did not begin does nothing and reports success, or a listing ends
  early and nobody looks why, or the process dies and starts again over the
  tables.  Conservation, exclusion and the snapshot theorems allow any number of
  them, and so does the way to the idle state a quiet round starts from;
  at-most-once writing allows all but a failed row delete; the last remover and
  the round itself none.  In the regimes of
  `DeliveryRuns`, GUARDED is A1 and A2, RELIABLE adds that no storage call fails,
  FAULTLESS is only the latter, DELETING that row deletes do not fail, and ANY
  assumes nothing.
* In the class `Queues` no storage call fails.  Before each of its statements it
  calls `Interference`, of which callers know only that it took some steps of the
  other goroutines; the proofs use nothing else about it.

## What the code does that it may not mean to

The model follows the code in each of these places.

* The row is deleted before DATA is closed (internal/smtpsender/sender.go:164-170),
  so the theorems say that a body was written, not that it was acknowledged.
* `QueueDeleteDestinationForID("Outbox", id)` passes a mailbox for a destination
  (internal/smtpsender/sender.go:123, internal/imapserver/mailbox.go:330).  No
  destination is called "Outbox", so it deletes nothing; a queued mail moved out
  of the Outbox strands its rows (`MoveOutStrandsRows`).
* A mail to two remote recipients can be lost (`MultiLoses`): a worker may deliver
  the first copy and mark the mail before the second row is there.
* Two recipients at one node share a queue key.  `QueueFor` fails on the second
  while the first one's row is there, after having queued the earlier recipients.
* Two recipients at different nodes can be refused too: the first worker delivers,
  marks and expunges the mail, and the second row has no mail to refer to
  (`MultiRefused`).  `NeverRefusedIff` says exactly which calls are never refused,
  whatever the schedule.  A call whose MailCreate silently stored nothing is
  refused the first row it really tries to insert.
* A failed row delete makes the next round write the body again
  (`FailedDropWritesTwice`).
* An open-ended range in sequence mode is bounded by the largest UID instead of
  the mail count: `OpenEndIsRightIff` says when that is right.  A bare `*` starts
  at 0: by sequence it never resolves (`StarNeverResolves`), by UID it names
  everything (`UidStarIsRightIff`), so UID MOVE of it takes the whole mailbox
  (`UidStarTakesAll`).  A UID range that reaches 2^32-1 makes the loop endless.
* Copying a mailbox into itself by UID may copy a copy (`CopyMayReselect`);
  `CopySucceedsIff` says what copying does in every case.
* Flags of copies go to the source mailbox (internal/imapserver/mailbox.go:302-304), where
  they overwrite those of another mail that happens to have the copy's id (`CopyFlags`).
* Replacing flags dereferences a nil mail (internal/imapserver/mailbox.go:252-276).
* `MailboxRename` binds its arguments in the wrong order (`RenameSwapped`).
* `ParseAddress` crashes on the bare domain and on nothing else (`ParseCrashesIff`).
* A failed `Begin` makes `Do` return success (`FailedBeginReturns`), and
  `ReturnedMeansRun` that nothing else makes a call return unexecuted.

## Model

| member | source | states |
|---|---|---|
| DeliveryRuns.WorkerExclusion | internal/smtpsender/sender.go:89-111 | under any schedule and any faults, a destination's flag is set exactly when one and only one goroutine lies between the swap and the deferred clear |
| DeliveryRuns.Conservation | internal/smtpsender/sender.go:110-188 | under A1 and A2, whatever fails and however often the process restarts, every delivery ever queued at any point of a run later has its row, with its own mail unmarked, or had its full body written to its destination; nothing but queued deliveries is ever written |
| DeliverySingle.SingleIsGuarded | internal/smtpsender/sender.go:65-84 | any run in which each call comes to one remote recipient at most is a run under A1 and A2, so all their theorems hold of it |
| DeliverySingle.SingleConserves | internal/smtpsender/sender.go:65-84 | conservation for such calls with no assumption on schedule or storage |
| DeliveryNecessity.MultiLoses | internal/smtpsender/sender.go:79-83 | every list of recipients with two remote ones before the first unusable one, at one node or at two, has a run of that one call, without storage errors and keeping A2, that loses a queued delivery |
| DeliveryNecessity.LosesNothingIff | internal/smtpsender/sender.go:59-87 | calls with given recipients never lose mail under any schedule, with any errors or none, exactly when they come to one remote recipient at most |
| DeliveryRuns.ExpungeLosesNothing | internal/smtpsender/sender.go:117 | no worker's expunge cascades away a queue row |
| DeliveryRuns.SnapshotsStayRight | internal/smtpsender/sender.go:113-128 | although ids are reused, an unfinished reference of any worker still has its row, and MailSelect reads the very mail that row was queued for |
| DeliveryRuns.MissingMailUnreachable | internal/smtpsender/sender.go:121-123 | the branch for a missing mail is never entered |
| DeliveryRuns.QueuesOwnMail | internal/smtpsender/sender.go:65-84 | as long as a call has a row to insert its mail is there, unless MailCreate silently made none, and each row it inserts is issued for that mail, its sender and its body |
| DeliveryRefusal.FitNeverRefused | internal/smtpsender/sender.go:65-81 | under A1 and A2 a call with no unusable recipient and no two at one node is never refused one, whatever other calls and workers do and whatever fails |
| DeliveryRefusal.UnfitRefused | internal/smtpsender/sender.go:65-81 | every other call has a run of that call alone, without storage errors, in which it is refused a recipient |
| DeliveryRefusal.NeverRefusedUnderGuardsIff | internal/smtpsender/sender.go:59-87 | so under A1 and A2 a call is never refused a recipient exactly when no recipient is unusable and no two are at one node |
| DeliveryRefusal.MultiRefused | internal/smtpsender/sender.go:79-81 | every list of recipients with two remote ones before the first unusable one has a run of that one call, without storage errors and keeping A2, in which it is refused a recipient though its mail was stored |
| DeliveryRefusal.SingleFitNeverRefused | internal/smtpsender/sender.go:65-81 | in any run whose calls come to one remote recipient at most, under any schedule and any errors, such a call with no unusable recipient is never refused one |
| DeliveryRefusal.NeverRefusedIff | internal/smtpsender/sender.go:59-87 | calls with given recipients, their mails stored, are never refused one under any schedule, with any errors or none, exactly when no recipient is unusable, no two are at one node and they come to one remote recipient at most |
| DeliveryOrigin.DeliveriesWereAsked | internal/smtpsender/sender.go:59-81 | in every run each issued delivery is for a remote recipient of some call and has its sender, under A1 and A2 also its content; every row, and every reference a worker holds, says what its ticket says |
| DeliveryRuns.WrittenAtMostOnce | internal/smtpsender/sender.go:160-172 | under any schedule, and whatever fails but the deletion of a row already written, no ticket has two entries in the log, and a row whose body is written is held by a worker about to delete it |
| DeliveryTwice.FailedDropWritesTwice | internal/smtpsender/sender.go:170-172 | for every delivery there is a run whose only storage error is one failed row delete, and which writes it twice |
| DeliveryRuns.LastRemoverCleansUp | internal/smtpsender/sender.go:170-178 | without storage errors, whatever the schedule, a mail that was queued, has no rows and is unmarked has a worker between its own row delete and its mark |
| DeliveryRuns.IdleLeavesNoOrphans | internal/smtpsender/sender.go:110-188 | once all workers are idle no mail is marked, and each was never queued or still has a row |
| DeliveryRuns.RunHistory | internal/smtpsender/sender.go:79-81 | over any run tickets are never reused and neither the issued deliveries nor the log lose an entry |
| DeliverySafety.StepSafe | internal/smtpsender/sender.go:110-188 | every step allowed by A1 and A2, storage errors included, keeps the invariant behind conservation and snapshots |
| DeliverySafety.SendsAsIssued | internal/smtpsender/sender.go:120-168 | what a worker is about to write is the delivery its reference was issued for, field by field, and its row is still queued |
| DeliverySafety.ExpungeKeepsQueue | internal/storage/sqlite3/table_queue.go:35-36 | when each row's mail is unmarked an expunge leaves the queue as it was |
| DeliveryOnce.NotYetWritten | internal/smtpsender/sender.go:166 | a delivery about to be written has no entry in the log under its ticket |
| DeliveryOnce.StepOnce | internal/smtpsender/sender.go:160-172 | each step but a failed row delete, other storage errors included, keeps at-most-once writing, with neither A1 nor A2 |
| DeliverySweep.StepSwept | internal/smtpsender/sender.go:170-178 | each fault-free step keeps the last-remover invariant, with neither A1 nor A2 |
| DeliveryRound.OneQuietRoundDrains | internal/smtpsender/sender.go:48-57 | from any idle state reached under A1 and A2, whatever failed or restarted before, one tick and any interleaving of its workers to completion leaves exactly the rows whose send failed, has written all others since the round began, and has removed exactly the mails all of whose sends succeeded and, if there was a row, those marked before; all other mails are as they were |
| DeliveryTermination.QuietRoundFinishes | internal/smtpsender/sender.go:110-188 | a round over n rows has at most 1 + n(6n+4) steps, and until it is idle again one of its steps can be taken |
| DeliveryHistory.RecordedRun | internal/smtpsender/sender.go:110-188 | the history the sender records is a run of the protocol, and one under A1 and A2 if each of its steps kept them |
| DeliveryHistory.SingleIsSound | internal/smtpsender/sender.go:59-87 | a recorded history kept A1 and A2 if each of its calls came to one remote recipient at most |
| DeliveryHistory.LogIsWrites | internal/smtpsender/sender.go:132-168 | what the log has gained over a recorded history is, entry for entry, the bodies of the sends that succeeded in it |
| DeliveryHistory.TrialsOnce | internal/smtpsender/sender.go:119-188 | in a recorded history every send, successful or not, is for a ticket issued with its destination, sender and recipient, and no ticket has two successful ones |
| DeliveryNecessity.A1IsNeeded | internal/smtpsender/sender.go:79-83 | without A1 some fault-free run keeping A2 loses a queued delivery |
| DeliveryNecessity.A2IsNeeded | internal/smtpsender/sender.go:170-177 | without A2 some fault-free run keeping A1 loses a queued delivery through a reused id |
| OutboxView.CreateCoupled | internal/storage/sqlite3/table_mails.go:81-89 | MailCreate on the Outbox returns the protocol's next id and has the effect of its Create step |
| OutboxView.InsertCoupled | internal/storage/sqlite3/table_queue.go:138-143 | inserting a queue row is the protocol's Insert step, and is refused exactly when the key is taken or the mail is gone |
| OutboxView.DropCoupled | internal/storage/sqlite3/table_queue.go:145-150 | deleting a queue row removes that one key from the protocol's queue |
| OutboxView.MarkCoupled | internal/storage/sqlite3/table_mails.go:105-107 | marking an Outbox mail is the protocol's Mark step |
| OutboxView.ExpungeCoupled | internal/storage/sqlite3/table_mails.go:109-111 | expunging the Outbox with its cascade is the protocol's Expunge step |
| OutboxView.OtherMailboxesInvisible | internal/imapserver/mailbox.go:283-334 | every statement that spares the Outbox leaves the protocol's view of store and flags unchanged |
| Sender.TargetMeans | internal/smtpsender/sender.go:66-81 | a recipient is unusable exactly if no key can be read from it, passed over exactly if that key is the node's own, and otherwise goes to its key's hex |
| Sender.Transport.Send | internal/smtpsender/sender.go:132-168 | one conversation with a node, said in full to that node or broken off, is added to those held; nothing else adds one |
| Sender.Queues.TakeSnapshot | internal/smtpsender/sender.go:113-116 | the rows read are a protocol snapshot of the destination, in descending id order |
| Sender.Queues.SelectMail | internal/smtpsender/sender.go:119-128 | reads the body the protocol is about to send, or finds no mail exactly when the protocol does |
| Sender.Queues.DropMissingRow | internal/smtpsender/sender.go:123 | the deletion as written, under the destination "Outbox" |
| Sender.Queues.Transmit | internal/smtpsender/sender.go:132-168 | a conversation with this destination has been held, under the node's own key, with this reference's sender, recipient and full body; the worker goes on to delete the row exactly if it came to its end, and then the log says the same |
| Sender.Queues.DropOwnRow | internal/smtpsender/sender.go:170-172 | deletes this destination's row for the id, as the protocol's next step |
| Sender.Queues.CheckRemaining | internal/smtpsender/sender.go:174-176 | goes on to mark exactly when the check saw no rows |
| Sender.Queues.MarkMail | internal/smtpsender/sender.go:177 | marks the mail in hand |
| Sender.Queues.ExpungeOutbox | internal/smtpsender/sender.go:117 | the deferred expunge, when no reference is left |
| Sender.Queues.ClearFlag | internal/smtpsender/sender.go:111 | the deferred clear ends the goroutine and frees the destination |
| Sender.Queues.Attempt | internal/smtpsender/sender.go:119-187 | one pass of the loop takes the worker from loop head to loop head with that reference consumed; it can pass on to deleting the row only by a conversation its transport has held, every history's sends being exactly those |
| Sender.Queues.Settle | internal/smtpsender/sender.go:170-180 | delete, check and mark, in that order, take the worker back to the loop head |
| Sender.Queues.Run | internal/smtpsender/sender.go:110-188 | the goroutine of a destination refines the protocol's worker: from flag set to flag cleared, interleaved with all others, it takes only the protocol's fault-free steps |
| Sender.Queues.StartQueueFor | internal/smtpsender/sender.go:89-102 | afterwards the flag is set; a goroutine for the destination, with a number not in use, has been started exactly if the flag was clear; and this is one step of the protocol |
| Sender.Queues.Manager | internal/smtpsender/sender.go:48-57 | one tick lists, in one statement, every destination with a row, and each destination listed has been running at some moment since; all by protocol steps |
| Sender.Queues.InsertRow | internal/smtpsender/sender.go:79-81 | a row inserted is issued under a new ticket for the recipient, of the call's own mail if A1 and A2 hold; it is refused only if its key was taken or the mail gone |
| Sender.Queues.QueueRecipient | internal/smtpsender/sender.go:65-84 | a recipient is refused, passed over or queued under its key's hex, in the one delivery the call issues for it, and its node's worker has then run; it is refused only if unusable, its key taken or the mail gone |
| Sender.Queues.QueueFor | internal/smtpsender/sender.go:59-87 | MailCreate stores the content as a new mail; on success every recipient named a key, and the deliveries issued by this call are exactly one for each recipient whose key is not the node's own, to that key's hex, under the new id, and of that mail and content if A1 and A2 hold; each such node's worker has run since; on failure some recipient named no key or its row was refused |
| Sender.NoOutboxTarget | internal/smtpsender/sender.go:74-79 | no recipient's destination can be called "Outbox" |
| Sender.OthersSpareMe | internal/smtpsender/sender.go:98-100 | steps of other goroutines leave a goroutine's own position and snapshot alone |
| SenderLaws.FlagMeansOneWorker | internal/smtpsender/sender.go:98-111 | exclusion, read off the sender's flags at any moment |
| SenderLaws.IdleStoreHasNoOrphans | internal/smtpsender/sender.go:170-178 | once workers are idle, no mail in the Outbox table is marked, and each that was queued has a row in the queue table |
| SenderLaws.WritesOnce | internal/smtpsender/sender.go:160-172 | every conversation held since the start is for a row inserted, with its destination, sender and recipient, and of those that came to their end no two are for one row |
| SenderLaws.StoreConserves | internal/smtpsender/sender.go:110-188 | what was issued at any moment of the sender's history is now in its tables, row and unmarked mail, or was handed over to its destination in full by the transport, or had been written before the start, if the history kept A1 and A2 |
| SenderLaws.LoggedIsHeld | internal/smtpsender/sender.go:166 | whatever the log has gained since the start is a conversation the transport has held to its end |
| SenderLaws.SingleStoreConserves | internal/smtpsender/sender.go:59-87 | the same with nothing asked of the history but one remote recipient at most in each call |
| SenderLaws.SnapshotInStore | internal/smtpsender/sender.go:113-128 | if the history kept A1 and A2, an unfinished reference of any worker names a row of the table that says the same and an unmarked mail with the body it was queued for |
| SenderLaws.StoreDrains | internal/smtpsender/sender.go:48-57 | if the history kept A1 and A2, after a quiet round the tables hold exactly the rows whose send failed in a conversation held in it, every other row's body was handed over in it, and, as they were, exactly the mails that had no rows or such a one; mails marked before are there only if there was no row at all |
| WriterRuns.OneRunnerServes | internal/storage/sqlite3/sqlite3.go:88-93 | at most one run loop is past the swap, and the flag is set exactly while there is one |
| WriterRuns.WinnerStays | internal/storage/sqlite3/sqlite3.go:88-93 | the runner that wins the flag is the only one to serve for the rest of the run, and the flag stays set |
| WriterRuns.NeverStuck | internal/storage/sqlite3/sqlite3.go:74-115 | while a call is in progress, some step other than a new call can be taken |
| WriterRuns.OfferIsStaffed | internal/storage/sqlite3/sqlite3.go:75-84 | a call offering its task has a runner serving if the flag is set, and otherwise one that will win it |
| WriterRuns.AllCallsReturn | internal/storage/sqlite3/sqlite3.go:74-115 | once no new call comes in the number of steps left is bounded, and they can stop only when every call has returned |
| WriterRuns.RunsOneByOne | internal/storage/sqlite3/sqlite3.go:93-113 | the tables are what the executed tasks give one after another in one order, in which each has one place and got the reply it would have there |
| WriterRuns.RespectsRealTime | internal/storage/sqlite3/sqlite3.go:84-85 | a call that returned before another began precedes it in that order |
| WriterRuns.ReturnedMeansRun | internal/storage/sqlite3/sqlite3.go:97-113 | a returned call did not run its task exactly if Begin failed while its runner had that task; it then reported success |
| WriterRuns.FailedBeginReturns | internal/storage/sqlite3/sqlite3.go:98-101 | for every task a run in which its call returns success and nothing has run |
| WriterSafety.StepControl | internal/storage/sqlite3/sqlite3.go:74-115 | every step keeps the control invariant: one server, offers staffed, one runner for each task in hand |
| WriterSafety.StepHistory | internal/storage/sqlite3/sqlite3.go:93-113 | every step keeps the sequential history of executed tasks |
| Integrity.MoveNeverCollides | internal/storage/sqlite3/table_mails.go:113-115 | a move its own key accepts cannot make two queue rows collide |
| Integrity.RenameNeverCollides | internal/storage/sqlite3/table_mailboxes.go:52-54 | a rename its own key accepts cannot make two mails or two queue rows collide |
| Integrity.CascadeCarries | internal/storage/sqlite3/table_queue.go:35-36 | a cascade without collisions carries each row over with its contents, merges none and invents none |
| Integrity.MoveRefused | internal/storage/sqlite3/table_mails.go:259-264 | exactly when a move fails |
| Integrity.ExecValid | internal/storage/sqlite3/table_mails.go:46-47 | every statement keeps both foreign keys |
| Integrity.KeysAlwaysHold | internal/storage/sqlite3/table_queue.go:35-36 | after every sequence of statements both foreign keys hold and no update its own key accepts is refused for its cascade |
| Integrity.RenameSwapped | internal/storage/sqlite3/table_mailboxes.go:146-151 | MailboxRename does what its name says exactly when the names are equal or both or neither exist |
| Numbering.IndexIsBijection | internal/storage/sqlite3/table_mails.go:50-53 | MailIDForSeq and the seq of MailSelect are inverse, strictly increasing bijections between 1..count and the ids, with nothing outside |
| Numbering.SortedRank | internal/storage/sqlite3/table_mails.go:75-79 | the n-th id of the sorted listing has sequence number n |
| Numbering.SearchIsIndex | internal/storage/sqlite3/table_mails.go:197-212 | MailSearch is MailIDForSeq mapped over 1..count |
| Numbering.ExpungeRenumbers | internal/storage/sqlite3/table_mails.go:246-251 | for any flags, expunge keeps survivors' ids and contents, lowers each number by the removed mails below it, lowers the count by the mails marked and the unseen count by the marked ones not seen, and spares other mailboxes |
| TableLaws.RefusedChangesNothing | internal/storage/sqlite3/table_mails.go:259-264 | a statement of any kind that reports an error has changed nothing |
| TableLaws.MailboxCreateMeans | internal/storage/sqlite3/table_mailboxes.go:48-50 | afterwards the mailbox is there, subscribed to if new, and nothing else has changed |
| TableLaws.MailboxDeleteMeans | internal/storage/sqlite3/table_mailboxes.go:56-58 | the mailbox is gone with exactly its mails and their rows |
| TableLaws.MailboxSubscribeMeans | internal/storage/sqlite3/table_mailboxes.go:60-62 | sets the subscription of a mailbox that exists and changes nothing else |
| TableLaws.MailboxUpdateMeans | internal/storage/sqlite3/table_mails.go:46-47 | an accepted change of a name replaces it, with its subscription, and carries every mail over with body, date and flags, merging and inventing none |
| TableLaws.MailboxUpdateCarriesRows | internal/storage/sqlite3/table_queue.go:35-36 | and every queue row with its mail |
| TableLaws.MailCreateMeans | internal/storage/sqlite3/table_mails.go:81-89 | a created mail has the next id, the data and date given, and all four flags false; only a missing mailbox refuses it |
| TableLaws.MailUpdateFlagsMeans | internal/storage/sqlite3/table_mails.go:101-103 | sets the four flags of one mail, if there, and changes nothing else |
| TableLaws.MailDeleteMeans | internal/storage/sqlite3/table_mails.go:105-107 | marks one mail, if there, leaving its other flags, body and date |
| TableLaws.MailExpungeMeans | internal/storage/sqlite3/table_mails.go:109-111 | an expunge takes exactly the marked mails of its mailbox and exactly the rows of the mails it takes |
| TableLaws.MailMoveMeans | internal/storage/sqlite3/table_mails.go:113-115 | an accepted move puts the one mail, with all it has, in a free place of a mailbox that exists, carries its rows with it, merging and inventing none, and changes nothing else |
| TableLaws.QueueInsertMeans | internal/storage/sqlite3/table_queue.go:49-51 | adds the one row with sender and recipient, exactly if its key is free and its mail is in the Outbox |
| TableLaws.QueueDeleteMeans | internal/storage/sqlite3/table_queue.go:53-55 | removes that one row and nothing else |
| Storage.Store.MailboxCreate | internal/storage/sqlite3/table_mailboxes.go:139-144 | creates a mailbox unless it exists, changing nothing else |
| Storage.Store.MailboxRename | internal/storage/sqlite3/table_mailboxes.go:146-151 | the swapped rename with its cascades, or the key error |
| Storage.Store.MailboxDelete | internal/storage/sqlite3/table_mailboxes.go:153-158 | deletes the mailbox, its mails and their rows |
| Storage.Store.MailCreate | internal/storage/sqlite3/table_mails.go:177-183 | appends under the next id, or fails for want of the mailbox |
| Storage.Store.MailSelect | internal/storage/sqlite3/table_mails.go:185-195 | the mail and its sequence number, or no rows |
| Storage.Store.MailSearch | internal/storage/sqlite3/table_mails.go:197-212 | all ids in ascending order; fails exactly when one does not fit 32 unsigned bits |
| Storage.Store.MailIDForSeq | internal/storage/sqlite3/table_mails.go:220-224 | the id with that number, or no rows |
| Storage.Store.MailExpunge | internal/storage/sqlite3/table_mails.go:246-251 | removes the marked mails and, by cascade, their rows |
| Storage.Store.MailMove | internal/storage/sqlite3/table_mails.go:259-264 | moves a mail and its rows, or reports which key refuses it and changes nothing |
| Storage.Store.QueueListDestinations | internal/storage/sqlite3/table_queue.go:93-111 | every destination with a row, once |
| Storage.Store.QueueMailIDsForDestination | internal/storage/sqlite3/table_queue.go:113-136 | every row of the destination once, by descending id |
| Storage.Store.QueueInsertDestinationForID | internal/storage/sqlite3/table_queue.go:138-143 | inserts the row, or reports the taken key or the missing mail |
| Storage.Store.QueueDeleteDestinationForID | internal/storage/sqlite3/table_queue.go:145-150 | deletes that one row of the Outbox |
| Storage.Store.QueueSelectIsMessagePendingSend | internal/storage/sqlite3/table_queue.go:152-165 | true exactly when the mail has a row |
| SeqSets.ResolveMeans | internal/imapserver/mailbox.go:30-53 | resolving gives the ranges mapped through the index, in order; by sequence it fails exactly when some number has no row, by UID it never ends exactly when some range reaches 2^32-1 |
| SeqSets.DenotedJoins | internal/imapserver/mailbox.go:32 | a set denotes what its ranges denote, one after the other |
| SeqSets.DenotedOne | internal/imapserver/mailbox.go:33-40 | a range denotes its numbers in ascending order, an open end being the largest UID, or 0 in an empty mailbox |
| SeqSets.TruncationMeans | internal/imapserver/mailbox.go:41-50 | the conversions of ids keep them modulo 2^32, within 32 bits, unsigned and signed |
| SeqSets.OpenEndIsRightIff | internal/imapserver/mailbox.go:33-39 | an open range in sequence mode is right exactly when it starts past the largest UID or the ids are dense |
| SeqSets.DenseIffMaxIsCount | internal/storage/sqlite3/table_mails.go:96-99 | the largest UID is at least the count, with equality exactly for dense ids |
| SeqSets.StarNeverResolves | internal/imapserver/mailbox.go:33-46 | a bare star in sequence mode fails in every mailbox |
| SeqSets.UidStarIsRightIff | internal/imapserver/mailbox.go:33-49 | a bare star by UID resolves to every number up to the largest UID; it selects the last mail alone exactly when there is no other |
| ImapMailbox.Mailbox.GetIDsFromSeqSet | internal/imapserver/mailbox.go:30-53 | the nested loops compute the denotation, errors and endless ranges included |
| ImapMailbox.Mailbox.ListMessages | internal/imapserver/mailbox.go:117-209 | emits one message for each resolved id that exists, in order, passing over those that do not |
| ImapMailbox.Mailbox.UpdateMessagesFlags | internal/imapserver/mailbox.go:245-281 | succeeds exactly when all mails exist, and then changes flags as specified; on failure exactly the mails before the first missing one have changed |
| ImapMailbox.Mailbox.CopyMessages | internal/imapserver/mailbox.go:283-309 | refuses the Outbox, otherwise has the effect of copying the ids resolved beforehand |
| ImapMailbox.Mailbox.MoveMessages | internal/imapserver/mailbox.go:315-334 | refuses the Outbox, otherwise has the effect of moving the ids resolved beforehand |
| ImapLaws.InRangeResolves | internal/imapserver/mailbox.go:40-50 | every closed in-range set resolves, number by number, to the ids the index gives |
| ImapLaws.ListingShowsAll | internal/imapserver/mailbox.go:123-133 | for any ids, whatever is missing among them, the messages are, in order, of exactly those whose mails exist, each with its number, UID, body and flags |
| ImapLaws.UidFetchShowsAll | internal/imapserver/mailbox.go:117-133 | UID FETCH of any set below 2^31 shows every mail it denotes, whatever other UIDs are missing, and only such mails |
| ImapLaws.FetchRoundTrips | internal/imapserver/mailbox.go:117-133 | fetching an in-range set gives one message per requested number, in order, with that number, the UID the index gives it and that mail's body |
| ImapLaws.FlagNames | internal/imapserver/mailbox.go:164-177 | which flag each name stands for |
| ImapLaws.FlagAlgebra | internal/imapserver/mailbox.go:260-271 | adding is union with the recognised flags, removing is difference |
| ImapLaws.FlagAllIsAlgebra | internal/imapserver/mailbox.go:251-279 | an add or remove gives each selected mail the one flag record whose set is the old one with the recognised flags added or taken away, and changes nothing else |
| ImapLaws.FlagByNumber | internal/imapserver/mailbox.go:245-281 | for any in-range sequence set an add or remove names mails that exist, and changes as sets the flags of exactly the mails so numbered and nothing else |
| ImapLaws.FlagIdempotent | internal/imapserver/mailbox.go:251-279 | repeating the command or an id changes nothing further |
| ImapLaws.CopyAppends | internal/imapserver/mailbox.go:293-308 | copying mails that exist fails only for want of the destination, and the new bodies are those the mails had before, even within one mailbox |
| ImapLaws.CopyByNumber | internal/imapserver/mailbox.go:283-309 | for any in-range sequence set a copy fails only for want of the destination, and appends one copy per number, in order, of the mail that had the number before the command |
| ImapLaws.CopySucceedsIff | internal/imapserver/mailbox.go:293-308 | copying any ids succeeds exactly when the destination exists and each id names a mail at its turn, one that was there or a copy just made; it then appends consecutive ids with the bodies named, in order, and leaves every earlier body alone |
| ImapLaws.FailedCopyStops | internal/imapserver/mailbox.go:293-308 | a failing copy has made exactly the copies of the ids before the first that names no mail at its turn, or none for want of the destination |
| ImapLaws.CopyFlags | internal/imapserver/mailbox.go:298-304 | where the flags of any successful copy go, reselected copies included: copies in another mailbox have none and the date of the copying, and the source's own mails of the copies' ids get them; no other flags change |
| ImapLaws.CopyMayReselect | internal/imapserver/mailbox.go:47-48 | naming a mail and the next free UID copies the mail twice |
| ImapLaws.MoveTransfers | internal/imapserver/mailbox.go:315-334 | a move succeeds exactly when every present mail it names can go, and then transfers exactly those, with ids, contents and queue rows, conserving the total, whatever is renumbered or repeated |
| ImapLaws.FailedMoveStops | internal/imapserver/mailbox.go:325-328 | a failing move has transferred exactly the present mails named before the first one that cannot go, and nothing else has changed |
| ImapLaws.MoveByNumber | internal/imapserver/mailbox.go:315-334 | for any in-range sequence set, overlapping ranges included, a move succeeds exactly when all mails so numbered can go, and transfers exactly the mails that had those numbers before the command |
| ImapLaws.UidStarTakesAll | internal/imapserver/mailbox.go:315-334 | UID MOVE of a bare star transfers the whole mailbox when it succeeds; flag changes and copies of it always fail on their first id |
| ImapLaws.MoveToSelf | internal/imapserver/mailbox.go:325-328 | moving a mailbox's mails to itself changes nothing |
| ImapLaws.MoveOutStrandsRows | internal/imapserver/mailbox.go:329-331 | rows of a mail moved out of the Outbox go with it and no deletion reaches them |
| Addresses.DecodeEncode | internal/utils/address.go:35 | decoding the hex of any bytes gives the bytes |
| Addresses.EncodeDecode | internal/utils/address.go:35 | encoding what a text decodes to lowers its case and changes nothing else |
| Addresses.DigitsInPlace | internal/utils/address.go:35 | a hex digit's value is its place among the sixteen digits, in either case |
| Addresses.OtherCharacters | internal/utils/address.go:35 | nothing else is a digit |
| Addresses.EncodePlaces | internal/utils/address.go:35 | byte n of a key stands at the n-th pair of digits, upper half first |
| Addresses.ParseOfAddress | internal/utils/address.go:27-42 | which local parts parse, and the canonical hex of what they parse to |
| Addresses.ParsesOnlyAddresses | internal/utils/address.go:28-34 | whatever parses is a local part at the domain |
| Addresses.ParseCrashesIff | internal/utils/address.go:28-35 | the bare domain is the only text that crashes it |
| Addresses.ParseOwnAddress | cmd/yggmail/main.go:105 | a key's printed address parses to the key |
| Addresses.Canonicalisation | internal/utils/address.go:35-41 | re-encoding what parses gives 64 lower-case digits that parse to the same key |
| Addresses.SameKeyIff | internal/utils/address.go:39-40 | two addresses name one key exactly when their lowered, padded or cut local parts agree |
| Sessions.SenderIsOwn | internal/smtpserver/session_local.go:30-49 | over every command trace the sender is empty or the last own address accepted since the last reset, and set exactly if there was one |
| Sessions.RecipientsAre | internal/smtpserver/session_local.go:30-49 | over every command trace the recipients are, in order and with repetitions, the arguments of exactly the RCPT commands after the last MAIL, accepted or refused, or RSET |
| Sessions.SessionLocal.Mail | internal/smtpserver/session_local.go:30-44 | accepts exactly own addresses; always drops the recipients, keeps the old sender when refusing |
| Sessions.SessionLocal.Rcpt | internal/smtpserver/session_local.go:46-49 | appends the recipient unchecked to those of the commands before |
| Sessions.SessionLocal.Reset | internal/smtpserver/session_local.go:84-87 | clears both fields |
| Sessions.SessionLocal.Data | internal/smtpserver/session_local.go:75-77 | stores the body it is given and queues it under the session's sender, as a call made by this session, once for each of its recipients whose key is not the node's own and for no one else; keeps the fields; fails only for a recipient without a key or whose row is refused |
| Sessions.SessionRemote.Mail | internal/smtpserver/session_remote.go:31-43 | accepts exactly addresses of the connected peer's key |
| Sessions.SessionRemote.Rcpt | internal/smtpserver/session_remote.go:45-56 | accepts exactly addresses of this node's key |
| Sessions.AnonymousIff | internal/smtpserver/backend.go:73-98 | a session without login exists exactly on the overlay listener for a peer that names itself by the canonical hex of its key |
| Sessions.AcceptedIsAuthentic | internal/smtpserver/backend.go:79-86 | what a node accepts comes from the peer whose key the sender address, the HELLO and the connection all name, and is for the node |
| Sessions.AcceptsIff | internal/smtpserver/session_remote.go:31-56 | from a peer that names itself canonically, the three checks pass exactly when the addresses parse to the peer's and the node's keys |
| Sessions.EndToEnd | internal/smtpsender/sender.go:145-158 | in every run whose calls local sessions made, each delivery issued for a bare address has the sender a session left, and names one node, not this one, that accepts what the worker says exactly when there is a sender |
| Sessions.RowsEndToEnd | internal/smtpsender/sender.go:145-158 | the same of every row of the queue and of every reference a worker holds, sender and recipient as they stand in it |
| Conversations.HeldIsHeard | internal/smtpsender/sender.go:132-168 | every conversation a sender's transport has held since a start with an empty Outbox was asked for by a call, with its sender and recipient, and with its body if the history kept A1 and A2; if local sessions made the calls, the sender is one a session left, and a bare recipient's conversation is with one node, not this one, whose checks accept its HELLO, sender and recipient exactly when there is a sender |

## Left out

- Sender.Queues.QueueFor: a recipient on which ParseAddress crashes is an error reply here, where the source panics; `mail.ParseAddress` is a parameter from text to an optional address.
- Sender.Transport.Send: dialling and the SMTP conversation are one step that ends well or not at will; what a broken conversation got said before it broke is not told apart, and a connection lost after the write counts as success, as in the source.
- Sender.Queues.Interference: one caller's own statements are executed, everyone else's steps are an arbitrary run of the protocol, which includes none by IMAP clients on the Outbox and no storage error; errors and restarts are in the protocol only.
- Sender.Queues.constructor: what a start finds in the store is given as a protocol state with no goroutines; the laws of the class name what they need of it.
- Sender.Queues.Manager: the timers are left out, so a tick may come at any time; a listing error, which stops the manager for good, does not occur.
- DeliveryRuns.WrittenAtMostOnce: counts writes of a body, not what the remote node makes of them; a write that fails half way counts as none.
- WriterRuns.AllCallsReturn: with new calls coming in for ever, which of them is served is up to the channel; no fairness is assumed or shown.
- WriterProtocol models only the tasks the program makes, with a database and no transaction; their statements do not use the transaction, so commit and rollback have no effect.
- ImapMailbox.Mailbox.GetIDsFromSeqSet: where the source loops for ever, on a UID range that reaches 2^32-1, the method returns the reply `Endless` instead.
- ImapMailbox.Mailbox.ListMessages: envelope, body structure, sections, size and date are not extracted; flags and body are given as stored.
- ImapMailbox.Mailbox.CopyMessages: all copies of one call carry the same date.
- Storage.Store: no I/O errors; ids are unbounded integers.
- Sessions.SessionLocal.Data: the header lines added to a mail are taken as already in its body.
- IMAP search criteria, status items, CreateMessage and notifications: each is one statement or one formatted reply, with no property across operations.
- UID validity: UIDs are reused after an expunge under a fixed UIDVALIDITY, so nothing is claimed that needs them to be unique over time.
- IMAP commands run one at a time here, not interleaved with each other.
- The SMTP, IMAP, SASL and MIME libraries, the overlay transport, key generation, passwords, configuration, logging, SQL text and schema creation are not part of this model.
