# A verified model of timberfs's delivery core

timberfs keeps a log as numbered, immutable chunks on one byte tape. This
project models what turns that tape into delivered entries and what decides
when a chunk may go, and proves properties that no single function shows.

- **Tape to entries.** `EntryModel` (the sink as a fold over pushed bytes),
  `EntrySinks` (the sink as the source's object), `EntryLines` (what a record
  says of itself), `EntryTape` (the tape is conserved), `EntryAttribution` (a
  record reaches the chunk it names), `EntryResume` and `EntryStops` (when
  resuming is exact, and which inputs bring that about), `EntryCutting` (cutting
  into pushes does not show).
- **Positions and delivery.** `Cursors` (a durable place, what a restart skips,
  positions of a selection), `Standings` (where a consumer stands), `FeedModel`
  and `FeedLoop` (the feeding loop, as values and as an object), `FeedTurns`
  (how a turn ends and what is kept of what is said), `Delivery` (what is
  remembered is bounded), `DeliveryRuns` (no gap and no repeat on one
  connection), `DeliveryGaps` (no gap over connections and crashes, for any
  consumer), `OneShot` (a one-shot that ends is complete), `DeliveryCases` (runs
  that meet the failing side of each condition), `ConsumerModel` and
  `ConsumerProtocol` (what a consumer says back).
- **Retention.** `Follower` (the floor and the loss record), `Retention` (end to
  end: what interest lets go has been acknowledged), `RetentionCase` (a history
  in which a chunk goes).
- **File tail.** `FollowTimes` (what a file's bytes are worth in the store),
  `FollowTail` (reading it as it grows and is rotated), `Resync` (the counted
  re-sync).
- **Codecs and transformations.** `LittleEndian`, `FrameModel`, `FrameCodec`,
  `FrameWire` and `FrameExact` (the replication wire), `FramesReceiver`, `FramesSender` and
  `FramesProtocol` (many streams on one connection), `Reassembly` (split log
  messages), `RingsModel` and `RingsFiles` (the index), `Export` (chunk-range
  export).

Code that changes things step by step is a class or a loop, each method proved
against a specification function; the properties are lemmas about those
functions. `dafny verify dfyconfig.toml` checks everything.

## What the code does that its promises do not say

Where a promise holds only under a condition, the condition is proved exact or
a concrete input is given:

- Resuming from `emitted_end` is exact if and only if nothing was emitted or the
  entry emitted last was closed by a stamped line; after one closed by the entry
  cap or an idle flush it is emitted again, because only `close_at` moves the
  resume point (`EntryStops.ExactUnlessClosedUnstamped`,
  `EntryStops.IdleFlushRepeats`, `EntryStops.FullEntryRepeats`). Without idle
  flushes, and with room for every unstamped line, it is always exact
  (`EntryStops.RoomyInputResumes`).
- Where the input is cut into pushes shows if and only if a line ending in a
  newline is longer than the line cap, because the cap is tested at the end of a
  push (`EntryCutting.CuttingIsInvisibleIff`, `EntryCutting.CutShows`).
- A one-shot that ends drained has sent everything unless a store is at the cap
  on held entries, because the park tests `held` and `skipped` does not
  (`OneShot.OneShotIsComplete`, `OneShot.DrainedReadWasWhole`,
  `DeliveryCases.CapEndsOneShotEarly`).
- Entries are skipped if and only if a read starts past what was sent before it
  (`DeliveryGaps.GapsAreExactly`), which takes somebody who puts the store there
  (`DeliveryGaps.NothingIsSkipped`): the consumer, by a watermark, a taken offset
  or a claim (`DeliveryCases.OverreachSkips`, `DeliveryCases.ClaimSkips`), or the
  policy that takes a store up at its end. That end is written only once a report
  arrives, so a process that ends before then loses it and the next one starts
  further on, although no consumer did anything
  (`DeliveryCases.LostPickUpSkips`). A store with a position on disk is safe from
  that (`DeliveryGaps.RestartSkipsNothing`).
- Everything is sent once and in order if and only if every read that sends
  something starts exactly where the last entry sent ended
  (`DeliveryGaps.RepeatsAreExactly`, over crashes and any consumer). On one
  connection that is so if and only if no such read starts below the highest
  watermark (`DeliveryRuns.StretchesAreExactly`), because a position's offset is
  overwritten and not kept at its highest: a consumer that goes back is sent
  entries again (`DeliveryCases.GoingBackRepeats`), and one that does not is not
  (`DeliveryRuns.NothingIsRepeated`). Going back skips nothing, and retention is
  not affected by it (`Retention` is proved for any consumer whatever).
- Interleaving partial messages changes nothing if and only if no series that
  has more to come is begun with 1000 outstanding
  (`Reassembly.InterleavingDoesNotMatter`, `Reassembly.ThousandAndFirstIsSplit`).
- A re-sync adds exactly the newer lines if and only if the store has every line
  of the overlap at least as often as the file (`Resync.OnlyTheNewer`,
  `Resync.OneMoreIsAdded`).
- The offset and chunk a sender records are those of one chunk exactly as long as
  the receiver has not gone back behind what was recorded, which the comment on
  `save_positions` does not allow for (`FramesProtocol.RecordedTogether`,
  `FramesProtocol.GoneBack`).
- Streams of one connection do not interfere if and only if none is opened into a
  file that another of them has open for writing, and so locked
  (`FramesReceiver.OnlyLocksInterfere`, `FramesReceiver.SharedStoreInterferes`).
- A message a consumer emits is read back if and only if its record is within
  the reader's limit, which the emitters do not check
  (`ConsumerProtocol.EmittedIsRead`, `ConsumerProtocol.LongIdIsRefused`).

## What is assumed

- The stamp extractor is a function of the first 256 bytes of a line. Anchoring
  a stamp without a year to a file's modification time or a chunk's window is
  not part of it.
- A read of the stores (the shipper, which is not part of this model) holds for
  each store that is not parked at most one batch of consecutive entries from
  where that store is to be read, and nothing for a parked one. `Retention`
  assumes only that each entry came out of the entry sink over pushes of the
  store's own chunks.
- A store with no position that no policy takes up at its end is read from its
  beginning. Over one connection (`DeliveryRuns`) that stays where it is; over
  several (`DeliveryGaps`) it may be anywhere, turn by turn.
- Sizes and offsets fit in 64 bits, and fewer than 2^32 streams are opened on a
  connection.
- A re-sync's line hash does not collide: lines are counted by content.
- JSON text is a pair of inverse functions whose output holds no control
  character.
- Crashes, timeouts and everything the world answers (a store that cannot be
  opened, a full disk, a short read) are parameters or steps that may happen
  at any time.

## Model

| member | source | states |
|---|---|---|
| `EntryModel.ClosedOnce` | `src/entry.rs:267-317` | a closed entry is counted exactly once, and written out as it was read and opened if and only if its stamp, where it has one, is between the two bounds of the window, its bytes pass the predicates, and fewer than the limit went out before |
| `EntryModel.RunWithinLimit` | `src/entry.rs:287-297` | over any run there are as many records as are counted emitted, never more than the limit, and none is suppressed before as many as the limit have gone out, siblings' included |
| `EntryModel.CutLongLeaves` | `src/entry.rs:189-196` | a push leaves in hand what whole fragments of the cap leave of the line, at its own place, marked as a continuation if and only if a fragment was taken or it was one already |
| `EntryModel.RunPush` | `src/entry.rs:160-198` | one push is: note the chunk, read its bytes one by one, cut what is too long |
| `EntrySinks.EntrySink.constructor` | `src/entry.rs:114-154` | a new sink is the empty one |
| `EntrySinks.EntrySink.PushChunk` | `src/entry.rs:160-198` | a push moves the sink exactly as the fold over its bytes does |
| `EntrySinks.EntrySink.TakeBytes` | `src/entry.rs:176-188` | the byte loop, which copies runs between newlines, equals taking the bytes one at a time |
| `EntrySinks.EntrySink.CutLongLine` | `src/entry.rs:189-196` | the fragment loop leaves what cutting whole `LINE_CAP` parts leaves |
| `EntrySinks.EntrySink.TakeLine` | `src/entry.rs:202-253` | a line opens, joins or interrupts an entry by its stamp, the cap and whether it continues a cut line |
| `EntrySinks.EntrySink.TakeStamped` | `src/entry.rs:216-239` | a stamped line ends the entry before it at its own start and begins another, under this chunk and window |
| `EntrySinks.EntrySink.TakeUnstamped` | `src/entry.rs:240-250` | an unstamped line joins the open entry, or opens one where there is none or no room |
| `EntrySinks.EntrySink.CloseAt` | `src/entry.rs:257-265` | the resume point moves to where the entry ended if and only if a record was emitted |
| `EntrySinks.EntrySink.CloseEntry` | `src/entry.rs:267-370` | window, predicates and the shared limit decide whether the open entry is emitted, counted or dropped |
| `EntrySinks.EntrySink.FlushPending` | `src/entry.rs:399-401` | an idle flush closes the entry and keeps the line |
| `EntrySinks.EntrySink.Discard` | `src/entry.rs:412-417` | what was being assembled is forgotten, what was emitted is not |
| `EntrySinks.EntrySink.Finish` | `src/entry.rs:420-430` | the trailing line is taken and the last entry closed where the data ends |
| `EntryLines.RecordsSayTheirLine` | `src/entry.rs:202-300` | over any run to its end, every record begins with a line that was read and bears that line's stamp, none if it is the rest of one that was cut, and the chunk and window pushed when it was read; a stamp it bears is within the window and its bytes pass the predicates |
| `EntryLines.StampedAreCounted` | `src/entry.rs:216-224` | the lines counted as stamped are those whose first 256 bytes bear a stamp, over any run |
| `EntryTape.RecordsAreTheTape` | `src/entry.rs:160-297` | whatever is filtered, cut, flushed or limited, every record is the tape's bytes at its offset, in order and without overlap |
| `EntryTape.SinkConservesTape` | `src/entry.rs:160-253` | with no filter, payloads concatenate to the input and each offset is the one before plus its length, over any pushes, capped fragments and idle flushes |
| `EntryTape.FeedLaid` | `src/entry.rs:160-253` | at every point what is emitted, open and in hand is one stretch of the tape ending where the input does |
| `EntryTape.TakeLineLaid` | `src/entry.rs:202-253` | reading a line keeps that |
| `EntryTape.CloseEntryLaid` | `src/entry.rs:267-297` | closing keeps that, whether the entry is emitted or dropped |
| `EntryAttribution.RecordsReachTheirChunk` | `src/entry.rs:216-251` | a record that names a chunk ends at or past that chunk's beginning, so acknowledging it covers every chunk before |
| `EntryAttribution.TakeLineAttributed` | `src/entry.rs:216-251` | reading a line keeps every attribution, open entry included |
| `EntryStops.ExactUnlessClosedUnstamped` | `src/entry.rs:216-297` | stopped at any push with the pending entry discarded, a fresh sink from the resume point (or the start) completes the unlimited run's output if and only if nothing was emitted or the entry emitted last was closed by a stamped line, and not by the cap or an idle flush |
| `EntryStops.RoomyInputResumes` | `src/entry.rs:239-265` | without idle flushes, and with room in the open entry for every unstamped line that finds one, every stop resumes exactly, for any window, predicates and limit |
| `EntryStops.ShortInputResumes` | `src/entry.rs:239-265` | so does any stop within the first `ENTRY_CAP` bytes without an idle flush, whatever is stamped and however the lines fall |
| `EntryStops.RunTold` | `src/entry.rs:257-265` | the resume point is where the last record ended exactly when a stamped line closed it, and is never ahead of the open entry |
| `EntryStops.IdleFlushRepeats` | `src/entry.rs:399-401` | one unstamped line and an idle flush: the entry emitted is emitted again on resuming |
| `EntryStops.FullEntryRepeats` | `src/entry.rs:240-250` | an entry as long as the cap and one more unstamped line: the entry emitted is emitted again on resuming |
| `EntryResume.ResumingIsExact` | `src/entry.rs:160-297` | resuming is exact if and only if what a stopped run emitted ends at the resume point; what inputs bring that about is EntryStops |
| `EntryResume.FindMarks` | `src/entry.rs:257-265` | at every point of a run there is a place a fresh sink could have started from, the resume point, whose output is the rest of the run's |
| `EntryResume.MarkedLine` | `src/entry.rs:202-265` | reading a line moves that place exactly when the resume point moves |
| `EntryResume.MarkLine` | `src/entry.rs:202-297` | a limited sink stays a prefix of an unlimited one, and a follower of it stays its tail |
| `EntryCutting.CuttingIsInvisible` | `src/entry.rs:160-200` | with lines under the cap and no idle flush, the records are the same for every way of cutting the input into pushes |
| `EntryCutting.CuttingIsInvisibleIff` | `src/entry.rs:189-196` | cutting into pushes never shows if and only if no line of the input that ends in a newline is longer than the cap |
| `EntryCutting.CutShows` | `src/entry.rs:189-196` | an input with a longer line, and two ways of pushing it that give different records |
| `EntryCutting.FeedIsEager` | `src/entry.rs:176-197` | testing the cap at the end of a push is testing it at every byte, for lines within the cap |
| `Cursors.Cursor.constructor` | `src/cursor.rs:76-86` | a new cursor stands nowhere |
| `Cursors.Cursor.Advance` | `src/cursor.rs:151-162` | an entry from a chunk moves the place, restarting the count in a new chunk; one from the live edge moves nothing |
| `Cursors.Resume.constructor` | `src/cursor.rs:616-623` | a resume skips to the cursor's place |
| `Cursors.Resume.Deliver` | `src/cursor.rs:632-655` | an entry is skipped only before the cursor's chunk or among the counted ones inside it, and never again once one was delivered |
| `Cursors.ReadLoop` | `src/cursor.rs:632-655` | a session's loop over a stream hands over what the fold says |
| `Cursors.SessionDeliversTheRest` | `src/cursor.rs:615-655` | re-reading from at or before the cursor's chunk delivers exactly the entries not yet delivered |
| `Cursors.RestartsDeliverOnce` | `src/cursor.rs:615-655` | over any number of stops and restarts every entry reached is delivered exactly once, in order |
| `Cursors.RestartsDeliverAtLeastOnce` | `src/cursor.rs:641-645` | with live-edge entries mixed in, every entry reached is still delivered at least once |
| `Cursors.ConsumedPrefix` | `src/cursor.rs:714-719` | the count is the number of head chunks below the cursor's own |
| `Cursors.DroppingConsumedChangesNothing` | `src/cursor.rs:714-719` | dropping the chunks it counts changes nothing a resume delivers |
| `Cursors.Positions.Advance` | `src/cursor.rs:554-578` | the offset is overwritten, chunk and write time only grow, the count adds up, and no other store's position moves |
| `Cursors.AdvancedIs` | `src/cursor.rs:554-578` | the offset is the one told, the chunk and the write time are the greater of those recorded and told, and the count adds up |
| `Standings.Stand` | `src/cursor.rs:798-815` | the view computed by scans is the one defined |
| `Standings.BacklogIsExact` | `src/cursor.rs:799-808` | consumed and behind make up the store, and behind is exactly the cursor's chunk and all after it |
| `Standings.BytesAreExact` | `src/cursor.rs:800-803` | the bytes behind are the sum of those chunks' sizes |
| `Standings.DistancesAre` | `src/cursor.rs:804-814` | the time behind is how far the latest write of any chunk is past the consumer's, and the gap is the numbers from the consumer's chunk to the first one left, where that has gone |
| `Standings.DroppingConsumedOpensNoGap` | `src/cursor.rs:810-813` | a gap means the cursor's own chunk is gone: dropping only head chunks it has consumed never opens one, and with a gap there is nothing consumed to drop |
| `Follower.Matching` | `src/follower.rs:1096-1108` | the followers considered are exactly the retaining ones whose selector matches, each with its position in this store |
| `Follower.InterestIndex.ForStore` | `src/follower.rs:1085-1160` | the index answers blind when unreadable, nothing held when nobody retains, else the interest of the matching followers, which has a floor if and only if each has a position below the next chunk number |
| `Follower.InterestIndex.Scan` | `src/follower.rs:1119-1148` | the loop stops at the first position that proves nothing, and otherwise keeps the least |
| `Follower.InterestIndex.FindAt` | `src/follower.rs:1149-1154` | the holder named is the first whose position is the floor |
| `Follower.FloorIsLeast` | `src/follower.rs:1113-1148` | there is a floor if and only if every retaining follower of the store has a position in a chunk that was written; it is the least of them and the holder is at it, and otherwise the holder is one that has none or claims a chunk never written |
| `Follower.Droppable` | `src/follower.rs:966-971` | the head chunks let go are exactly those numbered below the floor |
| `Follower.LetsGoTheRead` | `src/follower.rs:961-970` | a head chunk is let go if and only if somebody retains the store and every such follower has a written position past it |
| `Follower.LossRecordIsExact` | `src/follower.rs:1244-1271` | a record exists if and only if a dropped chunk was unread by a retaining follower; it names exactly those chunks and one it failed |
| `Follower.BlindHolds` | `src/follower.rs:1086-1091` | an unreadable registry lets nothing go and accuses nobody |
| `FeedModel.Past` | `src/feed.rs:131-136` | what is in flight past an offset |
| `FeedModel.UpTo` | `src/feed.rs:154-159` | and what is not: together they are the list |
| `FeedModel.NewestChunk` | `src/feed.rs:660-671` | the chunk acknowledged is one of an entry covered, and the greatest |
| `FeedModel.Announce` | `src/feed.rs:561-584` | every store answered for is tracked, and one already tracked is left as it was |
| `FeedModel.MarkHeld` | `src/feed.rs:425-436` | saying a store is held changes nothing else |
| `FeedLoop.Feeder.constructor` | `src/feed.rs:358-378` | the loop starts with no store tracked and the positions that were saved |
| `FeedModel.Seeded` | `src/ship.rs:390-441` | a claim or a pick-up is recorded only for a store with no position, names no chunk, and moves no other position |
| `FeedLoop.Feeder.Seed` | `src/ship.rs:461-467` | the loop over claims or pick-ups records what that says |
| `FeedLoop.Feeder.Connect` | `src/feed.rs:376-394` | a connection starts on the positions on disk with its consumer's claims added, and writes them |
| `FeedLoop.Feeder.Announce` | `src/feed.rs:561-588` | announcing adds the stores it has not seen |
| `FeedLoop.Feeder.Splice` | `src/feed.rs:595-636` | forwarding an answer adds its entries to what each store is owed, up to a malformed one, and reports how many, whether a bound stopped it and where |
| `FeedLoop.Feeder.TakeProgress` | `src/feed.rs:645-678` | a watermark forgets what it covers, keeps the furthest taken, and moves the position with the newest chunk and write time it covered |
| `FeedLoop.Feeder.Retain` | `src/feed.rs:660-671` | the retain loop splits the list at the offset and keeps the greatest chunk and write time of what went |
| `FeedLoop.Feeder.Drain` | `src/feed.rs:696-721` | reports are acted on in turn up to one that is refused |
| `FeedLoop.Feeder.Persist` | `src/feed.rs:463-465` | the positions written are those in memory |
| `FeedLoop.Feeder.Settle` | `src/feed.rs:253-260` | what reports moved is written, during the run and at the end of the stream |
| `FeedLoop.Feeder.RunTurn` | `src/feed.rs:404-541` | a turn reads, forwards, drains, writes, and then goes again, ends, waits or fails as the turn defined does |
| `FeedTurns.TurnEnds` | `src/feed.rs:466-541` | a follower never ends; a one-shot ends drained if and only if nothing was shipped or cut short and nothing is or was in flight, and gives up if and only if something is and the silence was too long; a turn fails if and only if the answer or a report was malformed, or the consumer went while waited for |
| `FeedTurns.EndMovesNothing` | `src/feed.rs:477-535` | a turn that ends, and one in which nothing was said while it waited, leaves what its drain left |
| `FeedTurns.MovedIsWritten` | `src/feed.rs:463-465` | what a drain moved is written, and where it moved nothing nothing changes |
| `FeedTurns.TakenIsGreatest` | `src/feed.rs:653-659` | over any reports, what a store is known to have taken is the greatest its consumer said, and never less than before |
| `FeedTurns.WatermarkRecords` | `src/feed.rs:660-677` | a watermark is recorded as told, with the greatest chunk and write time of those recorded and of the entries it covers, and their number added |
| `FeedTurns.PositionsGrow` | `src/cursor.rs:570-577` | over any reports a position's chunk, write time and count never go down |
| `Delivery.SpliceAppends` | `src/feed.rs:595-631` | forwarding appends exactly a store's own entries to what it is owed |
| `Delivery.PendingIsBounded` | `src/feed.rs:131-159` | for any consumer over any turns, what is remembered of a store stays below the cap plus one batch, and within one batch if it never says taken |
| `OneShot.DrainedReadWasWhole` | `src/feed.rs:439-483` | the read before a drained end left a store out if and only if one was at the held cap, it found nothing, and nothing is left in flight |
| `OneShot.OneShotIsComplete` | `src/feed.rs:439-487` | with none at the cap, a one-shot that ends drained has sent every byte its stores held, from where each was first taken up, and nothing sent is left that was neither taken nor acknowledged |
| `OneShot.EverySentIsTaken` | `src/feed.rs:131-159` | for any consumer, each entry its connection sent lies within the highest watermark or was taken when a one-shot ends drained |
| `OneShot.EverySentIsRecorded` | `src/feed.rs:131-159` | and where watermarks do not go back, within the recorded position or taken |
| `DeliveryCases.CapEndsOneShotEarly` | `src/feed.rs:439-483` | a run from an empty table, each turn one entry taken and none acknowledged, after which a one-shot ends drained although the store holds an entry nobody was sent |
| `DeliveryRuns.NextReadIsExact` | `src/feed.rs:439-448` | an unparked store is read again at or before where its last entry ended, and exactly there if and only if no watermark went back further than the consumer says it has read |
| `DeliveryRuns.SendKeepsGood` | `src/feed.rs:614-620` | sending keeps: one stretch of tape from the start, and owed exactly what is past the highest watermark |
| `DeliveryRuns.ReportKeepsGood` | `src/feed.rs:645-678` | so does any watermark up to the end of what was sent, forward or back, inside an entry or not |
| `DeliveryRuns.TurnKeepsGood` | `src/feed.rs:404-541` | a turn keeps that for every store at once, watermarks going back or not, if and only if it reads no store it sends from below that store's highest watermark |
| `DeliveryRuns.StretchesAreExactly` | `src/feed.rs:404-541` | all through a connection what was sent of every store is one stretch of tape and what is owed is exactly the entries of it past the highest watermark, if and only if no read that sent something started below that watermark |
| `DeliveryGaps.RepeatsAreExactly` | `src/ship.rs:331-362` | over any run at all, crashes and any consumer included, everything sent of every store is one stretch, each entry once and in order, if and only if every read that sends something starts exactly where the last entry sent ended |
| `DeliveryGaps.BatchIsOnce` | `src/ship.rs:349-362` | a batch goes on with the stretch if and only if it begins where the stretch ends |
| `DeliveryCases.GoingBackRepeats` | `src/cursor.rs:554-578` | a consumer that acknowledges 20 and then 10 is sent from 10 again |
| `DeliveryGaps.NothingIsSkipped` | `src/feed.rs:376-541` | over any run of turns, failed ones too, ends, crashes and connections, and any consumer, every byte between where a store was first taken up and the furthest sent was sent, as long as no watermark, taken offset, claim or pick-up puts the store past what was sent |
| `DeliveryGaps.GapsAreExactly` | `src/ship.rs:331-362` | over any run at all, nothing is ever skipped if and only if no read starts past what had been sent of its store |
| `DeliveryGaps.BatchLeavesNoGap` | `src/ship.rs:349-362` | a batch leaves no gap if and only if it begins no further than what was sent |
| `DeliveryGaps.ServeAtMost` | `src/feed.rs:404-541` | a turn, failed or not, leaves in memory and on disk nothing past what it was told |
| `DeliveryCases.LostPickUpSkips` | `src/ship.rs:390-441` | a store taken up at its end, and a process that ends before its consumer reports: the next takes it up further on and what lies between is never sent |
| `DeliveryCases.ClaimSkips` | `src/feed.rs:376-394` | a claim past what was sent, of a store with no position, leaves a gap |
| `DeliveryCases.OverreachSkips` | `src/feed.rs:645-678` | a watermark past what was sent leaves a gap |
| `DeliveryGaps.RestartSkipsNothing` | `src/cursor.rs:542-547` | a restart at any point, whatever is then claimed or taken up, reads a store with a position on disk at or before the end of what was sent, all of which was sent |
| `Retention.RetentionNeverOutrunsDelivery` | `src/follower.rs:1085-1160` | at any point of any history, the chunks dropped by interest and those the floor now lets go end at or before the highest offset every retaining follower of the store has acknowledged |
| `Retention.BelowFloorIsAcknowledged` | `src/follower.rs:1119-1148` | a chunk below the floor ends at or before what each follower held in the registry acknowledged |
| `Retention.SentReachesItsChunk` | `src/feed.rs:614-620` | an entry owed ends at or past the beginning of the chunk it names |
| `Retention.WatermarkFaithful` | `src/feed.rs:660-677` | the chunk an acknowledgement records begins at or before the highest offset acknowledged |
| `Retention.AdvancedIsBacked` | `src/cursor.rs:570-575` | keeping the greater chunk keeps that |
| `Retention.TurnFaithful` | `src/feed.rs:404-541` | so does a turn, failed or not, in memory and on disk |
| `Retention.AcksGrow` | `src/feed.rs:645-678` | what a consumer has acknowledged is never taken back |
| `Retention.AcksAre` | `src/feed.rs:645-678` | what a consumer has acknowledged of a store is the highest of what it had and what it says, if it was sent from |
| `RetentionCase.ChunkGoes` | `src/follower.rs:1085-1160` | a history from an empty registry in which an entry is sent, acknowledged and written, and its chunk then dropped |
| `Retention.HeadDroppedSafe` | `src/store.rs:1864-1866` | dropping by interest keeps every dropped chunk acknowledged |
| `Retention.HeadDropsTheRead` | `src/store.rs:1864-1866` | by the registry as last read, interest lets go of exactly the head chunks that at least one follower retains and all that do have recorded a written position past |
| `Retention.RegistryReadSafe` | `src/follower.rs:1027-1076` | so does reading the registry, which may then be used stale |
| `Retention.ConnectedSafe` | `src/cursor.rs:503-536` | so does a new process, after a crash or an end, whatever its consumer claims to hold |
| `Retention.EndedSafe` | `src/feed.rs:253-260` | so does hearing out a consumer at the end of its stream |
| `Retention.GrewSafe` | `src/follower.rs:1077-1084` | so does a store that grows |
| `Retention.OccurSafe` | `src/follower.rs:1085-1160` | and so does whatever else happens, in whatever order |
| `FollowTimes.LineFollows` | `src/follow.rs:296-316` | a fresh line is stamped by its head; more of a line already cut keeps the time in force |
| `FollowTimes.TimedKeepsBytes` | `src/import.rs:329-363` | giving bytes their times keeps every byte once and in order |
| `FollowTimes.EachLineIsTimed` | `src/import.rs:329-363` | every byte of a line has the line's own stamp, read off its first 256 bytes, or else the time of the byte before the line, or what was carried in |
| `FollowTimes.FinishedIs` | `src/follow.rs:378-404` | a finished file is kept whole, under the time carried in, else its first stamp for what comes before that, else its modification time throughout |
| `FollowTimes.SettledWith` | `src/follow.rs:319-340` | the first stamp a file is found to have does not depend on where it was read to |
| `FollowTail.Tail.constructor` | `src/follow.rs:165-180` | a file is taken up at an offset; it is waited on if and only if the store has no time yet |
| `FollowTail.Tail.Feed` | `src/import.rs:329-363` | a stamped line releases the lines held for it and sets the time; an unstamped one inherits it, or is held, up to a limit |
| `FollowTail.Tail.ImportRange` | `src/follow.rs:193-219` | a range of the file goes to the store under one time, each byte once |
| `FollowTail.Tail.FirstStampArrived` | `src/follow.rs:224-243` | everything before the first stamp takes it, and the wait ends |
| `FollowTail.Tail.TakeLine` | `src/follow.rs:296-315` | a line or part of one leaves the store as if the file up to its end had been timed at once |
| `FollowTail.Tail.TakeLines` | `src/follow.rs:290-316` | so does a batch, of which only the first may be the rest of a cut line |
| `FollowTail.Tail.CutFragment` | `src/follow.rs:319-340` | a line too long to hold is committed in part and what follows is not a new line |
| `FollowTail.Tail.CommitLines` | `src/follow.rs:280-317` | what is pending is committed up to its last newline and the rest kept |
| `FollowTail.Tail.Read` | `src/follow.rs:258-341` | one read, however short, keeps all of that |
| `FollowTail.Tail.Drain` | `src/follow.rs:247-343` | so does reading to the end, in reads of any size |
| `FollowTail.Tail.CommitFragment` | `src/follow.rs:347-371` | the last line of a file that will not grow is committed, stamped only if it is not the rest of a cut one |
| `FollowTail.Tail.FinishRotated` | `src/follow.rs:378-404` | a finished file has left exactly its bytes, under its own times or, with no stamp, its modification time |
| `FollowTail.Tail.Rotate` | `src/follow.rs:787-805` | a replaced file is finished in full before the new one is opened at its start under the time it ended on |
| `FollowTail.Tail.Open` | `src/follow.rs:165-180` | opening takes a file up after what the store holds |
| `FollowTail.Tail.Written` | `src/follow.rs:111-118` | the producer's writes change only what is left to read |
| `FollowTail.Tail.Follow` | `src/follow.rs:782-850` | over any run of writes, polls and rotations the store is what was there, every rotated file in full, and the current one up to its unfinished line, or nothing of it while it has no stamp; times and bytes depend on the files alone |
| `FollowTail.MovedIsKept` | `src/follow.rs:787-805` | step by step is the same as file by file |
| `FollowTail.KeptKeepsBytes` | `src/follow.rs:378-404` | the files rotated away are all there, each byte once and in order |
| `FollowTail.ReadingKeepsBytes` | `src/follow.rs:247-343` | of the file in hand, nothing while it waits for a stamp and everything taken once it has one |
| `Resync.Resyncer.TakeLine` | `src/follow.rs:566-583` | a line is left out as too old, skipped as known while its count lasts, or added, and the overlap ends at the first newer one |
| `Resync.Resyncer.TakeAll` | `src/follow.rs:551-585` | the loop adds what the positions of the lines say it should |
| `Resync.NothingIsLost` | `src/follow.rs:566-583` | of each line as many are skipped as store and overlap both hold and every other is added, so with the store's none is missing |
| `Resync.PastIsAdded` | `src/follow.rs:587-588` | from the first line that is not older than the head and whose time is past the store's last on, every line that is not older is added |
| `Resync.OnlyTheNewer` | `src/follow.rs:573-583` | exactly the newer lines are added if and only if the store has every line of the overlap at least as often as the file |
| `Resync.OneMoreIsAdded` | `src/follow.rs:590-606` | a line the file has twice and the store once is added, though it is not newer |
| `Resync.OrderIsKept` | `src/follow.rs:577-605` | what is added is in the file's order, each line under the stamp of the last stamped line up to it, or the store's last time where there is none |
| `Resync.AddedExactly` | `src/follow.rs:579-604` | a line is added if and only if it is not older than the store's head, and is past the overlap or comes after as many lines of the overlap that say the same as the store holds |
| `Resync.OverlapEnds` | `src/follow.rs:586-588` | the overlap is over from the first line not older than the head whose time is past the store's last |
| `Resync.TimeInForce` | `src/follow.rs:578-587` | a line's time is the stamp of the last stamped line up to it, or the store's last time where there is none |
| `FrameModel.CharIsTaken` | `src/frame.rs:546-547` | the encoding of every Unicode character is taken as one character, whatever follows |
| `FrameModel.TakenIsChar` | `src/frame.rs:546-547` | what is taken as a character is the encoding of one |
| `FrameCodec.Buffer.PutRuns` | `src/frame.rs:248-254` | the loop writes the count and each run |
| `FrameCodec.Buffer.PutTable` | `src/frame.rs:258-264` | the loop writes the count and each kind and length |
| `FrameCodec.Buffer.PutBodies` | `src/frame.rs:266-270` | the loop writes each body |
| `FrameCodec.PutStreamOpen` | `src/frame.rs:284-304` | a stream-open is written field by field in the order the wire has |
| `FrameCodec.PutChunk` | `src/frame.rs:305-325` | so is a chunk, its bytes only where it carries them |
| `FrameCodec.Payload` | `src/frame.rs:282-342` | every frame's payload is the one defined |
| `FrameCodec.Encode` | `src/frame.rs:281-347` | a frame is appended after what the buffer holds: stream, kind, length, payload |
| `FrameCodec.Cur.Take` | `src/frame.rs:363-374` | the cursor hands out the next bytes or an error, and never reads past the end |
| `FrameCodec.Cur.U32` | `src/frame.rs:376-378` | four bytes as a number |
| `FrameCodec.Cur.U64` | `src/frame.rs:380-382` | eight bytes as a number |
| `FrameCodec.Cur.Id` | `src/frame.rs:384-386` | sixteen bytes as an identity |
| `FrameCodec.Cur.Remaining` | `src/frame.rs:388-390` | what is left is counted exactly |
| `FrameCodec.GetRuns` | `src/frame.rs:393-410` | a count the payload cannot hold is refused, then each run is read and one that ends before it starts is refused |
| `FrameCodec.GetSidecarTable` | `src/frame.rs:413-425` | a count the payload cannot hold is refused, then each kind and length is read |
| `FrameCodec.GetSidecars` | `src/frame.rs:427-436` | the bodies are cut as the table says |
| `FrameCodec.GetStreamOpen` | `src/frame.rs:476-496` | the fields of a stream-open in order, the first that is not there or not valid being the error |
| `FrameCodec.GetComp` | `src/frame.rs:508-525` | a chunk's bytes are absent or exactly as long as it says, else the frame is refused |
| `FrameCodec.GetChunk` | `src/frame.rs:498-536` | the fields of a chunk in order |
| `FrameCodec.GetConflict` | `src/frame.rs:543-553` | the fields of a conflict, its reason being text |
| `FrameCodec.GetFrame` | `src/frame.rs:475-559` | the kind decides what is read, and one not known is kept whole |
| `FrameCodec.Decode` | `src/frame.rs:460-560` | a frame, a wait for more, or an error, as the header and payload say |
| `FrameWire.FrameSurvives` | `src/frame.rs:281-348` | of frames within the payload limit, exactly the well-formed ones decode back, with their exact length, whatever bytes follow |
| `FrameWire.FrameBack` | `src/frame.rs:474-559` | a payload reads back as its frame if and only if the frame is well formed |
| `FrameWire.PrefixNeedsMore` | `src/frame.rs:461-472` | every proper prefix asks for more |
| `FrameWire.FramesSurvive` | `src/frame.rs:460-560` | a list of frames, unknown kinds included, decodes back in order, up to a last one not all there |
| `FrameWire.PartsReadTheSame` | `src/frame.rs:455-472` | a reader given its input in parts ends with the frames and the error it would have got at once |
| `FrameWire.HelloSurvives` | `src/frame.rs:438-453` | a hello survives, its prefixes ask for more, and only this version with no flag set is taken |
| `FrameWire.FrameLayout` | `src/frame.rs:281-348` | a frame is its stream, its kind as numbered, the length of its payload, and its payload |
| `FrameWire.OpenLayout` | `src/frame.rs:285-305` | where an opening's fields lie |
| `FrameWire.ChunkLayout` | `src/frame.rs:306-325` | where a chunk's fields lie |
| `FrameWire.HelloLayout` | `src/frame.rs:272-279` | where a hello's fields lie |
| `LittleEndian.LeRoundTrip` | `src/frame.rs:240-246` | a number that fits its width reads back from its bytes |
| `LittleEndian.LittleFirst` | `src/frame.rs:240-246` | the least significant byte comes first |
| `LittleEndian.FromLeRoundTrip` | `src/frame.rs:376-382` | and bytes are the only ones that read as their number |
| `FrameExact.DecodeIsSound` | `src/frame.rs:460-560` | whatever bytes are read as a frame begin with a header and what that well-formed frame is written as; only a frame whose kind allows it may be followed by more within its length |
| `FrameExact.CountsAreHeld` | `src/frame.rs:392-430` | a count larger than the payload could hold is refused before anything is read by it |
| `FramesReceiver.Connection.Take` | `src/frames.rs:180-272` | one frame does to the table, the finished sessions and the replies what the step defined does |
| `FramesReceiver.EachIsAnswered` | `src/frames.rs:185-272` | while the connection stands, a stream's session, its finished ones and every reply to it are those its own frames call for: an opening is answered, a chunk taken is acknowledged, a frame not taken is refused, nothing else is answered |
| `FramesReceiver.EveryChunkIsAcknowledged` | `src/frames.rs:252-270` | a stream is acknowledged exactly as often as it took a chunk, each time with what its session was then |
| `FramesReceiver.FailsWhen` | `src/frames.rs:185-222` | a frame fails the connection if and only if it opens a stream that is open or closes one that cannot be finished |
| `FramesReceiver.Connection.Serve` | `src/frames.rs:167-287` | a connection that does not fail leaves each stream finished and answered as its own share says |
| `FramesReceiver.Connection.EndAll` | `src/frames.rs:274-286` | at the end each open session, in any order, is answered once more and finished |
| `FramesReceiver.OthersAreUntouched` | `src/frames.rs:225-254` | a frame changes nothing of any other stream, refused or failed as it may be |
| `FramesReceiver.StreamsDoNotInterfere` | `src/frames.rs:180-287` | for any interleaving each stream's session, finished stores and replies are those of its own frames and their answers alone |
| `FramesReceiver.OnlyLocksInterfere` | `src/receive.rs:253-265` | with the locks on files being written, while the connection stands every stream is at every point where its own frames alone would have brought it, if and only if none was opened into a file another stream was writing |
| `FramesReceiver.StoresDoNotInterfere` | `src/frames.rs:180-287` | so streams that write different files do not interfere, whatever is interleaved |
| `FramesReceiver.SharedStoreInterferes` | `src/receive.rs:260-263` | a second stream into one file is refused while the first is open, and alone is not |
| `FramesReceiver.FailsAloneOrNotAtAll` | `src/frames.rs:190-222` | the connection fails if and only if one of its streams would have failed alone |
| `FramesSender.PlaceOf` | `src/frames.rs:1015-1017` | the stream found is the first with that number |
| `FramesSender.Sender.NoteAck` | `src/frames.rs:1011-1020` | an acknowledgement is filed with the stream it belongs to and no other |
| `FramesSender.Sender.NoteConflict` | `src/frames.rs:1025-1031` | a refusal removes the stream it belongs to, whole and with its reason, and no other |
| `FramesSender.KeptIs` | `src/frames.rs:1025-1031` | a refusal takes the stream of its number and no other |
| `FramesSender.CaughtIs` | `src/frames.rs:1061-1070` | a stream is recorded if and only if the newest chunk it was sent is the greatest end acknowledged, and the record does not say so already with nothing sent since |
| `FramesSender.SavedAre` | `src/frames.rs:1061-1081` | a save records each caught-up stream under its own store, with what it was sent last and the entries it owed, and leaves every other as it was |
| `FramesSender.Sender.Highest` | `src/frames.rs:1063-1063` | the greatest run end |
| `FramesSender.Sender.SavePositions` | `src/frames.rs:1054-1088` | each stream that has caught up and has news is recorded once, and the rest stand |
| `FramesProtocol.RecordedTogether` | `src/frames.rs:1040-1087` | over any run of openings, sending, answers, closes and saves, every recorded offset and chunk stay those of one chunk exactly as long as no receiver goes back behind what was recorded |
| `FramesProtocol.SavedTogether` | `src/frames.rs:1061-1081` | one save records a stream's own chunk and offset together if and only if its receiver has not gone back, and touches no other store |
| `FramesProtocol.GoneBack` | `src/frames.rs:1071-1078` | a run in which chunk 7 is acknowledged and then, on the next stream, chunk 5: the offset recorded is chunk 5's, beside chunk 7 |
| `FramesProtocol.BehindSavesNothing` | `src/frames.rs:1066-1071` | an acknowledgement behind what was sent changes nothing recorded |
| `FramesProtocol.EndsExactly` | `src/frames.rs:1030-1031` | a stream that ends takes no other with it |
| `FramesProtocol.HeardKeeps` | `src/frames.rs:841-886` | hearing an answer, an ack or a refusal keeps sender and receiver in step |
| `FramesProtocol.ArrivedKeeps` | `src/frames.rs:180-272` | so does anything that arrives at the receiver, and a stream arriving to be opened is not open |
| `FramesProtocol.AlwaysInStep` | `src/frames.rs:688-752` | they are in step at every point of every run |
| `FramesProtocol.ChannelsKeepOrder` | `src/frames.rs:180-272` | over any run, everything sent has arrived in order or is on its way, the receiver is where what arrived brings it, and every reply has been heard in order or is on its way |
| `FramesProtocol.NumbersAreNeverReused` | `src/frames.rs:694-735` | live stream numbers are distinct, and the next is above every one ever accepted |
| `FramesProtocol.DoubleOpenIsUnreachable` | `src/frames.rs:185-192` | the failure for a stream opened twice cannot happen: the connection fails only where a closed store cannot be finished |
| `Reassembly.WithNewline` | `src/forward.rs:343-348` | the line ends in a newline and is otherwise the bytes |
| `Reassembly.PartialReassembler.Feed` | `src/forward.rs:376-426` | one record yields its entries and leaves the buffers as the step says |
| `Reassembly.WholeComesOut` | `src/forward.rs:376-394` | a whole record, and a fragment of no series, come out at once as they are, under their own time |
| `Reassembly.RunIsBounded` | `src/forward.rs:395-420` | for all inputs at most 1000 buffers of at most 16 MiB remain |
| `Reassembly.BytesAreConserved` | `src/forward.rs:376-426` | every fragment byte of an id is in exactly one entry or buffer, in order |
| `Reassembly.InterleavingDoesNotMatter` | `src/forward.rs:395-410` | at every point each series is where its own fragments alone would have brought it if and only if none was begun, with more to come, when there was no room |
| `Reassembly.ThousandAndFirstIsSplit` | `src/forward.rs:395-402` | a thousand series open and one more of two fragments: they come out apart, where alone they would be one entry |
| `Reassembly.SeriesComesOutWhole` | `src/forward.rs:403-424` | a complete series is one entry: its first time and its fragments in arrival order |
| `RingsModel.RecordBack` | `src/format.rs:181-207` | a record reads back from its bytes |
| `RingsModel.RecordLayout` | `src/format.rs:181-191` | where a record's fields lie |
| `RingsModel.HeaderLayout` | `src/format.rs:273-289` | where a header's fields lie |
| `RingsModel.ShortHeaders` | `src/format.rs:415-449` | a field is read only from a header long enough, and declared long enough, to hold it |
| `RingsModel.OthersSayNothing` | `src/format.rs:415-449` | what is not an index of the second version has no drop counters, high-water mark or id |
| `RingsModel.LayoutIs` | `src/format.rs:483-534` | an index is read if and only if it is of the first version, or of the second with a possible header and no feature this build lacks; where its records begin, and each error |
| `RingsModel.ParsedAre` | `src/format.rs:644-658` | the records are as many as there is room for, one stride after another, those of the first version numbered by their place from 0 |
| `RingsModel.HeaderBack` | `src/format.rs:273-289` | a header says back its length, its numbering, its drop counters and its store id, the all-zero one reading as none |
| `RingsModel.WrittenReadsBack` | `src/format.rs:644-658` | a written header and records parse as those records, with or without the beginning of another |
| `RingsFiles.ToBytes` | `src/format.rs:181-191` | the array filled is the record's bytes |
| `RingsFiles.HeaderBytes` | `src/format.rs:273-289` | the array filled is the header, its id field zero where there is none |
| `RingsFiles.ParseIndexVersioned` | `src/format.rs:644-658` | the loop parses every whole record and finds the version |
| `RingsFiles.IndexFrom` | `src/format.rs:606-634` | the seeking read agrees with the full parse: count, records from any place, and errors |
| `RingsFiles.ReadBlock` | `src/format.rs:623-632` | the block read is cut into the records it holds, numbered by place in the first version |
| `RingsFiles.ReadIndexTail` | `src/format.rs:593-595` | the tail from k is the full parse's suffix from k |
| `RingsFiles.ReadIndexLast` | `src/format.rs:600-603` | the last record is the full parse's last |
| `RingsFiles.PrefixIsEnough` | `src/format.rs:483-534` | the first 64 bytes declare the same layout as the whole file |
| `RingsFiles.FileCutShort` | `src/format.rs:644-658` | a file cut anywhere past its header parses as a prefix of its records |
| `Export.Selected` | `src/export.rs:197-201` | exactly the chunks whose window overlaps the one asked for |
| `Export.SelectedInOrder` | `src/export.rs:197-201` | in the order they were in |
| `Export.ChunksReader.constructor` | `src/export.rs:49-54` | a reader has emitted nothing |
| `Export.ChunksReader.ReadPart` | `src/export.rs:63-75` | a read adds what it returns to what was emitted, or fails where the trunk ends inside a chunk |
| `Export.ChunksReader.Read` | `src/export.rs:56-78` | nothing read is the end and only the end, for any nonempty buffer |
| `Export.CopyFrames` | `src/export.rs:105-120` | for any buffers and short reads the copy is the frames concatenated, and it fails if and only if the trunk does not hold them all |
| `Export.Rebase` | `src/export.rs:227-259` | the loop's running offsets give the records defined |
| `Export.RebasedAt` | `src/export.rs:227-259` | numbers are dense from 0, offsets follow on, and everything else of a record is as it was |
| `Export.SameBytes` | `src/export.rs:227-259` | each rebased record cuts out of the new trunk what its source record cut out of the old |
| `Export.ExportWindow` | `src/export.rs:179-275` | an export is the chosen chunks' rebased index and their frames, or the error the window or the trunk gives |
| `Export.ExportReadsBack` | `src/export.rs:260-275` | what was exported parses back, each chunk with its bytes as they were |
| `ConsumerModel.ParseDigits` | `src/consumer.rs:186-189` | a number printed is the number parsed |
| `ConsumerModel.SplitJoined` | `src/consumer.rs:150-151` | parts free of the separator come apart as they were put together |
| `ConsumerModel.NumbersAre` | `src/consumer.rs:186-199` | what is read as a number is one digit or more, after a plus or not, of a value below 2^64 |
| `ConsumerProtocol.Reader.NextReport` | `src/consumer.rs:145-243` | the reader's loop returns the next report, the end or the error the bytes hold |
| `ConsumerProtocol.EmittedIsRead` | `src/consumer.rs:272-306` | a message with clean ids is read as it was emitted if and only if it is within the limit on a record |
| `ConsumerProtocol.LongIdIsRefused` | `src/consumer.rs:285-289` | an id as long as the limit makes a progress message no reader takes |
| `ConsumerProtocol.TakenIsHeard` | `src/consumer.rs:189-208` | how far a consumer says it has read is heard if it is not behind its position, and refused if it is |
| `ConsumerProtocol.HelloOnWire` | `src/consumer.rs:272-283` | a hello that claims nothing, byte for byte |
| `ConsumerProtocol.ClaimsOnWire` | `src/consumer.rs:272-283` | and one that claims something |
| `ConsumerProtocol.ProgressOnWire` | `src/consumer.rs:285-289` | a progress message, byte for byte |
| `ConsumerProtocol.NoteOnWire` | `src/consumer.rs:291-304` | a note about nothing in particular, byte for byte |
| `ConsumerProtocol.UnmarkedIsRefused` | `src/consumer.rs:151-160` | a record that does not end in a NUL is cut short, and one that does not begin with RS is no message |
| `ConsumerProtocol.UnendedIsRefused` | `src/consumer.rs:147-152` | input that holds no NUL is cut short, or too long once past the limit on a record |
| `ConsumerProtocol.OtherHellosAreRefused` | `src/consumer.rs:170-184` | a hello of another version, or that reads what there is not, is refused; one that does not say reads records |
| `ConsumerProtocol.ErrorEndsReading` | `src/consumer.rs:145-150` | reading ends at the first error and says which it was |
| `ConsumerProtocol.HelloBack` | `src/consumer.rs:272-283` | a hello's diet and claims come back |
| `ConsumerProtocol.ProgressBack` | `src/consumer.rs:285-289` | a progress comes back, saying nothing of what was taken |
| `ConsumerProtocol.NoteBack` | `src/consumer.rs:291-304` | a note's store, offset and text come back, absent ones absent |
| `ConsumerProtocol.StreamIsRead` | `src/consumer.rs:145-243` | a stream opening with a hello is read as it was emitted, and records of unknown kinds anywhere change nothing |
| `ConsumerProtocol.NothingBeforeHello` | `src/consumer.rs:234-242` | of any bytes at all, the first report heard is a hello |
| `ConsumerProtocol.TakenIsNeverBehind` | `src/consumer.rs:197-207` | no progress heard says it has taken less than its position |
| `ConsumerProtocol.HeaderBack` | `src/records.rs:21-30` | a record is read whole within the limit and is an error past it |

## Left out

- The text, NUL-separated and byte framings of `close_entry`, and its `[w …]` annotations: formatting of the record that is modelled.
- The timezone tripwire of `finish` and the counts behind it: a message, with no effect on what is emitted.
- `Cursor::resolve` and saving and loading position files: a crash is modelled as coming back to what was last written.
- The legacy single-store `cursor.json`, and how `for_store` and `positions_of` read the registry's directories: the index is given the followers it would read, or is blind.
- Adding, removing and redeclaring followers, and label changes of a store: a history has a fixed set of followers and each store fixed fields.
- Dropping by size or age budget: only the interest axis is shown safe, and a budget's override is what the loss record accounts for.
- Labels already announced to a consumer, consumer notes' text and deduplication, and the grace period at the end: they move no position.
- Delivery.PendingIsBounded: counts entries and not their bytes.
- DeliveryRuns.StretchesAreExactly: for a consumer that names nothing past what it was sent; `DeliveryGaps` covers any consumer.
- Which stores a policy takes up at their end (dates compared, slack allowed): a turn says which, and where.
- FollowTail.Tail.Follow: does not cover a file truncated in place, for which the source itself declares loss, nor a restart inside a line already cut.
- How startup chooses rotated candidates and where the store's tail lies in a file (`resume_offset`): byte searches over files outside the modelled state.
- Resync.Resyncer.TakeAll: takes the file's complete lines; the unterminated last line of a rotated file, which is committed without being compared, is the tail's `CommitFragment`.
- Resync.OnlyTheNewer: is about the counts the store was read to hold; the window of 64 MiB they are taken from is not modelled.
- FramesReceiver.Connection.Serve: takes what opening, writing and finishing a store answer as given with each frame; the identity lookup is outside (`FramesReceiver.Contended` is given the file each opening comes to), and of the locks only those of the same connection are modelled.
- FramesSender.Sender.SavePositions: works on positions in memory; the file they are saved to is outside.
- Serving chunks (`serve`), pacing by turns, refusal lingering and reports of what was sent: `FramesProtocol` lets any stream in hand send any chunk at any time.
- UUID text, the manifest written beside an export, tar bundling and file locks: formats of other libraries or the operating system.
- Export.ChunksReader.Read: with an empty buffer the source reports the trunk as ended; the copy loops never pass one.
- RingsFiles.IndexFrom: reads a file that does not change between its two reads.
- The Forward protocol's message modes, MessagePack decoding and acknowledgement sockets: `Reassembly` starts from decoded records.
- Configuration, mounting, manifests, listing, status and registry commands: easy members or the operating system's.
