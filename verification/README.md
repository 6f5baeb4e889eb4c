# FoxByte: a verified model of its hardest parts

A Dafny 4.11 project that models how FoxByte streams changes, keeps masks beside live tables, rotates
masking keys, chains its security log, recognises identifiers, searches, promotes changes between branches
and remembers who is an admin, and proves what those parts promise. `dafny verify dfyconfig.toml` checks
everything.

## The change feed

A decoder reads committed transactions from a replication slot and publishes them through a hub to bounded
subscriber buffers. `Feed.dfy` is the whole protocol as steps: the server's log and slot, one connection after
another, each event's publication on its own, overflow, reporting, releasing, reconnecting at any point, joining,
reading, leaving and giving up. The server replays every transaction whose commit position is not below the
position a connection starts from, so delivery is at least once. A `Watch` remembers of each stream what the
statements need: where it attached, everything ever put in its buffer, the first event it missed.
`FeedInvariant`, `FeedReceive`, `FeedPublish` and `FeedStreams` prove what every step keeps; `FeedTheorems` and
`FeedAdmission` draw the conclusions for all runs. `FeedProgress` proves that from every state of every run there is a way
on that gives an attached stream what it is due. `FeedGaps`, `FeedProgress` and `FeedAck` give the exact conditions: what
is never sent again, when a feed has no gap, what has been reported at a release, what a reconnect replays. `FeedSketch`
and `FeedRuns` write out particular runs from the start, each of them one that a condition rules out. `Replay` asks what
at-least-once delivery does to a subscriber's copy: fed a stretch of events again, it ends where it was exactly when the
events take the keys it ended with back to themselves.

`Messages` reads off the events what each message of the server publishes, and follows a table's statements through message,
decoder, frame and stream to a subscriber's copy.

`Hub.dfy`, `Decoder.dfy` and `Supervisor.dfy` are the program's objects, with their fields and loops, each method
proved to do to its view what `HubSpec`, `DecoderSpec` and `SessionSpec` say. `FeedRefinement` ties the receive
loop to the steps: a connection's whole session, turn by turn, is a run of the feed's steps, standby updates, answered
keepalives, failed reports and releases included. `HubShutdown` is the shutdown at the granularity of the locks.

What the proofs turned up, each as a lemma:

- A transaction is behind the feed after a reconnect exactly when the confirmed position is past its commit
  (`ReconnectReplaysIff`). The position acknowledged for a transaction is its commit, so the one acknowledged last is
  sent again, a transaction that was too large included (`AcknowledgedIsSentAgain`); the comments in
  `enterprise/realtime/decode.go:186-191` expect it to be behind the feed.
- The position reported at a release covers the transaction a stream overflowed in exactly when the connection has
  handled that transaction's commit (`AcknowledgedBeforeDetachIff`). It has not when an earlier report failed
  (`ReleasedAfterFailedReport`), nor when the stream overflows on this connection while the hub is still inside a
  transaction another connection left open: it is then released for an earlier commit (`ReleasedForAnEarlierCommit`).
- The route reads the floor and attaches in two steps (`internal/controlplane/realtime_on.go:235-257` and `:127`);
  a publication in between leaves a healthy stream that never gets what it missed (`JoinBelowFloorMisses`,
  `LateJoinerHasAHole`). `since >= floor` at the moment of attaching is what rules it out, and the floor is exactly
  that position (`FloorIsExact`).
- A first subscriber's floor is read before the slot is made (`internal/controlplane/realtime_on.go:208-217`). In every
  run, what a stream that has missed nothing is due can still reach it exactly when, at the start, nothing visible lies
  above the floor and below the point the feed begins at (`NoGapIffWhole`); a transaction in between is sent by no
  connection (`LateSlotSkips`), and the stream is healthy, told nothing, and has the next one whole (`LateSlotHasAHole`).
- A replayed stretch can lose a row that was moved to another key (`ReplayedMoveIsLost`), or give it a column of the row
  that took its old key (`ReplayedMoveTakesColumn`). If its moves are whole, only the keys can go wrong, and a fold over the
  keys alone says whether they do (`ReplayEndsEqualIff`).
- `Supervise` documents a limit of ten consecutive failures. The receive loop never returns without an error, so the
  count is never set back: the tenth failure of the feed's life ends it (`Supervise`).
- A stream handed out by a hub already closed has its `done` channel closed outside the once that guards it, so the
  `Close` every caller owes it closes the channel a second time (`EndsAtMostOnce`, `LateStreamEndsTwice`).

## Masks and keys

`MaskSpec` says what a mask is and what the generated trigger function does to a shadow table; `OnlineMask` is a table
under writers' statements, the batched fill, a second shadow under a new key, and the swap, in every interleaving;
`MaskedTable` is the same as an object with the fill's loop. `RotationSpec` and `Rotation` are the rotation of a
domain's key over the running branches, cut short after any step and started again. A run cut short between removing
the next key and the last record is the one that cannot be started again safely: it makes a brand new key and puts it
in place (`RestartIsSoundIff`, `RestartedTooLate`). A branch that a cut-short run moved and that stopped before the next
run is not looked at again, and is left with a trigger that names a removed key (`FinishedNamesIff`, `StrandedBranch`).

## The rest

`Audit` is the hash-chained security log with the hash as a parameter; no collision-freedom is assumed, instead the
theorem names the collision. Fields are joined with `|`, so the text is protected; how it divides into fields is,
exactly when no field holds a separator (`TextFixesFieldsIff`, `FieldsAreProtectedIff`). `CheckDigits` and `Luhn` are
the check digits over strings of every length. `JsonPath`, `JsonWalk` and `JsonPlaces` are the rendering and collecting
of JSON paths. `Like` is the search pattern against SQLite's LIKE. `Promotion` and `PromotionRounds` carry a branch's
changes over in rounds. `AdminCache` is the cache of admin answers under overlapping calls: an answer is more than a second
behind the log exactly when a grant recorded after the question was put had been seen before the answer was stored
(`StaleIffStoredTooLate`).

## Model

| member | source | states |
|---|---|---|
| `FeedTheorems.NoSilentGap` | enterprise/realtime/hub.go:234-301 | in every run a stream attached at or above the floor has been given the whole frame of every visible transaction after its position published while it was there, but for the one open when it first missed an event; that one is its last, and it is then pending or ended |
| `FeedTheorems.NothingElseIsGiven` | enterprise/realtime/hub.go:264-294 | a stream that missed nothing was given exactly the events published while it was attached, in order |
| `FeedTheorems.AcknowledgedIsDelivered` | enterprise/realtime/decode.go:277-291 | no transaction acknowledged to the server since the feed began is missing from an attached stream that lost nothing |
| `FeedTheorems.OverflowAdviceIsSound` | enterprise/realtime/hub.go:257-295 | a stream ended with overflow was given every change published since it attached; one that missed a change is pending with tx_too_large or ended for another reason, also when a decoder died inside a transaction |
| `FeedAck.AcknowledgedBeforeDetachIff` | enterprise/realtime/decode.go:186-199 | at every release of every run, the position just reported covers the transaction a held-back stream overflowed in exactly when this connection has handled its commit, and it has if it began it |
| `FeedRuns.ReleasedAfterFailedReport` | enterprise/realtime/decode.go:192-199 | a run whose report fails and whose next connection releases the stream having reported no position |
| `FeedRuns.ReleasedForAnEarlierCommit` | enterprise/realtime/hub.go:257-295 | a run in which a stream overflows on a connection, behind a transaction another one left open, and is released there for an earlier commit |
| `FeedTheorems.ReportedIsHandled` | enterprise/realtime/decode.go:277-291 | no reported or confirmed position exceeds where the feed began or the commit of a transaction handled to its last message |
| `FeedTheorems.BufferIsSuffix` | enterprise/realtime/hub.go:387-391 | what is left in a buffer is the end of what the stream was given |
| `FeedTheorems.RunInv` | enterprise/realtime/decode.go:115-202 | the invariant of log, connection, frames, hub and streams holds after every run |
| `FeedAdmission.FloorIsExact` | enterprise/realtime/hub.go:109-124 | in every run the floor is the lowest position, from the start on, that no published begin is above |
| `FeedAdmission.PublishedIsBelowFloor` | enterprise/realtime/hub.go:241-250 | every visible transaction published whole lies at or below the floor |
| `FeedAdmission.LiveJudgement` | enterprise/realtime/resume.go:81-109 | judged at the moment of attaching, a position is let in exactly when the stream is admitted, the floor is known and the position is within the log; then nothing published is above it; past the log it is refused as ahead, otherwise as expired |
| `FeedAdmission.StartJudgement` | enterprise/realtime/resume.go:110-117 | with nothing running, a position is resumed from exactly when there is a slot, it is within the log and the feed then begins no later than it; such a feed is whole whatever the log holds |
| `FeedAdmission.AheadAlike` | enterprise/realtime/resume.go:81-92 | the route judges a position to be ahead exactly when the decoder's attempt to start from it would fail for that |
| `FeedGaps.JoinBelowFloorMisses` | internal/controlplane/realtime_on.go:120-133 | a stream attached below a published visible transaction the connection is past is never given it, in any run that dials no connection at or before it |
| `FeedRuns.LateJoinerHasAHole` | internal/controlplane/realtime_on.go:120-133 | a run in which such a stream is healthy, told nothing, has the next transaction whole and not that one |
| `FeedProgress.HealthyCanHave` | enterprise/realtime/decode.go:115-202 | from every state of a run there are steps that give an attached stream that has missed nothing the whole of any visible transaction above its position |
| `FeedProgress.NoGapIffWhole` | internal/controlplane/realtime_on.go:208-218 | in every run whatever such a stream is due can still reach it, exactly when at the start nothing visible lies above the floor and below the point the feed begins at; otherwise a stream attached at the floor can never be given that transaction |
| `FeedRuns.LateSlotHasAHole` | internal/controlplane/realtime_on.go:208-218 | a run of a feed told a floor below its slot: the stream admitted there is healthy, told nothing, has the next transaction whole, and can never have the one in between |
| `FeedGaps.LateSlotSkips` | internal/controlplane/realtime_on.go:208-218 | a transaction below the slot's confirmed position at the start is sent to no stream by any connection of any run |
| `FeedAck.ReconnectReplaysIff` | enterprise/realtime/decode.go:136-141 | in every run a reconnect is past a transaction exactly when the confirmed position is past its commit, and starts at the one acknowledged last |
| `FeedRuns.AcknowledgedIsSentAgain` | enterprise/realtime/decode.go:186-199 | a run in which a transaction too large for its stream is reported, the stream released, and the transaction sent once more |
| `FeedRefinement.TurnIsSteps` | enterprise/realtime/decode.go:145-199 | any turn of the receive loop is steps of the feed with the same decoder, hub, last report and slot: a standby update if due or asked for, then the message and a report and release or neither; a failed report or a lost connection is a drop with nobody released |
| `FeedRefinement.ConnectionIsRun` | enterprise/realtime/decode.go:115-202 | dialling and a whole session of turns, whose messages are those the server sends, is a run of the feed, and ends with the same decoder, hub, reports and slot, or down with the same hub |
| `FeedRefinement.FlushPublishes` | enterprise/realtime/decode.go:233-306 | publishing the queue one event at a time is publishing it all |
| `SessionSpec.OnlyHandledIsReported` | enterprise/realtime/decode.go:137-199 | a connection reports only the position it resumed from and commits it has handled |
| `SessionSpec.ReleasedOnlyAfterReport` | enterprise/realtime/decode.go:186-199 | streams held back are let go exactly when the report of the turn gets through, and it is the decoder's position; a failed report ends the connection and lets nobody go |
| `SessionSpec.KeepaliveIsAnswered` | enterprise/realtime/decode.go:145-185 | a keepalive that asks is answered in the next turn, before anything else and once |
| `SessionSpec.AheadOnlyFirst` | enterprise/realtime/run.go:56-57 | only the first attempt can be refused for being past the log, since only it uses the position asked for |
| `Decoder.Decoder.Run` | enterprise/realtime/decode.go:115-202 | the receive loop's effect on hub, reports and outcome is that of the turns it takes, and a position past the log is refused before anything is reported |
| `Decoder.Decoder.Listen` | enterprise/realtime/decode.go:146-199 | one turn: a due or requested report first, then the input, and a release only after a report |
| `Decoder.Decoder.HandleMessage` | enterprise/realtime/decode.go:233-295 | what a message does to the decoder and to the hub is what the specification says, whose events RowPublishesOne, TruncatePublishes and ShapeAnnouncedIff describe |
| `Decoder.Decoder.PublishChange` | enterprise/realtime/decode.go:297-313 | a change is published with its transaction's commit position, behind a begin if it is the first |
| `Supervisor.Supervise` | enterprise/realtime/run.go:50-100 | only the first attempt uses the position; attempts go on to the first final one, at most ten; a position past the log closes with cursor_expired, a dropped slot with slot_lost, the tenth failure with decoder_failed, and a cancelled attempt leaves the hub open; a close is told to every stream not ended and to every one opened later |
| `SessionSpec.LastWordIff` | enterprise/realtime/run.go:60-95 | which notice an attempt calls for, from what it ran into, each exactly when |
| `SessionSpec.AttemptTouches` | enterprise/realtime/decode.go:115-141 | an attempt that is refused or does not get to start does nothing to the hub; any other does what its turns do |
| `SessionSpec.BrokenBySlotIff` | enterprise/realtime/decode.go:145-199 | a connection ends on a lost slot exactly when a turn it reaches is told so |
| `SessionSpec.CloseTellsAll` | enterprise/realtime/hub.go:198-215 | after a close every stream that had not ended, and every one opened later, carries its notice |
| `Supervisor.RunOnce` | enterprise/realtime/run.go:102-150 | each attempt starts a decoder with nothing remembered |
| `Framing.EventsAreFramed` | enterprise/realtime/decode.go:224-306 | every well-ordered run of messages publishes frames of one begin, at least one change and a commit with their count, sharing xid and position, with nothing for a transaction without visible changes |
| `Framing.CompleteRunsAreFrames` | enterprise/realtime/decode.go:277-291 | after a complete last transaction the last frame is complete |
| `Framing.NothingLostInDecoding` | enterprise/realtime/decode.go:253-276 | the changes published are exactly the visible ones, in order |
| `Messages.RowPublishesOne` | enterprise/realtime/decode.go:255-267 | an insert, update or delete on a known relation publishes exactly one change of its kind and table, stamped with its transaction and record, behind the begin if it is the first; on any other relation nothing |
| `Messages.TruncatePublishes` | enterprise/realtime/decode.go:268-276 | a truncate publishes one change for each known relation, in its order, with no row data |
| `Messages.ShapeAnnouncedIff` | enterprise/realtime/decode.go:246-253 | a shape is announced exactly when it differs, in more than the replica identity, from the one known for the relation |
| `Messages.ShapesAreDescribed` | enterprise/realtime/decode.go:246-253 | in every run of messages every relation the decoder knows has been described on the feed as it is |
| `Messages.HubCountsFrame` | enterprise/realtime/hub.go:238-255 | whatever frames are published, the hub is inside a transaction exactly while one is open, and has counted its changes |
| `Messages.HubCountsFromBoundary` | enterprise/realtime/hub.go:238-255 | after any events, a decoder that died inside a frame included, what is counted is the changes since the last begin or commit |
| `Messages.StatementIsPublished` | enterprise/realtime/decode.go:255-276 | the message of a statement publishes one change, which makes of a copy what the statement makes of the table |
| `Messages.DecodedFeedMirrors` | enterprise/realtime/decode.go:233-295 | whatever transactions a table's statements come in, the changes decoded from the server's messages make a copy equal to the table |
| `Messages.OwedIsMirrored` | enterprise/realtime/hub.go:234-301 | in every run, of a transaction a stream is owed and was not the one it missed, a stretch of what it was given makes of a copy what the transaction made of the table |
| `Hub.Hub.Publish` | enterprise/realtime/hub.go:234-301 | publishing does to the hub what the specification says: floor, open transaction, each stream offered the event once |
| `Hub.Hub.Subscribe` | enterprise/realtime/hub.go:198-215 | a stream opened is attached, or finished with the hub's reason if the hub is closed |
| `Hub.Hub.ReleasePending` | enterprise/realtime/hub.go:338-346 | exactly the streams held back end, each with its own reason |
| `Hub.Hub.Close` | enterprise/realtime/hub.go:374-385 | every stream ends, with the notice if it had not ended, and nothing stays attached |
| `Hub.Hub.PendingSubs` | enterprise/realtime/hub.go:305-314 | the ids of the attached streams that are held back |
| `Hub.Subscriber.Finish` | enterprise/realtime/hub.go:431-443 | a stream ends once, with the first reason, and leaves the table |
| `HubShutdown.EndsAtMostOnce` | enterprise/realtime/hub.go:431-443 | in every interleaving `done` is closed twice exactly for a stream handed out by a closed hub and then closed; any other carries the notice of the first caller |
| `HubShutdown.LateStreamEndsTwice` | enterprise/realtime/hub.go:203-209 | such a run |
| `HubShutdown.ClosedForGood` | enterprise/realtime/hub.go:374-385 | once a Close has returned, for ever after nothing is attached, every stream has ended or is being ended by another caller, those it ended first carry its notice, and so does every later one if it is the only Close |
| `Replica.ReplicaEqualsSource` | enterprise/realtime/wire.go:155-199 | a copy that locates rows by identity, overlays new and leaves unsent columns alone equals the source after every history of inserts, updates, deletes and truncates |
| `Replica.IdentityIsOldKeyIff` | enterprise/realtime/wire.go:172-197 | an update's identity is the old key exactly when an old tuple or the whole key was sent |
| `Replica.UnsentKeyLosesUpdate` | enterprise/realtime/wire.go:193-197 | otherwise the copy does not follow |
| `Replica.SentAccounts` | enterprise/realtime/wire.go:155-199 | every column of an update is in `new` or marked unchanged, never both, and those marked are the ones not sent; an insert has them all; the old row is there, whole, exactly under FULL |
| `Replay.ReplayEndsEqualIff` | enterprise/realtime/wire.go:155-199 | a copy fed a stretch of events a second time ends equal to the source, unsent columns included, exactly when the events take the keys of the source's last state back to themselves; for stretches whose moves send every column, or whose old key is not taken by a row that differs in an unsent one |
| `Replay.ReplayedStretchEndsEqual` | enterprise/realtime/wire.go:155-199 | so it always does if no update of the stretch moved a row to another key |
| `Replay.ReplayedMoveIsLost` | enterprise/realtime/wire.go:172-197 | a row moved to the key of one deleted before it is lost when both events are replayed |
| `Replay.ReplayedMoveTakesColumn` | enterprise/realtime/wire.go:172-197 | a row moved with a column unsent, its old key then taken by another row, gets that row's column when both events are replayed, though the keys come back |
| `Replica.ChangedIsExact` | enterprise/realtime/wire.go:246-269 | under FULL `changed` is exactly the set of columns that differ |
| `Wire.RenderTuple` | enterprise/realtime/wire.go:201-228 | the values and the unsent names of a tuple |
| `Wire.ChangeAccounts` | enterprise/realtime/wire.go:155-199 | whatever tuples an event is built from, `new` has the columns the new tuple carries, the unchanged list those it marks, and `old` those of the old tuple, the last under FULL only |
| `Wire.CollectKeyValues` | enterprise/realtime/wire.go:230-240 | the key columns that were sent |
| `Wire.KeyIff` | enterprise/realtime/wire.go:230-240 | a row's key is what it holds of the columns flagged as the replica identity |
| `Wire.CollectChanged` | enterprise/realtime/wire.go:246-269 | the sent columns that differ |
| `MaskSpec.FullViewMasks` | enterprise/masking/sql.go:389-418 | over a full shadow the view is the mask of every row, column by column |
| `MaskSpec.MaskShows` | enterprise/masking/sql.go:56-81 | what is shown of each value, rule by rule: its hash under the key, the fake made of that, the last four characters, nothing, or the value |
| `MaskSpec.TriggerSound` | enterprise/masking/sql.go:228-257 | after every statement, moved and exchanged keys included, each shadow row is the mask of its base row |
| `MaskSpec.TriggerKeeps` | enterprise/masking/sql.go:228-257 | no row that stays, or was just written, leaves the shadow |
| `MaskSpec.BatchEndExists` | enterprise/masking/sql.go:262-275 | while there are keys ahead there is a batch to take |
| `OnlineMask.FillBesideTriggers` | enterprise/masking/sql.go:259-275 | at every point of every run shadow rows are right, every base key at or below `last` is in the shadow, and once the loop has exited the view is the mask of the whole table and stays so |
| `OnlineMask.ViewNeverMixes` | enterprise/masking/sql.go:332-357 | in every interleaving the open view has exactly one row per base row, all on the rules in force and under the key last swapped in |
| `OnlineMask.ViewShows` | enterprise/masking/sql.go:56-81 | in every run with the view open, each value of each row is shown as the rule and the key in force say |
| `OnlineMask.ShadowHoldsOnly` | enterprise/masking/sql.go:91-95 | in every run a shadow row holds exactly the columns ruled hash or fake |
| `OnlineMask.BatchIsBounded` | enterprise/masking/sql.go:262-275 | a batch is at most ten thousand rows, fewer only if it is the last, leaves rows that are there and writes none outside its bounds |
| `MaskedTable.MaskedTable.Execute` | enterprise/masking/sql.go:228-257 | a statement with its triggers, or its failure |
| `MaskedTable.MaskedTable.FillShadow` | enterprise/masking/sql.go:262-275 | the fill ends with the shadow full, whatever writers did in between |
| `MaskedTable.MaskedTable.Rekey` | enterprise/masking/keys.go:23-49 | the view is whole under the old key until the swap and under the new one after it |
| `MaskedTable.MaskedTable.Remake` | enterprise/masking/masking.go:131-164 | masks made again on other rules are shown only once they are whole |
| `MaskSpec.PartialHides` | enterprise/masking/sql.go:64-68 | a partial mask is as long as the value, ends in its last four characters and is X elsewhere |
| `Rotation.Install.Rotate` | enterprise/masking/keys.go:88-177 | from any store, what a run that finishes, or is cut after the moves or after the removal, makes of it, and how many steps it takes; from one it can be started from, wherever it is cut short no trigger of a staying branch names a missing key file, before the removal it can be started again, and finished, every keyed table of those branches has shadow, trigger, number and key file on a new key; wherever it stops, other domains' key files, records and tables are untouched and branches started meanwhile are under their own domain's key |
| `Rotation.RotateUntilDone` | enterprise/masking/keys.go:85-101 | the same over any number of cut-short runs, the other domains of staying branches untouched throughout |
| `Rotation.Install.MakeNextKey` | internal/branch/maskkey.go:161-171 | a rotation carried on keeps its next key, a new one gets one never used |
| `Rotation.Install.RekeyAll` | enterprise/masking/keys.go:108-129 | every table not moved before is moved |
| `Rotation.Install.RepointAll` | enterprise/masking/keys.go:141-157 | every moved table of the domain is pointed back at the domain's name |
| `RotationSpec.FrameOfRun` | enterprise/masking/keys.go:108-157 | moving and repointing, stopped anywhere, touch only tables keyed under the domain on branches running at the start, and tables of branches started meanwhile |
| `RotationSpec.FinishedFrame` | enterprise/masking/keys.go:141-157 | a finished run has made every table of a branch started meanwhile again under its own domain's key and number |
| `RotationSpec.RotatedNumber` | enterprise/masking/keys.go:88-90 | the new key's number is one more than the old, a key without one having been the first |
| `RotationSpec.ResumableNames` | enterprise/masking/keys.go:130-133 | a rotation that can be started again names no missing key file |
| `RotationSpec.RestartIsSoundIff` | enterprise/masking/keys.go:164-177 | a run from a store with everything moved leaves shadows and key file in agreement exactly if the next key's file was still there |
| `RotationSpec.RestartIsRotation` | enterprise/masking/keys.go:88-136 | with nothing left to move, a run up to putting the key in place ensures the next key and copies it over the domain's |
| `Rotation.RestartedTooLate` | enterprise/masking/keys.go:164-177 | a store on which a run cut after the removal, and the run started again, end with a trigger under a key its shadow was not made under |
| `RotationSpec.FinishedNamesIff` | enterprise/masking/keys.go:158-173 | a finished run leaves no trigger of the domain, on any branch, with a missing key file exactly if a branch stopped while it ran or every branch that named the next key at its start was there at its end |
| `Rotation.StrandedBranch` | enterprise/masking/keys.go:108-173 | a store on which two branches are moved, the run is cut, one stops, and the next run leaves it with a trigger that names a removed key |
| `Audit.CheckEventChain` | internal/auth/audit.go:430-445 | reports no fault exactly for a log that verifies, and otherwise the first event that does not fit and why |
| `Audit.Log.Append` | internal/auth/audit.go:295-328 | chains the event onto the head and keeps a log verifying |
| `Audit.BuiltLogVerifies` | internal/auth/audit.go:295-328 | every log built by appending verifies and holds its entries in order |
| `Audit.SameHeadSameLog` | internal/auth/audit.go:216-221 | two verifying logs with the same head agree in length and event by event on number, links and hashed text, or hold two texts of one hash |
| `Audit.TamperingIsReported` | internal/auth/audit.go:430-445 | a hashed text changed, or events deleted or inserted, below a kept head do not verify, short of a collision |
| `Audit.TextFixesFieldsIff` | internal/auth/audit.go:214-221 | the hashed text of an event fixes its six fields exactly when none of them holds a separator |
| `Audit.DivisionIsNotChecked` | internal/auth/audit.go:430-445 | logs that differ only in how their texts divide into fields verify alike |
| `Audit.FieldsAreProtectedIff` | internal/auth/audit.go:214-221 | of a verifying log, every other that passes with the same texts has the same fields exactly when no field of any event holds a separator |
| `CheckDigits.Verhoeff` | enterprise/pii/recognise.go:219-225 | the loop over the tables decides the fold in the group |
| `CheckDigits.TableIsTurn` | enterprise/pii/recognise.go:204-210 | the first table is the group of the pentagon |
| `CheckDigits.PermNext` | enterprise/pii/recognise.go:211-216 | each row of the second table is the one before once more through the second row, round to the first |
| `CheckDigits.SecondRowCycles` | enterprise/pii/recognise.go:211-216 | the second row is one cycle of eight digits and an exchange of two |
| `CheckDigits.KnownAadhaarPasses` | enterprise/pii/review_test.go:25-25 | the number the program's tests use passes |
| `CheckDigits.VerhoeffOneFits` | enterprise/pii/recognise.go:219-225 | at every place exactly one of the ten digits passes |
| `CheckDigits.VerhoeffCatchesOne` | enterprise/pii/recognise.go:219-225 | any one digit changed is caught |
| `CheckDigits.VerhoeffCatchesSwap` | enterprise/pii/recognise.go:219-225 | any two adjacent unequal digits exchanged are caught |
| `Luhn.LuhnCheck` | enterprise/pii/recognise.go:232-244 | the loop decides whether the weighted sum is a multiple of ten |
| `Luhn.CardOneFits` | enterprise/pii/recognise.go:232-244 | at every place exactly one digit passes, so any one changed is caught |
| `Luhn.CardSwap` | enterprise/pii/recognise.go:232-244 | an exchange of adjacent digits goes unnoticed exactly for equal ones or 0 and 9 |
| `Luhn.GstinCheck` | enterprise/pii/recognise.go:273-280 | for fourteen characters exactly one check character passes, and it is the one computed |
| `Luhn.KnownCardPasses` | enterprise/pii/review_test.go:49-49 | the card number the program's tests use passes |
| `Luhn.KnownGstinPasses` | enterprise/pii/review_test.go:49-49 | and so does the GSTIN |
| `Luhn.OneValueFits` | enterprise/pii/recognise.go:273-280 | in either base exactly one value passes at every place |
| `Luhn.CatchesOne` | enterprise/pii/recognise.go:273-280 | in either base any one character changed is caught |
| `Luhn.CatchesSwapBut` | enterprise/pii/recognise.go:232-280 | in either base an exchange goes unnoticed exactly for equal characters or the first and last of the alphabet |
| `JsonPath.RenderInjective` | enterprise/pii/jsonwalk.go:36-44 | the text of a path determines its keys and array steps, for all keys |
| `JsonPath.PathReads` | enterprise/pii/jsonwalk.go:39-44 | a path's text reads back as the path |
| `JsonPath.PlainIff` | enterprise/pii/jsonwalk.go:36-37 | a key goes unquoted exactly when it is letters, underscores and digits and starts with none of the last |
| `JsonPath.EscapesAre` | enterprise/pii/jsonwalk.go:43-43 | what stands in a quoted key for a quote, a backslash, a printable and a control character |
| `JsonWalk.WalkJson` | enterprise/pii/jsonwalk.go:50-116 | the paths, values, names, truncation and bad documents found are those of the leaves |
| `JsonWalk.WalkSummarises` | enterprise/pii/jsonwalk.go:51-70 | the first five hundred distinct paths are kept, each once with all its values in order, and truncated is set exactly when there were more |
| `JsonWalk.DistinctIff` | enterprise/pii/jsonwalk.go:52-66 | the paths found are those of the leaves, each once |
| `JsonWalk.DistinctOrder` | enterprise/pii/jsonwalk.go:51-66 | they are kept in the order first seen, which decides the five hundred |
| `JsonWalk.NameIs` | enterprise/pii/jsonwalk.go:52-66 | a path goes by the last key of its first leaf, or the column's name without one |
| `JsonWalk.CountBadIs` | enterprise/pii/jsonwalk.go:104-112 | the bad documents counted are the texts that are not JSON |
| `JsonWalk.Walker.Walk` | enterprise/pii/jsonwalk.go:72-102 | walking a document records its leaves in order |
| `JsonWalk.Walker.Add` | enterprise/pii/jsonwalk.go:52-70 | one leaf is recorded under its path, or the walk is marked truncated |
| `JsonPlaces.EveryLeafOnce` | enterprise/pii/jsonwalk.go:72-102 | the leaves walked are, one for one, those at all the places of the documents with a string, number or null at most thirty-two steps deep, each place once and in document order |
| `JsonPlaces.ValuesAreOfPlaces` | enterprise/pii/jsonwalk.go:52-102 | the values recorded at a path are the texts at the places on it, each once and in document order |
| `JsonWalk.EntriesAreOfPaths` | enterprise/pii/jsonwalk.go:52-66 | two leaves share an entry exactly when they are at the same path |
| `Like.SearchFindsExactly` | internal/auth/history.go:385-388 | the pattern matches a text under LIKE with escape exactly when the text contains the search, capitals and small letters of the twenty-six taken alike and no others |
| `Promotion.BuildRound` | enterprise/promote/promote.go:58-110 | a round carries exactly the replayable entries after the fork not promoted yet, and is refused exactly for objects the target changed on its own, each named once, or when nothing is left |
| `Promotion.CarriedIff` | enterprise/promote/promote.go:58-110 | a round's entries are those that ran, have something other than white space to run, and are not promoted |
| `Promotion.ClashIff` | enterprise/promote/promote.go:58-110 | an object is refused for exactly when a carried entry and a row of the target, not blocked and not from a promotion, are about it |
| `Promotion.AlreadyPromoted` | enterprise/promote/promote.go:152-168 | the entries and sessions of the applied requests from this source to this target |
| `Promotion.PromotedIff` | enterprise/promote/promote.go:152-168 | an entry is promoted exactly when an approved request between the two branches, with something applied, lists it |
| `Promotion.SessionsIff` | enterprise/promote/promote.go:152-168 | and a session is one of ours exactly when it is named after such a request |
| `Promotion.CommonPrefix` | internal/branch/diff.go:61-67 | the fork: the longest shared beginning |
| `Promotion.ForkStays` | internal/branch/diff.go:57-67 | once the records have parted the fork stays where it is |
| `PromotionRounds.RoundsCarryEverythingOnce` | enterprise/promote/promote.go:66-119 | over any run of rounds, applied, refused or failed, the entries carried are distinct, in order, a first part of the source's replayable entries, and all of them after an applied round |
| `PromotionRounds.ForgottenRequestIsCarriedAgain` | enterprise/promote/promote.go:78-102 | a round built with any history carries again exactly the replayable entries some request promoted and that history does not know of, and nothing twice exactly when there is none |
| `PromotionRounds.StoreCutCarriesAgain` | internal/auth/requests.go:117-163 | built with the store's history, the newest five hundred approved requests to the target, it carries again exactly what only older ones promoted, and nothing while there are at most five hundred |
| `PromotionRounds.ApprovedIff` | internal/auth/requests.go:117-163 | the store is asked for exactly the approved requests to the target, in order |
| `PromotionRounds.NewestIs` | internal/auth/requests.go:130-130 | and answers with the last five hundred of them, or all |
| `PromotionRounds.OldRequestIsCarriedAgain` | internal/auth/requests.go:130-130 | five hundred later requests push an applied one out of the history and its entry is carried again |
| `PromotionRounds.ClaimedAtMostOnce` | internal/auth/requests.go:168-187 | over any calls in any order a request is claimed at most once, and not at all if it was not open |
| `PromotionRounds.ClaimedIff` | internal/auth/requests.go:168-187 | a claim is done exactly when it is a decision on an open request, and changes only that one; each other answer exactly when, and it changes nothing |
| `PromotionRounds.FinishedIs` | internal/auth/requests.go:189-202 | the outcome is recorded on that request alone |
| `PromotionRounds.Requests.Claim` | internal/auth/requests.go:168-187 | the conditional update and its four answers |
| `PromotionRounds.Requests.Finish` | internal/auth/requests.go:189-202 | the outcome recorded |
| `AdminCache.StaleIffStoredTooLate` | internal/access/access.go:95-130 | in every interleaving with a readable log, an answer given is older than some grant or revoke recorded a second before the call looked exactly when it is a remembered one and such a grant, recorded after the question was put, had been seen before the answer was stored |
| `AdminCache.AnswersAreFresh` | internal/access/access.go:95-130 | in every interleaving with a readable log, an answer not stored across a forgetting was worked out after every grant or revoke recorded a second before the call looked |
| `AdminCache.SerialAnswersAreFresh` | internal/access/access.go:95-130 | with calls one at a time every answer was |
| `AdminCache.RememberedBriefly` | internal/access/access.go:103-105 | in every interleaving a remembered answer is used only within thirty seconds of being stored |
| `AdminCache.AnswersAreTrue` | internal/access/access.go:95-111 | in every interleaving an answer, remembered or not, is what was so of that account when its question was put |
| `AdminCache.EveryCallOnce` | internal/access/access.go:95-111 | every call is in progress or has been answered, once |
| `AdminCache.LogIsReadSparingly` | internal/access/access.go:113-130 | the log is read again only a second after it was last read |
| `AdminCache.OverlapLeavesStaleAnswer` | internal/access/access.go:106-110 | a run of overlapping calls that uses an answer older than a grant seen by another call |
| `AdminCache.Checker.Admin` | internal/access/access.go:95-111 | a call with nothing in between is looking, deciding, asking and storing |
| `AdminCache.Checker.ForgetIfChanged` | internal/access/access.go:116-130 | the answers are forgotten exactly when the log is due, readable and has grown |

## Left out

- The HTTP route, its `TrySubscribe` cap, the SSE encoding, and the dropping of frames for clients that did not ask for them.
- A feed whose start could not be read (a floor of zero): admission at a floor of zero is the route's to refuse, and is not modelled apart.
- The hub's delivered and peak counters, and the text of notices: a notice is its type and code.
- `relationFrom` and `tupleFrom`, which copy a message's fields one by one; publication timestamps.
- Hub.Subscriber.Finish: treats a stream as ended once; that the channel of a stream handed out by a closed hub is closed outside the once is modelled in HubShutdown.
- The hub's locks inside the feed: a publication to all streams is one step there; the finer grain is HubShutdown's.
- Backoff lengths, waking a branch, roles and publications before a connection: an attempt's set-up either fails or does not.
- The order of the name lists in a change event and of the paths the JSON walk returns: sets and first-seen order here.
- Masks of JSON paths inside a document, the checks of `planTable` against the columns, grants and views' owners.
- `INSERT ... ON CONFLICT` as one statement of a writer: it is an insert and an update here.
- Waiting for locks, and their time limit: Start and Swap are atomic steps.
- Rotation.Install.Rotate: promises the new key for branches running throughout; of the others only which key files their triggers name is said (FinishedNamesIff).
- Making and dropping key domains, `useDomain`, and rule changes during a rotation.
- Audit: texts are characters, where the program cuts a long one at five hundred bytes; event numbers are unbounded; retries on a busy store, and reading the log back by pages.
- The recognisers other than the check digits: names, patterns, trimming and the length or prefix tests around a check.
- `ReplayOnce`, the policy gate, and the script a request is applied with; the apply is all or nothing.
- PromotionRounds.RoundsCarryEverythingOnce: is for a history that holds every request; what the store's cut at five hundred does is StoreCutCarriesAgain.
- A crash between applying a request and recording it, after which the request does not count as applied.
- AdminCache: branch owners and levels, which follow from the answer by cases.
- Everything that prints, parses arguments, serves HTTP, signs or anchors.
