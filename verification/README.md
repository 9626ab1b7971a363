# Model Hotel: verified model

Dafny models of six parts of the gateway, with proofs of what each is for.

1. **Config-sync import** (`MemberTables`, `CoreImport`, `ModelIntent`, `FailoverGroups`, `GroupFixedPoint`,
   `GroupRows`, `RepeatedGroups`, `UnsettledGroups`, `ImportFence`, `ImportVerdict`, `CommittedRows`, `ConfigSyncHandler`,
   `ImportProtocol`). The handler is a class over table fields whose methods run the import's loops; tables are maps, a
   transaction is one method call that commits or restores. `ImportVerdict` says which import is refused and why,
   `CommittedRows` and `GroupRows` what each row is afterwards, in the envelope's own terms. `ImportProtocol` interleaves
   any number of imports: commit, discovery, and three detached sections under the fence lock. Its hypothesis
   `SeqInPattern` keeps the stored sequence below the 18 digits that advance it. Its `Environment` step is this member's
   discovery and dashboard on model and group rows, its `Edit` step the dashboard on providers, users, keys and settings
   with all a deletion there takes along; both may happen at any time.
2. **Dialect translators** (`EgressStream`, `EgressAgreement`, `IngressStream`, `ToolCallIndexing`, `IngressGrammar`,
   `RelayedChunks`, `ComposedStreams`, `ChatClientView`, `MessagesClientView`, `ChatRequest`, `IngressRequest`,
   `IngressMessages`, `EgressRequest`, `EgressTurns`, `MessagesRequestView`, `RequestRoundTrip`, `CacheBreakpoints`, `DataUri`).
   The stream translators are classes proved against step functions; the step functions are compared with the
   non-streaming form, with a client that insists on the event grammar, and with each other. The two client views,
   `IngressMessages` and `MessagesRequestView` say what either side is told, in the protocols' own words.
3. **TOTP enrolment and token exchange** (`SecondFactor`, `SecondFactorCredentials`), a state machine over every interleaving.
4. **Log writer and ring buffer** (`LogWriter`, `LogWriterOutcomes`, a state machine; `AppLogBuffer`, classes over an array
   and counters).
5. **Backup rotation** (`BackupRotation`), for any bucket functions and wanted sets.
6. **Signed tool ids** (`ToolIds`, `Base64`; RFC 4648 sections 3.5, 4 and 5).

`GoText`, `SortedInts`, `ChatChunks` and `Wrappers` hold what these share.

Where the code falls short of a plain reading, the condition is proved both ways, and a lemma gives the input:

- Two auto groups of one name can be no fixed point: `GroupFixedPoint.GroupsFixedPointIff` says when, for any list and
  member; `UnsettledGroups.FixedPointIff` says for which envelopes it never happens. Other repeated names settle.
- A key the import skips keeps its own row, and of a repeated hash the last entry written decides, so a key whose cap
  is stated can be uncapped (`CoreImport.StatedKeyCap`, `CoreImport.RepeatedKeyUncapped`).
- The member reports exactly the envelope's disables only if no held model is in both lists (`ModelIntent.DisablesConverge`).
- The confirmed-at cache needs the refresh after a rollback to succeed as well as its delete, because the rollback
  path never invalidates it (`SecondFactor.RollbackCoherentIff` and the two runs after it).
- During the shutdown drain a refused batch is neither inserted nor counted until the drain's one notice
  (`LogWriter.EntriesConserved`, `LogWriter.RefusedIsNowhere`).
- A ranged clear of the ring can hide an older entry that had been evicted (`AppLogBuffer.RangedClearExact` for one clear,
  `AppLogBuffer.ShowsLastIff` for a history, `AppLogBuffer.OutOfTimeIsLost` for a run).
- A backup whose name spells the zero time and that no tier keeps is in no list (`BackupRotation.ExactlyOneHome`).
- A signature whose payload spells the marker is lost (`ToolIds.SplitUndoesSign`).
- A stream omits usage that is all zeros, which a response body reports (`EgressAgreement.ZeroUsageUnreported`).
- A negative wire index that is the number the resolver gives another call makes the two share it
  (`ToolCallIndexing.SameIndexIff`, `ToolCallIndexing.NegativeIndexIsShared`).

Check the project with `dafny verify dfyconfig.toml`.

## Model

| member | source | states |
|---|---|---|
| `ConfigSyncHandler.ConfigSyncHandler.Apply` | internal/api/configsync_apply.go:89-230 | An import commits exactly when every check passes, each stated of the envelope and the database found; refused, it gives the error of the first check that fails and leaves every table and marker as it was; committed, the tables converge to the envelope (CoreStep) under the next sequence number and the database constraints still hold |
| `ConfigSyncHandler.ConfigSyncHandler.Guard` | internal/api/configsync_apply.go:238-380 | The checks ahead of the first write: stale exactly by the fence, passed exactly when fence, normalized names and both wipe rails allow it, else the error of the first that does not |
| `ConfigSyncHandler.ConfigSyncHandler.UpsertProviders` | internal/api/configsync_apply_upserts.go:183-275 | After the loop every listed provider has its row, a row that matched under the normalized name keeps its id, and normalized names were unique after every statement |
| `ConfigSyncHandler.ConfigSyncHandler.ReplaceProviders` | internal/api/configsync_apply.go:118-152 | Upserts then the declarative delete: the provider table is the envelope's, models of deleted providers are gone, their ids are pruned from both allow-list columns |
| `ConfigSyncHandler.ConfigSyncHandler.ApplyUsers` | internal/api/configsync_apply_upserts.go:284-376 | Succeeds exactly when no entry is invalid, names only unknown providers, or gives an address an earlier entry of another account still stands on; else the error of the first such entry. The table then holds every listed account as its last entry states it, the cap the ids its names resolve to in order (an empty one stays empty), ids and SSO bindings of known accounts kept; a deleted account's keys are left to nobody |
| `ConfigSyncHandler.ConfigSyncHandler.UpsertVirtualKeys` | internal/api/configsync_apply_upserts.go:382-450 | Keys written with caps and owners resolved on this member; a key whose stated cap resolves to nothing is skipped |
| `ConfigSyncHandler.ConfigSyncHandler.ReplaceKeys` | internal/api/configsync_apply.go:174-190 | The key table is the envelope's; refused exactly for an invalid key, or where keys were held and sent and none would be left, which is when every entry's cap names no known provider and no hash is held here |
| `ConfigSyncHandler.ConfigSyncHandler.FoldRetiredBreakerSwitches` | internal/api/configsync_apply.go:427-460 | Each retired switch that reads false becomes a zero ceiling, everything else as sent, on a copy |
| `ConfigSyncHandler.ConfigSyncHandler.ApplySettings` | internal/api/configsync_apply.go:382-420 | Accepted exactly when every syncable value validates; then syncable settings equal the map and every other row is untouched |
| `ConfigSyncHandler.ConfigSyncHandler.ReplaceSettings` | internal/api/configsync_apply.go:659-690 | The settings rail, the fold and the declarative replace together, with each refusal exact |
| `ConfigSyncHandler.ConfigSyncHandler.ApplyDisabledModels` | internal/api/configsync_apply_models.go:124-185 | Writes exactly the disable section while its import is the latest committed, nothing otherwise, and reports the refs held nowhere |
| `ConfigSyncHandler.ConfigSyncHandler.ApplyEnabledModels` | internal/api/configsync_apply_models.go:193-222 | The same for the pin section |
| `ConfigSyncHandler.ConfigSyncHandler.AbsentModelRefs` | internal/api/configsync_apply_models.go:339-368 | The refs of the list no model row answers to, in list order |
| `ConfigSyncHandler.ConfigSyncHandler.UpsertFailoverGroups` | internal/api/configsync_apply_upserts.go:479-606 | One loop over the groups with the member's own auto rows read before it: the rows, the skipped and the partial names |
| `ConfigSyncHandler.ConfigSyncHandler.ReadOwnAutoGroups` | internal/api/configsync_apply_upserts.go:617-650 | The member's own auto groups, rows with unreadable JSON left out |
| `ConfigSyncHandler.ConfigSyncHandler.ApplyFailoverGroups` | internal/api/configsync_apply_upserts.go:38-109 | Writes exactly the group section while its import is the latest committed, nothing otherwise |
| `CoreImport.DeleteConverges` | internal/api/configsync_apply.go:118-152 | After the delete the table holds one row per listed provider and no other, unique under normalization, matched rows under their old ids |
| `CoreImport.ProviderNamesConverge` | internal/api/configsync_apply_upserts.go:183-275 | Provider names after an import are exactly the envelope's |
| `CoreImport.UpsertKeepsNamesUnique` | internal/api/configsync_apply_upserts.go:183-275 | Writing one provider after the rename keeps normalized names unique |
| `CoreImport.RenamedKeepsNames` | internal/api/configsync_apply_upserts.go:203-232 | The rename to the envelope's spelling keeps normalized names unique and leaves no other spelling |
| `CoreImport.UsersConverge` | internal/api/configsync_apply_upserts.go:284-376 | Blanking every address first makes the upsert loop end in the envelope's accounts: address, fields and cap as the last entry of each username states them |
| `ImportVerdict.HeldIsClash` | internal/api/configsync_apply_upserts.go:318-345 | Within the loop an address is held exactly when an earlier entry of another account stands on it, so swaps pass |
| `ImportVerdict.EmptiedKeys` | internal/api/configsync_apply.go:174-190 | No key is left exactly when no entry can be written and none of the hashes is held |
| `ImportVerdict.OneVerdict` | internal/api/configsync_apply.go:89-230 | Every import is accepted, or refused with one error and no other |
| `CommittedRows.ProviderRows` | internal/api/configsync_apply_upserts.go:183-275 | After a commit each listed provider has its row, everything as listed, the reserve as stated, else as held, else none; under its old id if this member held the name in any spelling |
| `CommittedRows.ModelRows` | internal/api/configsync_apply.go:118-152 | A model goes exactly with its provider; one that stays loses its capability pin exactly where its provider's type has no hand-set capabilities |
| `CommittedRows.AccountRows` | internal/api/configsync_apply_upserts.go:284-376 | After a commit the account of each username has what its last entry states, its cap the resolved names in order, none exactly if none was stated |
| `CommittedRows.AccountsLeft` | internal/api/configsync_apply_upserts.go:284-296 | Without the section every account stays, less the deleted providers in its cap |
| `CommittedRows.KeyRows` | internal/api/configsync_apply_upserts.go:382-450 | After a commit each listed hash is as its last written entry says, its cap resolved in order and its owner the account it names if there is one; or, where none was written, as held, less what is gone |
| `CommittedRows.SettingRows` | internal/api/configsync_apply.go:382-460 | Each setting after a commit: synced ones as sent, but that a retired switch sent as false is a zero ceiling; any other as it was |
| `CommittedRows.CommitMarkers` | internal/api/configsync_apply.go:206-226 | The generation committed is not older than the one trusted; the number is the next, or the first where none can be read |
| `CommittedRows.NothingWiped` | internal/api/configsync_apply.go:296-380 | No commit empties the providers, drops a section relied on, or leaves no key where keys were held and sent |
| `CoreImport.TranslatedExactly` | internal/api/configsync.go:607-618 | Translated ids are exactly the values of the names that resolve |
| `CoreImport.StatedKeyCap` | internal/api/configsync_apply_upserts.go:392-449 | A listed key ends uncapped iff the last of its entries the import writes states no cap, or it writes none of them and this member held the key uncapped |
| `CoreImport.RepeatedKeyUncapped` | internal/api/configsync_apply_upserts.go:392-449 | A hash sent twice, then with a cap that resolves to nothing here, is left uncapped |
| `CoreImport.CoreStepConstrained` | internal/api/configsync_apply.go:89-230 | A committed import keeps unique provider names, usernames, addresses and model keys, and every key's owner an account or nobody |
| `CoreImport.UpsertedOwners` | internal/db/migrations/051_user_limits_vk_ownership.sql:5-9 | Key writes over a table without orphans, owners resolved against the fresh roster, leave none |
| `ConfigSyncHandler.RenamedIsRaw` | internal/api/configsync_apply_upserts.go:211-262 | After the rename a name held in any spelling is held in its own, so the normalized unique index refuses no insert |
| `ImportFence.FenceMonotone` | internal/api/configsync_apply.go:238-258 | An admitted import never lowers the applied generation |
| `ImportFence.RefusedExactly` | internal/api/configsync_apply.go:238-258 | Refused exactly: an unfenced import once there is any marker, and a fenced one older than the marker, which counts as 0 unless it is a 32-bit generation |
| `ModelIntent.SectionsIdempotent` | internal/api/configsync_apply_models.go:124-221 | Running disables then pins again, at any later time, changes nothing |
| `ModelIntent.ReportsDisabledExactly` | internal/api/configsync_apply_models.go:124-221 | A ref ends up reported disabled iff the envelope disables it and no pin overrules it on a model held here |
| `ModelIntent.DisablesConverge` | internal/api/configsync_apply_models.go:79-105 | The member reports exactly the envelope's disables iff no model held here is in both lists |
| `ModelIntent.PinsConverge` | internal/api/configsync_apply_models.go:193-221 | The member reports exactly the envelope's pins, always |
| `ModelIntent.EnabledAfterSections` | internal/api/configsync_apply_models.go:124-221 | Every column of each row afterwards: when it is on, whose verdict and evidence is kept, the time of a pin; a row off by this member's own evidence and named in neither list keeps its verdict |
| `ModelIntent.AbsentMembers` | internal/api/configsync_apply_models.go:339-368 | A ref is recorded absent iff it is listed and no row answers to it |
| `ModelIntent.AbsentInOrder` | internal/api/configsync_apply_models.go:339-368 | The absent refs are the listed ones no row answers to, once for each time listed and in that order |
| `FailoverGroups.AutoGroupOrder` | internal/api/configsync_apply_upserts.go:479-606 | The order of an auto group that is the last of its name to find two entries: each of the primary's entries routable here, one by one in its order, then the member's own enabled extras in its own order |
| `FailoverGroups.ExtrasExactly` | internal/api/configsync_apply_upserts.go:530-570 | The extras are exactly the member's routable entries the primary did not send, each once |
| `FailoverGroups.CustomRowsSurvive` | internal/api/configsync_apply_upserts.go:60-109 | A custom row survives iff the envelope names it as custom; auto rows are never deleted |
| `FailoverGroups.SkippedNotPartial` | internal/api/configsync_apply_upserts.go:479-606 | A name is reported both skipped and partial iff two custom groups share it, one of each: no group is both |
| `GroupRows.RowAfter` | internal/api/configsync_apply_upserts.go:38-109 | The row of each name afterwards, custom or auto: that of the last group that found two entries, its text and flags the group's own, its order the entries that resolve then the member's own extras, each switched as the last entry that resolves to it says or as the member had it, with a key for each and no other; without such a group the row found, unless a custom one the envelope does not name |
| `GroupRows.ReportedExactly` | internal/api/configsync_apply_upserts.go:572-606 | A name is reported skipped, or partial, exactly when a custom group of it resolves fewer than two entries, or fewer than it lists |
| `GroupRows.EchoAfter` | internal/api/configsync_apply_upserts.go:91-108 | The echo is the auto groups as sent, or none after a failed discovery |
| `GroupFixedPoint.GroupsFixedPointIff` | internal/api/configsync_apply_upserts.go:38-109 | For any list and any member: re-applying the groups over the same models changes no row iff no later auto group, short over the row found, is filled by the row an earlier auto group of its name left and writes another |
| `GroupFixedPoint.SettlesCustom` | internal/api/configsync_apply_upserts.go:38-109 | A name whose last written group is custom is a fixed point whatever else carries it, its stamp included |
| `RepeatedGroups.CoveredSettles` | internal/api/configsync_apply_upserts.go:479-606 | An envelope settles when the later auto groups of a name list every model an earlier one lists: so with distinct names, with repeated custom names, and with one auto group sent twice |
| `UnsettledGroups.FixedPointIff` | internal/api/configsync_apply_upserts.go:479-606 | Any envelope, whatever groups share a name, settles on every member in one run iff it has no auto group g and up to three models one member can hold, no two of them in one later group of the name, so that the last auto group of the name is filled by what g leaves and differs in text, in a model g lists twice, or in the model it puts in front, over no row or over a row of a model g lacks |
| `UnsettledGroups.RepeatedNameIsNoFixedPoint` | internal/api/configsync_apply_upserts.go:479-606 | Two auto groups of one name and other texts: some member changes on the second import |
| `ImportProtocol.EveryWriteIsNewest` | internal/api/configsync_apply_models.go:237-252 | In every interleaving of any number of imports, each post-commit write belongs to the import with the highest sequence number committed so far |
| `ImportProtocol.NewestImportDecides` | internal/api/configsync_apply.go:614-647 | From the last commit on, whatever older imports do, and whatever discovery, the dashboard and edits do meanwhile: the newest import's own steps and the member's, without any other import, are a run from the same database to the same database |
| `ImportProtocol.FoundRowsDecide` | internal/api/configsync_apply.go:614-647 | With the member's own rows left alone from the newest import's first section on, the database is exactly what its sections make of the rows it found |
| `ImportProtocol.FinishedConverges` | internal/api/configsync_apply.go:614-647 | What it leaves: exactly its disables iff no held model is in both lists, exactly its pins, its group section |
| `ImportProtocol.FinishedSilences` | internal/api/configsync_apply_models.go:237-252 | Once its sections have run, no section of any import writes again before the next commit |
| `ImportProtocol.GenerationMonotone` | internal/api/configsync_apply.go:238-258 | Over every run the applied generation never decreases and never disappears |
| `ImportProtocol.CommitsAreFenced` | internal/api/configsync_apply.go:206-226 | After the first fenced commit every commit is fenced, none older than one before; the last committed generation is the highest ever and is the marker |
| `ImportProtocol.CoreIsLastCommits` | internal/api/configsync_apply.go:206-226 | Behind a commit and before the next the markers and the log's last commit are its own, and the core tables are those it wrote or the member's own last edit since left: no section, discovery or older import changes them |
| `EgressStream.StreamTranslator.Translate` | internal/anthropicegress/stream.go:147-207 | Each payload's frames, error and new state are those of the step function, every branch |
| `EgressStream.StreamTranslator.Finish` | internal/anthropicegress/stream.go:337-345 | End of input: the terminal chunk, or a truncation error after the usage alone |
| `EgressStream.StreamTranslator.CloseStream` | internal/anthropicegress/stream.go:363-395 | Every tool block still owing arguments is stopped, in ascending order of block index, then the terminal chunk and the sentinel |
| `EgressAgreement.StartAgrees` | internal/anthropicegress/stream.go:239-280 | Opening a block keeps what the client has, text, reasoning and each call's id and name, equal to the blocks assembled so far |
| `EgressAgreement.DeltaAgrees` | internal/anthropicegress/stream.go:286-324 | So does every delta of the right kind for an open block, argument fragments included |
| `EgressStream.TranslateContent` | internal/anthropicegress/response.go:157-175 | The loop's three lists, joined, are the text, the reasoning and the calls of the blocks |
| `EgressAgreement.StreamingAgrees` | internal/anthropicegress/stream.go:147-324 | For every well-formed event sequence closed by message_stop, folding the chunks gives BuildChatCompletion of the assembled response: text, reasoning, ordered calls up to JSON compaction, finish reason, usage |
| `EgressAgreement.EofAgrees` | internal/anthropicegress/stream.go:363-395 | The same at end of input without message_stop once a stop reason came, unstopped blocks included |
| `EgressAgreement.TruncatedAtEof` | internal/anthropicegress/stream.go:326-360 | With no stop reason: an error, the usage, no finish reason, no sentinel |
| `EgressAgreement.OpenerArgumentsAgree` | internal/anthropicegress/response.go:182-189 | An opener's input with no fragments reaches the client as the non-streaming form has it iff it is absent, null or an object |
| `EgressAgreement.DoneIsLast` | internal/anthropicegress/stream.go:147-207 | On every payload sequence: the sentinel is written once, last, exactly by a finished stream; a failed stream never finishes |
| `EgressAgreement.StopAgrees` | internal/anthropicegress/stream.go:215-230 | So does stopping a block, where a call that streamed no fragment gets its opener's input or the empty object, once |
| `EgressAgreement.ZeroUsageUnreported` | internal/anthropicegress/stream.go:383-389 | Against a body that reports the same counts the usage agrees iff some count is not zero: the stream omits 0/0/0 |
| `ChatClientView.BodyFinish` | internal/anthropicegress/response.go:220-230 | The body says length iff the stop reason is max_tokens, tool_calls iff tool_use, content_filter iff refusal, else stop |
| `ChatClientView.StreamFinish` | internal/anthropicegress/stream.go:363-395 | The same of the finish reason a client folds from a stream, closed by message_stop or by end of input |
| `ChatClientView.StreamUsage` | internal/anthropicegress/response.go:245-273 | The counts a client folds: prompt is all input, cache shares apart, total their sum; none exactly if all are zero |
| `ChatClientView.NoInputIsEmptyObject` | internal/anthropicegress/response.go:182-189 | A call without input is one with the empty object, in the body and in the stream |
| `ChatClientView.ChunksInShape` | internal/anthropicegress/stream.go:136-145 | On every payload sequence the first chunk and no other carries the role; an opener carries its name and no arguments, any other fragment arguments alone |
| `ChatClientView.FailsExactly` | internal/anthropicegress/stream.go:147-207 | A payload fails exactly: undecodable bytes, the upstream's own error, arguments for a block no call opened |
| `ChatClientView.FailedForGood` | internal/anthropicegress/stream.go:337-395 | Behind an upstream's error a stream never ends as a completion, and end of input says nothing |
| `ChatClientView.PingsRelayed` | internal/anthropicegress/stream.go:147-207 | Every keepalive reaches the client |
| `IngressStream.StreamTranslator.Translate` | internal/anthropic/stream.go:177-254 | Each chunk's events and new state are those of the step function: usage, finish reason, text, then each fragment |
| `IngressStream.StreamTranslator.Finish` | internal/anthropic/stream.go:260-286 | Closes the open block, then message_delta and message_stop, once |
| `IngressGrammar.OpenToolShapes` | internal/anthropic/stream.go:149-171 | A client under the block grammar reads an opened tool as the open block closed and one new block under the next dense index, with its signed or synthetic id and its name |
| `ToolCallIndexing.SameIndexIff` | internal/egress/toolindex.go:29-68 | In any stream, negative indices included, two fragments with ids are given one index iff they carry one id, or one call has an index of its own that is the number below zero given to the other, which has none |
| `ToolCallIndexing.NaturalIndicesTellApart` | internal/egress/toolindex.go:29-68 | In any stream of non-negative indices they are given one index iff they carry one id |
| `ToolCallIndexing.IndexStays` | internal/egress/toolindex.go:29-68 | The index an id was given stays its own for the rest of the stream |
| `ToolCallIndexing.NegativeIndexIsShared` | internal/egress/toolindex.go:29-68 | A negative index can be the synthetic one of another call |
| `ToolCallIndexing.BareFragmentIndex` | internal/egress/toolindex.go:29-68 | A fragment without an id: without an index the latest call's; else the call's that opened last under the index; under an index none opened with, the latest call's if that is numbered below zero and nothing is open there, else the index itself |
| `IngressGrammar.FragmentGrammar` | internal/anthropic/stream.go:216-250 | A fragment keeps the event grammar exactly when its arguments address the open block |
| `IngressGrammar.EventGrammar` | internal/anthropic/stream.go:200-286 | For every chunk sequence the finished events are message_start, ping, whole blocks under dense indices with one open at a time, message_delta, message_stop, exactly when every argument fragment addresses the open block |
| `IngressGrammar.FinishCompletes` | internal/anthropic/stream.go:260-286 | The terminal events complete any well-formed document with the mapped stop reason and split usage |
| `MessagesClientView.TurnEnds` | internal/anthropic/openai_types.go:86-122 | Whatever chunks came: the opening events first; at the end max_tokens iff length, refusal iff content_filter, tool_use iff the calls ended it or an ordinary end had calls, else end_turn; the last counts with the cached share apart |
| `MessagesClientView.SyntheticIdsDiffer` | internal/anthropic/toolid.go:40-62 | Two calls of one message that came without ids never share the id they are given, whatever they are signed with |
| `MessagesClientView.LateSignaturesCounted` | internal/anthropic/stream.go:216-250 | A signature that comes behind the opening of its call is counted as lost, and no other |
| `RelayedChunks.ResolvesInOrder` | internal/egress/toolindex.go:29-68 | For calls streamed in order under fresh ids the resolver answers the wire index |
| `RelayedChunks.ChunkReads` | internal/anthropic/stream.go:177-254 | A chunk in order is read as the message it folds to: text, each call's id, name and arguments |
| `RelayedChunks.RelayReads` | internal/anthropic/stream.go:177-254 | The same over whole chunk streams |
| `ComposedStreams.ClosedInOrder` | internal/anthropicegress/stream.go:212-324 | A well-bracketed upstream's chunks keep each call contiguous, the flushed last block included |
| `ComposedStreams.ComposedStreamsAgree` | internal/anthropic/stream.go:110-172 | Both translators in turn on a well-bracketed upstream: a complete document under the block grammar with the same text and every call's id, name and arguments in order |
| `ComposedStreams.ComposedUsageAgrees` | internal/anthropic/openai_types.go:86-91 | Cache reads, other input and output counts survive the composition |
| `ComposedStreams.StopReasonSurvives` | internal/anthropic/openai_types.go:95-122 | A stop reason comes back iff it is max_tokens, tool_use, refusal, or end_turn on a turn without calls; any other comes back as tool_use beside calls and end_turn without |
| `IngressRequest.TranslateMessage` | internal/anthropic/request.go:215-315 | One message to its chat messages with the loop's flush order: parts before each tool result, result images after the last, calls with their text |
| `IngressRequest.TranslateRequest` | internal/anthropic/request.go:150-206 | The whole request, failing on the first message that cannot be read |
| `IngressMessages.MessageSections` | internal/anthropic/request.go:215-333 | A block list as its sections: the parts ahead of each tool result, its tool message (text, or [image] for images alone, or nothing); behind the last, the sendable images of all results in order, then the parts no result follows; with calls, one message of the remaining text and every call, the images ahead of it |
| `IngressMessages.RequestSays` | internal/anthropic/request.go:150-206 | Refused exactly without a model or for a message neither string nor blocks; else the system text leads, the messages follow in order, and every field and the tool choice say what was sent |
| `EgressRequest.TranslateBlocks` | internal/anthropicegress/content.go:65-134 | The blocks of a content field, or the first part that cannot be sent |
| `EgressRequest.TranslateTurn` | internal/anthropicegress/content.go:24-50 | One turn, or none for a message that carries nothing |
| `EgressRequest.TranslateMessages` | internal/anthropicegress/request.go:510-557 | System text lifted out, runs of tool results coalesced, equal roles merged |
| `EgressRequest.ApplyThinking` | internal/anthropicegress/request.go:451-498 | When thinking is on and with what; sampling dropped with it, an explicit limit never raised, a budget always below the limit and at most half of an explicit one, never beside a forced tool |
| `EgressRequest.TranslateRequest` | internal/anthropicegress/request.go:328-405 | The draft with thinking applied; a stated limit goes out as sent, any other is 4096, raised by a budget it would not exceed; sampling exactly where there is no thinking |
| `EgressTurns.RunsCoalesce` | internal/anthropicegress/request.go:510-557 | Flushing a run of tool results when it ends is the same as one user turn per tool message with equal roles merging |
| `EgressTurns.TurnsAlternateOneEach` | internal/anthropicegress/request.go:510-582 | A list is accepted iff all contents read and every carrying part can be sent; then adjacent turns differ in role, none is empty, and the flattened blocks are, in order, exactly one per carrying part, tool call and tool message |
| `EgressTurns.PartsOneEach` | internal/anthropicegress/content.go:65-134 | A part list is accepted iff every carrying part can be sent, and gives one block for each |
| `EgressTurns.TurnsSided` | internal/anthropicegress/request.go:510-582 | What an assistant message carries is in the assistant's turns, everything else in the user's |
| `EgressTurns.RefusedForFirstFault` | internal/anthropicegress/request.go:510-557 | A refused list is refused for its first message at fault: unreadable content, or its first part Messages cannot be given |
| `EgressTurns.SystemLifted` | internal/anthropicegress/request.go:527-537 | System and developer text, wherever it stands, in order |
| `MessagesRequestView.RequestSays` | internal/anthropicegress/request.go:328-405 | Refused exactly for its model, its content or no turn; else every field says what was asked: the limits, blank stops dropped in order, schemas, sampling, the lifted system text with the format's instruction |
| `MessagesRequestView.ChoiceSays` | internal/anthropicegress/request.go:328-405 | The tool choice named, and a refusal of parallel calls on it, on auto where none was named, never on none |
| `MessagesRequestView.BudgetSays` | internal/anthropicegress/request.go:451-498 | The budget each effort is worth, at most half of a stated limit; off under a forced tool or below 1024 |
| `MessagesRequestView.AdaptiveSays` | internal/anthropicegress/request.go:451-498 | The adaptive efforts passed on, minimal as low; off under a stated limit below 1024 |
| `MessagesRequestView.DroppedExactly` | internal/anthropicegress/content.go:65-134 | A part is dropped exactly when it carries nothing; an unknown kind never is |
| `MessagesRequestView.TextBlocks` | internal/anthropicegress/content.go:65-134 | Text and refusals are text; a part of no kind is too, unless it hides media, which is refused as any unknown kind is |
| `MessagesRequestView.ImageBlocks` | internal/anthropicegress/content.go:192-275 | An image part by its URL or inline data: image types as images, other data as documents, percent escapes as base64, unreadable data refused |
| `MessagesRequestView.FileBlocks` | internal/anthropicegress/content.go:217-275 | A file's data first, then its URL; a file by id alone is refused |
| `MessagesRequestView.CallSays` | internal/anthropicegress/content.go:24-50 | A call names its tool and carries its arguments, the empty object for text that is none |
| `MessagesRequestView.ParagraphsApart` | internal/anthropicegress/request.go:527-557 | The lifted system texts a blank line apart |
| `RequestRoundTrip.RequestReturns` | internal/anthropic/request.go:150-206 | Both translators in turn on a canonical request: the same model, system prompt, turns and blocks in order, tool ids, tools and their object schemas, tool choice, non-blank stops and stated limit; the sampling iff no temperature above 1 is asked for; no thinking asked for |
| `RequestRoundTrip.ConversationReturns` | internal/anthropic/request.go:215-315 | The turns alone: every canonical conversation comes back block for block |
| `RequestRoundTrip.PartsTurnReturns` | internal/anthropicegress/request.go:510-582 | A turn freely mixing text, images, PDFs and tool results comes back as one turn in order |
| `RequestRoundTrip.CallTurnReturns` | internal/anthropicegress/content.go:24-50 | A turn of at most one text then calls comes back |
| `RequestRoundTrip.ChoiceReturns` | internal/anthropicegress/request.go:611-625 | A tool choice comes back iff it is one of the four kinds and names its tool if it forces one |
| `RequestRoundTrip.ImagePartReturns` | internal/anthropicegress/content.go:192-214 | A canonical image becomes a part that becomes the image again |
| `DataUri.ParseBase64Uri` | internal/anthropicegress/detect.go:30-51 | Parsing gives back the media type and payload a base64 data URI was written from |
| `DataUri.ParsesAs` | internal/anthropicegress/detect.go:30-51 | Any data URI by its pieces: scheme in any case, media type trimmed and lower-cased or text/plain, base64 iff a parameter says so, payload behind the first comma; refused exactly if that is empty |
| `DataUri.UnescapesEscaped` | internal/anthropicegress/content.go:262-285 | However many bytes are written as percent escapes, they come back |
| `CacheBreakpoints.Draft.ApplyCacheBreakpoints` | internal/anthropicegress/caching.go:45-58 | The last tool, the system prompt and the last two turns are marked in place |
| `CacheBreakpoints.LastCacheableBlock` | internal/anthropicegress/caching.go:63-70 | The last block that is not white-space text |
| `CacheBreakpoints.BreakpointCount` | internal/anthropicegress/caching.go:45-58 | Exactly one breakpoint each for the tools, a non-blank system prompt and either of the last two turns able to carry one: never more than four |
| `CacheBreakpoints.DraftsAreUnmarked` | internal/anthropicegress/request.go:328-405 | Every request the translator accepts reaches the breakpoints without any, so these results hold of each |
| `CacheBreakpoints.NeverOnBlankText` | internal/anthropicegress/caching.go:63-70 | No breakpoint sits on white-space-only text |
| `CacheBreakpoints.ErasingRestores` | internal/anthropicegress/caching.go:45-69 | Erasing the breakpoints gives the request back up to string-to-block promotion of a marked turn |
| `Base64.DecodeEncode` | internal/anthropic/toolid.go:45-58 | Both base64 forms decode what they encode, on every byte string |
| `Base64.EncodeDecode` | internal/anthropic/toolid.go:64-84 | Both forms encode back canonical text of every length: letters of the alphabet, zero trailing bits, pads if the form has them |
| `Base64.EncodesCanonically` | internal/anthropic/toolid.go:45-58 | Everything they encode is canonical, so no other text comes back |
| `ToolIds.SplitUndoesSign` | internal/anthropic/toolid.go:45-84 | For every id and non-empty signature, splitting a signed id gives both back iff the appended marker is its last, possibly overlapping, occurrence |
| `ToolIds.MarkerLastDependsOnSignature` | internal/anthropic/toolid.go:64-68 | That condition depends on the signature alone: its payload, behind the marker's closing underscore, must not spell the marker |
| `ToolIds.SignatureSpellsMarker` | internal/anthropic/toolid.go:56-63 | A signature that completes a second marker out of the first one's underscore and the tag is lost on any id |
| `ToolIds.SignedKeepsAlphabet` | internal/anthropic/toolid.go:10-21 | An id in [A-Za-z0-9_-] stays in it when signed, whatever the signature |
| `ToolIds.StripSignedToolUseIds` | internal/anthropic/toolid.go:91-141 | Every signature carried in a body comes off, and the body is rewritten exactly when there was one |
| `ToolIds.StrippedIdsPair` | internal/anthropic/toolid.go:86-90 | A signed call and its result come back under the one id they were signed from |
| `ToolIds.BytesRide` | internal/anthropic/toolid.go:45-62 | A signature that is bytes in padded base64 rides as those bytes in unpadded URL base64 |
| `ToolIds.TextRides` | internal/anthropic/toolid.go:45-62 | Any other signature rides as its text in unpadded URL base64 |
| `SecondFactor.NoOneFactorSessionSurvives` | internal/adminauth/totp.go:296-360 | Over every interleaving of exchanges, enrolments, disables, logins and restarts: from EnrollVerify's success until 2FA is disabled the gate is closed and no session handed out on the token alone is live |
| `SecondFactor.OneFactorSessionsDie` | internal/adminauth/exchange.go:46-73 | With successful revocations, once every exchange has finished no one-factor session is left at all |
| `SecondFactor.RecheckKeeps` | internal/adminauth/exchange.go:62-66 | The recheck after the mint delivers a session only while the gate is open |
| `SecondFactor.SweepKeeps` | internal/adminauth/totp.go:144-157 | The second sweep, after the gate closed, leaves no delivered one-factor session |
| `SecondFactor.OtherKeeps` | internal/api/admin.go:276-314 | Logins, session ends and a restart with the gate seeded fail-closed keep the invariant |
| `SecondFactor.CacheCoherent` | internal/adminauth/totp.go:224-262 | With any number of status reads in flight, whenever the lock is free and the gate is on the cached stamp is absent or the row's, provided every rollback's delete and refresh succeeded |
| `SecondFactor.RollbackCoherentIff` | internal/adminauth/totp.go:349-360 | Once a rollback has ended, however it went, all the status reads that follow stay coherent iff it turned the gate off or every stamp the cache or a read in flight holds is the surviving row's |
| `SecondFactor.FailedRefreshIsIncoherent` | internal/adminauth/totp.go:349-360 | A run: a status read, then a rollback whose refresh fails, serves the undone enrolment's stamp |
| `SecondFactor.FailedDeleteIsIncoherent` | internal/adminauth/totp.go:349-360 | A run: a stamp left by a clean rollback meets a later rollback whose delete fails |
| `SecondFactorCredentials.SessionsAnswerToTokens` | internal/adminauth/exchange.go:46-73 | In every run: an exchange holds a token, or a session minted for it is live, only if its raw token was checked and valid; a client was handed one only if the gate was found open again behind the mint |
| `SecondFactorCredentials.ValidTokenDelivers` | internal/adminauth/exchange.go:27-75 | With the gate open a valid token is answered with a live session |
| `SecondFactorCredentials.EnabledOnAcceptedCode` | internal/adminauth/totp.go:287-345 | The factor is enabled only behind an accepted code, under the same hold of the lock |
| `SecondFactorCredentials.DisabledOnlyBy` | internal/adminauth/totp.go:403-435 | An enabled factor goes only with an authorized disable or the enrolment's own rollback |
| `SecondFactorCredentials.SessionsEndOnlyBy` | internal/adminauth/totp.go:144-157 | A session goes only as its owner ends it, as its exchange takes it back, or as a sweep takes every admin's |
| `SecondFactorCredentials.GateFollowsRow` | internal/api/admin.go:276-314 | The gate changes only as the row is read, to what it says, and closes when it cannot be read |
| `SecondFactorCredentials.EnrolmentSucceeds` | internal/adminauth/totp.go:287-400 | An enrolment whose store calls succeed ends with the gate closed and its caller logged in |
| `SecondFactorCredentials.DisableOpens` | internal/adminauth/totp.go:403-435 | An authorized disable whose refresh succeeds opens the gate again and ends no session |
| `LogWriter.EntriesConserved` | internal/api/applogs_buffer.go:450-489 | In every run each entry whose write has returned is in exactly one of inserted, counted dropped, or held once; what is held is the batch then the queue, in order, iff the drain has refused no batch and stranded no entry, which it does only between the stop and its one notice |
| `LogWriter.RefusedIsNowhere` | internal/api/applogs_buffer.go:338-401 | A run whose drain is refused its INSERT: until the notice the entry is in none of inserted, dropped, batch and queue |
| `LogWriter.StopLeavesNothing` | internal/api/applogs_buffer.go:525-545 | Once a stop has returned queue and batch are empty and entries written equal entries inserted plus drops counted, later lines included |
| `LogWriter.BarrierSafe` | internal/api/applogs_buffer.go:495-508 | If flushBarrier returned nil, everything handed over before it is inserted or counted dropped, whatever senders, ticks and a stop do |
| `LogWriter.PurgedRowsStayGone` | internal/api/applogs.go:680-726 | After a successful purge of everything, then or later, every row was handed over after its barrier |
| `LogWriter.FlushConserves` | internal/api/applogs_buffer.go:405-409 | A flush moves the whole batch to the table or to the count |
| `LogWriter.StrandConserves` | internal/api/applogs_buffer.go:377-401 | The drain's one notice counts exactly what it refused, left batched or found stranded; barriers never |
| `LogWriter.ReceiveOrdered` | internal/api/applogs_buffer.go:301-320 | What was handed over before a barrier never stands behind it |
| `LogWriterOutcomes.DropsHaveReasons` | internal/api/applogs_buffer.go:296-489 | Every counted drop has its reason: a write that gave up or met a stop, an INSERT refused with the entry in its batch, or a stop's drain |
| `LogWriterOutcomes.HealthyStopInserts` | internal/api/applogs_buffer.go:348-401 | With no INSERT refused and no deadline, everything whose write returned is inserted once a stop has returned, unless the write itself was refused |
| `LogWriterOutcomes.RowsUntilPurged` | internal/api/applogs_buffer.go:405-445 | Until a purge succeeds the table is everything inserted |
| `LogWriterOutcomes.QueueAndBatchBounded` | internal/api/applogs_buffer.go:296-346 | The queue holds at most 5000, a batch at most 50, and a full one is on its way out |
| `LogWriterOutcomes.TickSettles` | internal/api/applogs_buffer.go:296-346 | A tick writes out whatever the batch holds |
| `LogWriterOutcomes.FullBatchSettles` | internal/api/applogs_buffer.go:301-320 | The entry that fills a batch sends it on its way |
| `LogWriterOutcomes.FrontBarrierAnswered` | internal/api/applogs_buffer.go:301-334 | A barrier at the front is answered, the batch ahead of it written out first |
| `AppLogBuffer.LogDropReporter.Drop` | internal/api/applogs_buffer.go:222-247 | Every drop is reported or pending, once; reported plus pending is always the total |
| `AppLogBuffer.LogDropReporter.ReportPending` | internal/api/applogs_buffer.go:256-269 | States what is held, keeps the total, rearms the throttle |
| `AppLogBuffer.RingBuffer.WriteEntry` | internal/api/applogs_buffer.go:590-598 | The circular array after a write shows the last entries up to its capacity, for every capacity |
| `AppLogBuffer.RingBuffer.GetEntries` | internal/api/applogs_buffer.go:626-643 | The buffered entries, oldest first |
| `AppLogBuffer.RingBuffer.Clear` | internal/api/applogs_buffer.go:646-653 | Empties the ring and returns how many it held |
| `AppLogBuffer.RingBuffer.ClearOlderThan` | internal/api/applogs_buffer.go:659-690 | Keeps exactly the entries not older than the cutoff, in order, and returns how many went |
| `AppLogBuffer.SurvivorsExactly` | internal/api/applogs_buffer.go:659-690 | What a ranged clear keeps: the entries without a date or not dated before the cutoff, once each and in order |
| `AppLogBuffer.ShowsLastIff` | internal/api/applogs_buffer.go:590-690 | Over every history of any entries: the ring shows the last of what was written and not cleared at every moment iff every ranged clear found the ring left full, or nothing already evicted that outlives its cutoff |
| `AppLogBuffer.ShowsTheLastUncleared` | internal/api/applogs_buffer.go:590-690 | Entries in time order meet that condition: after any interleaving of writes and clears the ring shows the last of what was written and not cleared |
| `AppLogBuffer.RangedClearExact` | internal/api/applogs_buffer.go:659-690 | For any entries, one ranged clear keeps that property iff the ring is still full or nothing evicted would have survived the cutoff |
| `AppLogBuffer.OutOfTimeIsLost` | internal/api/applogs_buffer.go:659-690 | Out of time order it can fail: the ring shows nothing while an uncleared entry was evicted |
| `BackupRotation.ClassifyBackups` | internal/api/backup_retention.go:48-112 | The four lists: each tier keeps the pick of every wanted bucket not kept before and nothing else, latest bucket first; prune is the unparsed names then the unkept |
| `BackupRotation.KeepMostRecentPerBucket` | internal/api/backup_retention.go:123-149 | One tier: the first most recent candidate of each wanted bucket |
| `BackupRotation.MostRecentEntry` | internal/api/backup_retention.go:152-160 | The first of the entries with the greatest timestamp |
| `BackupRotation.TierHolds` | internal/api/backup_retention.go:123-160 | A tier holds a backup exactly when its bucket is wanted, it was not kept before, and of the others of the bucket none is later and none as late stands ahead of it |
| `BackupRotation.ExactlyOneHome` | internal/api/backup_retention.go:48-112 | Every backup is listed exactly once over the four lists, except an unkept one whose name parses to the zero time, which is in none |
| `BackupRotation.RotationSettles` | internal/api/backup_retention.go:48-160 | The survivors classified again at the same instant keep their tiers and nothing is pruned |
| `BackupRotation.WantingMoreKeepsMore` | internal/api/backup_retention.go:123-160 | Enlarging any tier's wanted buckets never prunes a backup that was kept, timestamp ties included |

## Left out

- HTTP handlers, cookies, SQL text, JSON and SSE framing, clocks and timers: inputs, or steps that may happen at any time.
- Validation of single providers, users, keys and settings: the `Policy` predicates of `CoreImport`, arbitrary.
- Discovery, the dashboard and the exporter: in `ImportProtocol` the `Environment` step may change model and group rows and the echo, the `Edit` step every table but the markers and acknowledgements, at any time.
- A panic or process death inside an import: a section that does not run is a section that fails.
- The log writer's ambiguous INSERT (committed, but the reply lost): an INSERT lands all its rows or none.
- An enable of the second factor that commits while it reports an error: in `SecondFactor` an enable either commits and reports so, or changes nothing.
- The ranged purge: `LogWriter` purges everything; its cutoff compares a different clock from the ring's.
- Concurrency of the TOTP handlers, the log writer and the import sections is modelled by steps of a state machine, not by locks in methods; what one lock makes atomic is one step.
- The throttles, code checking and recovery codes: one nondeterministic answer.
- Timestamps in file names, calendar days, ISO weeks and months: bucket functions and wanted sets are parameters.
- strings.ToLower and EqualFold outside what can fold into ASCII: such letters never match the ASCII names they are compared with.
- Thinking blocks, citations, error flags, document titles and images inside tool results in the request round trip: dropped by the translators by design.
- Streams that reuse a block index, interleave the fragments of two calls or send arguments after a block's stop: `Allowed` and `Bracketed` exclude them; `IngressGrammar.EventGrammar` says what interleaving breaks.
- The wording of errors, and CacheControlRefused's reading of an upstream's 400.
- Alerts, catalogs, masking, log-level heuristics, keyset pagination, background loops: they would add only easy members.
