# WTF, verified

WTF is a replicated filesystem. A file is an extent map: ordered slices of the file, each with the list of replicas that
hold its bytes. The map is kept packed in a key-value store and changed by compare-and-set. The bytes are in blocks on
storage servers; a server keeps an append-only log and, for each block, an offset map into it. A coordinator, itself a
replicated state machine, tells clients and servers who is there.

This project models those parts and proves what they are for. `dafny verify dfyconfig.toml` checks it.

**Extent maps and blocks.** `interval_map.dfy` and `vblock.dfy` give each operation as a function on the ordered map's
entries and relate it to a flat array; `interval_map_class.dfy`, `vblock_class.dfy` and `blockstore_class.dfy` are the
program's objects, which edit their maps in place and are proved to compute those functions. `interval_codec.dfy` is the
stored form, `blockstore.dfy` the refinement to a map from block ids to bytes over any run, and `log_writers.dfy` the
interleaving of several threads in one server. `ordered_map.dfy` is the ordered container (std::map), and
`wrappers.dfy` what several modules share.

**Coordinator.** `server_barrier.dfy` relates the pruned barrier to the full history of issues and passes.
`coordinator.dfy` is one command, `coordinator_runs.dfy` and `server_fates.dfy` are whole runs with crashes and restores,
`coordinator_counts.dfy` is what clients hear of them, and `coordinator_class.dfy` is the program's object.
`coordinator_link.dfy` brings configurations to clients and daemons;
`config_ack.dfy` runs that coordinator with its daemons, over a network that delays, repeats and loses acknowledgements.

**Optimistic writes.** `optimistic_write.dfy` is a state machine of any number of clients, servers, messages and one
register. `optimistic_routing.dfy`, `optimistic_commits.dfy` and `optimistic_replicas.dfy` prove its invariants,
`optimistic_theorems.dfy` and `optimistic_history.dfy` the results, and `optimistic_progress.dfy` that a write which is
not disturbed is carried through. `optimistic_write_class.dfy` and `pending_write_class.dfy` are the loops and the
object behind its steps.

**Paths and placement.** `canon_path.dfy` and `canon_path_class.dfy`, and `placement.dfy`.

## How the code was read

The model follows the code as it is, also where the code departs from what it is evidently for. Undefined behaviour (an
iterator used past the end, a write behind a buffer) is a result of its own: `None`, `Undefined` or `defined == false`.
For each departure there is a theorem that says exactly when the operation does what it is for, and an input on which it
does not (`departures.dfy` for extents, blocks, the log and the failed store):

- inserting behind the end of a file: the hole's length has the wrong sign on the last slice's length
  (`common/interval_map.cc:49`), and an insert at the address of an empty slice is ignored (`common/interval_map.cc:216`);
- cutting a slice from the left forgets the slice's own offset (`common/interval_map.cc:155`, `common/interval_map.cc:189`),
  and so does unpacking (`common/interval_map.cc:18`). It follows that a client which had to re-read a map with an offset
  other than 0 can never commit to it (RereadMatches);
- a request in the last slice is not clipped to end of file (`common/interval_map.cc:241-247`);
- a write inside a block loses, moves or overlooks slices in three branches of `blockstore/vblock.cc:195-297`, clipped
  slices keep a stale key, so that the length reported can be too small or too large (LengthExact), and `set_len` erases
  while iterating. A block that has moved such a slice can take in bytes that another thread is still writing
  (LateCopyChangesABlock);
- unpacking a barrier appends to the constructor's entry (`coordinator/server_barrier.h:105-110`). This one is harmless,
  and RestoresInvisible proves it;
- block ids come from an increment that is not atomic (`blockstore/blockmap.cc:289`), although a daemon runs several
  network threads (`daemon/daemon.cc:436-517`);
- a failed store reports success, with the id and the length that -1 has as an unsigned number
  (`daemon/daemon.cc:813-832`); `refused` records that one happened, and FailedStoreCommits runs into it;
- `canon_path` looks for the end of its buffer by equality only (`client/client.cc:1086`), ignores that the working
  directory may not fit (`client/client.cc:1035`), and the closing check of the placement compares with the first slot
  only, since its inner loop advances the outer index (`common/configuration.cc:372`).

Machine integers are naturals without overflow. A condition broadcast increments the condition by one and returns the
new value, as `coordinator/coordinator.cc:725-727` relies on. Sizes of packed forms are counted in 64-bit words. In
`client/pending_write.cc:287-290` and `client/pending_write.cc:443-444` a message is read after it was removed; the model
takes its contents as they were. Client tokens and server ids are distinct.

## Model

| member | source | states |
|---|---|---|
| Extents.InsertRefines | common/interval_map.cc:21-217 | for every map and every insert: the result has no gap and no overlap exactly when the map was empty or the address lies within it; byte by byte its replica lists are then those of the same write on a flat array, and the offsets agree exactly when no slice based elsewhere than 0 is cut from the left |
| Extents.InsertPastEnd | common/interval_map.cc:39-52 | an insert behind the end of a non-empty map leaves a map that is not gapless |
| Extents.InsertLeaves | common/interval_map.cc:54-135 | for every map and every insert at or below its length, offsets included: the old cells in front, the new ones, and behind them the old ones, where the bytes of a slice that is cut from the left have the offsets they would have if it had been based at 0 |
| Extents.PastEndLeaves | common/interval_map.cc:39-52 | an insert behind the end leaves the old map, a hole of the length computed if the last slice is not empty, and the new slice |
| Extents.EmptyLeaves | common/interval_map.cc:24-37 | an insert into an empty map leaves a hole up to the address, if there is room for one, and the new slice |
| Extents.TruncateRefines | common/interval_map.cc:304-326 | truncate keeps the map gapless and is the prefix of the flat array; a length beyond the end changes nothing |
| Extents.RunRefines | common/interval_map.cc:21-326 | any run of inserts that leave no gap and of truncates: gapless from 0, length and every byte's replica list as on a flat array, offsets too when no slice is re-based |
| IntervalMaps.IntervalMap.Insert | common/interval_map.cc:21-135 | the in-place edit, branch by branch, computes the map InsertRefines is about |
| IntervalMaps.IntervalMap.InsertContained | common/interval_map.cc:137-160 | splitting a slice leaves its head and the remainder behind the new slice |
| IntervalMaps.IntervalMap.InsertLeft | common/interval_map.cc:172-193 | cutting a slice from the left re-files its remainder, unless the place is taken |
| IntervalMaps.IntervalMap.OverwriteFrom | common/interval_map.cc:92-129 | the erasing loop and the cut behind it clear exactly what the new slice covers |
| IntervalMaps.IntervalMap.Truncate | common/interval_map.cc:304-326 | the in-place edit computes the map TruncateRefines is about |
| IntervalMaps.IntervalMap.Size | common/interval_map.cc:328-340 | the length is that of the flat array |
| IntervalMaps.IntervalMap.GetSlices | common/interval_map.cc:219-296 | the slices concatenate to exactly the requested part of the flat array, cut off at end of file; only a request from inside the last slice to beyond end of file gets more cells than there are: one slice of the length asked for |
| IntervalMaps.LastSliceAnswer | common/interval_map.cc:231-250 | a request that starts in the last slice gets one slice of the full requested length, right exactly when the file is that long |
| IntervalCodec.UnpackPack | common/interval_map.h:95-177 | unpacking a packed map restores every address, length and replica list from the lengths alone, sets every offset to 0, and leaves the rest of the buffer |
| IntervalCodec.RoundTrip | common/interval_map.h:142-177 | the round trip is exact if and only if every offset is 0 |
| IntervalCodec.PackInjective | common/interval_map.h:142-156 | two gapless maps with the same stored form are equal |
| IntervalCodec.PackSizeIs | common/interval_map.cc:342-365 | the computed size is the number of words written |
| IntervalCodec.SliceWords | common/interval_map.h:95-108 | a slice is stored as its offset, its length, the number of its locations, and each one's server and block |
| IntervalCodec.MapWords | common/interval_map.h:142-156 | a map is stored as the number of its slices and the slices in address order |
| IntervalMaps.IntervalMap.Pack | common/interval_map.h:142-156 | the packing loop writes the stored form |
| IntervalMaps.IntervalMap.Unpack | common/interval_map.h:158-177 | the unpacking loop reads the stored form, and fails exactly when the buffer runs out |
| ExtentDepartures.GapOverlaps | common/interval_map.cc:45-51 | a concrete gap: the filler is 14 long instead of 6 and overlaps the new slice |
| ExtentDepartures.OffsetDropped | common/interval_map.cc:150-155 | a concrete overwrite after which a byte's offset is wrong while every replica list is right |
| ExtentDepartures.OffsetForgotten | common/interval_map.cc:15-19 | a concrete map whose offset does not survive a store and a load |
| Blocks.UpdateRefines | blockstore/vblock.cc:86-358 | for every block without gaps and every write at or below its length: update is defined and replaces exactly the bytes written, if and only if the branch's guard Sound holds |
| Blocks.UpdateLeaves | blockstore/vblock.cc:86-358 | for every update, sound or not, when it is defined and what every byte of the block then reads as, in terms of the old block's places: the bytes in front, the bytes written, and behind them the old rest, or a part of it pushed back or lost, branch by branch |
| Blocks.SplitReadsStart | blockstore/vblock.cc:248-266 | a write from the start of a slice that ends inside it: what is left of the slice reads as its start |
| Blocks.TailReachesBack | blockstore/vblock.cc:195-246 | a write inside a slice that is not the last: what is left of it behind the write is replaced by what lies in the log in front of the next slice |
| Blocks.UpdateKeepsShape | blockstore/vblock.cc:86-358 | whatever bytes it misplaces, update leaves a block without gaps |
| Blocks.ReloadRepairs | blockstore/vblock.h:263-292 | a store and a load leave the same place in the log for every byte, file every slice under its own offset, and make the computed length exact |
| Blocks.LengthExact | blockstore/vblock.cc:67-358 | for every defined update, told before the call: the computed length is the number of bytes if and only if the update does not move the last slice's start away from its key; when it does, the block is as long as before, and the computed length is the last key plus what is left of the last slice |
| Blocks.ResizeRefines | blockstore/vblock.cc:403-422 | set_len is defined if and only if the cut falls in the last slice, and is then the prefix |
| Vblocks.Vblock.Update | blockstore/vblock.cc:86-358 | the in-place edit, branch by branch, computes the map UpdateRefines is about: the head, the new slice, and what the branch leaves behind it; it runs off the end exactly when it overwrites the whole last slice from its start and goes on behind it |
| Vblocks.Vblock.EraseCovered | blockstore/vblock.cc:151-171 | the erasing loop, with the end of another slice passed in, erases the first slice unseen and then those covered |
| Vblocks.Vblock.SetLen | blockstore/vblock.cc:403-422 | the in-place edit computes the map ResizeRefines is about |
| Vblocks.Vblock.Load | blockstore/vblock.h:278-292 | loading files the slices one by one under their own offsets |
| Vblocks.Vblock.Length | blockstore/vblock.cc:67-84 | the computed length, from the last key; right if and only if the last slice is filed under its own offset |
| BlockDepartures.TailLost | blockstore/vblock.cc:195-246 | a concrete write inside a slice that is not the last: it is defined, and the slice behind takes over the places of the tail |
| BlockDepartures.RunsOffTheEnd | blockstore/vblock.cc:268-297 | a concrete write for which the iterator is used past the end |
| BlockDepartures.StaleLength | blockstore/vblock.cc:227-234 | for a block of two slices, how much too small the computed length is after a write across them |
| BlockDepartures.CutInFront | blockstore/vblock.cc:416-421 | a concrete cut before the last slice, which is undefined |
| Blockstore.StepRefines | blockstore/blockmap.cc:274-453 | each guarded operation does to the flat map from block ids to bytes what it is for: write and update make a new block, truncate makes the prefix, read returns the prefix, failures change nothing but the space used |
| Blockstore.RunRefines | blockstore/blockmap.cc:274-453 | over any guarded run the store gives the answers of the flat map |
| Blockstore.BlocksImmutable | blockstore/blockmap.cc:274-453 | over any run of defined operations, sound or not, a block that exists keeps its offset map and every byte of the log the map names, so it reads the same if it can be read at all |
| Blockstore.GuardedIsDefined | blockstore/blockmap.cc:274-453 | every guarded run is a run of defined operations with the same end; before and after it every place of every block lies in the log |
| Blockstore.StepSane | blockstore/blockmap.cc:274-453 | every defined operation, sound or not, leaves blocks without gaps that reach no further into the log than what has been reserved |
| Blockstore.UpdateMakes | blockstore/blockmap.cc:304-345 | every defined update, sound or not, makes a new block under the next id with the data in place, and around it what UpdateLeaves says |
| Blocks.UpdatedWithin | blockstore/vblock.cc:86-358 | sound or not, an update reaches no further into the log than the old map and the new slice do |
| Blockmaps.Disk.Write | blockstore/disk.cc:43-58 | space is reserved even when it does not fit; otherwise exactly the reserved bytes change |
| Blockmaps.Blockmap.Write | blockstore/blockmap.cc:274-302 | a new block with the data, or the failure of the log |
| Blockmaps.Blockmap.Update | blockstore/blockmap.cc:304-345 | the step of the store, for every block that defined operations can have made; no stored block changes; undefined exactly when the vblock update is; the length reported is that of the block made, unless the update moved the last slice |
| Blockmaps.Blockmap.Truncate | blockstore/blockmap.cc:428-453 | the step of the store, defined exactly when the cut falls in the last slice |
| Blockmaps.Blockmap.ReadSlices | blockstore/blockmap.cc:369-420 | the read loop collects exactly the prefix asked for, or runs past the last slice, or meets a slice that lies outside the log |
| Blockmaps.Blockmap.Read | blockstore/blockmap.cc:347-426 | for every block that defined operations can have made: reading from offset 0 returns exactly its prefix, and is defined exactly when the block is that long and the prefix lies in the log |
| LogWriters.ExtentsDisjoint | blockstore/disk.cc:43-58 | under every interleaving of the writers, the extents handed out are disjoint and lie in the log |
| LogWriters.ReturnedWritesStay | blockstore/disk.cc:43-58 | once a write has returned, its extent holds its bytes whatever steps follow |
| LogWriters.IssuedBlocksReadTheSame | blockstore/blockmap.cc:283-453 | at any point of any run of writes, updates and truncations, sound or not, in which no call reads or advances the block counter between another call's reading and advancing it: a block that has been issued reads the same after every further such run if and only if no unfinished call has yet to copy a different byte into it |
| LogWriters.UnsettledChanges | blockstore/disk.cc:43-58 | a block that takes in a byte some call has yet to copy, and that will differ, changes in one step of that call, which is always possible |
| LogWriters.SoundUpdateSettles | blockstore/vblock.cc:86-358 | an update that satisfies the guard Sound, made to a settled block, publishes a settled block; both can be checked before it |
| LogWriters.CarefulBlocksReadTheSame | blockstore/blockmap.cc:283-453 | when calls publish what they wrote, sound updates and truncations, every block that is issued reads the same after every further run of any calls under the counter's guard |
| LogWriters.TruncationShortens | blockstore/blockmap.cc:428-453 | a truncation that is defined publishes the first places of the old block |
| LogWriters.UpdateReserved | blockstore/vblock.cc:86-358 | whatever an update makes, sound or not, lies below what has been reserved if the old block does, which is all that publishing asks for here |
| LogDepartures.LateCopyChangesABlock | blockstore/vblock.cc:195-246 | a concrete run under the counter's guard: an update that is not sound takes in a byte that another call has reserved, and its block reads otherwise once that call copies it |
| LogDepartures.WholeCallIs | blockstore/blockmap.cc:274-302 | a call that runs alone appends its data to the log and files its block under the next number |
| LogWriters.BreachSharesANumber | blockstore/blockmap.cc:289 | any run that breaks that guard breaks it first with a call that reads the counter inside another call's window, and that gives both calls the same id |
| LogWriters.SharedNumberOverwrites | blockstore/blockmap.cc:289-453 | two calls with the same id: whatever steps come before and between, when both have published, the block read as what the first one published and then as what the second one did, which for new blocks is what they wrote |
| LogWriters.CounterRace | blockstore/blockmap.cc:289 | the counter is not advanced atomically: two calls that both read it before either writes it back get the same id |
| LogWriters.FirstBlockSurvives | blockstore/blockmap.cc:289-453 | two calls publish with any steps before, and any between that do not publish under the first one's id: if the first one's block was settled, it still reads as it was published if and only if the ids differ or the bytes are the same; what it reads as is given in any case |
| Barriers.ReplayedAgrees | coordinator/server_barrier.cc:43-116 | after any history of issues and passes the pruned list agrees with the full history; versions increase, the front entry is empty and the later ones are not |
| Barriers.MinIsGreatestCleared | coordinator/server_barrier.cc:43-47 | the minimum is the greatest version, 0 or issued, that every server listed for it has passed since |
| Barriers.IssueClears | coordinator/server_barrier.cc:49-58 | issuing a version prunes away the entries that restores left in front |
| Barriers.PassClears | coordinator/server_barrier.cc:60-93 | a pass does to a restored barrier what it does to the original, or finds nothing to do in either |
| Barriers.RestoreAgain | coordinator/server_barrier.h:97-113 | unpacking appends to the constructor's entry; any number of restores leaves that many extra entries in front and nothing else |
| Barriers.ServerBarrier.NewVersion | coordinator/server_barrier.cc:49-58 | appends the version and prunes, which is the issue that the history theorems are about |
| Barriers.ServerBarrier.Pass | coordinator/server_barrier.cc:60-93 | the nested loops compute the pass that the history theorems are about |
| Barriers.ServerBarrier.MaybeClearPrefix | coordinator/server_barrier.cc:95-116 | the loop drops everything in front of the last empty entry |
| Coordination.StepKeeps | coordinator/coordinator.cc:156-560 | every command keeps: servers in id order, each counter equal to its barrier's minimum and to its condition, the checkpoint collected at max(0, stable - 120), the cached configuration live; and it leaves the live configuration alone or gives it the next version because flags or servers changed |
| CoordinatorRuns.AssertsHold | coordinator/coordinator.cc:684-818 | in every reachable state, restores included, what the program asserts holds |
| CoordinatorRuns.RestoresInvisible | coordinator/coordinator.cc:566-633 | a run with restores anywhere gives the same replies and broadcasts as the same commands without them, and the same cached configuration |
| CoordinatorRuns.VersionAgreement | coordinator/coordinator.cc:491-499 | in any run two answers with the same version are the same configuration |
| CoordinatorRuns.CacheIsLive | coordinator/coordinator.cc:737-759 | after any run the cached configuration is the live cluster, version, flags and servers |
| CoordinatorRuns.AckedThroughIsAcknowledged | coordinator/coordinator.cc:684-697 | acked through is the greatest version that every server of that configuration has acknowledged since it was issued |
| CoordinatorRuns.StableThroughIsReported | coordinator/coordinator.cc:699-712 | stable through is the greatest version that every server of that configuration has reported to be stable |
| CoordinatorRuns.CheckpointStableIsReported | coordinator/coordinator.cc:538-552 | checkpoint stable through is the greatest checkpoint that every server configured when it was taken has reported since, under a configuration that was current |
| ServerFates.OthersUntouched | coordinator/coordinator.cc:219-482 | a command touches no server but the one it is about |
| ServerFates.KilledForGood | coordinator/coordinator.cc:316-482 | over any run, a killed server keeps its record until it is forgotten |
| ServerFates.LastCommandTells | coordinator/coordinator.cc:219-482 | in any run, restores included, a server's record is told by the last command about it that was answered with success: none before the first and after a forget, ASSIGNED after a registration, AVAILABLE after coming online, KILLED after a kill, SHUTDOWN after a shutdown also when it goes offline or is suspected later, NOT_AVAILABLE otherwise; its address is the one named last |
| ServerFates.RegisterFate | coordinator/coordinator.cc:219-241 | a new server is filed as ASSIGNED under its address; a known one is a duplicate |
| ServerFates.OnlineFate | coordinator/coordinator.cc:243-314 | a server becomes AVAILABLE, at the address named, unless it is unknown, killed, or another server has that address |
| ServerFates.OutageFate | coordinator/coordinator.cc:316-350 | going offline and being suspected make a server NOT_AVAILABLE, unless it is shut down, killed or unknown |
| ServerFates.ShutdownFate | coordinator/coordinator.cc:352-386 | a server is SHUTDOWN from any state but KILLED |
| ServerFates.KillFate | coordinator/coordinator.cc:388-413 | a server is KILLED from any state |
| ServerFates.ForgetFate | coordinator/coordinator.cc:415-442 | a server is forgotten from any state |
| CoordinatorCounts.BroadcastsCount | coordinator/coordinator.cc:684-818 | in any run, restores included, what is broadcast takes every condition up from 0 to where it stands, one by one |
| CoordinatorCounts.ClusterAndFlag | coordinator/coordinator.cc:156-217 | in any run, restores included: the cluster is the first token given other than 0, and the read-only flag is what was said last about it |
| CoordinatorCounts.ClusterStep | coordinator/coordinator.cc:156-174 | being initialised sets the cluster, once, and is answered with success; until then every other command is refused and changes nothing |
| CoordinatorCounts.FlagStep | coordinator/coordinator.cc:176-217 | the read-only flag is raised and lowered as asked, no other flag changes, and no other command changes it |
| CoordinatorCounts.ReportReplies | coordinator/coordinator.cc:501-559 | reports and the alarm are not answered, but for checkpoints: success, or no under an old configuration |
| Coordinators.Coordinator.GenerateNextConfiguration | coordinator/coordinator.cc:714-735 | the version bump, both barriers, both condition loops and the cache, as one effect |
| Coordinators.Coordinator.CheckAckCondition | coordinator/coordinator.cc:684-697 | the loop ends, one broadcast per step, with the counter at the barrier's minimum |
| Coordinators.Coordinator.CheckCheckpointStableCondition | coordinator/coordinator.cc:778-818 | both loops end with the counters at the minimum and at the minimum less 120 |
| Coordinators.Coordinator.CheckStableCondition | coordinator/coordinator.cc:699-712 | the loop ends, one broadcast per step, with the counter at the barrier's minimum |
| Coordinators.Coordinator.Checkpoint | coordinator/coordinator.cc:517-536 | the next checkpoint is issued to the configured servers, and what that allows is raised |
| Coordinators.Coordinator.Init | coordinator/coordinator.cc:156-174 | the first call sets the cluster and issues a configuration; later ones change nothing |
| Coordinators.Coordinator.SetReadOnly | coordinator/coordinator.cc:176-217 | a new configuration exactly when the flag changes |
| Coordinators.Coordinator.ServerRegister | coordinator/coordinator.cc:219-241 | the new state, reply and broadcasts of the command, on every path |
| Coordinators.Coordinator.ServerOffline | coordinator/coordinator.cc:316-350 | the new state, reply and broadcasts of the command, on every path |
| Coordinators.Coordinator.ServerShutdown | coordinator/coordinator.cc:352-386 | the new state, reply and broadcasts of the command, on every path |
| Coordinators.Coordinator.ServerKill | coordinator/coordinator.cc:388-413 | the new state, reply and broadcasts of the command, on every path |
| Coordinators.Coordinator.ConfigGet | coordinator/coordinator.cc:491-499 | the answer is the cached configuration; nothing changes |
| Coordinators.Coordinator.ConfigStable | coordinator/coordinator.cc:509-515 | pass the barrier, then raise what that allows |
| Coordinators.Coordinator.ServerOnline | coordinator/coordinator.cc:243-314 | the new state, reply and broadcasts of the command, on every path |
| Coordinators.Coordinator.ServerForget | coordinator/coordinator.cc:415-442 | swapping to the end, popping and sorting again is removal |
| Coordinators.Coordinator.NewServer | coordinator/coordinator.cc:635-652 | appending and swapping down puts the server in id order |
| Coordinators.Coordinator.ServerSuspect | coordinator/coordinator.cc:444-482 | the new state, reply and broadcasts of the command, on every path |
| Coordinators.Coordinator.ConfigAck | coordinator/coordinator.cc:501-507 | pass the barrier, then raise what that allows |
| Coordinators.Coordinator.CheckpointStable | coordinator/coordinator.cc:538-552 | refuse a report made under an old configuration; else pass the barrier and raise what that allows |
| Coordinators.Coordinator.Tick | coordinator/coordinator.cc:554-559 | the alarm takes the next checkpoint, once there is a cluster |
| Coordinators.ForgetSorts | coordinator/coordinator.cc:427-438 | sorting what is left after the swap and pop gives the list without that server |
| ConfigAcks.AckedMeansAdopted | daemon/daemon.cc:368-399 | in every run of the coordinator with its daemons, restores included and with delayed, repeated or lost acknowledgements: when acked through stands at w, every server of configuration w, as the coordinator ever gave it out, has itself adopted w |
| ConfigAcks.LiveWasIssued | coordinator/coordinator.cc:714-735 | after any run the configuration in force was issued, under its version, to its own servers |
| ConfigAcks.RunOnward | daemon/daemon.cc:378-394 | a daemon's adopted version never decreases |
| ConfigAcks.RunInv | daemon/coordinator_link_wrapper.cc:364-588 | every acknowledgement that the coordinator takes, resends included, is of a version its sender has adopted |
| ConfigAcks.AdoptingAcknowledges | daemon/daemon.cc:368-399 | a daemon that is handed a configuration ignores an older one, adopts any other, and sends the acknowledgement of a new one |
| ConfigAcks.OwedIsResent | daemon/coordinator_link_wrapper.cc:364-588 | an acknowledgement that is owed and not under way is sent again |
| ConfigAcks.ConfirmSettles | daemon/coordinator_link_wrapper.cc:364-588 | a request that succeeded settles what was owed, one that failed leaves it owed |
| CoordinatorLinks.LinkMovesForward | common/coordinator_link.cc:193-268 | in every run, however requests fail or are forced, the link holds a configuration the coordinator issued and only ever moves to a newer one |
| CoordinatorLinks.WaitBringsNews | common/coordinator_link.cc:270-316 | a completed wait and the fetch behind it bring a strictly newer configuration |
| CoordinatorLinks.NextInv | common/coordinator_link.cc:231-301 | each step keeps the shape that the program asserts when it starts a request and when one completes |
| CoordinatorLinks.PrimeAsks | common/coordinator_link.cc:193-216 | an idle link that holds a configuration waits for the next version, one that holds none fetches; a request under way is left alone |
| CoordinatorLinks.ForceAsks | common/coordinator_link.cc:50-69 | a forced fetch replaces whatever is outstanding |
| CoordinatorLinks.CompleteAsks | common/coordinator_link.cc:218-268 | a wait that is over is followed by a fetch; a fetch that is over leaves the link idle with what it brought, if that can be read and is of the same cluster; a failure leaves it idle with what it had |
| CoordinatorLinks.ServeAnswers | coordinator/coordinator.cc:491-499 | a fetch is answered with the configuration of that moment, and nothing else changes |
| CoordinatorLinks.FetchesHaveReason | common/coordinator_link.cc:193-316 | in every run a fetch is only ever started when the link holds no configuration yet, when it is forced, or when a wait has been completed |
| CoordinatorLinks.PrimedLinkCatchesUp | common/coordinator_link.cc:193-316 | an idle link that is primed waits until there is a newer configuration than its own, and adopts the newest |
| CoordinatorLinks.CoordinatorLink.HandleInternalCallback | common/coordinator_link.cc:218-268 | what each outcome of a request does to the fields |
| CoordinatorLinks.CoordinatorLink.PrimeStateMachine | common/coordinator_link.cc:193-216 | an idle link starts to wait, or to fetch when it has no configuration yet |
| CoordinatorLinks.CoordinatorLink.ForceConfigurationFetch | common/coordinator_link.cc:50-69 | whatever was under way is dropped and a fetch started |
| OptimisticTheorems.NoLostUpdate | client/pending_write.cc:235-321 | under every interleaving of clients, servers, failures, re-reads and retries, the register packs the first map with each committed change inserted, in commit order; byte by byte the replica lists are those the same writes leave on a flat array, and the offsets too when no slice is re-based |
| OptimisticTheorems.EachCommitOnce | client/pending_write.cc:294-317 | a round reported to have succeeded is among the commits, and no round commits twice; a write whose swap took effect but was reported failed commits again, in the round of its retry |
| OptimisticTheorems.LocationsAreTrue | daemon/daemon.cc:766-881 | for every address of the stored map: its replica list is that of the commit that wrote it last, and each location names a block on that server with exactly that write's bytes, or carries the id that a failed store leaves |
| OptimisticTheorems.ReadsBackWhatWasWritten | client/pending_write.cc:110-321 | when every store succeeded and no slice was re-based, reading any address through the stored map at any replica gives the byte written there last, and the file has exactly those bytes |
| OptimisticHistory.FileHoldsTheWrites | client/pending_write.cc:110-321 | the same, told by the run's write actions alone: the file's bytes are those of the last write of each commit's handle, at its address, in commit order |
| OptimisticHistory.RoundsCarryTheWrites | client/pending_write.cc:172-293 | in every run, each round carries the address and the data of the last write on its handle, retries included, and every write and every retry sends one |
| OptimisticHistory.SwapCommitsTheWrite | client/pending_write.cc:294-317 | a swap that takes effect commits the last write on its handle, at its address |
| OptimisticProgress.WriteSucceeds | client/pending_write.cc:110-321 | a write on a handle that is up to date, sent to any number of servers that have room, can be carried through: every server stores the data, and the register then packs the map with one more extent that lists all of them |
| OptimisticProgress.RetrySucceeds | client/pending_write.cc:282-317 | and so can the retry of a write that came too late, with the same address and data, on the map that was read again, when that map has no offsets to lose and reaches the address |
| OptimisticTheorems.RereadMatches | client/pending_write.cc:436-467 | after re-reading an unchanged map the compare-and-set can match if and only if all its offsets are 0 |
| OptimisticDepartures.FailedStoreCommits | daemon/daemon.cc:813-832 | a concrete run, a client writing one byte to a server whose store fails, after which the committed map has a slice with the id and the length that are left of -1 |
| OptimisticReplicas.CommitsListTheirReplicas | client/pending_write.cc:110-168 | a commit lists different servers of its round, and all of them unless a send or a request failed in it |
| OptimisticRouting.NoncesNeverCollide | client/client.cc:196-252 | no nonce is given out twice, in any run |
| OptimisticRouting.AnswersMeetTheirRequest | client/client.cc:606-653 | an answer that meets a pending request comes from the server it went to, answers the current round, and reports a block of that server with that round's bytes; the branch for a wrong server is never taken |
| OptimisticRouting.PostedAt | client/client.cc:207-249 | the sending loop leaves nonce base + i pending for replica i, for each replica the send reached, and touches no other nonce |
| OptimisticRouting.ProcessSends | daemon/daemon.cc:834-881 | processing an update adds to the network one copy for each other place of the list, from the first server of the list alone, and nothing else |
| OptimisticRouting.MasterForwards | daemon/daemon.cc:834-845 | once the first server has processed an update there is a copy for every other server of the list |
| OptimisticRouting.ProcessAnswers | daemon/daemon.cc:813-881 | the answer carries the nonce of the server's place, the new block's id and length or what is left of -1, and the store takes the data or not |
| OptimisticCommits.SwapExtends | client/pending_write.cc:334-410 | a compare-and-set that matches extends the committed map by this write's change |
| OptimisticCommits.AppliedOne | client/file.cc:111-123 | applying a write's changes is one insert, which keeps the map gapless and never shorter |
| OptimisticCommits.RetriedInsert | client/pending_write.cc:436-467 | a write retried on the map that was read again leaves no gap if and only if the committed map is empty or reaches its address |
| Replication.Client.PerformAggregation | client/client.cc:196-252 | replica i is sent nonce base + i, only the first gets the data, and what is pending and outstanding is what the sends reached |
| Replication.PendingAggregation.RemoveWtfMessage | client/pending_aggregation.cc:113-132 | removes the first occurrence of the server by shifting the rest down |
| Replication.Server.ProcessUpdate | daemon/daemon.cc:766-895 | a new block under a fresh id or none at all, a copy for each other replica from the first one of the list only, and the answer under this replica's own nonce |
| Replication.Server.NonceOffset | daemon/daemon.cc:851-859 | the offset is the first place of this server in the list |
| PendingWrites.PendingWrite.DoOp | client/pending_write.cc:235-270 | remembers the packed map, forgets earlier changes and sends, which is the protocol's step of a write |
| PendingWrites.PendingWrite.HandleWtfMessage | client/pending_write.cc:110-168 | an answer adds a replica; after the last one the changes are applied and the swap is sent |
| PendingWrites.PendingWrite.HandleCondput | client/pending_write.cc:294-317 | success ends the write; failure asks for the map as it is now |
| PendingWrites.PendingWrite.ApplyChangeset | client/file.cc:111-123 | the loop inserts the changes in address order, any number of them that leave no gap |
| PendingWrites.PendingWrite.HandleNewMetadata | client/pending_write.cc:282-293 | loads the map unless it is empty, and starts over with the same address and data, which is the protocol's step of a retry; undefined exactly when the value is too short to be unpacked |
| CanonPaths.CanonResolves | client/client.cc:1049-1094 | whenever the program succeeds, the buffer holds the stack resolution of the path's components |
| CanonPaths.CanonExactly | client/client.cc:1049-1094 | for every path, start and buffer size: it succeeds if and only if each name fits on top of what the components before it resolve to, and then with their resolution; otherwise the first name that does not fit decides between too long and leaving the buffer |
| CanonPaths.CanonOutcomes | client/client.cc:1049-1094 | the three outcomes, each if and only if: every name fits; the first that does not is caught by the test; the first that does not starts behind the place the test looks at |
| CanonPaths.CanonFits | client/client.cc:1082-1092 | in particular it succeeds when the start and the path together leave two places of the buffer unused |
| CanonPaths.ResultShape | client/client.cc:1047-1100 | a result starts with a slash and, split at its slashes, consists of names that are not empty, "." or ".."; it ends in a slash only when it is the root |
| CanonPaths.CanonTwice | client/client.cc:1017-1102 | canonicalising a result again changes nothing |
| CanonPaths.CanonShow | client/client.cc:1017-1102 | a canonical path is a fixed point if and only if its names can be put into the buffer one by one |
| CanonPaths.SteppedOver | client/client.cc:1085-1092 | the test for the end of the buffer is an equality that the slash behind a name can step over |
| PathClients.Client.CanonPath | client/client.cc:1017-1102 | the in-place walk leaves the resolution, terminated, exactly when the start and every name fit; it fails or leaves the buffer exactly when the first name that does not fit is caught or not |
| PathClients.Client.GetCwd | client/client.cc:1104-1121 | copies the working directory, or fails when it does not fit |
| PathClients.Client.StepBack | client/client.cc:1062-1071 | moves back over one name, and stays at the root |
| Placement.Configuration.AssignRandomBlockLocations | common/configuration.cc:289-381 | whatever is drawn: the client's own server first if it may be used, slots taken before unchanged, new ones on available servers, all different; once every slot is filled the assertions hold, and otherwise every draw was of an unavailable or used server |
| Placement.Configuration.ClosingCheck | common/configuration.cc:369-380 | the closing check compares every slot with the first one only |
| Placement.ExtendedDiffer | common/configuration.cc:289-381 | slots all different afterwards were different before |

## Left out

- Blocks with gaps, block reads from an offset other than 0, zero-length block writes and truncations to 0: the code calls results of gaps undefined, and zero lengths underflow its end arithmetic. The branch of `vblock::update` for a first slice that starts behind the write is then not reachable.
- Replication.Server.ProcessUpdate: the branch that updates an existing block is not modelled, because it writes at an offset that is never set (`daemon/daemon.cc:776`, used at `daemon/daemon.cc:819`), so there is no behaviour to state; clients do not reach it either, since they send the id that means "new block" in every location (`client/pending_write.cc:247-262` assigns servers only).
- CoordinatorRuns.RestoresInvisible: a restore gives back every field of the snapshot as it was, apart from the barriers; the packing of the plain fields is not modelled.
- Blockstore.RunRefines: stated for runs whose operations satisfy each branch's guard, because outside it update and truncate are wrong or undefined, exactly so by UpdateRefines and ResizeRefines.
- LogWriters.IssuedBlocksReadTheSame: for interleavings in which no other call reads or advances the counter inside a call's window, because the first such breach gives two calls the same id (BreachSharesANumber), and then their publishing overwrites the block (SharedNumberOverwrites). All other steps of other calls may come anywhere, updates that are not sound included; LateCopyChangesABlock shows what those can do.
- OptimisticTheorems.NoLostUpdate: writes start at or below the length of the handle's map, because an insert that leaves a gap breaks the map (InsertRefines says exactly when). After a write that ended with an error the handle's map may hold a change that was never committed (`client/pending_write.cc:163-164`, `client/pending_write.cc:393-397`), so the next one must start at or below the length of the committed map as well: its swap fails, it reads that map, and would leave a gap in it (RetriedInsert).
- OptimisticTheorems.ReadsBackWhatWasWritten: for runs in which every store succeeded and no commit re-bases a slice, because otherwise offsets and lengths in the map are wrong.
- CanonPaths.CanonFits: one way only, a condition on lengths alone; CanonOutcomes is exact.
- OptimisticWrites is about one file; several handles may be open on it, each with one write at a time. Deferred writes that share a handle are not modelled, nor that a write behind an older one at the same offset may never run (`client/pending_write.cc:218-226`): what is claimed is safety, and that a write which nothing disturbs can be carried through.
- OptimisticTheorems.LocationsAreTrue: a server draws an id and stores the block in one step, so it assumes on each server the guard of IssuedBlocksReadTheSame; without it two writes can get one id (CounterRace), and the location of one of them names the other's bytes.
- Server block stores are maps from ids to bytes in the write protocol; block ids start again at 0 in a new process, so the scope is one process lifetime.
- The truncated or malformed buffers that packers do not produce: unpacking them is a failure in the codec, undefined in the objects, and leaves a handle's map alone in the protocol.
- Attributes other than the extent map that a commit writes (mode, directory flag, time), and the replica count and block size packed in front of a map: constants of a file.
- The coordinator's log lines, alarm arming, suspect callback, `m_offline` and `m_counter`, which nothing reads; malformed requests, which change nothing.
- Placement.Configuration.AssignRandomBlockLocations: says nothing about the odds of a draw, only about each outcome.
- Networking, polling and timeouts (BusyBee, Replicant, HyperDex), LevelDB, memory mapping and recovery on start: sets of messages, counters, one register, an in-memory map and an array of bytes.
- The read path (`client/pending_read.cc`), file truncation (`client/pending_truncate.cc`) and re-replication: their cores are commented out or use unset values.
- rename, unlink, readdir, chmod, mkdir, getattr: attribute marshalling around searches, with no transaction behind them.
- The administration library, tools, benchmarks, FUSE, Java and Hadoop bindings, and thread and signal handling.
- Aliasing of slices through reference-counted pointers in `vblock`: slices are values, and a slice is never shared between two maps.
