# OpenTide, verified

A Dafny model of the parts of OpenTide whose correctness spans many steps, many functions or many
machines, with proofs of what they keep. `dafny verify dfyconfig.toml` verifies the project.

OpenTide deploys detection rules to security platforms from CI. The vendors' ids of the deployed
rules live in the repository, and a lost id is a duplicate rule, so most of the model is about not
losing one.

- **The deployment state write-back.** `WriteBack` is a state machine of any number of production
  jobs that race to one default branch over the git of `GitStore`: each takes the branch's newest
  state over its checkout, creates and deletes at the vendor, commits, and pushes, rebases or
  replays until its commit has landed, with an exit trap for every way out. Any step can fail, any
  job can stop, a push can land although it is reported rejected, and people merge in between.
  `WriteBackSafety` and `WriteBackSteps` prove the invariant and `WriteBackTheorems` the theorems
  over all behaviours, and `WriteBackProgress` that retries and undisturbed runs get through;
  `WriteBackScript` is the script of one job, with its shell variables and its
  `until` loop, each part of which is shown to be a step of the machine. `ThreeWay` and
  `StateReplay` are the replay itself, as an algebra and as the loops over shard files;
  `ReplayStep` shows that the loops compute the protocol's step. `ExternalIds` is the decision each
  deploy takes, over any series of runs.
- **The inflight shards.** `Inflight` and `InflightProgress` are the same push loop over files, for
  the jobs that publish and prune preview shards.
- **The YAML walk.** `YamlWalk` proves the explicit-stack search for cycles and repeated keys
  against recursive depth-first search, and that against reachability.
- **The registry snapshot cache.** `SnapshotCache` is one process and its disk, on which others
  write between any two steps: fingerprints, retained snapshots, memos and typed objects.
- **Root flags.** `RootFlags` is the hoisting of global flags over a command tree; `CommandLines`
  builds command lines from that tree and proves that they are read back item by item.
- **Positions.** `Positions` relates UTF-16 units (LSP 3.17; section 2.1 of RFC 2781), code points
  and UTF-8 bytes (section 3 of RFC 3629).
- **Configuration trees.** `Modifiers` and `ModifierResolver` are rule modifiers, flattened and
  applied key by key; `Layers` is the layered configuration with its two names for one table.
- **Smaller loops.** `StackChain`, `Ticker`, `QuotedScalars` and `RuleScopes`.

A path of a source is relative to the repository's root. Trees are git commits reduced to two maps:
the bindings of the deployment state, and the content of every other file.

## Where the code is not what its documentation says

The model follows the code. Each of these is a theorem with its exact condition:

- A dotted key whose last segment occurs earlier in it is not unrolled into its nesting
  (`Modifiers.UnrollNestsIff`, `ModifierResolver.NothingLostIff`).
- A file created after the fingerprint and deleted around the end of a build stays in the retained
  snapshot, which is then reused (`SnapshotCache.ReusedIsFreshIff`, `SnapshotCache.PhantomFile`).
- The hoisting stops at the first `--` even when that is an option's value
  (`RootFlags.HoistingKeepsMeaning`, `RootFlags.FlagBehindAValue`).
- Position conversion clamps a line past the end but keeps the character, and so can reverse the
  order of two positions (`Positions.OrderKeptIff`, `Positions.PastTheEndComesBack`).
- A step reports up to 39 events, not about 20 (`Ticker.AtMost39`, `Ticker.TwentyPlusOneIff`).
- Replaying a replayed commit is not replaying the original where the first tip already held this
  run's value and the second does not (`ThreeWay.ReplayOfAReplay`).
- A quoted `"|"` or `">"`, or a quoted empty text, is read as no value
  (`QuotedScalars.SingleScalarIff`, `QuotedScalars.DoubleScalarIff`).
- A delete by a run whose shard nobody commits leaves an id on record that names nothing
  (`ExternalIds.RecordStaysTrueIff`).
- Not every pull request of a stack shows the same chain when two are based on one branch
  (`StackChain.StacksAgreeIff`, `StackChain.ForkedStack`).

## Model

| member | source | states |
|---|---|---|
| `ThreeWay.MergeOntoParent` | src/opentide/ci/state_replay.py:106-119 | Replaying a commit onto its own parent gives the commit. |
| `ThreeWay.MergeTwice` | src/opentide/ci/state_replay.py:106-119 | Replaying the same commit a second time changes no binding and finds no conflict. |
| `ThreeWay.DisjointReplaysCommute` | src/opentide/ci/state_replay.py:106-119 | Two replays whose deltas share no key give the same result in either order. |
| `ThreeWay.ReplayOfAReplay` | src/opentide/ci/writeback.py:264-284 | The loop re-binds `state_commit` to the replayed commit. At one key, replaying that onto a second tip equals replaying the original delta exactly when the key was not in the delta, or the first tip did not already hold the new value, or the second tip holds it. |
| `ThreeWay.FreshValueSurvivesReplays` | src/opentide/ci/writeback.py:264-284 | However often the rebase conflicts, a value that no tip held before is still bound after the last replay. |
| `StateReplay.Shard.Bind` | src/opentide/states/deployment.py:272-287 | Succeeds exactly for a known platform, a tenant that is not blank and an id that can be normalised, an integer included; then the bindings change at that one key, else not at all. |
| `StateReplay.StripIs` | src/opentide/states/deployment.py:106-108 | A tenant's key is its name without the white space at both ends, and nothing else is taken off. |
| `StateReplay.SameIdIff` | src/opentide/states/deployment.py:114-147 | A number is accepted exactly when it is not negative, and is the same id as a string exactly when the string is its canonical decimal; a stored id is stored unchanged when handed over again. |
| `StateReplay.Shard.Unbind` | src/opentide/states/deployment.py:289-297 | Returns the old id and removes exactly that key, and leaves no platform without a tenant. |
| `StateReplay.EmptyShard` | src/opentide/states/deployment.py:289-297 | A shard without an empty platform has no platform exactly when it binds nothing, which is what decides whether its file is deleted. |
| `StateReplay.AppliedIsMerge` | src/opentide/ci/state_replay.py:106-119 | The per-key loop, over the keys of both sides in any order, is the pointwise three-way merge. |
| `StateReplay.LinesMember` | src/opentide/ci/state_replay.py:110-115 | A conflict line is printed for exactly the visited keys where this run changed the entry and the tip holds neither the old nor the new value. |
| `StateReplay.ReplayShard` | src/opentide/ci/state_replay.py:106-121 | One shard: the merged bindings, the tip's own extra keys kept and the commit's added, and the conflict lines. |
| `StateReplay.Checkout.Save` | src/opentide/states/deployment.py:313-322 | The file is there exactly when something is bound, holds the shard's bindings and extra keys, and no other file changes. |
| `StateReplay.Checkout.Replay` | src/opentide/ci/state_replay.py:78-125 | The whole replay: every binding of every shard file is the three-way merge of parent, commit and tip; the conflicts reported are exactly the real ones; `written` and `removed` say which files are left; files outside the delta are untouched; it fails exactly on a shard it cannot read. |
| `ReplayStep.ReplayCommit` | src/opentide/ci/writeback.py:270-284 | On files, the replay computes the state that the protocol's replay step assumes, and its conflict lines name exactly the tip's bindings that the step records as named. |
| `GitStore.CleanIff` | src/opentide/ci/writeback.py:262-265 | A rebase may apply exactly when the tip holds every entry that the commit changed as the commit found it or as it left it. |
| `WriteBackSteps.StepKeeps` | src/opentide/ci/writeback.py:228-289 | Every step of every run (overlay, create, delete, edit, commit, push with any answer, fetch, rebase, replay, trap, exit) and every merge by others keeps the invariant that each id a run created is in its working tree, its two commits, on the branch or on record. |
| `WriteBackSteps.CleanMergeLossless` | src/opentide/ci/writeback.py:262-264 | A rebase that applies loses only bindings that the commit itself removed. |
| `WriteBackSteps.ReplayLossless` | src/opentide/ci/writeback.py:270-273 | A replay loses only bindings that the commit removed and bindings it names in a conflict line. |
| `WriteBackSafety.HandMerge` | src/opentide/ci/writeback.py:82-116 | Whatever another job or a person puts on the branch while runs are under way, the invariant stays, what was removed being on record. |
| `WriteBackTheorems.NoIdIsLost` | src/opentide/ci/writeback.py:203-233 | Over every interleaving of any number of runs: an id a vendor call returned is, once that run's write-back has ended, bound on the default branch, or recorded as deleted, removed by hand, named in a conflict line, or printed and offered to the side ref; there was no such record before the create; and the line of the create stays in the log whatever becomes of the run. |
| `WriteBackTheorems.BranchForgetsNothing` | src/opentide/ci/writeback.py:203-233 | A binding that the branch has ever held is still there or its removal is on record. |
| `WriteBackProgress.RecordsAreEarned` | src/opentide/ci/writeback.py:203-254 | What a record stands for: a removal is recorded by the vendor's delete of that very binding, by a merge that drops it, or by the landing of a commit that has named it; the log by its create; and the side ref's offer by a run that gives up and whose state commit added it. |
| `WriteBackTheorems.PublishedMeansHeld` | src/opentide/ci/writeback.py:242-289 | `state_published` ends as 1 only when the branch holds every id the run created, but for removals on record. |
| `WriteBackTheorems.ExitStatus` | src/opentide/ci/writeback.py:310-331 | A failed deploy's status is the script's. Status 0 means that the deploy succeeded and that every change which the script may commit, to the state and to the tracked files of the rules folder, deletions included, has been on the branch in a commit on top of the one the overlay was taken from. |
| `WriteBackTheorems.AtMostFivePushes` | src/opentide/ci/writeback.py:255-261 | No run pushes to the branch more than five times. |
| `WriteBackProgress.GivesUpAtTheFifth` | src/opentide/ci/writeback.py:255-261 | A rejected push is followed by a fetch, and the fifth by the trap, with the deploy's status when that failed and 1 else. |
| `WriteBackProgress.RetryReachesThePush` | src/opentide/ci/writeback.py:262-284 | From a rejection on, beside a still branch: a rebase that applies ends at a push that can land, of the commit merged onto the branch's tree; so does the replay, of the state commit's delta merged onto it and with `state_commit` re-bound, unless the branch holds that state already. |
| `WriteBackProgress.RetryCanLand` | src/opentide/ci/writeback.py:255-285 | Over every behaviour: from a fetch on, as long as nobody moves the branch, the run's next push can land, whatever other runs do and by whichever way it comes to that push; and landing it publishes the run. |
| `WriteBackProgress.UndisturbedPublishes` | src/opentide/ci/writeback.py:228-331 | A run that is not stopped and whose push is accepted when it can land publishes whenever it has anything to commit, with at most two pushes; its status is the deploy's when that failed, and 0 when the deploy succeeded, the rule files validate and no rebase stops. |
| `WriteBackProgress.NeverStuck` | src/opentide/ci/writeback.py:255-285 | Until it has ended, such a run can always take a step. |
| `WriteBackProgress.WhenAPushCanLand` | src/opentide/ci/writeback.py:255-256 | A push can land exactly on the branch's own commit or one below the run's. |
| `WriteBackProgress.WhenARebaseApplies` | src/opentide/ci/writeback.py:262-265 | A rebase may apply exactly when the fetched tip holds every entry that HEAD changed as HEAD found it or as HEAD left it. |
| `WriteBackProgress.CommitHolds` | src/opentide/ci/writeback.py:228-241 | Entry by entry, what the write-back commits on the overlay: the state as the deploy left it, and the changed tracked rule files exactly when they validate; there is no commit when that changes nothing, and `writeback_status` notes exactly that a changed rule file was left out. |
| `WriteBackProgress.LastActionLands` | src/opentide/ci/writeback.py:203-233 | When a run ends with status 0, the last create or delete that its deploy made at a place has been on the branch since the overlay. |
| `WriteBackProgress.LastEditLands` | src/opentide/ci/writeback.py:149-167 | And so has its last edit of a tracked file of the rules folder, where it changed the file. |
| `WriteBackTheorems.LoopTerminates` | src/opentide/ci/writeback.py:255-285 | Each step of the push loop uses up one of at most 21, whatever the other runs do. |
| `WriteBackScript.Script.Others` | src/opentide/ci/writeback.py:203-233 | Between any two lines of the script, any number of steps of other jobs and merges leave its variables alone and keep the invariant. |
| `WriteBackScript.Script.StageAndCommit` | src/opentide/ci/writeback.py:149-167 | Staging the state whatever happens, and of the rules folder the tracked files and only if they validate, and the commit, are one step of the protocol; `writeback_status` notes rules left out. |
| `WriteBack.TrackedAt` | src/opentide/ci/writeback.py:149-165 | What `git add -u` stages: the working tree's entry, or its absence, for the tracked files of the rules folder, and the old entry for every other file. |
| `WriteBackScript.Script.PushOnce` | src/opentide/ci/writeback.py:255-261 | The push with what follows it, accepted, rejected, or landed and reported rejected, is one step; the fifth rejection leaves through the trap. |
| `WriteBackScript.Script.FetchTip` | src/opentide/ci/writeback.py:262-262 | The tip fetched is the branch as it is at that moment; a failed fetch leaves through the trap. |
| `WriteBackScript.Script.PutOnTop` | src/opentide/ci/writeback.py:263-284 | Rebase or replay, others taking any steps in between: when the script comes to a push again, HEAD is on top of the tip that was fetched. |
| `WriteBackScript.Script.RebaseOnto` | src/opentide/ci/writeback.py:262-269 | The rebase with its abort is one step; a rebase that stops sets `writeback_status` to 1. |
| `WriteBackScript.Script.ReplayState` | src/opentide/ci/writeback.py:270-284 | The replay and its commit are one step, with `state_commit` re-bound; a tip that holds the state already ends the script as published. |
| `WriteBackScript.Script.Leave` | src/opentide/ci/writeback.py:245-254 | The trap offers exactly what the state commit changed, and the status is the deploy's when that failed. |
| `WriteBackScript.Script.WriteBack` | src/opentide/ci/writeback.py:228-331 | The whole script with its `until` loop, others taking any steps in between: it ends after at most five pushes; each id the deploy created is on the branch or on record; status 0 means that the deploy succeeded and that all the script may commit has landed on top of the commit the overlay was taken from; and every retry can land unless the branch has moved since its fetch. |
| `ExternalIds.PlanActsOnTheRecord` | src/opentide/deployment/external_ids.py:162-221 | Each outcome and exactly when it is planned: a key left in the rule is refused; a recorded id is deleted under deletion and updated under every other status; without one, deletion and disablement are warned about, and a create is planned exactly where git does not ignore the shard and some job will commit it. |
| `ExternalIds.OneIdForLife` | src/opentide/deployment/external_ids.py:185-201 | Until it is deleted a rule keeps its one id: over any series of runs that deploy or disable it, in any environment, the recorded copy stays on record and holds the rule as the last run that delivered it had it, and no other copy appears, changes or goes. |
| `ExternalIds.BornAndGone` | src/opentide/deployment/external_ids.py:185-258 | A rule gets its id from the first run that plans a create and has no failure, and loses copy and record with the first such run that deletes it where its shard is committed. |
| `ExternalIds.OnlyReportedIdsAreUnknown` | src/opentide/deployment/external_ids.py:162-258 | Over any series of runs in any environment, the remote copies that no shard names are those there were at first and those whose failed shard write was reported, and no others. |
| `ExternalIds.AtMostOneCopy` | src/opentide/deployment/external_ids.py:124-159 | As long as every shard write succeeds there is never more than one copy of the rule on the tenant, pull request runs and unknown environments included. |
| `ExternalIds.RecordStaysTrueIff` | src/opentide/deployment/external_ids.py:185-201 | A recorded id keeps naming a copy that exists, exactly unless a run whose shard nobody commits, or could not be written, deleted it. |
| `Inflight.StepKeeps` | src/opentide/ci/inflight.py:133-153 | Every step of every publishing or pruning job, and every merge by others, keeps the invariant of the push loop. |
| `Inflight.PublishTouchesItsShardsOnly` | src/opentide/ci/inflight.py:161-211 | A push that lands changes nothing on the default branch but shards that the job itself changed relative to the commit it copied from, and these become the job's. |
| `Inflight.OnlyChangedShardsChange` | src/opentide/ci/inflight.py:161-211 | Over any stretch of a behaviour without another merge, the deployment state and every file outside `.opentide/inflight/` stay as they are, and a shard that changed is as some job that changed it left it. |
| `Inflight.ExitZeroMeansPublished` | src/opentide/ci/inflight.py:133-153 | Status 0 means that every shard which differs in the job's checkout from the commit it was copied from, pruned ones included, has been on the branch as it is there, in a commit on top of that one. |
| `Inflight.AtMostFivePushes` | src/opentide/ci/inflight.py:142-150 | No job pushes more than five times. |
| `InflightProgress.GivesUpAtTheFifth` | src/opentide/ci/inflight.py:142-150 | A rejected push is followed by a fetch, and the fifth by status 1. |
| `InflightProgress.RetryReachesThePush` | src/opentide/ci/inflight.py:142-152 | From a rejection on, beside a still branch, a rebase that applies ends at a push that can land, of the job's change merged onto the branch, or of the branch itself when that holds the commit already. |
| `InflightProgress.RetryCanLand` | src/opentide/ci/inflight.py:142-152 | Over every behaviour: from a fetch on, as long as nobody moves the branch, the job's next push can land, and landing it ends the job with status 0. |
| `InflightProgress.UndisturbedEndsWell` | src/opentide/ci/inflight.py:133-153 | A job that is not stopped and whose push is accepted when it can land ends with status 0 and at most two pushes. |
| `InflightProgress.WhatAJobCanDo` | src/opentide/ci/inflight.py:142-152 | A push can land exactly on the branch's own commit or one below the job's; a rebase applies exactly when HEAD is on the tip, or the tip holds every entry the commit changed as it was or as it became. |
| `InflightProgress.PublishHolds` | src/opentide/ci/inflight.py:192-211 | Entry by entry, what a job commits: the shards of its checkout and every other file as in the commit they were copied from; there is no commit when that changes nothing. |
| `InflightProgress.LastEditLands` | src/opentide/ci/inflight.py:133-153 | When a job ends with status 0, its last edit of a shard, a removal included, has been on the branch since the commit its shards were copied from, where it changed the shard. |
| `Inflight.UneditedPublishesNothing` | src/opentide/ci/inflight.py:161-172 | A job that edits no shard publishes nothing, whatever copy of the shards its own checkout holds: pruned shards do not come back. |
| `YamlWalk.FindDuplicate` | src/opentide/core/io.py:180-196 | The `seen` loop finds the first key that repeats an earlier one, or none. |
| `YamlWalk.RejectDuplicateKeys` | src/opentide/core/io.py:158-200 | The walk with an explicit stack gives the answer of recursive depth-first search; there is an error exactly when some node reachable over values and items lies on a cycle or repeats a key, and it is the first in the document; no node is expanded twice, and the turns are bounded by one plus, for each node expanded, one and its children. |
| `YamlWalk.VisitMeans` | src/opentide/core/io.py:158-200 | From any point of the search: acceptance leaves only nodes from which no cycle and no repeated key can be reached; a refusal is witnessed by a reachable node that closes a cycle or repeats that key first. |
| `YamlWalk.AcceptedIffSound` | src/opentide/core/io.py:158-200 | A document is accepted exactly when no node reachable over the values of mappings and the items of sequences lies on a cycle or repeats a key. |
| `YamlWalk.FirstFaultReported` | src/opentide/core/io.py:158-200 | Of all walks from the root that come to a fault, to a node still open or to a key that repeats, the error is that of the first in document order: remembering the nodes already checked changes nothing. |
| `SnapshotCache.ReusedIsFreshIff` | src/opentide/core/index_manager.py:105-124 | When the fingerprints agree, the kept snapshot is what a build would return now exactly when its build found no file that the fingerprint before it had not seen. |
| `SnapshotCache.SameFingerprintIff` | src/opentide/core/index_manager.py:60-111 | Two fingerprints agree exactly when the same files stand under the folders, each with the same stamp, and the same folders. |
| `SnapshotCache.PhantomFile` | src/opentide/core/index_manager.py:114-124 | For every disk, configuration and folder that the configuration names, a run where it is not: a file written in that folder after the fingerprint and deleted after the build is in the kept snapshot and in no fingerprint. |
| `SnapshotCache.Process.Walk` | src/opentide/core/index_manager.py:60-77 | One listing of a folder and one look at each file, others writing in between: every file of the folder is in the entries as it is or was written since, and every entry was true then or since. |
| `SnapshotCache.Process.TakeFingerprint` | src/opentide/core/index_manager.py:101-111 | The same over all folders; on a still disk it is their fingerprint. |
| `SnapshotCache.Process.FingerprintBeforeBuild` | src/opentide/core/index_manager.py:114-124 | Taken while others write, it names no write that is still to come; on a still disk it is the fingerprint of the folders that a build would read. |
| `SnapshotCache.Process.Build` | src/opentide/core/index_manager.py:179-179 | Beside writers, a build has read every file that the fingerprint saw and that is still untouched as it is; on a still disk it is a fresh build. |
| `SnapshotCache.Process.Reuse` | src/opentide/core/index_manager.py:170-178 | While others write, a kept snapshot is used only if it holds every file of its folders as it is, but for those written since the check began; on a still disk it is used exactly when the files it was built from look unchanged, and then equals a fresh build exactly when its build saw no file missing from its fingerprint. |
| `SnapshotCache.Process.BuildAndKeep` | src/opentide/core/index_manager.py:178-183 | On a still disk the result is a fresh build, and the next load will find it unchanged; beside writers it holds every file as it is, but for those written since the load began; other keys' snapshots stay. |
| `SnapshotCache.Process.Load` | src/opentide/core/index_manager.py:163-183 | The cached snapshot is returned as it is; otherwise reuse under the condition above, else a build; over writes by others between any two steps, what is loaded holds every file as it is, but for those written since the load began. |
| `SnapshotCache.Process.DropCache` | src/opentide/core/index_manager.py:127-142 | Dropping the snapshot drops the four memo fields. |
| `SnapshotCache.Process.Chaining` | src/opentide/core/registry.py:576-591 | The chaining graph served is the one of the accessor's own snapshot, and is kept for it. |
| `SnapshotCache.Process.FlatIndex` | src/opentide/core/registry.py:594-601 | The flat index served is the one of the accessor's own snapshot, and is kept for it. |
| `SnapshotCache.Process.Initialise` | src/opentide/core/registry.py:47-59 | The index is the cached snapshot, or one that holds every file as it is but for those written since; typed objects go when the index is another one; a failed build changes nothing in the registry. |
| `SnapshotCache.Process.Reload` | src/opentide/core/registry.py:61-69 | Whatever was cached, the index afterwards holds every file as it is, but for those written since the reload began, and no typed object and no memo is left; on a still disk it is a fresh build, except where a kept snapshot looks unchanged whose build saw a file missing from its fingerprint. |
| `SnapshotCache.Process.Rules` | src/opentide/core/registry.py:71-98 | Typed objects always come from the index that the registry has now. |
| `RootFlags.RootOptionsEnd` | src/opentide/cli/lazy.py:366-377 | The index returned ends the root's options: every token before it is an option or the value of the option before it, and it is neither, or the line ends there, one further on when a value is missing. |
| `RootFlags.SplitRootOptions` | src/opentide/cli/lazy.py:380-398 | The values are what the root's options say, the last of each name, and the rest is the line after them. |
| `RootFlags.Scan` | src/opentide/cli/lazy.py:455-476 | The loop over the words collects exactly the root flags and the command's own words of the recursive reading, each in order. |
| `RootFlags.HoistRootFlags` | src/opentide/cli/lazy.py:440-477 | The line returned, the early return included, is the one that reading defines. |
| `RootFlags.ReadIsSelected` | src/opentide/cli/lazy.py:455-477 | The recursive reading is a selection by role: the flags, the command's own words and the tail are the words of each role in the order of the line. |
| `RootFlags.StablePartition` | src/opentide/cli/lazy.py:455-477 | The words that move are exactly those with a root flag's role; they and those that stay are rising selections of the line's words, without a common one and together all before the tail; no moved word is an option's value, stands behind a `--` that ends the options, or is an option of the command it follows. |
| `RootFlags.HoistedLine` | src/opentide/cli/lazy.py:440-477 | In the hoisted line the root's options end at the same command word and the first `--` is where it was. |
| `RootFlags.HoistTwice` | src/opentide/cli/lazy.py:440-477 | Hoisting twice is hoisting once. |
| `RootFlags.HoistingKeepsMeaning` | src/opentide/cli/lazy.py:440-477 | A parser with root flags only in front reads the hoisted line as a reference parser, which takes root flags anywhere before the `--` that ends the options, reads the original: exactly unless the line's first `--` is an option's value and a root flag stands behind it. |
| `RootFlags.FlagBehindAValue` | src/opentide/cli/lazy.py:449-451 | The family of lines where it does not: an option takes `--` as its value and a root flag follows. |
| `CommandLines.ReadOfLine` | src/opentide/cli/lazy.py:440-477 | Of every line put together from items, each spelled by the command tree alone (subcommand words, arguments, options with and without values, root flags that the command so named does not define): exactly the last kind moves, and every other item stays as it was spelled. |
| `CommandLines.LineOf` | src/opentide/cli/lazy.py:440-477 | Every sequence of words is such a line. |
| `CommandLines.RolesOfLine` | src/opentide/cli/lazy.py:453-476 | At each item the command is the one that the subcommand words before it name, by the subcommands of each node, and the word after a value option is its value. |
| `CommandLines.AtEveryDepth` | src/opentide/cli/lazy.py:440-477 | Behind any path of words that names a command: the value of one of its options stays with it, a flag that it defines itself stays, and one that it does not define moves. |
| `CommandLines.HoistedItems` | src/opentide/cli/lazy.py:440-477 | The hoisted line in terms of the items between the command word and the first `--`. |
| `CommandLines.SaidOfItems` | src/opentide/cli/lazy.py:380-398 | Of every line of root options: each parameter has the last value that any of its names was given. |
| `Positions.NewLineStarts` | analysis/src/lib.rs:492-496 | The byte offsets of exactly the line starts. |
| `Positions.Position` | analysis/src/lib.rs:523-540 | The loop counts the fewest code points of the clamped line that reach the UTF-16 units asked for, or all of them. |
| `Positions.Offset` | analysis/src/lib.rs:513-521 | The byte offset of the clamped line and column. |
| `Positions.BoundaryRoundTrip` | analysis/src/lib.rs:513-540 | For every text and code-point boundary: its LSP position converts to its 1-based line and code-point column, and these to its byte offset. |
| `Positions.OrderKeptIff` | analysis/src/lib.rs:523-540 | Conversion keeps the order of two positions exactly unless the later is past the last line, the earlier on or past it, and a code point of the last line starts between the later's character and the earlier's. |
| `Positions.PastTheEndComesBack` | analysis/src/lib.rs:523-540 | Two concrete positions that change their order. |
| `Positions.Clamped` | analysis/src/lib.rs:498-511 | Past the end of its line a position is that end; past the last line it is on the last line. |
| `Positions.OffsetMeans` | analysis/src/lib.rs:498-521 | The way back clamps too: line and column 0 are the first, a line past the last is the last, and a column past the end of its line is that end. |
| `Positions.MidSurrogateRoundsUp` | analysis/src/lib.rs:530-538 | A position between the halves of a surrogate pair becomes the boundary after the pair. |
| `Positions.NeverEmpty` | src/opentide/analysis.py:146-167 | A converted span is never empty, reversed ranges included, nor is it once its end has been moved back. |
| `Positions.SpanConvertsExactly` | analysis/src/lib.rs:500-509 | A span between two boundaries becomes their lines and columns. |
| `Positions.EndsOnTheNewlinesLine` | src/opentide/analysis.py:146-167 | A span whose last character is a newline ends on that newline's line, after its last character, a carriage return not counted. |
| `Positions.EndsWithoutTheText` | src/opentide/analysis.py:146-167 | Without the text, such a span keeps its end, unless it starts on the newline's line: then it is one column long. |
| `Positions.OtherEndsStay` | src/opentide/analysis.py:146-167 | Any span whose last character is no newline keeps its end. |
| `Modifiers.DeepUpdateInPlace` | src/opentide/deployment/planning.py:283-295 | The loop over the keys, in any order, computes the recursive update, its error included. |
| `Modifiers.DeepUpdateMeans` | src/opentide/deployment/planning.py:283-295 | A deep update fails exactly when a scalar of the base stands where the update has a table with entries; otherwise every path reads as the update says, and as the base where it says nothing or has an empty table over a scalar. |
| `Modifiers.OneByOneMeans` | src/opentide/deployment/planning.py:366-384 | Applying leaf paths one at a time fails exactly when a scalar of the base is on the way to one; otherwise every path reads as the applied leaves say. |
| `Modifiers.AnyOrderIsOneUpdate` | src/opentide/deployment/planning.py:366-384 | Applying every leaf of a tree by itself, in any order, is one deep update by the tree. |
| `Modifiers.SplitJoin` | src/opentide/deployment/planning.py:90-100 | Splitting a dotted key gives back the path it was joined from, for keys that are not empty and hold no dot. |
| `Modifiers.SplitIs` | src/opentide/deployment/planning.py:90-100 | Of any text: the segments hold no dot, and joined by dots they are the text again. |
| `Modifiers.UnrollDotDict` | src/opentide/generation/framework.py:51-75 | The loop over the reversed segments builds what the recursion over the segments builds, first key included. |
| `Modifiers.UnrollNestsIff` | src/opentide/generation/framework.py:63-75 | Unrolling a dotted key nests its segments exactly when the last segment does not occur earlier in the key. |
| `Modifiers.UnrollLeaves` | src/opentide/generation/framework.py:51-75 | Of any dotted key: the value stands once for each occurrence of the last segment, below the segments before that which differ from it, and nowhere else. |
| `Modifiers.FirstKeyIs` | src/opentide/generation/framework.py:51-75 | The root key is the first segment that differs from the last, or that one. |
| `ModifierResolver.FlattenMapping` | src/opentide/deployment/planning.py:76-100 | Every scalar is under its own dotted path and nothing else is there: with plain keys, flattening loses nothing and joins nothing. |
| `ModifierResolver.NewValue` | src/opentide/deployment/planning.py:337-364 | The value set for a key: `NONE` and `NULL`, and `prefix::` and `suffix::` against what the configuration has under that key at that turn, or against one of the values where several paths spell the key. |
| `ModifierResolver.ResolvePlain` | src/opentide/deployment/planning.py:337-341 | Values without an operator: `NONE` and `NULL` set nothing, everything else is set as it is. |
| `ModifierResolver.ResolveOperator` | src/opentide/deployment/planning.py:341-364 | `prefix::` puts the value in front of the old text and `suffix::` behind it; what follows a second `::` is dropped; without an old value the value is set alone, an old value that is neither text nor falsy raises, and any other operator leaves the text as it is. |
| `ModifierResolver.ApplyModifier` | src/opentide/deployment/planning.py:334-384 | The loop over the flat keys gives one deep update by the tree of resolved values, without its empty tables and restricted to the typed roots, or stops with an error exactly when that update fails or a value cannot be resolved. |
| `ModifierResolver.AnyOrderIsOneModification` | src/opentide/deployment/planning.py:334-384 | The same for every order of the keys: although each turn reads the configuration left by the ones before, only the first configuration matters. |
| `ModifierResolver.NothingLostIff` | src/opentide/deployment/planning.py:334-384 | On an empty configuration the keys give the modifier's tree back, without its empty tables, exactly when no path's last segment occurs earlier in the path. |
| `Layers.DeepMergeInPlace` | src/opentide/core/files.py:23-33 | The loop, in any order of the keys, reads at every path as the later layer says and as the earlier one where the later says nothing. |
| `Layers.MergeMeans` | src/opentide/core/files.py:23-33 | The path law of one merge: scalars win over anything, tables over scalars, and tables merge. |
| `Layers.FoldedIsLastWord` | src/opentide/core/files.py:93-136 | Folding the layers reads at every path as the last layer that says something about it. |
| `Layers.StaysTheSameIff` | src/opentide/core/files.py:111-136 | `systems` stays the same object as `platforms` exactly as long as no layer sets either to something that is not a table. |
| `Layers.KeyMeans` | src/opentide/core/files.py:111-136 | What one key's turn does under every name: a table merged into a table is seen under each name of it, any other value under its own key alone, and nothing else changes. |
| `Layers.LayerMerges` | src/opentide/core/files.py:114-136 | A layer of tables without `systems` merges as `deep_merge` whatever the order of its keys, and `systems` shows what `platforms` shows. |
| `Layers.LayersMerge` | src/opentide/core/files.py:93-138 | The same over all the layers, to the end. |
| `StackChain.ParentIs` | scripts/github_stack_comment.py:47-54 | The parent is the lowest-numbered pull request on the base branch, and none for a trunk base. |
| `StackChain.ChildIs` | scripts/github_stack_comment.py:57-62 | The child is the lowest-numbered pull request based on the head branch, trunk branches included. |
| `StackChain.BuildStackChain` | scripts/github_stack_comment.py:65-86 | For every list, cyclic ones included, the two loops end; the chain holds the current pull request, no number twice, each on the branch of the one before, and neither end can be extended. |
| `StackChain.SameChainIff` | scripts/github_stack_comment.py:65-86 | Every member shows the same chain exactly when each link holds in both directions and the bottom has no parent but possibly itself. |
| `StackChain.OneStackOneChain` | scripts/github_stack_comment.py:65-86 | In an orderly list without forks (unique numbers and heads, no trunk-named head, no cycle, no two based on the head of a third) every member shows the same chain and it is the whole stack. |
| `StackChain.StacksAgreeIff` | scripts/github_stack_comment.py:65-86 | In an orderly list without cycles all members of every stack show the same chain exactly when no two pull requests are based on the head of a third. |
| `StackChain.ForkBreaks` | scripts/github_stack_comment.py:47-86 | Two pull requests on the head of a third: the third does not show the chain of one of the two. |
| `StackChain.ForkedStack` | scripts/github_stack_comment.py:65-86 | Three pull requests, the last two based on the first: the third shows itself above the first, the first shows the second above itself. |
| `Ticker.Ticker.Advance` | src/opentide/core/progress_events.py:134-142 | Adds the count under the lock and reports from the caller's own two numbers. |
| `Ticker.OneCallCrosses` | src/opentide/core/progress_events.py:134-142 | Every batch boundary up to the total is crossed by exactly one call, and that call reports. |
| `Ticker.AtMost39` | src/opentide/core/progress_events.py:116-142 | Any split of the total into positive calls gives at most 39 events, of increasing counts, the last one the total. |
| `Ticker.TwentyPlusOneIff` | src/opentide/core/progress_events.py:117-124 | The documented bound of 20 events and the last one holds for every split exactly when the total is under 20 or its rest modulo 20 is at most a twentieth of it. |
| `Ticker.AnyInterleaving` | src/opentide/core/progress_events.py:134-142 | Whatever threads do between taking the lock and emitting: once all have returned, at most 39 events are out, no two alike, and exactly one says that all is done. |
| `QuotedScalars.SingleQuoted` | src/opentide/cli/completion.py:259-268 | The index scan and the replacement read back every text written in single quotes, before any tail that does not extend the quote. |
| `QuotedScalars.SingleRoundTripIff` | src/opentide/cli/completion.py:259-268 | They do so exactly when the tail does not extend the quote (YAML 1.2.2, section 7.3.2). |
| `QuotedScalars.DoubleQuoted` | src/opentide/cli/completion.py:271-276 | The scan to the closing quote and the left-to-right decoding read back every encoding of every text. |
| `QuotedScalars.DoubleRoundTrip` | src/opentide/cli/completion.py:271-283 | Each character may be written as itself, by its escape, or in two, four or eight hexadecimal digits (YAML 1.2.2, sections 5.7 and 7.3.1); any tail may follow. |
| `QuotedScalars.SingleScalarIff` | src/opentide/cli/completion.py:245-256 | With white space around it, a single-quoted scalar is read as its text exactly when that is none of the five texts taken for no value. |
| `QuotedScalars.DoubleScalarIff` | src/opentide/cli/completion.py:245-256 | The same for double quotes. |
| `QuotedScalars.PlainScalarIff` | src/opentide/cli/completion.py:245-256 | Without quotes: the text, without the white space around it and a comment behind a blank, under the same condition. |
| `RuleScopes.BoundedIs` | src/opentide/core/deploy_events.py:222-226 | A kept error is at most 400 characters with single blanks only, and bounding it again changes nothing. |
| `RuleScopes.BoundedOfWords` | src/opentide/core/deploy_events.py:222-226 | It is the error's words with one blank between any two, whatever white space was around them, cut to 399 characters and marked when that is longer than 400. |
| `RuleScopes.OutcomeIs` | src/opentide/core/deploy_events.py:106-116 | A rule ends failed exactly when some call failed it, with the first error, and no later call hides that; else skipped, with the last reason, when it was skipped at all; else deployed. |
| `RuleScopes.RuleScope.NoteFail` | src/opentide/core/deploy_events.py:106-110 | The fields are the outcome of all calls so far and this one. |
| `RuleScopes.RuleScope.NoteSkip` | src/opentide/core/deploy_events.py:112-116 | The fields are the outcome of all calls so far and this one. |
| `RuleScopes.Events.Enter` | src/opentide/core/deploy_events.py:118-123 | A new scope goes on top of the stack, which is the scopes not yet finished, in the order they began. |
| `RuleScopes.Events.Exit` | src/opentide/core/deploy_events.py:125-135 | The scope leaves the stack and finishes, once; what it raised is a failure, and its time is set unless it was. |
| `RuleScopes.Events.NoteFailure` | src/opentide/core/deploy_events.py:157-163 | Only the innermost scope hears of it, and nothing happens outside a scope. |
| `RuleScopes.Events.NoteSkip` | src/opentide/core/deploy_events.py:166-172 | Only the innermost scope hears of it, and nothing happens outside a scope. |
| `RuleScopes.InnermostLeaves` | src/opentide/core/deploy_events.py:125-135 | In a properly nested run the scope that ends is the last one, and those below stay. |
| `RuleScopes.AllFinishOnce` | src/opentide/core/deploy_events.py:118-135 | Once the stack is empty, the scopes finished are exactly those started, each once. |

## Left out

- WriteBackTheorems.NoIdIsLost: of a run stopped before its state commit exists it says only that the line of the create is in the log, because the script leaves no other trace of the id by then.
- WriteBackTheorems.PublishedMeansHeld: allows for a removal on record, because a push can land while it is reported rejected, so that another job's commit can already be on top.
- WriteBackTheorems.ExitStatus: says "has been on the branch since the overlay" and not "is", for the same reason; and of the working tree it speaks only of the deployment state and of the tracked files of the rules folder, because `git add -u` leaves a new rule file and every file outside that folder behind, and status 0 says nothing of those.
- ExternalIds.PlanActsOnTheRecord: a shard that cannot be read raises before anything is planned, and the log lines of the plan are not modelled.
- SnapshotCache.Process.TakeFingerprint: the listing of a folder, with all folders below it, is one step, as is the look at one file; others write between any two such steps.
- SnapshotCache.Process.Load: the folders a build reads follow from the configuration files alone; the discovery of the workspace is fixed per retention key, and the inflight preview overlay, which no host that retains snapshots has on, is not modelled.
- SnapshotCache.Process.Build: every write gets a new stamp, bundled data is constant, and the nested scan of a folder is one listing followed by one read per file.
- ModifierResolver.ApplyModifier: keys that hold a dot or are empty are outside its two promises; the order of the keys is arbitrary rather than that of the file.
- Modifiers.DeepUpdateInPlace: dictionaries are values, so that two names of one dictionary inside a configuration are not modelled.
- Layers.DeepMergeInPlace: the same; the one shared table of the source, `systems` and `platforms`, is modelled as a second name, and objects that a layer shares with itself are not.
- Layers.LayersMerge: reading the TOML files, the order of the folders and the refusal of retired entries are not modelled.
- Positions.Position: the 32-bit count of UTF-16 units is unbounded here.
- YamlWalk.RejectDuplicateKeys: parsing is not modelled; a document is a graph of numbered nodes, a key is its text or its `repr`, and an error names the node and not the line.
- StateReplay.Checkout.Replay: JSON text is abstract (a shard file is broken or parsed), and the order of keys is any order.
- StackChain.BuildStackChain: the trunk branches are the default ones; the environment variable that replaces them and the comment's text are left out.
- Inflight.StepKeeps: worktrees, the trap that removes them and the way the shards' content is generated are left out; a job may edit its checkout at will.
- QuotedScalars.DoubleRoundTrip: an escape above U+10FFFF raises in Python and is modelled as such, without a theorem of its own.
- RuleScopes.Events.Exit: listeners do not raise and time is a parameter; what a caller does with a scope after it has ended is not restricted.
- WriteBackScript.Script.StageAndCommit: whether the changed rule files validate is a parameter, and their list is not built.
- WriteBackProgress.UndisturbedPublishes: takes a rejected push that could have landed, a failing command or a stopped job as a disturbance; beside moving branches a run may use up its five pushes.
- A rebase is a pointwise three-way merge that may always stop, and that does not apply where both sides changed an entry to different values; finer text conflicts only make it stop more often.
- A runner can stop at any step, but the script that a cancelled job runs afterwards, which is the same write-back again, and the side ref's own push are not steps of the protocol.
- The choice of tenants and of the rules to deploy, platform clients, HTTP, the terminal interface, exports, documentation and the import tools are left out: wrappers and formatting, or behaviour of other programs.
