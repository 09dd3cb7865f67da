# Verified model of Goblet's caches

Goblet is a caching proxy for Git. It keeps four kinds of cache, and this project is about one question for each of
them: does what the cache hands out, over time and under concurrency, agree with the plain thing it stands for?

1. **The `packobjects` hook** (`hooks/packobjects/main.go`). Any number of operating system processes share one
   directory per key with the files `start` (lock), `stdout` (payload), `end` (commit marker) and `served` (log).
   `HookCache` is a step machine with one step per system call over directories, inodes that outlive their names, and
   processes that may crash between any two calls; the recursive removal of a directory is list, unlink, unlink, ...,
   rmdir. `HookInvariant` proves its invariant call by call, `HookTheorems` what follows for whole runs, `HookRuns` the
   runs that go wrong once an assumption is dropped, `HookProcess` is the program itself, run alone, as methods whose
   every call is a step of that machine, whichever of them fail. `HookKey` is the key.
2. **The managed repository** (`managed_repository.go`, `git_protocol_v2_handler.go`, `goblet.go`,
   `goblet-server/main.go`). `Repository` is a machine of requests, the one-worker fetch queue, the repository lock,
   background fetches, bundle recovery and `git gc` over an object set; `RepositoryTheorems` proves what its runs keep,
   `RepositoryFetches` which fetches they make and that these exclude each other, `RepositoryRuns` that the bounds are
   tight, `RepositoryServing` when serving is complete.
   `FetchWants` holds the parsing of wants, the check for them and the two git commands of a fetch.
   `FetchRepositories` is the channel protocol between the collector and the pools.
3. **The backup bucket** (`google/backup.go`). `Decimal` (names), `Bundles` (repeated cycles), `Manifests` (URL lists),
   `Backup` (the operations).
4. **Two smaller pieces**: `CommandParser` (`http_proxy_server.go`, `io.go`; the scanner's chunk and buffer are heap
   objects that it overwrites) and `AuthKey`, `AuthCache`, `Authorizer` (`github/authorizer.go`).

`Strings`, `Picks`, `Clock` and `Options` are helpers. `dafny verify dfyconfig.toml` checks the whole project.

## Assumptions

- The command run by the hook is deterministic: what it prints when it exits with 0 is a function of its arguments and
  its input. SHA-256 is an arbitrary function to 64-digit strings; nothing needs it to be injective beyond the
  invocations in play, and `HookRuns.RefinementExactly` says what is needed: cached commands with one key print the same.
- The environment of the hook may crash processes, fail any create, mkdir, write or copy, and remove `end` or `served`
  at any time. Five things it should not do are the constructors of `HookCache.Fault`; `HookRuns.RefinementExactly` says
  exactly when they do no harm. The unlinks and the listing of a purge are taken to succeed.
- `POH_STDIN_MAX` is the same for all processes of a run.
- The upstream's reachable objects only grow; the clock does not go back.
- A pool is one worker and a bounded first-in-first-out queue; submitting blocks while it is full.

## Where the code differs from what one might expect

- The hook's documentation says that the lock lets only one process generate a key's cache
  (`hooks/packobjects/README.md:12`). The lock ends when `start` is unlinked, which is before a failing writer has
  removed the directory (`HookRuns.PurgeTailOverlaps`); this is harmless because the last step is an rmdir.
- Word boundaries are not part of the key: `["a b"]` and `["a", "b"]` with one input share an entry
  (`HookKey.PreimageCollision`), and then one may be served the other's output (`HookRuns.SharedEntryGoesWrong`).
- `fileExists` answers true on every error but absence; for `end` that can serve an unfinished payload
  (`HookRuns.MisledStatGoesWrong`), for `start` it only bypasses the cache.
- Removing `end` by hand, as the documentation suggests (`hooks/packobjects/README.md:49-54`), is harmless, but the
  entry is never announced again, because `start` stays (`HookTheorems.EndNeverReturns`).
- The error of closing `stdout` is ignored (`hooks/packobjects/main.go:179`): if bytes that were accepted do not reach
  the disk, an incomplete payload is marked complete (`HookRuns.WriteBackLostGoesWrong`).
- The error of the first of two fetches is overwritten by the second's (`managed_repository.go:263-264`), only the
  first want is asked for (`managed_repository.go:308-313`, `RepositoryRuns.SecondWantStaysMissing`), and a request
  whose wants are still missing after the fetch reports a nil error (`git_protocol_v2_handler.go:142-145`); the model
  does the same
  (`FetchWants.LocalRepository.FetchUpstream`, `RepositoryRuns.NilErrorExactly`, `RepositoryRuns.FailedFetchGoesUnreported`).
- The fifteen minutes between background fetches are 899 seconds and a fraction, because the published time is
  truncated (`RepositoryRuns.ThrottleIsTight`).
- An object that appears upstream exactly at the start of the published second may be missing
  (`RepositoryRuns.MissesTheStart`); up to that moment none is, and this is the best bound (`RepositoryRuns.FreshExactly`).
- `gcBundle` tests the first listed name for every element (`google/backup.go:223`): with a foreign object in the
  directory it deletes or keeps the wrong things (`Bundles.GcRightExactly`).
- The error of the `Close` that commits an upload is ignored (`google/backup.go:255`, `google/backup.go:271`): a
  repository may be listed in a manifest without a bundle, exactly in the case that
  `Backup.ListedWithoutBundleExactly` gives.

## Model

| member | source | states |
|---|---|---|
| `HookKey.DecodePreimage` | hooks/packobjects/main.go:34-46 | On non-empty arguments without blanks and newlines, and without white space at their ends, the hashed bytes can be decoded back to the invocation, so the key loses nothing |
| `HookKey.PreimageEqual` | hooks/packobjects/main.go:37-41 | For arguments without newlines two invocations hash the same bytes exactly when their trimmed space-joined lines and their inputs agree |
| `HookKey.PreimageCollision` | hooks/packobjects/main.go:37-38 | Two adjacent arguments and their space-joined form always hash the same bytes: word boundaries are not part of the key |
| `HookKey.EntriesDisjoint` | hooks/packobjects/main.go:53-57 | Entry directories and files coincide only for equal keys (and equal names), and no entry lies inside another |
| `HookInvariant.LookupSteps` | hooks/packobjects/main.go:137-138 | The stats of `end` and `start` and the open of `stdout` touch nothing and leave the invariant in order |
| `HookInvariant.ReadSteps` | hooks/packobjects/main.go:139-144 | Copying the cached `stdout` to standard output always has a prefix of the frozen bytes printed, all of them at the end |
| `HookInvariant.LogStep` | hooks/packobjects/main.go:146-150 | Creating `served` happens only in a sealed entry and keeps it sealed |
| `HookInvariant.MkdirStep` | hooks/packobjects/main.go:69-72 | Making the directory adds no name to any entry and disturbs nobody |
| `HookInvariant.LockStep` | hooks/packobjects/main.go:74-79 | An exclusive create of `start` succeeds only in an entry without `stdout`, `end` and `served`, and makes the process the only holder |
| `HookInvariant.SinkStep` | hooks/packobjects/main.go:83-87 | Creating `stdout`, or failing to, is done by the lock holder alone and keeps its entry in order |
| `HookInvariant.SinkRefused` | hooks/packobjects/main.go:84-86 | A lock holder that cannot create `stdout` goes on without cache and leaves the entry as it was, locked |
| `HookInvariant.EmitStep` | hooks/packobjects/main.go:161 | A write of the command, complete or not, changes no inode but the holder's own sink and keeps the process in order |
| `HookInvariant.FinishStep` | hooks/packobjects/main.go:166-188 | After the command the process commits, purges or exits, with the output complete if the exit code is 0 |
| `HookInvariant.CommitStep` | hooks/packobjects/main.go:181-184 | Creating `end` seals an entry whose `stdout` is the whole output; failing to create it leaves a complete entry unannounced |
| `HookInvariant.FileStep` | hooks/packobjects/main.go:91-95 | Unlinking `end` and `stdout` is done by the lock holder in its own entry |
| `HookInvariant.ListStep` | hooks/packobjects/main.go:98 | When the directory is listed only `start` is left in it |
| `HookInvariant.NameStep` | hooks/packobjects/main.go:98 | Unlinking `start` gives up the lock of an entry that holds nothing else |
| `HookInvariant.RmdirStep` | hooks/packobjects/main.go:98 | The final rmdir succeeds only on an empty directory, so it cannot hurt a writer that came in meanwhile |
| `HookInvariant.ProcessIsGood` | hooks/packobjects/main.go:59-99 | Every system call of every process touches only its own entry, inode and lock, and respects whoever holds the lock |
| `HookInvariant.GoodKeepsInv` | hooks/packobjects/main.go:137-188 | A step that respects the others keeps the invariant of all processes and all entries |
| `HookInvariant.SpawnKeepsInv` | hooks/packobjects/main.go:132-135 | A new process keeps the invariant |
| `HookInvariant.CrashKeepsInv` | hooks/packobjects/main.go:126-130 | A crash between any two system calls keeps the invariant |
| `HookInvariant.OutsideKeepsInv` | hooks/packobjects/README.md:49-54 | Removing `end` or `served` from outside keeps the invariant |
| `HookInvariant.RunKeepsInv` | hooks/packobjects/main.go:137-188 | The invariant holds after every interleaving of any number of processes, crashes and harmless outside removals |
| `HookTheorems.CommittedIsComplete` | hooks/packobjects/main.go:178-184 | In every reachable state an entry with `end` has `start` and a `stdout` that is the complete output of the command of the process that wrote it |
| `HookTheorems.CommittedIsFrozen` | hooks/packobjects/main.go:60-99 | From a sealed entry on, no further run ever writes, unlinks or replaces its `stdout`, even after `end` was removed from outside |
| `HookTheorems.EndNeverReturns` | hooks/packobjects/README.md:49-54 | A complete entry whose `end` was removed is never announced again, in any further run |
| `HookTheorems.StepKeepsSealed` | hooks/packobjects/main.go:60-99 | One step of that: sealed entries stay sealed with the same inode and bytes |
| `HookTheorems.OneWriterPerEntry` | hooks/packobjects/main.go:74-99 | At most one process per key is between creating `start` and giving it up by commit or unlink; `stdout` never exists without `start` |
| `HookTheorems.OtherKeysUntouched` | hooks/packobjects/main.go:53-57 | A step of a process on one key leaves names and bytes of the entries of all other keys alone |
| `HookTheorems.ExitExplained` | hooks/packobjects/main.go:132-188 | Whoever exits with 0, by hit, miss or bypass, has printed the whole output of its own command or of a cacheable one with the same key |
| `HookTheorems.SeparateKeysSuffice` | hooks/packobjects/main.go:132-188 | If the keys tell apart what prints different things and the faults that may occur are harmless, the cached hook refines the bare command in every interleaving |
| `HookTheorems.NothingCachedRefines` | hooks/packobjects/main.go:60-63 | If nothing can be cached, the hook refines the command under all faults |
| `HookTheorems.LargeInputCreatesNothing` | hooks/packobjects/main.go:60-63 | In every run, a process whose input is longer than a limit other than 0 creates neither `start` nor `stdout` nor `end` in any entry |
| `HookTheorems.CleanInvocationsSuffice` | hooks/packobjects/main.go:34-57 | For clean arguments and no hash collision among the invocations at hand, the hook refines the command in every fault-free interleaving and different invocations use different entries |
| `HookTheorems.PurgePrefixSafe` | hooks/packobjects/main.go:90-99 | A purge stopped after any step never leaves `end` beside a missing `stdout` that was not so before: the first step already takes `end` away |
| `HookTheorems.EndStaysAway` | hooks/packobjects/main.go:90-99 | No step of a purge brings `end` back |
| `HookRuns.RefinementExactly` | hooks/packobjects/main.go:132-188 | For any invocations and any kinds of fault: the hook refines the command if and only if the keys separate the invocations and the faults are harmless, that is: there are none, or nothing can be cached, or the only one is the loss of bytes on close and all that can be cached prints nothing |
| `HookRuns.SharedEntryGoesWrong` | hooks/packobjects/main.go:34-57 | Two commands that share a key and print different things: some run prints the wrong output and exits 0 |
| `HookRuns.MisledStatGoesWrong` | hooks/packobjects/main.go:48-51 | `fileExists` answers true on any error but absence: a run in which a reader prints an unfinished `stdout` and exits 0 |
| `HookRuns.WriteBackLostGoesWrong` | hooks/packobjects/main.go:178-184 | The error of closing `stdout` is not looked at: if accepted bytes can be lost, an incomplete payload is announced and served |
| `HookRuns.RefusedOpenGoesWrong` | hooks/packobjects/main.go:153-156 | If opening an existing `stdout` may fail, two readers purge at once and a third process prints the wrong bytes |
| `HookRuns.StdoutRemovedGoesWrong` | hooks/packobjects/main.go:153-156 | The same after an outside removal of `stdout` |
| `HookRuns.StartRemovedGoesWrong` | hooks/packobjects/main.go:74-99 | After an outside removal of `start` a failing writer purges the next writer's entry, which ends in a wrong output |
| `HookRuns.TwoPurgersGoWrong` | hooks/packobjects/main.go:90-99 | Two concurrent reader-side purges: the slower one destroys the faster one's new entry, in steps |
| `HookRuns.LateCommitGoesWrong` | hooks/packobjects/main.go:178-184 | A writer whose names were purged commits over another writer's unfinished `stdout` |
| `HookRuns.PurgeTailOverlaps` | hooks/packobjects/main.go:97-98 | A reachable fault-free state in which a second writer is at work while the first still has to remove the directory: the lock ends at the unlink of `start` |
| `HookProcess.HookHost.RunHook` | hooks/packobjects/main.go:132-188 | One run of the program alone, from every starting entry and whichever stats, opens, mkdirs, creates, copies, writes and closes fail: the names left, the exit code, what is printed, what a complete entry holds. Input over the limit adds nothing but `served`; within the limit an empty entry becomes complete if the command succeeds and nothing fails. Every call it makes is a step of the concurrent machine |
| `HookProcess.LimitDecides` | hooks/packobjects/main.go:60-63 | With input over the limit a run alone adds nothing but `served`, whatever fails; with a limit of 0 or input within it, a successful run from an empty entry in which nothing fails leaves exactly `start`, `stdout` and `end` |
| `HookProcess.UndisturbedExactly` | hooks/packobjects/main.go:132-188 | When nothing fails: names left, exit code and output of a run alone, from every starting entry, command result and input size |
| `HookProcess.HookHost.RebuildThenServe` | hooks/packobjects/main.go:137-188 | From an entry with `end` but no `stdout`, a successful cacheable run rebuilds a complete entry, and the run after it prints the same bytes though its own command would fail |
| `HookProcess.RepairsExactly` | hooks/packobjects/main.go:137-188 | Whatever fails, a run alone never leaves `end` beside a missing `stdout`, and it leaves a complete entry exactly if it served one, or got a sink, succeeded and could mark it |
| `HookProcess.HookHost.TryServe` | hooks/packobjects/main.go:137-157 | Serves exactly the entries that seem marked and whose `stdout` opens, printing all of it or the part before a copy error, with the exit code 0 or 1; notes it in `served` if it can; purges a marked entry it cannot open |
| `HookProcess.HookHost.Miss` | hooks/packobjects/main.go:159-188 | The miss path under all failures: files left, output printed, exit code, what the sink holds |
| `HookProcess.HookHost.PrepareCacheDir` | hooks/packobjects/main.go:60-88 | Under every outcome of the stat, the mkdir and the two creates: which files it leaves, and that it obtains a sink if and only if the limit is 0 or not exceeded, `start` and `stdout` are absent, and the stat, the mkdir and the creates work |
| `HookProcess.HookHost.TakeLock` | hooks/packobjects/main.go:76-81 | Creates `start` as a new empty inode of this process exactly if the directory exists, the name is free and the create does not fail |
| `HookProcess.HookHost.PurgeCacheDir` | hooks/packobjects/main.go:90-99 | Run alone, the purge empties and removes the directory whatever it held and leaves inodes, other entries and other processes alone |
| `HookProcess.HookHost.RemoveNames` | hooks/packobjects/main.go:97-98 | Unlinking the listed names one by one and then the directory |
| `HookProcess.HookHost.Serve` | hooks/packobjects/main.go:138-144 | Copying in pieces prints exactly the bytes of the open inode, or those before the first error |
| `HookProcess.HookHost.RunCommand` | hooks/packobjects/main.go:160-166 | Whatever pieces the command writes, standard output and sink receive their concatenation, or what comes before a write that fails |
| `HookProcess.HookHost.Conclude` | hooks/packobjects/main.go:178-188 | After success the entry gains `end` if that can be created, after failure it is gone, without a sink nothing changes; a close that loses bytes goes unnoticed |
| `HookProcess.HookHost.Call` | hooks/packobjects/main.go:101-189 | One system call of one process changes its own entry only |
| `RepositoryTheorems.LastUpdateMonotone` | managed_repository.go:246-279 | Over every run the published update time never goes back |
| `RepositoryTheorems.StoreIsFresh` | managed_repository.go:239-279 | Without object removal, every object reachable upstream before the published second is in the local store |
| `RepositoryRuns.FreshExactly` | managed_repository.go:246-274 | In every run without removal the store holds what was reachable upstream before the published second plus d nanoseconds, if and only if d is at most 0 |
| `RepositoryRuns.MissesTheStart` | managed_repository.go:246-274 | A reachable run that misses an object born exactly at the published second |
| `RepositoryFetches.BackgroundFetchesThrottled` | goblet.go:164-174 | In every run, any fetch that takes the lock and whose second git command succeeds keeps each later non-forced background fetch from taking the lock within 899 seconds, however requests and submits interleave |
| `RepositoryRuns.ThrottleIsTight` | goblet.go:164-174 | A run in which a fetch succeeds and a non-forced one takes the lock exactly 899 seconds and one nanosecond after it did: fifteen minutes is not guaranteed |
| `RepositoryRuns.NilErrorExactly` | git_protocol_v2_handler.go:132-147 | A request ends refused with a nil error if and only if the check after its fetch meets a missing hash |
| `RepositoryRuns.FailedFetchGoesUnreported` | git_protocol_v2_handler.go:138-145 | A run in which the fetch fails and the request ends with a nil error |
| `RepositoryRuns.SuccessBringsFirstWant` | managed_repository.go:308-313 | When the second git command of an on-demand fetch succeeds, the first want of its request is in the store |
| `RepositoryRuns.SecondWantStaysMissing` | managed_repository.go:308-313 | A run in which that fetch succeeds, the second want is still missing, and the request ends refused with a nil error |
| `RepositoryFetches.UsefulFetchesBounded` | git_protocol_v2_handler.go:105-130 | In every run, the on-demand tasks that took the lock and ended with every want of their request in the store number at most the distinct hashes that requests arrived with, counted from the events |
| `RepositoryFetches.FetchesOnlyIfMissing` | git_protocol_v2_handler.go:119-129 | In every run, an on-demand task takes the lock only if its own check on pickup found a wanted hash missing |
| `RepositoryFetches.AsksOnlyIfMissing` | git_protocol_v2_handler.go:105-108 | In every run, a request asks for a fetch only if its own first check met a wanted hash that is missing |
| `RepositoryFetches.OneAtATime` | managed_repository.go:226-350 | In every run, after a fetch, a `git gc` or a recovery has taken the lock, none of the three takes it before that one has ended |
| `RepositoryFetches.ChangesUnderLock` | managed_repository.go:226-350 | In every run, objects and the published time change only between such a taking of the lock and its end |
| `RepositoryFetches.SkipsOnlyIfFound` | git_protocol_v2_handler.go:119-129 | An on-demand task that ends without taking the lock, and whose check did not fail, found every wanted hash in the store after it was picked up |
| `RepositoryServing.ServesCompleteExactly` | git_protocol_v2_handler.go:98-161 | For every policy of what `git gc` may remove in which state: every upload-pack starts with all wanted hashes in the store, in every interleaving, if and only if no collection takes a hash that a request has found and will not look up again |
| `RepositoryServing.KeepingServes` | git_protocol_v2_handler.go:98-161 | In particular, if nothing is removed |
| `RepositoryServing.CollectingBreaksServing` | managed_repository.go:228-237 | Not if anything may be removed: `git gc` can come between the check and the start of the upload-pack |
| `RepositoryServing.RobbedIsServed` | git_protocol_v2_handler.go:105-161 | From any reachable state in which a request relies on a missing hash, its upload-pack can be started |
| `RepositoryTheorems.StepKeepsTime` | managed_repository.go:246-274 | Every step keeps the clock, lock and throttle invariant, never lowers the update time and never loses a recorded fetch |
| `RepositoryTheorems.StepKeepsStore` | managed_repository.go:239-279 | Every step without object removal keeps: freshness of the store, one useful fetch per hash |
| `RepositoryServing.RequestStaysOk` | git_protocol_v2_handler.go:105-158 | A request moves past its checks only with wants that are in the store |
| `RepositoryTheorems.FetchKeepsStore` | managed_repository.go:254-274 | Listing after taking the start time and publishing before unlocking is what makes the published second safe |
| `FetchWants.ParseFetchWants` | git_protocol_v2_handler.go:208-235 | An error exactly when some want line holds no hash; otherwise the hashes of exactly the want lines and the refs of exactly the want-ref lines, each once and in order |
| `FetchWants.WantLineExactly` | git_protocol_v2_handler.go:216-224 | A want line holds a hash if and only if its second field, trimmed, is forty hex digits; the hash is that field in lower case |
| `FetchWants.RefLineExactly` | git_protocol_v2_handler.go:225-230 | A want-ref line asks for exactly its second field, trimmed |
| `FetchWants.OtherLineExactly` | git_protocol_v2_handler.go:211-232 | A line asks for nothing if and only if it starts with neither `want ` nor `want-ref `; a chunk without argument never does |
| `FetchWants.WantsRoundTrip` | git_protocol_v2_handler.go:208-235 | The want lines a client sends for a list of hashes are read back as that list |
| `FetchWants.LocalRepository.HasAllWants` | managed_repository.go:401-437 | Yes exactly when the repository opens, all hashes exist and all refs resolve; an error exactly when it does not open or, with all hashes present, the first ref that does not resolve is erroneous |
| `FetchWants.LocalRepository.FetchUpstreamInternal` | managed_repository.go:282-329 | The argument list it builds and runs, word for word: of the additional wants only the first is asked for; objects, references and result are those of the git command |
| `FetchWants.LocalRepository.FetchUpstream` | managed_repository.go:239-279 | Two git commands in order; the result and the update time depend on the second one's error only, and the references are those it leaves |
| `FetchRepositories.ErrorsAreFirstSends` | goblet-server/main.go:102-124 | Under every schedule the returned errors are the values of an increasing sequence of entries that hits exactly those whose fetch result is not nil, never the result of `git gc` |
| `FetchRepositories.DeadlockFreeExactly` | goblet-server/main.go:102-124 | For every capacity of the pool queue: somebody can always move until all is done, whatever fetches and `git gc` return, if and only if no entry has more than that many predecessors with its cache path |
| `FetchRepositories.RepeatedPathExactly` | managed_repository.go:83 | With the thousand waiting fetches of this program: a list of one repository never gets stuck if and only if it has at most 1001 entries |
| `FetchRepositories.DistinctPathsFit` | goblet-server/main.go:105-114 | Lists with distinct cache paths never get stuck |
| `FetchRepositories.Progress` | goblet.go:156-183 | In every reachable unfinished state of a list that fits some step is possible |
| `FetchRepositories.Hangs` | goblet.go:156-183 | A list that does not fit has a run that is stuck for ever: the collector waits to submit while a pool waits to send a second time |
| `FetchRepositories.RunsAreShort` | goblet-server/main.go:102-124 | No schedule of n entries has more than 6n + 2 steps, so being able to move means coming to an end |
| `FetchRepositories.StepKeepsInv` | goblet.go:134-184 | Every step keeps what each channel holds in each phase and the list order within a pool |
| `Decimal.ParseFormat` | google/backup.go:190 | The decimal parse undoes `%012d` on every 64-bit time |
| `Decimal.FormatOrder` | google/backup.go:233 | Below 10^12 the byte order of formatted stamps is their numeric order |
| `Decimal.OrderKeptExactly` | google/backup.go:244 | Byte order is numeric order for all stamps below a limit if and only if the limit is at most 10^12 |
| `Decimal.OrderBreaksAtLimit` | google/backup.go:233 | 10^12 sorts before 10^12 - 1 |
| `Decimal.LessIsNumeric` | google/backup.go:233 | On digit strings of one length byte order is numeric order |
| `Bundles.SortDown` | google/backup.go:233 | A descending permutation |
| `Bundles.GcRightExactly` | google/backup.go:220-240 | With numeric names of twelve digits, garbage collection keeps the newest bundle and deletes just the older ones if and only if the directory holds only bundles or none: the filter tests the first name for every element |
| `Bundles.GcRightIff` | google/backup.go:220-240 | On any directory whatever, garbage collection keeps the newest bundle and deletes just the older ones if and only if no name is a number, or all are and the last in byte order has the greatest stamp |
| `Bundles.CycleKeeps` | google/backup.go:169-187 | One backup cycle with any failures: the newest stamp does not fall, a commit raises it to the time written, the last bundle is never lost, at most two bundles when listing and deletes work |
| `Bundles.BackupsNeverRegress` | google/backup.go:169-187 | Over any sequence of cycles with any listing, upload and delete failures the newest stamp never decreases and a repository with a bundle keeps one |
| `Bundles.CommitsRaise` | google/backup.go:179-184 | Every committed backup is strictly newer than everything in all earlier states |
| `Bundles.AtMostTwoBundles` | google/backup.go:233-237 | Without delete failures there are never more than two bundles |
| `Manifests.RoundTripExactly` | google/backup.go:127-142 | Scanning a printed URL list returns its set of URLs if and only if every URL is a trimmed line without newline of at most 65535 bytes |
| `Manifests.OwnManifestSurvives` | google/backup.go:275-302 | At every time a Go clock can show, the name of the manifest just written is the time in whole seconds, and the manifest is not collected despite that truncation |
| `Manifests.ReadBackExactly` | google/backup.go:186-196 | After a completed backup a URL is read back if and only if it was just saved or stands in another manifest whose name is no number or a time at most 24 hours ago |
| `Backup.BackupBucket.GcBundle` | google/backup.go:199-240 | On arbitrary names: deletes and answers exactly what the filter on the first name lets through; nothing when the listing fails |
| `Backup.ListedWithoutBundleExactly` | google/backup.go:179-186 | A repository is listed in a manifest although the bucket has no bundle of it if and only if it had none before, the listing and the write succeed, and the commit, whose error is dropped, fails |
| `Backup.GcOfStamps` | google/backup.go:220-240 | On a directory of bundles that effect answers the newest stamp and keeps exactly its bundle and the undeletable ones |
| `Backup.SortedGc` | google/backup.go:233-239 | Sorting down and dropping the head deletes everything but the last name in byte order |
| `Backup.BackupBucket.BackupManagedRepo` | google/backup.go:242-257 | A failed bundle write is reported and leaves no object; a failed commit leaves none either but is not reported |
| `Backup.BackupBucket.SaveRepo` | google/backup.go:171-187 | One repository in one backup makes exactly the cycle step; it is not listed if its bundles cannot be listed, listed if some bundle is as recent as the repository, and otherwise listed if and only if the write does not fail; and exactly when a bundle is added |
| `Backup.BackupBucket.SaveRepos` | google/backup.go:171-187 | All repositories in turn, each by its own cycle, without touching other directories; the URLs returned are, in the order of the repositories, those of exactly the ones whose bundles can be listed and that have a recent bundle or can be written |
| `Backup.BackupBucket.WriteManifestFile` | google/backup.go:259-273 | The stored text is the printed list, or nothing is stored |
| `Backup.BackupBucket.GarbageCollectOldManifests` | google/backup.go:275-302 | A manifest is left if and only if listing fails, its deletion fails, its name is no number, or it is a time at most 24 hours ago, in the wrapping arithmetic of Go times |
| `Backup.BackupBucket.SaveBackup` | google/backup.go:169-197 | The whole new bucket under all failures: every bundle directory, the manifests, and the list of URLs, which is determined as for the loop over the repositories |
| `Backup.BackupBucket.ReadManifest` | google/backup.go:127-142 | Adds the trimmed lines of a manifest |
| `Backup.BackupBucket.ReadRepoList` | google/backup.go:103-125 | The union over all manifests that open, or nothing when the listing fails |
| `CommandParser.ParseAllCommands` | http_proxy_server.go:165-195 | Over every chunk stream: terminates and returns what the specification says, in chunks that are new objects with their own bytes |
| `CommandParser.ParsesExactly` | http_proxy_server.go:165-195 | Success with given groups if and only if each is non-empty and headed by `ls-refs` or `fetch` and the stream is those groups, flush after flush, then an empty group or a clean end |
| `CommandParser.ErrorsExactly` | http_proxy_server.go:177-193 | A request is refused if and only if well-formed groups are followed by a complete group headed by another command; it cannot be parsed if and only if the scanner fails in or after a group that only well-formed ones precede |
| `CommandParser.ScanFurther` | io.go:41-49 | The returned commands keep their content while the scanner goes on overwriting its chunk and buffer |
| `CommandParser.CopyRequestChunk` | io.go:41-49 | A new chunk with equal fields and its own copy of the argument, absent staying absent |
| `CommandParser.ReadGroup` | http_proxy_server.go:169-176 | The chunks up to the next flush or the end of the stream |
| `CommandParser.ReadCommand` | http_proxy_server.go:168-188 | One round of the loop: stop, refuse or go on, in agreement with the specification |
| `AuthKey.CacheKeyInjective` | github/authorizer.go:80-83 | Two cache keys are equal if and only if token, owner and name are, whatever characters they contain |
| `AuthKey.UnescapeEscape` | github/authorizer.go:80 | Escaping path segments loses nothing |
| `AuthKey.EscapeExactly` | github/authorizer.go:80 | Exactly letters, digits and ten signs are left alone; every other byte becomes a percent sign and two more characters |
| `AuthCache.ReturnsAreJustified` | github/authorizer.go:99-119 | Every boolean returned, in every interleaving with evictions, says whether GitHub replied 200 to this very call, or to another call for the same token and repository that returned at most fifteen minutes before and whose reply was no server error other than 501 |
| `AuthCache.StoredIsAnswered` | github/authorizer.go:106-118 | An answer that was stored is given again, without asking GitHub, to every call for the same token and repository that looks it up within fifteen minutes, in every interleaving that neither evicts nor replaces it |
| `Authorizer.CacheableAuthorizer.IsTokenValid` | github/authorizer.go:126-162 | Only a 200 authorizes, and exactly the replies from 500 to 599 other than 501 are not to be stored |
| `AuthCache.StepKeepsInv` | github/authorizer.go:106-118 | Every step keeps stored answers and calls tied to the answer they came from |
| `Authorizer.CacheableAuthorizer.IsAuthorized` | github/authorizer.go:99-119 | One call: within fifteen minutes of a stored answer that answer, which is one for the same token and repository; otherwise GitHub is asked, and the cache changes unless caching is off or the reply is a server error other than 501 |
| `Authorizer.CacheableAuthorizer.RequestAuthorizer` | github/authorizer.go:57-97 | Which of the four decisions is taken, with the lifetime of fifteen minutes, and that the credentials are dropped from the request exactly when it is accepted |
| `Authorizer.PathParts` | github/authorizer.go:72-80 | A path names a repository exactly when a slash follows its first segment; the owner is that segment and the name the next one, whatever follows |
| `Strings.SplitJoin` | git_protocol_v2_handler.go:217 | Splitting a list joined with a separator that occurs in no element returns the list |
| `Strings.TrimsAround` | git_protocol_v2_handler.go:222 | Of ASCII text, trimming takes away exactly the white space around it and no printable character |

## Left out

- HookCache: the contents and time stamps of `start`, `end` and `served` are not modelled, only their existence; `served` is one create or append.
- HookCache: the two writes of one `io.MultiWriter` call are one step, and a copy or write that fails part way is one step that leaves any prefix; a crash between the two writes is that step followed by the crash.
- HookCache: the recursive removals go by path in one listing each; re-listing after a failed removal and the failure of an unlink are not modelled.
- HookCache: the deferred `recover` that turns a panic into an exit with the code so far is not modelled, nor are environment variables and the early exits on a missing command or directory.
- HookInvariant.RunKeepsInv: nothing is claimed after an environment fault, because the properties fail there (`HookRuns` has the runs).
- HookProcess.HookHost.RunHook: one process alone; other processes, crashes and outside removals are in the concurrent machine only, and unlinks do not fail.
- RepositoryTheorems.StoreIsFresh: objects removed by `git gc` or refs removed by `--prune` are excluded; what removal does to serving is `RepositoryServing.ServesCompleteExactly`.
- RepositoryServing.ServesCompleteExactly: requests with want-refs are not covered; ref-in-want is not advertised (`http_proxy_server.go:97-98`).
- RepositoryFetches.UsefulFetchesBounded: counts fetches that leave the wants satisfied; one that fails, or that leaves another want missing, may be repeated without bound.
- Repository and FetchRepositories: interleavings of goroutines are modelled on values as state machines, not as methods on shared objects; the sizes of the serve pool do not matter to what is proved.
- Repository: opening and creating a repository (`getManagedRepo`, the `once` body) and its first-use race; the machine starts from an initialised repository.
- Repository: `lsRefsUpstream`, `serveFetchLocal` and the bytes they send; the git commands are changes of an object set.
- AuthCache: the size limit of the cache and its background expiry are evictions at any time; the error texts are dropped.
- FetchWants.LocalRepository.HasAllWants: object lookup is set membership, and a reference lookup has three outcomes.
- Backup.BackupBucket.SaveBackup: objects in a bucket are names with a text or no content; read errors in the middle of a manifest and the download of a bundle are not modelled.
- Manifests.RoundTripExactly: strings are sequences of bytes; read errors in the middle of a file are not modelled.
- CommandParser.Scanner: the pkt-line scanner itself is not part of this model; it is a stream of chunks with a sticky end or error.
- URL canonicalizers, `seedRepository`, the GitHub App's tokens, configuration, metrics, logging, status mapping, S3 and storage clients: input, output or short branches without a property of their own.
- `hasAnyUpdate` and `parseLsRefsResponse`: reached from commented-out code only.
- `RunEvery` and the hourly timers: a background request may come at any time; what the caller of a background fetch checks before it submits only makes fewer of them.
