# openvasd feed synchronisation loop, in Dafny

This project models `fetch`, the feed synchronisation loop of the openvasd
controller. The loop runs only when a feed configuration exists. Each turn
does the following, in order:

1. Read the abort flag, and stop if it is set.
2. Read the storage's feed hash (`feed_hash`, line 26).
3. Optionally check the feed signature.
4. Compute the sumfile hash of the feed directory.
5. Call `synchronize_feeds` with that hash when the stored hash is empty or
   differs from it.
6. Sleep for the verify interval.

A signature failure and a sync failure are only logged. A hashing failure is
logged and the hash becomes `""`, which then takes part in the sync decision
at line 47. None of them ends the loop: the sole way out is the abort flag.

Everything `fetch` talks to is opaque here: the abort flag, the storage
(`feed_hash`, `synchronize_feeds`), the signature verifier, the sumfile hasher
and the timer. Each turn gets an `Observation` holding what these
collaborators answer in that turn. What the loop does to them is recorded, in
order, as a sequence of `Effect`s.

Everything is in `feed.dfy`, module `FeedController`:

- Specification functions:
  - `Iteration` gives the effects of one turn that is not aborted.
  - `Run` gives the effects of a finite sequence of turns.
  - `FetchEffects` gives the effects of `fetch` as a whole.
  - `ShouldSync` is the decision at line 47.
  - `ComputedHash` replaces a hashing error by `""`.
- The class `Context` holds the feed configuration, the effect log and a
  `running` flag. Its methods:
  - One method per collaborator call.
  - `Turn` is one pass through the loop body.
  - `Poll` is the loop.
  - `Fetch` is the whole function.
- Each method is proved to produce exactly the effects its specification
  function gives. The lemmas then prove the properties of the loop about
  those functions.

The specification functions (`ComputedHash`, `Iteration`, `Run`,
`FetchEffects`, and the reference `ExpectedSyncs`) have no rows of their own
in the table below. They are covered by the rows of the methods proved to
produce them (`Context.SumfileHash`, `Context.Turn`, `Context.Poll`,
`Context.Fetch`) and of the lemmas stated about them (`RunSyncs` and the
lemmas built on it).

Two consequences of the code that are easy to misread:

- Line 47 syncs whenever the stored hash is empty, so `synchronize_feeds("")`
  is called even when the computed hash is empty too (`EmptyStoredForcesSync`).
- The sleep at line 53 is not interrupted by the abort flag. The flag is read
  only at the top of the next turn.

## Model

| member | source | states |
|---|---|---|
| `FeedController.ShouldSync` | rust/openvasd/src/controller/feed.rs:47 | No sync happens exactly when the stored hash is non-empty and equal to the current hash; an empty stored hash always syncs |
| `FeedController.Active` | rust/openvasd/src/controller/feed.rs:20-25 | The turns that run are a prefix of the observations, none of them aborted, and the turn after them (if any) reads the abort flag as true; all turns run iff the flag never reads true |
| `FeedController.IterationSyncs` | rust/openvasd/src/controller/feed.rs:37-52 | In a turn past the abort check, `synchronize_feeds` is called iff `ShouldSync(stored, computed)`, once, with exactly the computed hash |
| `FeedController.EmptyStoredForcesSync` | rust/openvasd/src/controller/feed.rs:47-48 | An empty stored hash forces a sync with the computed hash, even when that hash is empty too |
| `FeedController.HashFailureSyncsEmpty` | rust/openvasd/src/controller/feed.rs:37-53 | A hashing error with a non-empty stored hash makes the turn call `synchronize_feeds("")`, and the turn still runs through to its sleep |
| `FeedController.IterationCompletes` | rust/openvasd/src/controller/feed.rs:26-53 | Every turn past the abort check ends with exactly one sleep of the configured interval, whatever the hash, signature and sync outcomes |
| `FeedController.IterationWellOrdered` | rust/openvasd/src/controller/feed.rs:22-53 | Within a turn the steps run as abort check, feed hash read, signature check (exactly when configured), hash computation, sync (with the computed hash) when called for, sleep |
| `FeedController.RunSyncs` | rust/openvasd/src/controller/feed.rs:20-54 | The sync log of a whole run equals the reference `ExpectedSyncs`: one entry per turn before the first abort whose hashes call for a sync |
| `FeedController.SignatureIrrelevant` | rust/openvasd/src/controller/feed.rs:27-35 | Whether the signature is checked and what the check answers never change whether or with what `synchronize_feeds` is called |
| `FeedController.AbortIsFinal` | rust/openvasd/src/controller/feed.rs:22-25 | The turn in which the abort flag first reads true only reads the flag; no storage call happens in it and nothing happens after it |
| `FeedController.RunWellOrdered` | rust/openvasd/src/controller/feed.rs:20-54 | Across the whole run each effect follows its predecessor in the step order, and each turn starts with the abort check right after the previous sleep |
| `FeedController.AbortEndsRun` | rust/openvasd/src/controller/feed.rs:22-25 | An abort read as true is the last effect of the run, so no `synchronize_feeds` follows it; a run whose flag reads true somewhere ends with it |
| `FeedController.OnlyAbortEndsLoop` | rust/openvasd/src/controller/feed.rs:20-54 | The number of completed turns equals the number of turns before the first abort, and equals all turns when the flag never reads true: hash and sync failures never end the loop |
| `FeedController.UnchangedFeedSyncLog` | rust/openvasd/src/controller/feed.rs:26-52 | With unchanged, non-empty feed hash and a storage that commits on success, the sync log is that hash once per turn up to and including the first successful sync: a failed sync is retried next turn, and nothing is synced when storage already holds the hash |
| `FeedController.UnchangedFeedSyncsOnce` | rust/openvasd/src/controller/feed.rs:26-52 | With unchanged, non-empty feed hash, a storage that commits on success and a first sync that succeeds, `synchronize_feeds` is called at most once, in the first turn, and not at all if storage already holds the hash |
| `FeedController.Context.ReadAbort` | rust/openvasd/src/controller/feed.rs:22 | Returns the abort flag and logs the read |
| `FeedController.Context.FeedHash` | rust/openvasd/src/controller/feed.rs:26 | Returns the stored hash and logs the read |
| `FeedController.Context.CheckSignature` | rust/openvasd/src/controller/feed.rs:27-35 | Logs the signature check and returns its verdict, which the caller ignores |
| `FeedController.Context.SumfileHash` | rust/openvasd/src/controller/feed.rs:37-46 | Returns the sumfile hash, or `""` when hashing fails, and logs the hasher's answer with the hash the loop goes on with |
| `FeedController.Context.SynchronizeFeeds` | rust/openvasd/src/controller/feed.rs:48-51 | Logs the sync call with its argument and outcome; a failure is returned, not raised |
| `FeedController.Context.Sleep` | rust/openvasd/src/controller/feed.rs:53 | Logs a sleep of the given interval |
| `FeedController.Context.Turn` | rust/openvasd/src/controller/feed.rs:21-53 | One pass through the loop body appends exactly `[AbortRead(true)]` when aborted, else exactly `Iteration`, and reports whether it aborted |
| `FeedController.Context.Poll` | rust/openvasd/src/controller/feed.rs:18-54 | The loop appends exactly `Run` to the effect log and is still running iff the abort flag never read true |
| `FeedController.Context.Fetch` | rust/openvasd/src/controller/feed.rs:11-56 | `fetch` appends exactly `FetchEffects`: without a feed configuration nothing is logged and `running` is untouched; otherwise the loop runs and is left running iff the abort flag never read true |

## Left out

- The scanner API module list (`rust/scanner-api/src/lib.rs`) declares HTTP routing modules only and holds no logic.
- Async execution is not modelled: `spawn_blocking`, `.await`, the `RwLock` around the abort flag, and scheduling. Each turn is sequential, and the abort flag is a per-turn input.
- Panics from `.unwrap()` on a poisoned lock or a failed join (lines 22 and 46) are runtime failures, not behaviour.
- Sumfile hashing, signature verification, and the storage and scanner backends are opaque. Their answers are inputs of each turn.
- `FeedController.UnchangedFeedSyncLog`: the source does not show that `synchronize_feeds` commits its hash. The lemma takes this as an explicit hypothesis (`CommitsOnSuccess`) rather than proving it.
- `FeedController.UnchangedFeedSyncsOnce`: takes the same `CommitsOnSuccess` hypothesis, and also that the first turn's sync succeeds; without that, the sync is retried, as `UnchangedFeedSyncLog` states.
- Log output (`tracing`) has no effect on state and is not recorded. The warnings are not in the effect log (signature failure at line 29, hashing failure at line 41, sync failure at line 50). The log does hold the answers they report: the signature verdict, the hasher's answer beside the substituted hash, and the sync outcome.
- The loop in the source never ends without an abort. The model runs over a finite sequence of turns. When the observations run out before an abort, the model stops with `running` still true.
- The length of the sleep is only recorded, not timed.
- The feed path is passed on to the collaborators but has no other effect.
