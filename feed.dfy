/** The feed synchronisation loop of the openvasd controller.

    The loop polls the feed directory, compares a content hash with the one
    the storage reports, and asks the storage to synchronise when they
    differ.  Every collaborator it talks to (the abort flag, the storage, the
    signature verifier, the sumfile hasher, the timer) is seen only through
    what it answers: one `Observation` per turn of the loop.  What the loop
    does to them is recorded, in order, as a sequence of `Effect`s.
 */
module FeedController {

  datatype Option<T> = None | Some(value: T)

  /** Where the feed lives, how long to sleep between turns, and whether its
      signature is checked. */
  datatype FeedConfig = FeedConfig(path: string, verifyInterval: nat, signatureCheck: bool)

  /** The answer of `FeedIdentifier::sumfile_hash`: a hash, or an error. */
  datatype SumfileResult = Sum(hash: string) | SumError

  /** The answer of the signature verifier. */
  datatype SignatureResult = SignatureOk | SignatureBad

  /** The answer of the storage's `synchronize_feeds`. */
  datatype SyncResult = Synced | SyncFailed

  /** What the outside world answers during one turn of the loop. */
  datatype Observation = Observation(
    abort: bool,                  // the abort flag, read at the top of the turn
    storedHash: string,           // what the storage's feed_hash returns
    signature: SignatureResult,   // consulted only when the signature is checked
    sumfile: SumfileResult,
    sync: SyncResult)             // consulted only when a sync is issued

  /** One call the loop makes into a collaborator, with its argument or answer. */
  datatype Effect =
    | AbortRead(aborted: bool)
    | FeedHashRead(stored: string)
    | SignatureChecked(verdict: SignatureResult)
    | HashComputed(answer: SumfileResult, computed: string)
    | FeedsSynchronized(hash: string, outcome: SyncResult)
    | Slept(interval: nat)

  // ---------------------------------------------------------------------------
  // Specification of the loop
  // ---------------------------------------------------------------------------

  /** The hash the loop works with: a failed hash computation becomes "". */
  function ComputedHash(r: SumfileResult): string
  {
    match r
    case Sum(h) => h
    case SumError => ""
  }

  /** The decision at line 47 of controller/feed.rs: synchronise when nothing was ever committed or
      the committed hash differs from the current one. */
  function ShouldSync(last: string, current: string): (sync: bool)
    ensures !sync <==> last != "" && last == current
    ensures last == "" ==> sync
  {
    |last| == 0 || last != current
  }

  /** The effects of one turn in which the abort flag reads false. */
  function Iteration(cfg: FeedConfig, o: Observation): seq<Effect>
  {
    var h := ComputedHash(o.sumfile);
    [AbortRead(false), FeedHashRead(o.storedHash)]
    + (if cfg.signatureCheck then [SignatureChecked(o.signature)] else [])
    + [HashComputed(o.sumfile, h)]
    + (if ShouldSync(o.storedHash, h) then [FeedsSynchronized(h, o.sync)] else [])
    + [Slept(cfg.verifyInterval)]
  }

  /** The effects of the loop over a finite run of observations: turn after
      turn until the abort flag reads true or the observations run out. */
  function Run(cfg: FeedConfig, os: seq<Observation>): seq<Effect>
    decreases |os|
  {
    if os == [] then []
    else if os[0].abort then [AbortRead(true)]
    else Iteration(cfg, os[0]) + Run(cfg, os[1..])
  }

  /** The effects of `fetch`: nothing at all without a feed configuration. */
  function FetchEffects(feedConfig: Option<FeedConfig>, os: seq<Observation>): seq<Effect>
  {
    match feedConfig
    case None => []
    case Some(cfg) => Run(cfg, os)
  }

  /** True when the abort flag reads true in some turn. */
  predicate Aborts(os: seq<Observation>)
  {
    exists j :: 0 <= j < |os| && os[j].abort
  }

  /** The turns before the first one in which the abort flag reads true. */
  function Active(os: seq<Observation>): (act: seq<Observation>)
    ensures act <= os
    ensures forall j :: 0 <= j < |act| ==> !act[j].abort
    ensures |act| < |os| ==> os[|act|].abort
    ensures |act| == |os| <==> !Aborts(os)
  {
    if os == [] || os[0].abort then [] else [os[0]] + Active(os[1..])
  }

  /** The arguments of the `synchronize_feeds` calls in a sequence of effects. */
  function SyncCalls(t: seq<Effect>): seq<string>
  {
    if t == [] then []
    else (if t[0].FeedsSynchronized? then [t[0].hash] else []) + SyncCalls(t[1..])
  }

  /** The number of turns that ran through to their sleep. */
  function Completed(t: seq<Effect>): nat
  {
    if t == [] then 0
    else (if t[0].Slept? then 1 else 0) + Completed(t[1..])
  }

  /** Reference for the sync log: one entry per turn before the abort whose
      stored and computed hashes call for a sync. Configuration, signature and
      sync outcomes play no part in it. */
  function ExpectedSyncs(os: seq<Observation>): seq<string>
  {
    if os == [] || os[0].abort then []
    else
      var h := ComputedHash(os[0].sumfile);
      (if ShouldSync(os[0].storedHash, h) then [h] else []) + ExpectedSyncs(os[1..])
  }

  /** The order of steps within a turn, and from one turn to the next. */
  predicate Follows(cfg: FeedConfig, a: Effect, b: Effect)
  {
    match a
    case AbortRead(aborted) => !aborted && b.FeedHashRead?
    case FeedHashRead(_) => if cfg.signatureCheck then b.SignatureChecked? else b.HashComputed?
    case SignatureChecked(_) => b.HashComputed?
    case HashComputed(_, h) => (b.FeedsSynchronized? && b.hash == h) || b.Slept?
    case FeedsSynchronized(_, _) => b.Slept?
    case Slept(_) => b.AbortRead?
  }

  /** Every turn starts at the abort check and each effect follows its predecessor. */
  predicate WellOrdered(cfg: FeedConfig, t: seq<Effect>)
  {
    (t != [] ==> t[0].AbortRead?) &&
    forall j :: 0 <= j < |t| - 1 ==> Follows(cfg, t[j], t[j + 1])
  }

  // ---------------------------------------------------------------------------
  // One turn
  // ---------------------------------------------------------------------------

  lemma {:induction false} SyncCallsAppend(a: seq<Effect>, b: seq<Effect>)
    ensures SyncCalls(a + b) == SyncCalls(a) + SyncCalls(b)
    decreases |a|
  {
    if a == [] {
      assert a + b == b;
    } else {
      assert (a + b)[1..] == a[1..] + b;
      SyncCallsAppend(a[1..], b);
    }
  }

  lemma {:induction false} CompletedAppend(a: seq<Effect>, b: seq<Effect>)
    ensures Completed(a + b) == Completed(a) + Completed(b)
    decreases |a|
  {
    if a == [] {
      assert a + b == b;
    } else {
      assert (a + b)[1..] == a[1..] + b;
      CompletedAppend(a[1..], b);
    }
  }

  /** In a turn that is not aborted, `synchronize_feeds` is called exactly when
      `ShouldSync` holds, and with exactly the computed hash. */
  lemma IterationSyncs(cfg: FeedConfig, o: Observation)
    ensures SyncCalls(Iteration(cfg, o)) ==
            (if ShouldSync(o.storedHash, ComputedHash(o.sumfile)) then [ComputedHash(o.sumfile)] else [])
  {
    var h := ComputedHash(o.sumfile);
    var head := [AbortRead(false), FeedHashRead(o.storedHash)];
    var sig: seq<Effect> := if cfg.signatureCheck then [SignatureChecked(o.signature)] else [];
    var sync: seq<Effect> := if ShouldSync(o.storedHash, h) then [FeedsSynchronized(h, o.sync)] else [];
    var tail := [Slept(cfg.verifyInterval)];
    SyncCallsAppend(head, sig);
    SyncCallsAppend(head + sig, [HashComputed(o.sumfile, h)]);
    SyncCallsAppend(head + sig + [HashComputed(o.sumfile, h)], sync);
    SyncCallsAppend(head + sig + [HashComputed(o.sumfile, h)] + sync, tail);
  }

  /** An empty stored hash forces a sync, even when the computed hash is empty too. */
  lemma EmptyStoredForcesSync(cfg: FeedConfig, o: Observation)
    requires o.storedHash == ""
    ensures SyncCalls(Iteration(cfg, o)) == [ComputedHash(o.sumfile)]
  {
    IterationSyncs(cfg, o);
  }

  /** A failed hash computation with a non-empty stored hash syncs "", and the
      turn still runs through to its sleep. */
  lemma HashFailureSyncsEmpty(cfg: FeedConfig, o: Observation)
    requires o.sumfile == SumError && o.storedHash != ""
    ensures SyncCalls(Iteration(cfg, o)) == [""]
    ensures Completed(Iteration(cfg, o)) == 1
  {
    IterationSyncs(cfg, o);
    IterationCompletes(cfg, o);
  }

  /** Each turn that passes the abort check ends with exactly one sleep,
      whatever the hash and sync outcomes. */
  lemma IterationCompletes(cfg: FeedConfig, o: Observation)
    ensures Completed(Iteration(cfg, o)) == 1
    ensures Iteration(cfg, o)[|Iteration(cfg, o)| - 1] == Slept(cfg.verifyInterval)
  {
    var h := ComputedHash(o.sumfile);
    var head := [AbortRead(false), FeedHashRead(o.storedHash)];
    var sig: seq<Effect> := if cfg.signatureCheck then [SignatureChecked(o.signature)] else [];
    var sync: seq<Effect> := if ShouldSync(o.storedHash, h) then [FeedsSynchronized(h, o.sync)] else [];
    var tail := [Slept(cfg.verifyInterval)];
    CompletedAppend(head, sig);
    CompletedAppend(head + sig, [HashComputed(o.sumfile, h)]);
    CompletedAppend(head + sig + [HashComputed(o.sumfile, h)], sync);
    CompletedAppend(head + sig + [HashComputed(o.sumfile, h)] + sync, tail);
  }

  /** The steps of one turn run in the order abort check, feed hash read,
      optional signature check, hash computation, optional sync, sleep. */
  lemma IterationWellOrdered(cfg: FeedConfig, o: Observation)
    ensures WellOrdered(cfg, Iteration(cfg, o))
  {
  }

  // ---------------------------------------------------------------------------
  // The whole run
  // ---------------------------------------------------------------------------

  /** The sync log of a run is the reference `ExpectedSyncs`. */
  lemma {:induction false} RunSyncs(cfg: FeedConfig, os: seq<Observation>)
    ensures SyncCalls(Run(cfg, os)) == ExpectedSyncs(os)
    decreases |os|
  {
    if os != [] && !os[0].abort {
      SyncCallsAppend(Iteration(cfg, os[0]), Run(cfg, os[1..]));
      IterationSyncs(cfg, os[0]);
      RunSyncs(cfg, os[1..]);
    }
  }

  /** Two runs whose observations differ only in the signature outcome. */
  predicate SameButSignature(xs: seq<Observation>, ys: seq<Observation>)
  {
    |xs| == |ys| &&
    forall j :: 0 <= j < |xs| ==> xs[j].(signature := ys[j].signature) == ys[j]
  }

  lemma {:induction false} ExpectedSyncsIgnoresSignature(xs: seq<Observation>, ys: seq<Observation>)
    requires SameButSignature(xs, ys)
    ensures ExpectedSyncs(xs) == ExpectedSyncs(ys)
    decreases |xs|
  {
    if xs != [] {
      assert xs[0].(signature := ys[0].signature) == ys[0];
      assert SameButSignature(xs[1..], ys[1..]) by {
        forall j | 0 <= j < |xs| - 1
          ensures xs[1..][j].(signature := ys[1..][j].signature) == ys[1..][j]
        {
          assert xs[j + 1].(signature := ys[j + 1].signature) == ys[j + 1];
        }
      }
      ExpectedSyncsIgnoresSignature(xs[1..], ys[1..]);
    }
  }

  /** Whether the signature is checked, and what the check answers, never
      changes whether or with what `synchronize_feeds` is called. */
  lemma SignatureIrrelevant(cfg1: FeedConfig, cfg2: FeedConfig, xs: seq<Observation>, ys: seq<Observation>)
    requires SameButSignature(xs, ys)
    ensures SyncCalls(Run(cfg1, xs)) == SyncCalls(Run(cfg2, ys))
  {
    RunSyncs(cfg1, xs);
    RunSyncs(cfg2, ys);
    ExpectedSyncsIgnoresSignature(xs, ys);
  }

  /** The turn in which the abort flag first reads true does nothing but read
      it, and nothing happens after it. */
  lemma {:induction false} AbortIsFinal(cfg: FeedConfig, os: seq<Observation>, i: nat)
    requires i < |os| && os[i].abort
    requires forall j :: 0 <= j < i ==> !os[j].abort
    ensures Run(cfg, os) == Run(cfg, os[..i]) + [AbortRead(true)]
    decreases i
  {
    if i == 0 {
      assert os[..i] == [];
    } else {
      assert os[1..][..i - 1] == os[..i][1..];
      AbortIsFinal(cfg, os[1..], i - 1);
    }
  }

  lemma WellOrderedAppend(cfg: FeedConfig, a: seq<Effect>, b: seq<Effect>)
    requires WellOrdered(cfg, a) && WellOrdered(cfg, b)
    requires a != [] && b != [] ==> Follows(cfg, a[|a| - 1], b[0])
    ensures WellOrdered(cfg, a + b)
  {
  }

  /** Across the whole run the steps keep their order, and each turn follows
      the sleep of the one before. */
  lemma {:induction false} RunWellOrdered(cfg: FeedConfig, os: seq<Observation>)
    ensures WellOrdered(cfg, Run(cfg, os))
    decreases |os|
  {
    if os != [] && !os[0].abort {
      IterationWellOrdered(cfg, os[0]);
      IterationCompletes(cfg, os[0]);
      RunWellOrdered(cfg, os[1..]);
      WellOrderedAppend(cfg, Iteration(cfg, os[0]), Run(cfg, os[1..]));
    }
  }

  /** An abort read as true is the last thing the loop does, and a run whose
      abort flag reads true somewhere ends with it. */
  lemma {:induction false} AbortEndsRun(cfg: FeedConfig, os: seq<Observation>)
    ensures forall j :: 0 <= j < |Run(cfg, os)| && Run(cfg, os)[j] == AbortRead(true) ==>
              j == |Run(cfg, os)| - 1
    ensures Aborts(os) ==> Run(cfg, os) != [] && Run(cfg, os)[|Run(cfg, os)| - 1] == AbortRead(true)
  {
    RunWellOrdered(cfg, os);
    var t := Run(cfg, os);
    forall j | 0 <= j < |t| && t[j] == AbortRead(true)
      ensures j == |t| - 1
    {
      assert j < |t| - 1 ==> Follows(cfg, t[j], t[j + 1]);
    }
    if Aborts(os) {
      var act := Active(os);
      forall j | 0 <= j < |act|
        ensures !os[j].abort
      {
        assert act[j] == os[j];
      }
      AbortIsFinal(cfg, os, |act|);
    }
  }

  /** Only the abort flag ends the loop: every turn before the first abort runs
      through to its sleep, whatever its hash and sync outcomes. */
  lemma {:induction false} OnlyAbortEndsLoop(cfg: FeedConfig, os: seq<Observation>)
    ensures Completed(Run(cfg, os)) == |Active(os)|
    ensures !Aborts(os) ==> Completed(Run(cfg, os)) == |os|
    decreases |os|
  {
    if os != [] && !os[0].abort {
      CompletedAppend(Iteration(cfg, os[0]), Run(cfg, os[1..]));
      IterationCompletes(cfg, os[0]);
      OnlyAbortEndsLoop(cfg, os[1..]);
    }
  }

  // ---------------------------------------------------------------------------
  // Idempotence, under the assumption that the storage commits on success
  // ---------------------------------------------------------------------------

  /** The hash the storage holds after a turn, ASSUMING that a successful
      `synchronize_feeds(h)` commits `h` and a failed one leaves the stored
      hash alone. The storage behaviour itself is not part of this model. */
  function StoredAfter(o: Observation): string
  {
    var h := ComputedHash(o.sumfile);
    if ShouldSync(o.storedHash, h) && o.sync == Synced then h else o.storedHash
  }

  /** Each turn reads the hash the previous turn left in storage. */
  predicate CommitsOnSuccess(os: seq<Observation>)
  {
    forall j :: 0 <= j < |os| - 1 ==> os[j + 1].storedHash == StoredAfter(os[j])
  }

  lemma CommitsOnSuccessTail(os: seq<Observation>)
    requires os != [] && CommitsOnSuccess(os)
    ensures CommitsOnSuccess(os[1..])
  {
  }

  lemma {:induction false} StoredHashHeld(os: seq<Observation>, h: string)
    requires h != ""
    requires forall j :: 0 <= j < |os| ==> os[j].sumfile == Sum(h)
    requires CommitsOnSuccess(os)
    requires os != [] ==> os[0].storedHash == h
    ensures ExpectedSyncs(os) == []
    decreases |os|
  {
    if os != [] && !os[0].abort {
      if |os| > 1 {
        assert os[1].storedHash == StoredAfter(os[0]);
      }
      CommitsOnSuccessTail(os);
      StoredHashHeld(os[1..], h);
    }
  }

  /** The number of turns, before the first abort, up to and including the
      first one whose `synchronize_feeds` would succeed. */
  function TurnsUntilSynced(os: seq<Observation>): nat
  {
    if os == [] || os[0].abort then 0
    else if os[0].sync == Synced then 1
    else 1 + TurnsUntilSynced(os[1..])
  }

  /** With unchanged feed content and a storage that commits on success, a
      failed sync is retried in the next turn with the same hash, until one
      succeeds; after that no sync happens. No sync happens at all when the
      storage already holds the current hash. */
  lemma {:induction false} UnchangedFeedRetriesUntilSynced(os: seq<Observation>, h: string)
    requires h != ""
    requires forall j :: 0 <= j < |os| ==> os[j].sumfile == Sum(h)
    requires CommitsOnSuccess(os)
    ensures ExpectedSyncs(os) ==
            (if os == [] || os[0].abort || os[0].storedHash == h then [] else seq(TurnsUntilSynced(os), _ => h))
    decreases |os|
  {
    if os == [] || os[0].abort {
    } else if os[0].storedHash == h {
      StoredHashHeld(os, h);
    } else {
      if |os| > 1 {
        assert os[1].storedHash == StoredAfter(os[0]);
      }
      CommitsOnSuccessTail(os);
      if os[0].sync == Synced {
        StoredHashHeld(os[1..], h);
      } else {
        UnchangedFeedRetriesUntilSynced(os[1..], h);
        assert seq(TurnsUntilSynced(os), _ => h) == [h] + seq(TurnsUntilSynced(os[1..]), _ => h);
      }
    }
  }

  /** The sync log of a run over unchanged feed content: the current hash, once
      per turn up to and including the first successful sync. */
  lemma UnchangedFeedSyncLog(cfg: FeedConfig, os: seq<Observation>, h: string)
    requires h != ""
    requires forall j :: 0 <= j < |os| ==> os[j].sumfile == Sum(h)
    requires CommitsOnSuccess(os)
    ensures SyncCalls(Run(cfg, os)) ==
            (if os == [] || os[0].abort || os[0].storedHash == h then [] else seq(TurnsUntilSynced(os), _ => h))
  {
    RunSyncs(cfg, os);
    UnchangedFeedRetriesUntilSynced(os, h);
  }

  /** When the first sync succeeds, unchanged feed content is synchronised at
      most once: in the first turn, unless the storage already holds it. */
  lemma UnchangedFeedSyncsOnce(cfg: FeedConfig, os: seq<Observation>, h: string)
    requires h != ""
    requires forall j :: 0 <= j < |os| ==> os[j].sumfile == Sum(h)
    requires os != [] ==> os[0].sync == Synced
    requires CommitsOnSuccess(os)
    ensures SyncCalls(Run(cfg, os)) ==
            (if os == [] || os[0].abort || os[0].storedHash == h then [] else [h])
  {
    UnchangedFeedSyncLog(cfg, os, h);
    if os != [] && !os[0].abort && os[0].storedHash != h {
      assert TurnsUntilSynced(os) == 1;
    }
  }

  /** Turn `i` appends its effects to the log: it either ends the run, or
      leaves the run from turn `i + 1` still to come. */
  lemma RunFrom(cfg: FeedConfig, os: seq<Observation>, i: nat, before: seq<Effect>, after: seq<Effect>)
    requires i < |os|
    requires after == before + if os[i].abort then [AbortRead(true)] else Iteration(cfg, os[i])
    ensures os[i].abort ==> after == before + Run(cfg, os[i..])
    ensures !os[i].abort ==> after + Run(cfg, os[i + 1..]) == before + Run(cfg, os[i..])
  {
  }

  // ---------------------------------------------------------------------------
  // The loop itself
  // ---------------------------------------------------------------------------

  /** The shared context of the feed task: the feed configuration, and a
      specification-only log of what the loop has done to its collaborators.
      `running` is true while the loop is between its start and its break. */
  class Context {
    const feedConfig: Option<FeedConfig>
    ghost var effects: seq<Effect>
    var running: bool

    constructor (feedConfig: Option<FeedConfig>)
      ensures this.feedConfig == feedConfig
      ensures effects == [] && !running
    {
      this.feedConfig := feedConfig;
      effects := [];
      running := false;
    }

    /** Reads the abort flag, whose value is `flag`. */
    method ReadAbort(flag: bool) returns (aborted: bool)
      modifies this`effects
      ensures aborted == flag
      ensures effects == old(effects) + [AbortRead(flag)]
    {
      aborted := flag;
      effects := effects + [AbortRead(flag)];
    }

    /** Asks the storage for its committed feed hash, which is `stored`. */
    method FeedHash(stored: string) returns (last: string)
      modifies this`effects
      ensures last == stored
      ensures effects == old(effects) + [FeedHashRead(stored)]
    {
      last := stored;
      effects := effects + [FeedHashRead(stored)];
    }

    /** Verifies the feed signature under `path`; the verifier answers `answer`. */
    method CheckSignature(path: string, answer: SignatureResult) returns (result: SignatureResult)
      modifies this`effects
      ensures result == answer
      ensures effects == old(effects) + [SignatureChecked(answer)]
    {
      result := answer;
      effects := effects + [SignatureChecked(answer)];
    }

    /** Hashes the feed under `path`; the hasher answers `answer`, and an error
        becomes the empty hash. */
    method SumfileHash(path: string, answer: SumfileResult) returns (hash: string)
      modifies this`effects
      ensures hash == ComputedHash(answer)
      ensures effects == old(effects) + [HashComputed(answer, hash)]
    {
      hash := ComputedHash(answer);
      effects := effects + [HashComputed(answer, hash)];
    }

    /** Asks the storage to synchronise the feed to `hash`; it answers `answer`. */
    method SynchronizeFeeds(hash: string, answer: SyncResult) returns (result: SyncResult)
      modifies this`effects
      ensures result == answer
      ensures effects == old(effects) + [FeedsSynchronized(hash, answer)]
    {
      result := answer;
      effects := effects + [FeedsSynchronized(hash, answer)];
    }

    /** Sleeps for `interval`. */
    method Sleep(interval: nat)
      modifies this`effects
      ensures effects == old(effects) + [Slept(interval)]
    {
      effects := effects + [Slept(interval)];
    }

    /** One turn of the loop: the abort check, then, unless it reads true,
        the feed hash read, the optional signature check, the hash
        computation, the sync when `ShouldSync` calls for one, and the sleep.
        Every failure is absorbed. */
    method Turn(cfg: FeedConfig, o: Observation) returns (aborted: bool)
      modifies this`effects
      ensures aborted == o.abort
      ensures effects == old(effects) + if o.abort then [AbortRead(true)] else Iteration(cfg, o)
    {
      var path := cfg.path;
      aborted := ReadAbort(o.abort);
      if aborted {
        return;
      }
      var lastHash := FeedHash(o.storedHash);
      if cfg.signatureCheck {
        var _ := CheckSignature(path, o.signature);
      }
      ghost var sig: seq<Effect> := if cfg.signatureCheck then [SignatureChecked(o.signature)] else [];
      assert effects == old(effects) + [AbortRead(false), FeedHashRead(o.storedHash)] + sig;
      var hash := SumfileHash(path, o.sumfile);
      ghost var mid := effects;
      if |lastHash| == 0 || lastHash != hash {
        var _ := SynchronizeFeeds(hash, o.sync);
      }
      assert effects == mid + if ShouldSync(o.storedHash, hash) then [FeedsSynchronized(hash, o.sync)] else [];
      Sleep(cfg.verifyInterval);
    }

    /** The loop of `fetch` under the feed configuration `cfg`, over the
        observations `os` of its turns. Signature failures, hash failures and
        sync failures are absorbed; only the abort flag ends the loop. */
    method Poll(cfg: FeedConfig, os: seq<Observation>)
      modifies this`effects, this`running
      ensures effects == old(effects) + Run(cfg, os)
      ensures running <==> !Aborts(os)
    {
      running := true;
      var i := 0;
      assert os[i..] == os;
      while i < |os|
        invariant 0 <= i <= |os|
        invariant running
        invariant forall j :: 0 <= j < i ==> !os[j].abort
        invariant effects + Run(cfg, os[i..]) == old(effects) + Run(cfg, os)
      {
        ghost var before := effects;
        var aborted := Turn(cfg, os[i]);
        RunFrom(cfg, os, i, before, effects);
        if aborted {
          running := false;
          break;
        }
        i := i + 1;
      }
      assert i == |os| ==> os[i..] == [];
    }

    /** `fetch`: the loop runs only when a feed configuration exists. */
    method Fetch(os: seq<Observation>)
      modifies this
      ensures effects == old(effects) + FetchEffects(feedConfig, os)
      ensures feedConfig.None? ==> effects == old(effects) && running == old(running)
      ensures feedConfig.Some? ==> (running <==> !Aborts(os))
    {
      if feedConfig.Some? {
        Poll(feedConfig.value, os);
      }
    }
  }
}
