/**
 * One TarSync instance: its configuration, its watcher, and the promise of
 * its `start()`. `start()` lists the directory, runs the initial archive and,
 * once that has settled, attaches the watcher, whose events each call
 * `archiveDir`; `stop()` closes the watcher and, in the dist build, clears the
 * instance's key from the shared tables.
 */
module Sync {
  import opened Naming
  import opened Coordinator
  import opened CoordinatorProperties
  import opened Registry

  /** The instance's `fsWatcher`: not created yet, listening, or closed. */
  datatype Watcher = NoWatcher | Listening | Closed

  const FAILED_INIT: string := "Failed init: "

  /** What `this.fsWatcher.close()` throws when `start()` never created a watcher. */
  const NO_WATCHER: string := "TypeError: Cannot read properties of undefined (reading 'close')"

  /**
   * What `start()` settles to once the initial run has settled: dist passes a
   * rejection on as "Failed init: <reason>", src swallows it and resolves.
   */
  function StartResult(v: Variant, init: Outcome): (r: Outcome)
    requires init != Unsettled
    ensures r != Unsettled
    ensures r == Resolved <==> v == Src || init == Resolved
    ensures r.Rejected? ==> r.reason == FAILED_INIT + init.reason
  {
    if v == Src || init == Resolved then Resolved else Rejected(FAILED_INIT + init.reason)
  }

  /**
   * How many listeners a watcher event reaches: the one for its own kind when
   * that kind is a trigger, and the one for "all" when "all" is a trigger. A
   * closed or absent watcher delivers nothing.
   */
  function Listeners(w: Watcher, triggers: set<Event>, kind: Event): (n: nat)
    requires kind != All
    ensures n <= 2
    ensures w != Listening ==> n == 0
    ensures w == Listening ==> n == |{kind, All} * triggers|
  {
    if w != Listening then 0
    else if kind in triggers && All in triggers then
      assert {kind, All} * triggers == {kind, All};
      2
    else if kind in triggers then
      assert {kind, All} * triggers == {kind};
      1
    else if All in triggers then
      assert {kind, All} * triggers == {All};
      1
    else
      assert {kind, All} * triggers == {};
      0
  }

  /**
   * The initial archive hit by a request during it: after the rerun publishes,
   * the initial run finds its temporary file gone, so the dist build's `start()`
   * rejects with "Failed init: <tmp> does not exist", while the src build's
   * resolves.
   */
  lemma StartFailsAfterInitialRerun(v: Variant, s: State, c: nat, p: nat, bytes: seq<int>)
    requires Valid(s) && c < |s.runs| && s.runs[c].phase == Writing && s.runs[c].key !in s.pending
    requires s.runs[c].parent == Some(p) && p < |s.runs| && s.runs[p].phase == AwaitingRerun(c)
    requires s.runs[c].outcome == Unsettled && s.runs[p].outcome == Unsettled
    ensures var t := Close(v, s, c, bytes, None);
      && t.runs[p].outcome != Unsettled
      && StartResult(v, t.runs[p].outcome)
         == if v == Dist then Rejected(FAILED_INIT + MissingTemp(s.runs[c].tmp)) else Resolved
  {
    RerunStrandsOuterRun(v, s, c, p, bytes);
  }

  class TarSync {
    const variant: Variant
    const config: Config
    const registry: Registry
    var watcher: Watcher
    var initRun: Option<nat>   // the initial archive run `start()` awaits, once started
    var started: Outcome       // the promise `start()` returned

    ghost predicate Valid()
      reads this, registry
    {
      registry.Valid() && registry.variant == variant && ConfigOk(config)
    }

    /** Not started yet. */
    predicate Created()
      reads this
    {
      watcher == NoWatcher && initRun.None? && started == Unsettled
    }

    /** The constructor: option defaulting; nothing is archived or watched yet. */
    constructor (path: string, opts: Options, shared: Registry)
      ensures variant == shared.variant && registry == shared
      ensures config.path == path && ConfigOk(config)
      ensures config.outputPath == OutputPath(variant, path, opts)
      ensures config.triggers == TriggerSet(opts) && config.verbose == Verbose(variant, opts)
      ensures Created()
    {
      var cfg := Configure(shared.variant, path, opts);
      variant, config, registry := shared.variant, cfg, shared;
      watcher, initRun, started := NoWatcher, None, Unsettled;
    }

    /**
     * `start()`, up to the initial archive: an unreadable directory rejects
     * (dist) or skips the archive and starts watching (src); otherwise
     * `archiveDir` is called, and `start()` goes on at once when it only
     * marked the key pending, or awaits the run it started.
     */
    method Start(readdirError: Option<string>)
      requires Valid() && Created()
      modifies this, registry
      ensures Valid()
      ensures readdirError.Some? ==>
        && registry.Snapshot() == old(registry.Snapshot()) && initRun.None?
        && (variant == Dist ==> watcher == NoWatcher && started == Rejected(FAILED_INIT + readdirError.value))
        && (variant == Src ==> watcher == Listening && started == Resolved)
      ensures readdirError.None? ==>
        && var (t, r) := Coordinator.Request(old(registry.Snapshot()), config);
        && registry.Snapshot() == t
        && (r == Coalesced ==> watcher == Listening && started == Resolved && initRun.None?)
        && (r.Started? ==> watcher == NoWatcher && started == Unsettled && initRun == Some(r.run))
    {
      if readdirError.Some? {
        if variant == Dist {
          started := Rejected(FAILED_INIT + readdirError.value);
        } else {
          watcher, started := Listening, Resolved;
        }
        return;
      }
      var r := registry.Request(config);
      if r.Started? {
        initRun := Some(r.run);
      } else {
        watcher, started := Listening, Resolved;
      }
    }

    /**
     * The rest of `start()` once the initial run has settled: the watcher is
     * attached unless the dist build rejects.
     */
    method InitSettled()
      requires Valid() && started == Unsettled
      requires initRun.Some? && initRun.value < |registry.runs|
      requires registry.runs[initRun.value].outcome != Unsettled
      modifies this
      ensures Valid() && initRun == old(initRun)
      ensures started == StartResult(variant, registry.runs[initRun.value].outcome)
      ensures watcher == (if started == Resolved then Listening else old(watcher))
    {
      var outcome := registry.runs[initRun.value].outcome;
      if variant == Dist && outcome.Rejected? {
        started := Rejected(FAILED_INIT + outcome.reason);
      } else {
        watcher, started := Listening, Resolved;
      }
    }

    /**
     * A change of `kind` reported by the watcher: each listener it reaches
     * calls `archiveDir`; what those calls settle to is not passed on.
     */
    method OnEvent(kind: Event)
      requires Valid() && kind != All
      modifies registry
      ensures Valid()
      ensures registry.Snapshot() == Requests(old(registry.Snapshot()), config, Listeners(watcher, config.triggers, kind))
    {
      ghost var s0 := registry.Snapshot();
      if watcher == Listening && kind in config.triggers {
        var _ := registry.Request(config);
      }
      ghost var s1 := registry.Snapshot();
      assert s1 == Requests(s0, config, if watcher == Listening && kind in config.triggers then 1 else 0);
      if watcher == Listening && All in config.triggers {
        var _ := registry.Request(config);
        assert registry.Snapshot() == Requests(s1, config, 1);
        RequestsCompose(s0, config, if kind in config.triggers then 1 else 0);
      }
    }

    /**
     * `stop()`: without a watcher it rejects and changes nothing; otherwise it
     * closes the watcher and, in the dist build, clears the key from both tables.
     */
    method Stop() returns (o: Outcome)
      requires Valid()
      modifies this, registry
      ensures Valid() && initRun == old(initRun) && started == old(started)
      ensures old(watcher) == NoWatcher ==>
        o == Rejected(NO_WATCHER) && watcher == NoWatcher && registry.Snapshot() == old(registry.Snapshot())
      ensures old(watcher) != NoWatcher ==>
        && o == Resolved && watcher == Closed
        && registry.Snapshot() == Coordinator.Stop(variant, old(registry.Snapshot()), config.path)
    {
      if watcher == NoWatcher {
        return Rejected(NO_WATCHER);
      }
      watcher := Closed;
      if variant == Dist {
        registry.Release(config.path);
      }
      o := Resolved;
    }
  }
}
