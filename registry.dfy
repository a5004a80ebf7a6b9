/**
 * The process-wide state that every TarSync instance shares, as mutable
 * fields: the static `locks` and `pending` tables, the filesystem, and the
 * runs whose stream handlers are registered. Each method handles one event in
 * place and is specified by the coordinator's step function for that event.
 */
module Registry {
  import opened Naming
  import opened Coordinator
  import opened CoordinatorInvariants

  class Registry {
    const variant: Variant
    var locks: set<string>
    var pending: set<string>
    var fs: map<string, seq<int>>
    var runs: seq<Run>

    /** The fields as a value of the coordinator's state. */
    function Snapshot(): State
      reads this
    {
      State(locks, pending, fs, runs)
    }

    ghost predicate Valid()
      reads this
    {
      Coordinator.Valid(Snapshot())
    }

    /** A process that has not archived anything yet, over the given files. */
    constructor (v: Variant, files: map<string, seq<int>>)
      ensures Valid() && Exclusive(Snapshot())
      ensures variant == v && Snapshot() == State({}, {}, files, [])
    {
      variant := v;
      locks, pending, fs, runs := {}, {}, files, [];
      InitialValid(files);
    }

    /** `archiveDir` called by the instance configured as `cfg`. */
    method Request(cfg: Config) returns (r: Requested)
      requires Valid() && ConfigOk(cfg)
      modifies this
      ensures Valid()
      ensures (Snapshot(), r) == Coordinator.Request(old(Snapshot()), cfg)
    {
      RequestKeepsInvariants(Snapshot(), cfg);
      if cfg.path in locks {
        pending := pending + {cfg.path};
        return Coalesced;
      }
      r := Started(|runs|);
      Launch(cfg.path, cfg.outputPath, cfg.tmpPath, None);
    }

    /** Opens the write stream on `tmp` (creating or truncating it), takes the lock, starts the pack. */
    method Launch(key: string, output: string, tmp: string, parent: Option<nat>)
      modifies this
      ensures Snapshot() == Coordinator.Launch(old(Snapshot()), key, output, tmp, parent)
    {
      fs := fs[tmp := []];
      locks := locks + {key};
      runs := runs + [Run(key, output, tmp, parent, Writing, Unsettled)];
    }

    /** The existence check and `renameSync` of run `id`'s close handler. */
    method Publish(id: nat, fault: Option<string>) returns (o: Outcome)
      requires id < |runs|
      modifies this
      ensures (Snapshot(), o) == Coordinator.Publish(variant, old(Snapshot()), id, fault)
    {
      var tmp, output := runs[id].tmp, runs[id].output;
      if tmp !in fs {
        o := if variant == Dist then Rejected(MissingTemp(tmp)) else Resolved;
        return;
      }
      if fault.Some? {
        return Rejected(fault.value);
      }
      var data := fs[tmp];
      fs := fs - {tmp};
      fs := fs[output := data];
      o := Resolved;
    }

    /**
     * Settles run `id` and walks up the runs that were awaiting it as their
     * rerun, resuming each one's close handler in turn.
     */
    method Settle(id: nat, o: Outcome)
      requires WellFormed(Snapshot()) && id < |runs| && o != Unsettled
      modifies this
      ensures Snapshot() == Coordinator.Settle(variant, old(Snapshot()), id, o)
    {
      var current: nat, outcome := id, o;
      while true
        invariant WellFormed(Snapshot()) && current < |runs| && outcome != Unsettled
        invariant Coordinator.Settle(variant, Snapshot(), current, outcome)
               == Coordinator.Settle(variant, old(Snapshot()), id, o)
        decreases current
      {
        var done, next, nextOutcome := Resume(current, outcome);
        if done {
          return;
        }
        current, outcome := next, nextOutcome;
      }
    }

    /**
     * Settles run `id` with `o`. When a parent was awaiting it, the parent's
     * close handler resumes: it finishes, and unless the src build drops the
     * rejection, its promise is next to settle, with `o` itself on a rejection
     * (dist) or with the outcome of its own publish.
     */
    method Resume(id: nat, o: Outcome) returns (done: bool, next: nat, nextOutcome: Outcome)
      requires WellFormed(Snapshot()) && id < |runs| && o != Unsettled
      modifies this
      ensures WellFormed(Snapshot())
      ensures done ==> Snapshot() == Coordinator.Settle(variant, old(Snapshot()), id, o)
      ensures !done ==>
        && next < id && next < |runs| && nextOutcome != Unsettled
        && Coordinator.Settle(variant, Snapshot(), next, nextOutcome) == Coordinator.Settle(variant, old(Snapshot()), id, o)
    {
      var run := runs[id];
      if run.parent.Some? {
        assert ParentLinked(Snapshot(), id);
      }
      if run.outcome != Unsettled || run.parent.None? || runs[run.parent.value].phase != AwaitingRerun(id) {
        SettleStops(variant, Snapshot(), id, o);
        if run.outcome == Unsettled {
          UpdateRun(Snapshot(), id, run.(outcome := o));
          runs := runs[id := run.(outcome := o)];
        }
        return true, 0, o;
      }
      var p := run.parent.value;
      ghost var before := Snapshot();
      SettleResumesParent(variant, before, id, o);
      runs := runs[id := run.(outcome := o)][p := runs[p].(phase := Finished)];
      assert Snapshot() == Resumed(before, id, p, o);
      if o.Rejected? {
        if variant == Src {
          return true, 0, o;
        }
        return false, p, o;
      }
      nextOutcome := Publish(p, None);
      return false, p, nextOutcome;
    }

    /** The `close` handler of run `id`'s write stream, the pack having written `bytes`. */
    method WriteClosed(id: nat, bytes: seq<int>, fault: Option<string>)
      requires Valid() && id < |runs| && runs[id].phase == Writing
      modifies this
      ensures Valid()
      ensures Snapshot() == Close(variant, old(Snapshot()), id, bytes, fault)
    {
      ghost var s0 := Snapshot();
      CloseKeepsInvariants(variant, s0, id, bytes, fault);
      var run := runs[id];
      if run.key !in pending {
        FinishKeepsValid(s0, id, bytes);
      }
      fs := fs[run.tmp := bytes];
      locks := locks - {run.key};
      if run.key in pending {
        pending := pending - {run.key};
        runs := runs[id := run.(phase := AwaitingRerun(|runs|))];
        Launch(run.key, run.output, run.tmp, Some(id));
      } else {
        runs := runs[id := run.(phase := Finished)];
        assert Snapshot() == State(s0.locks - {run.key}, s0.pending, s0.fs[run.tmp := bytes], s0.runs[id := run.(phase := Finished)]);
        var outcome := Publish(id, fault);
        Settle(id, outcome);
      }
    }

    /** The `error` handler of run `id`'s write stream. */
    method StreamError(id: nat, err: string)
      requires Valid() && id < |runs| && runs[id].phase == Writing
      modifies this
      ensures Valid()
      ensures Snapshot() == Coordinator.StreamError(variant, old(Snapshot()), id, err)
    {
      StreamErrorKeepsInvariants(variant, Snapshot(), id, err);
      Settle(id, Rejected(err));
    }

    /** The table clearing of the dist build's `stop` for `key`. */
    method Release(key: string)
      requires Valid()
      modifies this
      ensures Valid()
      ensures Snapshot() == Coordinator.Stop(Dist, old(Snapshot()), key)
    {
      StopKeepsValid(Dist, Snapshot(), key);
      locks := locks - {key};
      pending := pending - {key};
    }
  }
}
