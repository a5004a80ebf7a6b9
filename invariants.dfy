/**
 * Every event of the coordinator keeps `pending` inside `locks` and keeps a
 * writing run behind every lock, in both builds. The stronger exclusion (one
 * writing run per key) survives every event except the dist build's `stop`
 * while a run for that key is still writing.
 */
module CoordinatorInvariants {
  import opened Naming
  import opened Coordinator

  /** The state a process starts in: empty tables and no runs, over any files. */
  lemma InitialValid(files: map<string, seq<int>>)
    ensures Valid(State({}, {}, files, []))
    ensures Exclusive(State({}, {}, files, []))
  {
  }

  /** States of the same shape agree on the invariants. */
  lemma SameShapeKeepsInvariants(s: State, t: State)
    requires Valid(s) && WellFormed(t) && SameShape(s, t)
    ensures Valid(t)
    ensures Exclusive(s) ==> Exclusive(t)
  {
    forall k | k in t.locks
      ensures HasWriter(t, k)
    {
      var i :| Writer(s, i, k);
      assert SameRun(s.runs[i], t.runs[i]);
      assert Writer(t, i, k);
    }
    if Exclusive(s) {
      forall i, j | 0 <= i < |t.runs| && 0 <= j < |t.runs| && t.runs[i].phase == Writing
        && t.runs[j].phase == Writing && t.runs[i].key == t.runs[j].key
        ensures i == j
      {
        assert SameRun(s.runs[i], t.runs[i]) && SameRun(s.runs[j], t.runs[j]);
      }
      forall i | 0 <= i < |t.runs| && t.runs[i].phase == Writing
        ensures t.runs[i].key in t.locks
      {
        assert SameRun(s.runs[i], t.runs[i]);
      }
    }
  }

  /** Starting a first run (not a rerun) keeps the invariant. */
  lemma LaunchKeepsValid(s: State, key: string, output: string, tmp: string)
    requires Valid(s) && tmp == TempPath(output)
    ensures Valid(Launch(s, key, output, tmp, None))
  {
    var t := Launch(s, key, output, tmp, None);
    var n := |s.runs|;
    assert Writer(t, n, key);
    forall k | k in t.locks
      ensures HasWriter(t, k)
    {
      if k != key {
        var i :| Writer(s, i, k);
        assert Writer(t, i, k);
      }
    }
    forall j | 0 <= j < |t.runs| && t.runs[j].parent.Some?
      ensures ParentLinked(t, j)
    {
      if j < n {
        assert ParentLinked(s, j);
      }
    }
    forall j | 0 <= j < |t.runs| && t.runs[j].phase.AwaitingRerun?
      ensures ChildLinked(t, j)
    {
      assert ChildLinked(s, j);
    }
  }

  /** Starting a run for an unlocked key keeps exclusion. */
  lemma LaunchKeepsExclusive(s: State, key: string, output: string, tmp: string)
    requires Valid(s) && Exclusive(s) && key !in s.locks
    ensures Exclusive(Launch(s, key, output, tmp, None))
  {
    var t := Launch(s, key, output, tmp, None);
    forall i, j | 0 <= i < |t.runs| && 0 <= j < |t.runs| && t.runs[i].phase == Writing
      && t.runs[j].phase == Writing && t.runs[i].key == t.runs[j].key
      ensures i == j
    {
    }
  }

  /** Run `p` exists, has this key and these paths, and awaits the run about to be created. */
  ghost predicate ParentLinkedTo(s: State, p: nat, key: string, output: string, tmp: string) {
    && p < |s.runs|
    && s.runs[p].key == key && s.runs[p].output == output && s.runs[p].tmp == tmp
    && s.runs[p].phase == AwaitingRerun(|s.runs|)
  }

  /** A request keeps the invariant, and keeps exclusion. */
  lemma RequestKeepsInvariants(s: State, cfg: Config)
    requires Valid(s) && ConfigOk(cfg)
    ensures Valid(Request(s, cfg).0)
    ensures Exclusive(s) ==> Exclusive(Request(s, cfg).0)
  {
    var t := Request(s, cfg).0;
    if cfg.path !in s.locks {
      LaunchKeepsValid(s, cfg.path, cfg.outputPath, cfg.tmpPath);
      if Exclusive(s) {
        LaunchKeepsExclusive(s, cfg.path, cfg.outputPath, cfg.tmpPath);
      }
    } else {
      forall k | k in t.locks
        ensures HasWriter(t, k)
      {
        var i :| Writer(s, i, k);
        assert Writer(t, i, k);
      }
    }
  }

  /** The state right after a close with no pending request, before publishing. */
  lemma FinishKeepsValid(s: State, id: nat, bytes: seq<int>)
    requires Valid(s) && id < |s.runs| && s.runs[id].phase == Writing && s.runs[id].key !in s.pending
    ensures var run := s.runs[id];
      Valid(State(s.locks - {run.key}, s.pending, s.fs[run.tmp := bytes], s.runs[id := run.(phase := Finished)]))
    ensures var run := s.runs[id];
      Exclusive(s) ==>
      Exclusive(State(s.locks - {run.key}, s.pending, s.fs[run.tmp := bytes], s.runs[id := run.(phase := Finished)]))
  {
    var run := s.runs[id];
    var t := State(s.locks - {run.key}, s.pending, s.fs[run.tmp := bytes], s.runs[id := run.(phase := Finished)]);
    forall k | k in t.locks
      ensures HasWriter(t, k)
    {
      var i :| Writer(s, i, k);
      assert Writer(t, i, k);
    }
    forall j | 0 <= j < |t.runs| && t.runs[j].parent.Some?
      ensures ParentLinked(t, j)
    {
      assert ParentLinked(s, j);
    }
    forall j | 0 <= j < |t.runs| && t.runs[j].phase.AwaitingRerun?
      ensures ChildLinked(t, j)
    {
      assert ChildLinked(s, j);
    }
  }

  /** The state right after a close with a pending request: the run awaits a new rerun. */
  lemma AwaitKeepsValid(s: State, id: nat, bytes: seq<int>)
    requires Valid(s) && id < |s.runs| && s.runs[id].phase == Writing && s.runs[id].key in s.pending
    ensures var run := s.runs[id];
      var u := State(s.locks - {run.key}, s.pending - {run.key}, s.fs[run.tmp := bytes],
                     s.runs[id := run.(phase := AwaitingRerun(|s.runs|))]);
      && WellFormedBut(u, id)
      && u.pending <= u.locks + {run.key}
      && (forall k :: k in u.locks && k != run.key ==> HasWriter(u, k))
      && ParentLinkedTo(u, id, run.key, run.output, run.tmp)
      && run.tmp == TempPath(run.output)
  {
    var run := s.runs[id];
    var u := State(s.locks - {run.key}, s.pending - {run.key}, s.fs[run.tmp := bytes],
                   s.runs[id := run.(phase := AwaitingRerun(|s.runs|))]);
    forall k | k in u.locks && k != run.key
      ensures HasWriter(u, k)
    {
      var i :| Writer(s, i, k);
      assert Writer(u, i, k);
    }
    forall j | 0 <= j < |u.runs| && u.runs[j].parent.Some?
      ensures ParentLinked(u, j)
    {
      assert ParentLinked(s, j);
    }
    forall j | 0 <= j < |u.runs| && j != id && u.runs[j].phase.AwaitingRerun?
      ensures ChildLinked(u, j)
    {
      assert ChildLinked(s, j);
    }
  }

  /** Well formed, except that run `id` may await a child that is not created yet. */
  ghost predicate WellFormedBut(s: State, id: nat) {
    && (forall i :: 0 <= i < |s.runs| ==> s.runs[i].tmp == TempPath(s.runs[i].output))
    && (forall i :: 0 <= i < |s.runs| && s.runs[i].parent.Some? ==> ParentLinked(s, i))
    && (forall i :: 0 <= i < |s.runs| && i != id && s.runs[i].phase.AwaitingRerun? ==> ChildLinked(s, i))
  }

  /** Launching the awaited rerun completes the links. */
  lemma LaunchRerunKeepsValid(u: State, id: nat)
    requires id < |u.runs|
    requires WellFormedBut(u, id)
    requires u.pending <= u.locks + {u.runs[id].key}
    requires forall k :: k in u.locks && k != u.runs[id].key ==> HasWriter(u, k)
    requires ParentLinkedTo(u, id, u.runs[id].key, u.runs[id].output, u.runs[id].tmp)
    ensures Valid(Launch(u, u.runs[id].key, u.runs[id].output, u.runs[id].tmp, Some(id)))
  {
    var run := u.runs[id];
    var t := Launch(u, run.key, run.output, run.tmp, Some(id));
    var n := |u.runs|;
    assert Writer(t, n, run.key);
    forall k | k in t.locks
      ensures HasWriter(t, k)
    {
      if k != run.key {
        var i :| Writer(u, i, k);
        assert Writer(t, i, k);
      }
    }
    forall j | 0 <= j < |t.runs| && t.runs[j].parent.Some?
      ensures ParentLinked(t, j)
    {
      if j < n {
        assert ParentLinked(u, j);
      }
    }
    forall j | 0 <= j < |t.runs| && t.runs[j].phase.AwaitingRerun?
      ensures ChildLinked(t, j)
    {
      if j != id {
        assert ChildLinked(u, j);
      }
    }
  }

  /** The close of a run's write stream keeps the invariant, and keeps exclusion. */
  lemma CloseKeepsInvariants(v: Variant, s: State, id: nat, bytes: seq<int>, fault: Option<string>)
    requires Valid(s) && id < |s.runs| && s.runs[id].phase == Writing
    ensures Valid(Close(v, s, id, bytes, fault))
    ensures Exclusive(s) ==> Exclusive(Close(v, s, id, bytes, fault))
  {
    var run := s.runs[id];
    var t := Close(v, s, id, bytes, fault);
    if run.key in s.pending {
      var u := State(s.locks - {run.key}, s.pending - {run.key}, s.fs[run.tmp := bytes],
                     s.runs[id := run.(phase := AwaitingRerun(|s.runs|))]);
      AwaitKeepsValid(s, id, bytes);
      LaunchRerunKeepsValid(u, id);
      if Exclusive(s) {
        RerunKeepsExclusive(s, id, bytes);
      }
    } else {
      var closed := State(s.locks - {run.key}, s.pending, s.fs[run.tmp := bytes], s.runs[id := run.(phase := Finished)]);
      FinishKeepsValid(s, id, bytes);
      var (published, outcome) := Publish(v, closed, id, fault);
      assert SameShape(closed, published) by {
        forall i | 0 <= i < |closed.runs|
          ensures SameRun(closed.runs[i], published.runs[i])
        {
        }
      }
      SameShapeKeepsInvariants(closed, published);
      SameShapeKeepsInvariants(published, t);
    }
  }

  /** A close that starts the pending rerun keeps exclusion: the closed run stops writing as the rerun starts. */
  lemma RerunKeepsExclusive(s: State, id: nat, bytes: seq<int>)
    requires Valid(s) && Exclusive(s) && id < |s.runs| && s.runs[id].phase == Writing && s.runs[id].key in s.pending
    ensures var run := s.runs[id];
      Exclusive(Launch(State(s.locks - {run.key}, s.pending - {run.key}, s.fs[run.tmp := bytes],
                             s.runs[id := run.(phase := AwaitingRerun(|s.runs|))]),
                       run.key, run.output, run.tmp, Some(id)))
  {
    var run := s.runs[id];
    var t := Launch(State(s.locks - {run.key}, s.pending - {run.key}, s.fs[run.tmp := bytes],
                          s.runs[id := run.(phase := AwaitingRerun(|s.runs|))]),
                    run.key, run.output, run.tmp, Some(id));
    var n := |s.runs|;
    assert t.runs[id].phase != Writing;
    forall i, j | 0 <= i < |t.runs| && 0 <= j < |t.runs| && t.runs[i].phase == Writing
      && t.runs[j].phase == Writing && t.runs[i].key == t.runs[j].key
      ensures i == j
    {
    }
    forall i | 0 <= i < |t.runs| && t.runs[i].phase == Writing
      ensures t.runs[i].key in t.locks
    {
      if i < n && t.runs[i].key != run.key {
        assert s.runs[i].phase == Writing;
      }
    }
  }

  /** An error on a run's write stream keeps the invariant, and keeps exclusion. */
  lemma StreamErrorKeepsInvariants(v: Variant, s: State, id: nat, err: string)
    requires Valid(s) && id < |s.runs| && s.runs[id].phase == Writing
    ensures Valid(StreamError(v, s, id, err))
    ensures Exclusive(s) ==> Exclusive(StreamError(v, s, id, err))
  {
    SameShapeKeepsInvariants(s, StreamError(v, s, id, err));
  }

  /** `stop` keeps the invariant in both builds. */
  lemma StopKeepsValid(v: Variant, s: State, key: string)
    requires Valid(s)
    ensures Valid(Stop(v, s, key))
  {
    var t := Stop(v, s, key);
    forall k | k in t.locks
      ensures HasWriter(t, k)
    {
      var i :| Writer(s, i, k);
      assert Writer(t, i, k);
    }
  }

  /**
   * `stop` keeps exclusion in the src build always, and in the dist build
   * exactly when no run for the key is still writing.
   */
  lemma StopKeepsExclusive(v: Variant, s: State, key: string)
    requires Valid(s) && Exclusive(s)
    ensures Exclusive(Stop(v, s, key)) <==> v == Src || !HasWriter(s, key)
  {
    if v == Dist && HasWriter(s, key) {
      var i :| Writer(s, i, key);
      assert Stop(v, s, key).runs[i].key !in Stop(v, s, key).locks;
    }
  }
}
