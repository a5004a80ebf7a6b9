/**
 * The per-directory archive trigger coordinator of TarSync (`archiveDir` and
 * its stream handlers) as a state machine over the process-wide `locks` and
 * `pending` tables, an abstract filesystem, and the archive runs started so far.
 *
 * JavaScript runs each handler to completion, and the continuations of awaited
 * promises run before the next I/O event, so every event below is one atomic
 * step: a request (from `init` or a watcher event), the close of a run's write
 * stream, an error on that stream, and the table clearing of `stop`.
 */
module Coordinator {
  import opened Naming

  /** Where a run's close handler stands. */
  datatype Phase =
    | Writing                    // the write stream is open; the lock was taken for this run
    | AwaitingRerun(child: nat)  // closed with a pending request; awaiting the rerun `child`
    | Finished                   // the close handler has run to its end

  /** The state of a run's promise. */
  datatype Outcome = Unsettled | Resolved | Rejected(reason: string)

  /** One call of `archiveDir` that got past the lock check. */
  datatype Run = Run(
    key: string,          // the watched path: the coordination key
    output: string,       // where the archive is published
    tmp: string,          // where it is packed first
    parent: Option<nat>,  // the run whose close handler started this one as its rerun
    phase: Phase,
    outcome: Outcome)

  /** The two tables, the files, and every run in order of creation (a run's index is its id). */
  datatype State = State(
    locks: set<string>,
    pending: set<string>,
    fs: map<string, seq<int>>,
    runs: seq<Run>)

  /** What a request did: it only marked the key pending, or it started run `run`. */
  datatype Requested = Coalesced | Started(run: nat)

  const DOES_NOT_EXIST: string := " does not exist"

  /** The rejection of a run whose temporary file is missing at publish time (dist build). */
  function MissingTemp(tmp: string): string {
    tmp + DOES_NOT_EXIST
  }

  // ---------------------------------------------------------------------------
  // Invariants

  ghost predicate ParentLinked(s: State, i: nat)
    requires i < |s.runs| && s.runs[i].parent.Some?
  {
    var p := s.runs[i].parent.value;
    && p < i
    && s.runs[p].key == s.runs[i].key
    && s.runs[p].output == s.runs[i].output
    && s.runs[p].tmp == s.runs[i].tmp
  }

  ghost predicate ChildLinked(s: State, i: nat)
    requires i < |s.runs| && s.runs[i].phase.AwaitingRerun?
  {
    var c := s.runs[i].phase.child;
    i < c < |s.runs| && s.runs[c].parent == Some(i)
  }

  /** Every run packs into its output path plus "~"; a rerun shares its parent's key and paths. */
  ghost predicate WellFormed(s: State) {
    && (forall i :: 0 <= i < |s.runs| ==> s.runs[i].tmp == TempPath(s.runs[i].output))
    && (forall i :: 0 <= i < |s.runs| && s.runs[i].parent.Some? ==> ParentLinked(s, i))
    && (forall i :: 0 <= i < |s.runs| && s.runs[i].phase.AwaitingRerun? ==> ChildLinked(s, i))
  }

  ghost predicate Writer(s: State, i: int, k: string) {
    0 <= i < |s.runs| && s.runs[i].phase == Writing && s.runs[i].key == k
  }

  ghost predicate HasWriter(s: State, k: string) {
    exists i :: Writer(s, i, k)
  }

  /** Holds after every event: a pending key is locked, and a locked key has a run writing. */
  ghost predicate Valid(s: State) {
    && WellFormed(s)
    && s.pending <= s.locks
    && (forall k :: k in s.locks ==> HasWriter(s, k))
  }

  /** At most one run per key is writing at a time, and a writing run's key is locked. */
  ghost predicate Exclusive(s: State) {
    && (forall i, j ::
          (0 <= i < |s.runs| && 0 <= j < |s.runs| && s.runs[i].phase == Writing && s.runs[j].phase == Writing
           && s.runs[i].key == s.runs[j].key) ==> i == j)
    && (forall i :: 0 <= i < |s.runs| && s.runs[i].phase == Writing ==> s.runs[i].key in s.locks)
  }

  /** Run `b` is run `a` with at most its promise settled or its awaiting finished. */
  ghost predicate SameRun(a: Run, b: Run) {
    && a.key == b.key && a.output == b.output && a.tmp == b.tmp && a.parent == b.parent
    && (a.phase == Writing <==> b.phase == Writing)
    && (b.phase != a.phase ==> a.phase.AwaitingRerun? && b.phase == Finished)
    && (a.outcome != Unsettled ==> b.outcome == a.outcome)
  }

  /** `t` has the same tables as `s` and the same runs up to settlement. */
  ghost predicate SameShape(s: State, t: State) {
    && t.locks == s.locks && t.pending == s.pending && |t.runs| == |s.runs|
    && forall i :: 0 <= i < |s.runs| ==> SameRun(s.runs[i], t.runs[i])
  }

  /** Replacing one run by a settled or finished copy of it keeps the state well formed. */
  lemma UpdateRun(s: State, i: nat, run: Run)
    requires WellFormed(s) && i < |s.runs| && SameRun(s.runs[i], run)
    ensures WellFormed(s.(runs := s.runs[i := run]))
    ensures SameShape(s, s.(runs := s.runs[i := run]))
  {
    var t := s.(runs := s.runs[i := run]);
    forall j | 0 <= j < |t.runs| && t.runs[j].parent.Some?
      ensures ParentLinked(t, j)
    {
      assert ParentLinked(s, j);
    }
    forall j | 0 <= j < |t.runs| && t.runs[j].phase.AwaitingRerun?
      ensures ChildLinked(t, j)
    {
      assert ChildLinked(s, j);
    }
  }

  lemma SameShapeTransitive(s: State, t: State, u: State)
    requires SameShape(s, t) && SameShape(t, u)
    ensures SameShape(s, u)
  {
    forall i | 0 <= i < |s.runs|
      ensures SameRun(s.runs[i], u.runs[i])
    {
      assert SameRun(s.runs[i], t.runs[i]) && SameRun(t.runs[i], u.runs[i]);
    }
  }

  // ---------------------------------------------------------------------------
  // Steps

  /**
   * Takes the lock for `key`, creates (or truncates) the temporary file and
   * records the new run, whose pack is now streaming into `tmp`.
   */
  function Launch(s: State, key: string, output: string, tmp: string, parent: Option<nat>): (r: State)
    ensures r.locks == s.locks + {key} && r.pending == s.pending
    ensures r.fs == s.fs[tmp := []]
    ensures |r.runs| == |s.runs| + 1 && r.runs[..|s.runs|] == s.runs
    ensures r.runs[|s.runs|] == Run(key, output, tmp, parent, Writing, Unsettled)
  {
    State(s.locks + {key}, s.pending, s.fs[tmp := []],
          s.runs + [Run(key, output, tmp, parent, Writing, Unsettled)])
  }

  /** One call of `archiveDir` from the instance configured as `cfg`. */
  function Request(s: State, cfg: Config): (r: (State, Requested))
    ensures r.1 == Coalesced <==> cfg.path in s.locks
    ensures r.0.locks == s.locks + {cfg.path}
    ensures r.1 == Coalesced ==> r.0 == s.(pending := s.pending + {cfg.path})
    ensures r.1.Started? ==>
      && r.0.pending == s.pending && r.1.run == |s.runs| && |r.0.runs| == |s.runs| + 1
      && r.0.runs[r.1.run] == Run(cfg.path, cfg.outputPath, cfg.tmpPath, None, Writing, Unsettled)
  {
    if cfg.path in s.locks then
      (s.(pending := s.pending + {cfg.path}), Coalesced)
    else
      (Launch(s, cfg.path, cfg.outputPath, cfg.tmpPath, None), Started(|s.runs|))
  }

  /**
   * The publish step of run `id`'s close handler: a missing temporary file
   * rejects (dist) or resolves silently (src); otherwise the temporary file is
   * renamed onto the output, unless the rename throws (`fault`).
   */
  function Publish(v: Variant, s: State, id: nat, fault: Option<string>): (r: (State, Outcome))
    requires id < |s.runs|
    ensures r.1 != Unsettled
    ensures r.0.locks == s.locks && r.0.pending == s.pending && r.0.runs == s.runs
  {
    var run := s.runs[id];
    if run.tmp !in s.fs then
      (s, if v == Dist then Rejected(MissingTemp(run.tmp)) else Resolved)
    else if fault.Some? then
      (s, Rejected(fault.value))
    else
      (s.(fs := (s.fs - {run.tmp})[run.output := s.fs[run.tmp]]), Resolved)
  }

  /**
   * Settles run `id`'s promise with `o` (a promise settles once; later calls
   * are ignored) and runs what its settlement wakes: the close handler of the
   * run awaiting it as its rerun. In dist that handler rejects with the same
   * error or goes on to its own publish; in src a rejection escapes the handler,
   * whose own promise then never settles.
   */
  function Settle(v: Variant, s: State, id: nat, o: Outcome): (r: State)
    requires WellFormed(s) && id < |s.runs| && o != Unsettled
    ensures WellFormed(r) && SameShape(s, r)
    ensures s.runs[id].outcome == Unsettled ==> r.runs[id].outcome == o
    ensures o.Rejected? || s.runs[id].tmp !in s.fs ==> r.fs == s.fs
    decreases id
  {
    var run := s.runs[id];
    if run.outcome != Unsettled then s
    else
      var settled := s.(runs := s.runs[id := run.(outcome := o)]);
      UpdateRun(s, id, run.(outcome := o));
      if run.parent.None? then settled
      else
        var p := run.parent.value;
        assert ParentLinked(s, id);
        if settled.runs[p].phase != AwaitingRerun(id) then settled
        else
          var resumed := settled.(runs := settled.runs[p := settled.runs[p].(phase := Finished)]);
          UpdateRun(settled, p, settled.runs[p].(phase := Finished));
          SameShapeTransitive(s, settled, resumed);
          if o.Rejected? then
            if v == Dist then
              var r := Settle(v, resumed, p, o);
              SameShapeTransitive(s, resumed, r);
              r
            else resumed
          else
            var (published, outcome) := Publish(v, resumed, p, None);
            var r := Settle(v, published, p, outcome);
            SameShapeTransitive(s, published, r);
            r
  }

  /**
   * Where the settlement cascade ends: at a run already settled (nothing
   * changes), or at a run nobody awaits (only that run settles).
   */
  lemma SettleStops(v: Variant, s: State, id: nat, o: Outcome)
    requires WellFormed(s) && id < |s.runs| && o != Unsettled
    requires s.runs[id].outcome == Unsettled ==>
      s.runs[id].parent.None? || s.runs[s.runs[id].parent.value].phase != AwaitingRerun(id)
    ensures s.runs[id].outcome != Unsettled ==> Settle(v, s, id, o) == s
    ensures s.runs[id].outcome == Unsettled ==>
      Settle(v, s, id, o) == s.(runs := s.runs[id := s.runs[id].(outcome := o)])
  {
    if s.runs[id].parent.Some? {
      assert ParentLinked(s, id);
    }
  }

  /** The state once run `id` settles with `o` and its parent `p` stops awaiting it. */
  function Resumed(s: State, id: nat, p: nat, o: Outcome): State
    requires id < |s.runs| && p < |s.runs|
  {
    s.(runs := s.runs[id := s.runs[id].(outcome := o)][p := s.runs[p].(phase := Finished)])
  }

  /**
   * One step of the settlement cascade: settling a run whose parent awaits it
   * is settling the parent next, after the parent's publish when `o` resolved.
   */
  lemma SettleResumesParent(v: Variant, s: State, id: nat, o: Outcome)
    requires WellFormed(s) && id < |s.runs| && o != Unsettled
    requires s.runs[id].outcome == Unsettled && s.runs[id].parent.Some?
    requires s.runs[id].parent.value < |s.runs|
    requires s.runs[s.runs[id].parent.value].phase == AwaitingRerun(id)
    ensures var p := s.runs[id].parent.value;
      var resumed := Resumed(s, id, p, o);
      && WellFormed(resumed) && p < id
      && (o.Rejected? && v == Dist ==> Settle(v, s, id, o) == Settle(v, resumed, p, o))
      && (o.Rejected? && v == Src ==> Settle(v, s, id, o) == resumed)
      && (!o.Rejected? ==>
            Settle(v, s, id, o) == Settle(v, Publish(v, resumed, p, None).0, p, Publish(v, resumed, p, None).1))
  {
    var run := s.runs[id];
    var p := run.parent.value;
    assert ParentLinked(s, id);
    var settled := s.(runs := s.runs[id := run.(outcome := o)]);
    UpdateRun(s, id, run.(outcome := o));
    assert settled.runs[p] == s.runs[p];
    UpdateRun(settled, p, settled.runs[p].(phase := Finished));
  }

  /**
   * The close of run `id`'s write stream: the packed `bytes` are in its
   * temporary file; the lock is released; a pending key is cleared and one
   * rerun starts and is awaited, otherwise the run publishes now.
   */
  function Close(v: Variant, s: State, id: nat, bytes: seq<int>, fault: Option<string>): (r: State)
    requires Valid(s) && id < |s.runs| && s.runs[id].phase == Writing
    ensures var key := s.runs[id].key;
      && r.pending == s.pending - {key}
      && r.locks == (if key in s.pending then s.locks else s.locks - {key})
      && |r.runs| == |s.runs| + (if key in s.pending then 1 else 0)
      && r.runs[id].phase != Writing
  {
    var run := s.runs[id];
    var written := s.fs[run.tmp := bytes];
    var unlocked := s.locks - {run.key};
    if run.key in s.pending then
      var awaiting := s.runs[id := run.(phase := AwaitingRerun(|s.runs|))];
      Launch(State(unlocked, s.pending - {run.key}, written, awaiting), run.key, run.output, run.tmp, Some(id))
    else
      var closed := State(unlocked, s.pending, written, s.runs[id := run.(phase := Finished)]);
      var (published, outcome) := Publish(v, closed, id, fault);
      Settle(v, published, id, outcome)
  }

  /** An error on run `id`'s write stream rejects its promise; the lock stays taken. */
  function StreamError(v: Variant, s: State, id: nat, err: string): (r: State)
    requires WellFormed(s) && id < |s.runs| && s.runs[id].phase == Writing
    ensures r.locks == s.locks && r.pending == s.pending && r.fs == s.fs
    ensures |r.runs| == |s.runs| && r.runs[id].phase == Writing
    ensures s.runs[id].outcome == Unsettled ==> r.runs[id].outcome == Rejected(err)
  {
    Settle(v, s, id, Rejected(err))
  }

  /** The table clearing of `stop`: dist drops the key from both tables, src leaves them. */
  function Stop(v: Variant, s: State, key: string): (r: State)
    ensures r.runs == s.runs && r.fs == s.fs
    ensures v == Dist ==> key !in r.locks && key !in r.pending
    ensures v == Src ==> r == s
  {
    if v == Dist then s.(locks := s.locks - {key}, pending := s.pending - {key}) else s
  }
}
