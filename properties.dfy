/**
 * What the coordinator promises, event by event and across events: a request
 * for a locked key only marks it pending; closing a run with a pending key
 * starts exactly one rerun however many requests came in; publishing renames
 * the temporary file onto the output and touches nothing else, even after a
 * stream error; and the consequences of the shared temporary path and of `stop`.
 */
module CoordinatorProperties {
  import opened Naming
  import opened Coordinator
  import opened CoordinatorInvariants

  /** Path `q` holds the same thing (or nothing) in both filesystems. */
  ghost predicate SameFile(a: map<string, seq<int>>, b: map<string, seq<int>>, q: string) {
    (q in a <==> q in b) && (q in a ==> a[q] == b[q])
  }

  /**
   * A request for a locked key marks it pending and starts nothing; a request
   * for an unlocked key locks it, creates its empty temporary file and starts
   * exactly one run. No other key's entries change.
   */
  lemma RequestEffect(s: State, cfg: Config)
    ensures var (t, r) := Request(s, cfg);
      && (r == Coalesced <==> cfg.path in s.locks)
      && (r == Coalesced ==>
            t.locks == s.locks && t.pending == s.pending + {cfg.path} && t.runs == s.runs && t.fs == s.fs)
      && (r.Started? ==>
            && r.run == |s.runs|
            && t.locks == s.locks + {cfg.path} && t.pending == s.pending
            && t.runs == s.runs + [Run(cfg.path, cfg.outputPath, cfg.tmpPath, None, Writing, Unsettled)]
            && cfg.tmpPath in t.fs && t.fs[cfg.tmpPath] == []
            && forall q :: q != cfg.tmpPath ==> SameFile(s.fs, t.fs, q))
      && forall k :: k != cfg.path ==> (k in t.locks <==> k in s.locks) && (k in t.pending <==> k in s.pending)
  {
  }

  /** `n` requests from the same instance in a row, with no other event between them. */
  function Requests(s: State, cfg: Config, n: nat): State
    decreases n
  {
    if n == 0 then s else Requests(Request(s, cfg).0, cfg, n - 1)
  }

  /** A further request after `n` of them is the same as `n + 1` of them. */
  lemma {:induction false} RequestsCompose(s: State, cfg: Config, n: nat)
    ensures Requests(Requests(s, cfg, n), cfg, 1) == Requests(s, cfg, n + 1)
    decreases n
  {
    if n > 0 {
      RequestsCompose(Request(s, cfg).0, cfg, n - 1);
    }
  }

  /** Any number of requests during a run amount to a single pending mark. */
  lemma {:induction false} RepeatedRequestsCoalesce(s: State, cfg: Config, n: nat)
    requires cfg.path in s.locks
    ensures Requests(s, cfg, n) == if n == 0 then s else s.(pending := s.pending + {cfg.path})
    decreases n
  {
    if n > 0 {
      var next := Request(s, cfg).0;
      RepeatedRequestsCoalesce(next, cfg, n - 1);
    }
  }

  /**
   * Closing a run releases its key; a pending key is cleared and exactly one
   * rerun of the same key and paths starts, writing and locked; without a
   * pending key no run starts. Other keys' entries do not change.
   */
  lemma CloseTablesEffect(v: Variant, s: State, id: nat, bytes: seq<int>, fault: Option<string>)
    requires Valid(s) && id < |s.runs| && s.runs[id].phase == Writing
    ensures var run, t := s.runs[id], Close(v, s, id, bytes, fault);
      && t.pending == s.pending - {run.key}
      && t.locks == (if run.key in s.pending then s.locks else s.locks - {run.key})
      && |t.runs| == |s.runs| + (if run.key in s.pending then 1 else 0)
      && (run.key in s.pending ==>
            && t.runs[|s.runs|] == Run(run.key, run.output, run.tmp, Some(id), Writing, Unsettled)
            && t.runs[id].phase == AwaitingRerun(|s.runs|))
      && (run.key !in s.pending ==> t.runs[id].phase == Finished)
  {
    var run := s.runs[id];
    if run.key !in s.pending {
      var closed := State(s.locks - {run.key}, s.pending, s.fs[run.tmp := bytes], s.runs[id := run.(phase := Finished)]);
      var (published, outcome) := Publish(v, closed, id, fault);
      FinishKeepsValid(s, id, bytes);
      var t := Settle(v, published, id, outcome);
      assert SameRun(published.runs[id], t.runs[id]);
    }
  }

  /**
   * Coalescing: however many requests (n >= 1) arrive while a run is writing,
   * its close starts exactly one rerun; with none, it starts no run. The rerun
   * packs into the running run's paths, even when the requests came from an
   * instance with another output path but the same watched path.
   */
  lemma BurstYieldsOneRerun(v: Variant, s: State, cfg: Config, n: nat, id: nat, bytes: seq<int>, fault: Option<string>)
    requires Valid(s) && ConfigOk(cfg)
    requires id < |s.runs| && s.runs[id].phase == Writing && s.runs[id].key == cfg.path
    requires cfg.path in s.locks && cfg.path !in s.pending
    ensures var burst := Requests(s, cfg, n);
      && Valid(burst) && id < |burst.runs| && burst.runs[id].phase == Writing
      && var t := Close(v, burst, id, bytes, fault);
      && |t.runs| == |s.runs| + (if n == 0 then 0 else 1)
      && (n > 0 ==> t.runs[|s.runs|] == Run(cfg.path, s.runs[id].output, s.runs[id].tmp, Some(id), Writing, Unsettled))
      && (cfg.path in t.locks <==> n > 0)
      && cfg.path !in t.pending
  {
    RepeatedRequestsCoalesce(s, cfg, n);
    var burst := Requests(s, cfg, n);
    if n > 0 {
      RequestKeepsInvariants(s, cfg);
    }
    CloseTablesEffect(v, burst, id, bytes, fault);
  }

  /**
   * No lost update: a request that arrived while the key was locked makes the
   * close of the key's writing run start a new run for that key.
   */
  lemma PendingRequestIsHonoured(v: Variant, s: State, id: nat, bytes: seq<int>, fault: Option<string>)
    requires Valid(s) && id < |s.runs| && s.runs[id].phase == Writing && s.runs[id].key in s.pending
    ensures var t := Close(v, s, id, bytes, fault);
      && Writer(t, |s.runs|, s.runs[id].key)
      && t.runs[|s.runs|].parent == Some(id)
      && s.runs[id].key in t.locks && s.runs[id].key !in t.pending
  {
    CloseTablesEffect(v, s, id, bytes, fault);
  }

  /**
   * A pending mark survives every event except the close of a run of that key
   * and the dist build's `stop` of that key.
   */
  lemma PendingSurvives(v: Variant, s: State, k: string, cfg: Config, id: nat, bytes: seq<int>, fault: Option<string>, err: string, other: string)
    requires Valid(s) && k in s.pending && other != k
    ensures k in Request(s, cfg).0.pending
    ensures id < |s.runs| && s.runs[id].phase == Writing ==>
      k in StreamError(v, s, id, err).pending
    ensures id < |s.runs| && s.runs[id].phase == Writing && s.runs[id].key != k ==>
      k in Close(v, s, id, bytes, fault).pending
    ensures k in Stop(v, s, other).pending
  {
    if id < |s.runs| && s.runs[id].phase == Writing && s.runs[id].key != k {
      CloseTablesEffect(v, s, id, bytes, fault);
    }
  }

  /**
   * Publishing: a missing temporary file rejects with "<tmp> does not exist"
   * (dist) or resolves silently (src); a throwing rename rejects; in all those
   * cases no file changes. Otherwise the temporary file is renamed onto the
   * output: the output holds its bytes, the temporary file is gone, and no
   * other path changes.
   */
  lemma PublishEffect(v: Variant, s: State, id: nat, fault: Option<string>)
    requires WellFormed(s) && id < |s.runs|
    ensures var (t, o) := Publish(v, s, id, fault);
      var tmp, out := s.runs[id].tmp, s.runs[id].output;
      && (tmp !in s.fs ==> t == s && o == (if v == Dist then Rejected(MissingTemp(tmp)) else Resolved))
      && (tmp in s.fs && fault.Some? ==> t == s && o == Rejected(fault.value))
      && (tmp in s.fs && fault.None? ==>
            && o == Resolved && tmp !in t.fs && out in t.fs && t.fs[out] == s.fs[tmp]
            && forall q :: q != tmp && q != out ==> SameFile(s.fs, t.fs, q))
  {
    var tmp, out := s.runs[id].tmp, s.runs[id].output;
    assert tmp == TempPath(out);
    assert tmp != out by {
      assert |tmp| == |out| + 1;
    }
  }

  /**
   * A close changes no path other than the run's temporary file and output,
   * and the output either keeps what it had or receives the bytes that reached
   * the temporary file by the time the stream closed.
   */
  lemma CloseFileEffect(v: Variant, s: State, id: nat, bytes: seq<int>, fault: Option<string>)
    requires Valid(s) && id < |s.runs| && s.runs[id].phase == Writing
    ensures var run, t := s.runs[id], Close(v, s, id, bytes, fault);
      && (forall q :: q != run.tmp && q != run.output ==> SameFile(s.fs, t.fs, q))
      && (run.key in s.pending ==> SameFile(s.fs, t.fs, run.output) && t.fs[run.tmp] == [])
      && (run.key !in s.pending && fault.None? ==>
            run.tmp !in t.fs && run.output in t.fs && t.fs[run.output] == bytes)
      && (run.key !in s.pending && fault.Some? ==>
            SameFile(s.fs, t.fs, run.output) && run.tmp in t.fs && t.fs[run.tmp] == bytes)
      && (run.key !in s.pending && run.outcome == Unsettled ==>
            t.runs[id].outcome == (if fault.None? then Resolved else Rejected(fault.value)))
  {
    var run := s.runs[id];
    assert run.tmp != run.output by {
      assert |run.tmp| == |run.output| + 1;
    }
    if run.key !in s.pending {
      var closed := State(s.locks - {run.key}, s.pending, s.fs[run.tmp := bytes], s.runs[id := run.(phase := Finished)]);
      FinishKeepsValid(s, id, bytes);
      var (published, outcome) := Publish(v, closed, id, fault);
      assert closed.runs[id].outcome == run.outcome;
    }
  }

  /**
   * A stream error does not stop the run's close handler: when the error comes
   * after the temporary file was created and the stream then closes, whatever
   * reached the temporary file is renamed onto the output, possibly a partial
   * archive, while the run stays rejected with the error.
   */
  lemma ErrorThenClosePublishes(v: Variant, s: State, id: nat, err: string, bytes: seq<int>)
    requires Valid(s) && id < |s.runs| && s.runs[id].phase == Writing
    requires s.runs[id].key !in s.pending && s.runs[id].outcome == Unsettled
    ensures var e := StreamError(v, s, id, err);
      && Valid(e) && e.runs[id].phase == Writing
      && var t := Close(v, e, id, bytes, None);
      && t.runs[id].outcome == Rejected(err)
      && s.runs[id].tmp !in t.fs
      && s.runs[id].output in t.fs && t.fs[s.runs[id].output] == bytes
  {
    var e := StreamError(v, s, id, err);
    StreamErrorKeepsInvariants(v, s, id, err);
    assert SameRun(s.runs[id], e.runs[id]);
    CloseFileEffect(v, e, id, bytes, None);
    var run := e.runs[id];
    var closed := State(e.locks - {run.key}, e.pending, e.fs[run.tmp := bytes], e.runs[id := run.(phase := Finished)]);
    FinishKeepsValid(e, id, bytes);
    var (published, outcome) := Publish(v, closed, id, None);
    assert published.runs[id].outcome == Rejected(err);
  }

  /**
   * The rerun shares its parent's temporary path. When the rerun closes and
   * publishes, the outer run resumes and finds its temporary file already
   * renamed away: in dist it rejects with "<tmp> does not exist", in src it
   * resolves without renaming. The output holds the rerun's bytes either way.
   */
  lemma RerunStrandsOuterRun(v: Variant, s: State, c: nat, p: nat, bytes: seq<int>)
    requires Valid(s) && c < |s.runs| && s.runs[c].phase == Writing && s.runs[c].key !in s.pending
    requires s.runs[c].parent == Some(p) && p < |s.runs| && s.runs[p].phase == AwaitingRerun(c)
    requires s.runs[c].outcome == Unsettled && s.runs[p].outcome == Unsettled
    ensures var t, tmp := Close(v, s, c, bytes, None), s.runs[c].tmp;
      && t.runs[c].outcome == Resolved
      && t.runs[p].outcome == (if v == Dist then Rejected(MissingTemp(tmp)) else Resolved)
      && t.runs[p].phase == Finished
      && tmp !in t.fs && s.runs[p].output in t.fs && t.fs[s.runs[p].output] == bytes
  {
    var run := s.runs[c];
    assert ParentLinked(s, c);
    assert run.tmp != run.output by {
      assert |run.tmp| == |run.output| + 1;
    }
    var closed := State(s.locks - {run.key}, s.pending, s.fs[run.tmp := bytes], s.runs[c := run.(phase := Finished)]);
    FinishKeepsValid(s, c, bytes);
    var (published, outcome) := Publish(v, closed, c, None);
    assert outcome == Resolved && run.tmp !in published.fs;
    var settled := published.(runs := published.runs[c := published.runs[c].(outcome := Resolved)]);
    UpdateRun(published, c, published.runs[c].(outcome := Resolved));
    var resumed := settled.(runs := settled.runs[p := settled.runs[p].(phase := Finished)]);
    UpdateRun(settled, p, settled.runs[p].(phase := Finished));
    var (published2, outcome2) := Publish(v, resumed, p, None);
    assert published2 == resumed;
    assert outcome2 == (if v == Dist then Rejected(MissingTemp(run.tmp)) else Resolved);
    var r := Settle(v, published2, p, outcome2);
    assert Settle(v, published, c, Resolved) == r;
    assert SameRun(published2.runs[c], r.runs[c]);
  }

  /**
   * The dist build's `stop` clears the key from both tables and touches no
   * other key, no run and no file; the src build's `stop` changes nothing.
   */
  lemma StopEffect(v: Variant, s: State, key: string)
    ensures var t := Stop(v, s, key);
      && t.runs == s.runs && t.fs == s.fs
      && (v == Dist ==> key !in t.locks && key !in t.pending)
      && (v == Src ==> t == s)
      && forall k :: k != key ==> (k in t.locks <==> k in s.locks) && (k in t.pending <==> k in s.pending)
  {
  }

  /**
   * `stop` (dist) while a run is writing drops a pending request: the run's
   * later close starts no rerun, though it still publishes.
   */
  lemma StopDropsPendingRerun(s: State, id: nat, bytes: seq<int>, fault: Option<string>)
    requires Valid(s) && id < |s.runs| && s.runs[id].phase == Writing
    ensures var stopped := Stop(Dist, s, s.runs[id].key);
      && Valid(stopped)
      && |Close(Dist, stopped, id, bytes, fault).runs| == |s.runs|
  {
    var stopped := Stop(Dist, s, s.runs[id].key);
    StopKeepsValid(Dist, s, s.runs[id].key);
    CloseTablesEffect(Dist, stopped, id, bytes, fault);
  }

  /**
   * `stop` (dist) while a run is writing, followed by a request from the same
   * path, has two runs of one key writing at once.
   */
  lemma StopDuringRunAllowsOverlap(s: State, cfg: Config)
    requires Valid(s) && ConfigOk(cfg) && cfg.path in s.locks
    ensures var t := Request(Stop(Dist, s, cfg.path), cfg).0;
      && Valid(t)
      && !Exclusive(t)
      && (exists i, j :: Writer(t, i, cfg.path) && Writer(t, j, cfg.path) && i != j)
  {
    var stopped := Stop(Dist, s, cfg.path);
    StopKeepsValid(Dist, s, cfg.path);
    RequestKeepsInvariants(stopped, cfg);
    var t := Request(stopped, cfg).0;
    var i :| Writer(s, i, cfg.path);
    var j := |s.runs|;
    assert Writer(t, i, cfg.path) && Writer(t, j, cfg.path);
  }

  /** Exclusion holds across every event of the src build. */
  lemma SrcKeepsExclusive(s: State, cfg: Config, id: nat, bytes: seq<int>, fault: Option<string>, err: string, key: string)
    requires Valid(s) && Exclusive(s) && ConfigOk(cfg)
    ensures Exclusive(Request(s, cfg).0)
    ensures id < |s.runs| && s.runs[id].phase == Writing ==>
      Exclusive(Close(Src, s, id, bytes, fault)) && Exclusive(StreamError(Src, s, id, err))
    ensures Exclusive(Stop(Src, s, key))
  {
    RequestKeepsInvariants(s, cfg);
    if id < |s.runs| && s.runs[id].phase == Writing {
      CloseKeepsInvariants(Src, s, id, bytes, fault);
      StreamErrorKeepsInvariants(Src, s, id, err);
    }
    StopKeepsExclusive(Src, s, key);
  }
}
