/**
 * What a TarSync instance derives from its options: the archive's output path,
 * the temporary path it is packed into, the set of watcher events that trigger
 * a new archive, and the verbose flag. The extension, triggers and flag are
 * fixed by the constructor; dist recomputes the output path on every archive
 * from the options it holds, which this model takes as fixed once constructed.
 */
module Naming {

  datatype Option<+T> = None | Some(value: T)

  /** The two builds of TarSync: the compiled `dist` build and the older `src` one. */
  datatype Variant = Dist | Src

  /** The watcher events a TarSync can be told to react to. */
  datatype Event = Add | AddDir | Change | Unlink | UnlinkDir | All

  /** The constructor's optional settings; an absent key is `None`. */
  datatype Options = Options(
    outPath: Option<string>,
    triggerOnEvents: Option<seq<Event>>,
    extension: Option<string>,
    verbose: Option<bool>)

  /** What one TarSync instance keeps from its construction. */
  datatype Config = Config(
    path: string,
    outputPath: string,
    tmpPath: string,
    triggers: set<Event>,
    verbose: bool)

  const DEFAULT_EXTENSION: string := "tar"
  const DEFAULT_TRIGGERS: seq<Event> := [Add, Change, Unlink]
  const TEMP_SUFFIX: string := "~"

  /** JavaScript truthiness of an optional string: both an absent value and "" are false. */
  predicate Truthy(o: Option<string>) {
    o.Some? && o.value != ""
  }

  /** The archive extension: the given one when truthy, else "tar". */
  function Extension(opts: Options): (ext: string)
    ensures ext != ""
    ensures Truthy(opts.extension) ==> ext == opts.extension.value
    ensures !Truthy(opts.extension) ==> ext == DEFAULT_EXTENSION
  {
    if Truthy(opts.extension) then opts.extension.value else DEFAULT_EXTENSION
  }

  /** The path the archive name is built on: `outPath` (dist only, when truthy), else the watched path. */
  function ArchiveBase(v: Variant, path: string, opts: Options): string {
    if v == Dist && Truthy(opts.outPath) then opts.outPath.value else path
  }

  /** The published archive's path: base, a dot, the extension. */
  function OutputPath(v: Variant, path: string, opts: Options): (out: string)
    ensures var base := ArchiveBase(v, path, opts);
      && |out| > |base| + 1
      && out[..|base|] == base && out[|base|] == '.' && out[|base| + 1..] == Extension(opts)
    ensures v == Src || !Truthy(opts.outPath) ==> out[..|path|] == path
  {
    ArchiveBase(v, path, opts) + "." + Extension(opts)
  }

  /** The temporary path an archive is packed into before it is renamed onto `output`. */
  function TempPath(output: string): (tmp: string)
    ensures |tmp| == |output| + 1 && tmp[|output|] == '~'
  {
    output + TEMP_SUFFIX
  }

  /** Recovers the output path from a temporary path, if it is one. */
  function OutputOfTemp(tmp: string): (r: Option<string>)
    ensures r.Some? ==> TempPath(r.value) == tmp
  {
    if |tmp| > 0 && tmp[|tmp| - 1] == '~' then Some(tmp[..|tmp| - 1]) else None
  }

  /** The events the constructor is asked to listen for, or the default list. */
  function RequestedEvents(opts: Options): seq<Event> {
    if opts.triggerOnEvents.Some? then opts.triggerOnEvents.value else DEFAULT_TRIGGERS
  }

  /** The trigger set: every requested event, each once. */
  ghost function TriggerSet(opts: Options): (triggers: set<Event>)
    ensures opts.triggerOnEvents.None? ==> triggers == {Add, Change, Unlink}
    ensures opts.triggerOnEvents.Some? ==> forall e :: e in triggers <==> e in opts.triggerOnEvents.value
  {
    assert forall e :: e in DEFAULT_TRIGGERS <==> e == Add || e == Change || e == Unlink;
    set e | e in RequestedEvents(opts)
  }

  /** The verbose flag: true only when the option is given as true; the src build has no such option. */
  function Verbose(v: Variant, opts: Options): (verbose: bool)
    ensures v == Src ==> !verbose
    ensures v == Dist ==> (verbose <==> opts.verbose == Some(true))
  {
    v == Dist && opts.verbose == Some(true)
  }

  /** A configuration whose temporary path is its output path plus the suffix. */
  predicate ConfigOk(cfg: Config) {
    cfg.tmpPath == TempPath(cfg.outputPath)
  }

  /** Adds each event of the list to a set, one at a time, as the constructor's `forEach` does. */
  method CollectEvents(events: seq<Event>) returns (s: set<Event>)
    ensures forall e :: e in s <==> e in events
    ensures |s| <= |events|
  {
    s := {};
    var i := 0;
    while i < |events|
      invariant 0 <= i <= |events|
      invariant forall e :: e in s <==> e in events[..i]
      invariant |s| <= i
    {
      s := s + {events[i]};
      i := i + 1;
    }
    assert events[..i] == events;
  }

  /** The constructor's option defaulting. */
  method Configure(v: Variant, path: string, opts: Options) returns (cfg: Config)
    ensures ConfigOk(cfg)
    ensures cfg.path == path
    ensures cfg.outputPath == OutputPath(v, path, opts)
    ensures cfg.triggers == TriggerSet(opts)
    ensures cfg.verbose == Verbose(v, opts)
  {
    var triggers: set<Event>;
    if opts.triggerOnEvents.Some? {
      triggers := CollectEvents(opts.triggerOnEvents.value);
    } else {
      triggers := CollectEvents(DEFAULT_TRIGGERS);
    }
    var extension := DEFAULT_EXTENSION;
    if Truthy(opts.extension) {
      extension := opts.extension.value;
    }
    var output := path;
    if v == Dist && Truthy(opts.outPath) {
      output := opts.outPath.value;
    }
    output := output + "." + extension;
    cfg := Config(path, output, output + TEMP_SUFFIX, triggers, Verbose(v, opts));
  }

  /** An explicitly given list, even an empty one, replaces the default; duplicates collapse. */
  lemma GivenTriggerSet(opts: Options, e: Event)
    requires opts.triggerOnEvents.Some?
    ensures e in TriggerSet(opts) <==> e in opts.triggerOnEvents.value
    ensures |TriggerSet(opts)| <= |opts.triggerOnEvents.value|
  {
    var s := CollectedSize(opts.triggerOnEvents.value);
  }

  /** The set of a list's elements has no more elements than the list. */
  lemma {:induction false} CollectedSize(events: seq<Event>) returns (n: nat)
    ensures n == |set e | e in events|
    ensures n <= |events|
  {
    if events == [] {
      assert (set e | e in events) == {};
      n := 0;
    } else {
      var rest := events[..|events| - 1];
      var m := CollectedSize(rest);
      assert (set e | e in events) == (set e | e in rest) + {events[|events| - 1]} by {
        assert events == rest + [events[|events| - 1]];
      }
      n := |set e | e in events|;
    }
  }

  /**
   * The temporary file is the archive's name plus "~", so the two never
   * coincide, and the archive's name is recovered from it.
   */
  lemma OutputPathShape(v: Variant, path: string, opts: Options)
    ensures TempPath(OutputPath(v, path, opts)) != OutputPath(v, path, opts)
    ensures OutputOfTemp(TempPath(OutputPath(v, path, opts))) == Some(OutputPath(v, path, opts))
  {
    var out := OutputPath(v, path, opts);
    assert TempPath(out)[..|out|] == out;
  }

  /** Distinct outputs have distinct temporary files. */
  lemma TempPathInjective(a: string, b: string)
    requires TempPath(a) == TempPath(b)
    ensures a == b
  {
    assert a == TempPath(a)[..|a|];
  }

  /**
   * When no `outPath` applies (always in the src build), neither the archive
   * nor its temporary file can be the watched path itself.
   */
  lemma ArchiveNeverOverwritesWatchedPath(v: Variant, path: string, opts: Options)
    requires v == Src || !Truthy(opts.outPath)
    ensures OutputPath(v, path, opts) != path
    ensures TempPath(OutputPath(v, path, opts)) != path
  {
    OutputPathShape(v, path, opts);
  }

  /** The src build ignores `outPath` altogether. */
  lemma SrcIgnoresOutPath(path: string, opts: Options)
    ensures OutputPath(Src, path, opts) == OutputPath(Src, path, opts.(outPath := None))
    ensures OutputPath(Src, path, opts) == path + "." + Extension(opts)
  {
  }
}
