/**
 * The scene-resolution support of the rendering framework: reading extra scene
 * scripts from the command line into a scene repository, initialising and reading
 * back the shared script context, and choosing which scene builder fills the scene.
 */
module RayCastingScripts {
  import opened Wrappers
  import opened SceneGraph
  import opened Context

  /**
   * The host services the operations consult, as oracles: `File.Exists`,
   * `Directory.Exists`, `Path.GetFullPath`, `Path.GetFileName`,
   * `Path.GetDirectoryName` (with "" for null), `Directory.GetFiles` and
   * `File.ReadAllText` (both `None` when they throw an I/O or access error).
   */
  datatype FileSystem = FileSystem(
    fileExists: string -> bool,
    directoryExists: string -> bool,
    fullPath: string -> string,
    fileName: string -> string,
    directoryName: string -> string,
    getFiles: (string, string) -> Option<seq<string>>,
    readAllText: string -> Option<string>)

  // ---------------------------------------------------------------------------
  // ReadFromConfig: the scene repository built from command-line arguments.

  predicate EndsWithCs(s: string) {
    |s| >= 3 && s[|s| - 3..] == ".cs"
  }

  /** The repository key of a scene file name: "* " and the name without one trailing ".cs". */
  function RepoKey(name: string): (key: string)
    ensures |key| >= 2 && key[..2] == "* "
    ensures EndsWithCs(name) ==> key + ".cs" == "* " + name && |key| == |name| - 1
    ensures !EndsWithCs(name) ==> key == "* " + name
  {
    var stem := if EndsWithCs(name) then name[..|name| - 3] else name;
    assert EndsWithCs(name) ==> stem + ".cs" == name;
    "* " + stem
  }

  /** One write to the repository: `repo.Clear()` or `repo[key] = path`. */
  datatype RepoOp = Clear | Put(key: string, path: string)

  function ApplyOp(repo: map<string, Value>, op: RepoOp): map<string, Value> {
    match op
    case Clear => map[]
    case Put(key, path) => repo[key := Str(path)]
  }

  /** The repository after performing `ops` in order. */
  function ApplyOps(repo: map<string, Value>, ops: seq<RepoOp>): map<string, Value>
    decreases |ops|
  {
    if ops == [] then repo else ApplyOps(ApplyOp(repo, ops[0]), ops[1..])
  }

  /** How many `repo[...] = path` assignments `ops` performs. */
  function PutCount(ops: seq<RepoOp>): nat
    decreases |ops|
  {
    if ops == [] then 0 else (if ops[0].Put? then 1 else 0) + PutCount(ops[1..])
  }

  /** Registering an existing scene file at `path`. */
  function Register(path: string, fs: FileSystem): RepoOp {
    Put(RepoKey(fs.fileName(path)), path)
  }

  /**
   * What the argument at position `i` asks for: clearing the repository, or a file
   * name or mask and a directory ("" standing for null), and the position of the
   * next argument the loop looks at.
   */
  datatype Step = Step(clear: bool, fileName: string, dir: string, next: nat)

  function ParseArg(args: seq<string>, i: nat, fs: FileSystem): (s: Step)
    requires i < |args|
    ensures i < s.next <= |args|
    ensures s.clear ==> s.fileName == "" && s.dir == ""
  {
    var a := args[i];
    if a == "" then Step(false, "", "", i + 1)
    else if a[0] != '-' then
      Step(false, if fs.fileExists(a) then fs.fullPath(a) else "", "", i + 1)
    else
      var opt := a[1..];
      if opt == "nodefault" then Step(true, "", "", i + 1)
      else if opt == "scene" && i + 1 < |args| then
        Step(false, if fs.fileExists(args[i + 1]) then fs.fullPath(args[i + 1]) else "", "", i + 2)
      else if opt == "dir" && i + 1 < |args| then
        if fs.directoryExists(args[i + 1]) then Step(false, "*.cs", fs.fullPath(args[i + 1]), i + 2)
        else Step(false, "", "", i + 2)
      else if opt == "mask" && i + 1 < |args| then
        var full := fs.fullPath(args[i + 1]);
        Step(false, fs.fileName(full), fs.directoryName(full), i + 2)
      else Step(false, "", "", i + 1)
  }

  /** The registrations for the files a directory search returned, in order. */
  function FoundOps(found: seq<string>, fs: FileSystem): seq<RepoOp>
    decreases |found|
  {
    if found == [] then []
    else
      var path := fs.fullPath(found[0]);
      (if fs.fileExists(path) then [Register(path, fs)] else []) + FoundOps(found[1..], fs)
  }

  /** The registrations for a file name or mask and a directory ("" standing for null). */
  function TargetOps(fileName: string, dir: string, fs: FileSystem): seq<RepoOp> {
    if dir != "" then
      if fileName == "" then []
      else
        match fs.getFiles(dir, fileName)
        case None => []
        case Some(found) => FoundOps(found, fs)
    else if fileName != "" then
      var path := fs.fullPath(fileName);
      if fs.fileExists(path) then [Register(path, fs)] else []
    else []
  }

  /** The repository writes one argument step performs. */
  function StepOps(st: Step, fs: FileSystem): seq<RepoOp> {
    if st.clear then [Clear] else TargetOps(st.fileName, st.dir, fs)
  }

  /** The repository writes of the whole argument list from position `i` on. */
  function ConfigOps(args: seq<string>, i: nat, fs: FileSystem): seq<RepoOp>
    decreases |args| - i
  {
    if i >= |args| then []
    else
      var st := ParseArg(args, i, fs);
      StepOps(st, fs) + ConfigOps(args, st.next, fs)
  }

  lemma ConfigOpsStep(args: seq<string>, i: nat, fs: FileSystem)
    requires i < |args|
    ensures ConfigOps(args, i, fs) == StepOps(ParseArg(args, i, fs), fs) + ConfigOps(args, ParseArg(args, i, fs).next, fs)
    ensures args[i] == "" ==> StepOps(ParseArg(args, i, fs), fs) == [] && ParseArg(args, i, fs).next == i + 1
  {
  }

  /** The loop, started at `from`, looks at the argument at position `i` (it is not consumed by an option). */
  predicate Visits(args: seq<string>, fs: FileSystem, from: nat, i: nat)
    decreases |args| - from
  {
    from == i || (from < i && from < |args| && Visits(args, fs, ParseArg(args, from, fs).next, i))
  }

  lemma {:induction false} ApplyConcat(repo: map<string, Value>, a: seq<RepoOp>, b: seq<RepoOp>)
    ensures ApplyOps(repo, a + b) == ApplyOps(ApplyOps(repo, a), b)
    ensures PutCount(a + b) == PutCount(a) + PutCount(b)
    decreases |a|
  {
    if a == [] {
      assert a + b == b;
    } else {
      assert (a + b)[0] == a[0];
      assert (a + b)[1..] == a[1..] + b;
      ApplyConcat(ApplyOp(repo, a[0]), a[1..], b);
    }
  }

  /** After the last `Put` of a key, with no `Clear` after it, the repository maps the key to that path. */
  lemma {:induction false} LaterRegistrationSurvives(repo: map<string, Value>, pre: seq<RepoOp>, key: string, path: string, post: seq<RepoOp>)
    requires forall j :: 0 <= j < |post| ==> post[j] != Clear && post[j].key != key
    ensures var r := ApplyOps(repo, pre + [Put(key, path)] + post); key in r && r[key] == Str(path)
    decreases |post|
  {
    ApplyConcat(repo, pre + [Put(key, path)], post);
    ApplyConcat(repo, pre, [Put(key, path)]);
    var mid := ApplyOps(repo, pre + [Put(key, path)]);
    assert mid == ApplyOps(repo, pre)[key := Str(path)];
    KeyUntouched(mid, key, post);
  }

  lemma {:induction false} KeyUntouched(repo: map<string, Value>, key: string, ops: seq<RepoOp>)
    requires key in repo
    requires forall j :: 0 <= j < |ops| ==> ops[j] != Clear && ops[j].key != key
    ensures var r := ApplyOps(repo, ops); key in r && r[key] == repo[key]
    decreases |ops|
  {
    if ops != [] {
      KeyUntouched(ApplyOp(repo, ops[0]), key, ops[1..]);
    }
  }

  /**
   * A `-nodefault` the loop reaches empties the repository there: the result is what the
   * later arguments register into an empty repository, whatever came before.
   */
  lemma {:induction false} NoDefaultResets(args: seq<string>, fs: FileSystem, from: nat, i: nat, repo: map<string, Value>)
    requires Visits(args, fs, from, i) && i < |args| && args[i] == "-nodefault"
    ensures ApplyOps(repo, ConfigOps(args, from, fs)) == ApplyOps(map[], ConfigOps(args, i + 1, fs))
    decreases |args| - from
  {
    var st := ParseArg(args, from, fs);
    ApplyConcat(repo, StepOps(st, fs), ConfigOps(args, st.next, fs));
    if from == i {
      assert args[i][1..] == "nodefault";
      assert StepOps(st, fs) == [Clear];
    } else {
      NoDefaultResets(args, fs, st.next, i, ApplyOps(repo, StepOps(st, fs)));
    }
  }

  /** An empty argument is skipped. */
  lemma EmptyArgumentSkipped(args: seq<string>, i: nat, fs: FileSystem)
    requires i < |args| && args[i] == ""
    ensures ConfigOps(args, i, fs) == ConfigOps(args, i + 1, fs)
  {
    assert StepOps(ParseArg(args, i, fs), fs) == [];
  }

  /**
   * `-scene`, `-dir` and `-mask` consume the next argument exactly when there is one;
   * as the last argument they consume and register nothing.
   */
  lemma OptionConsumesNext(args: seq<string>, i: nat, fs: FileSystem)
    requires i < |args| && args[i] in {"-scene", "-dir", "-mask"}
    ensures ParseArg(args, i, fs).next == if i + 1 < |args| then i + 2 else i + 1
    ensures i + 1 == |args| ==> ConfigOps(args, i, fs) == []
  {
    var opt := args[i][1..];
    assert opt == "scene" || opt == "dir" || opt == "mask";
    assert opt != "nodefault";
    if i + 1 == |args| {
      assert StepOps(ParseArg(args, i, fs), fs) == [];
    }
  }

  /**
   * Registering a file again right after itself counts twice but leaves the same
   * repository as registering it once, wherever it happens in the writes.
   */
  lemma {:induction false} DuplicateRegistrationCounted(
    repo: map<string, Value>, pre: seq<RepoOp>, key: string, path: string, post: seq<RepoOp>)
    ensures PutCount(pre + [Put(key, path), Put(key, path)] + post) == PutCount(pre + post) + 2
    ensures ApplyOps(repo, pre + [Put(key, path), Put(key, path)] + post) ==
            ApplyOps(repo, pre + [Put(key, path)] + post)
  {
    var p := Put(key, path);
    ApplyConcat(repo, pre + [p, p], post);
    ApplyConcat(repo, pre + [p], post);
    ApplyConcat(repo, pre, [p, p]);
    ApplyConcat(repo, pre, [p]);
    ApplyConcat(repo, pre, post);
    ApplyConcat(ApplyOps(repo, pre), [p], [p]);
    assert [p] + [p] == [p, p];
    var mid := ApplyOps(repo, pre);
    var once := mid[key := Str(path)];
    assert [p][1..] == [];
    assert ApplyOps(mid, [p]) == once;
    assert ApplyOps(once, [p]) == once[key := Str(path)] == once;
    assert ApplyOps(mid, [p, p]) == ApplyOps(mid, [p]);
  }

  /** Naming the same file twice on the command line writes one key and counts two. */
  lemma DuplicateFileArguments(fs: FileSystem)
    requires forall p :: fs.fileExists(p) && fs.fullPath(p) == p && fs.fileName(p) == p
    ensures var ops := ConfigOps(["a.cs", "a.cs"], 0, fs);
            PutCount(ops) == 2 && ApplyOps(map[], ops) == map["* a" := Str("a.cs")]
  {
    var args := ["a.cs", "a.cs"];
    assert "a.cs"[0] == 'a';
    assert EndsWithCs("a.cs");
    assert RepoKey("a.cs") == "* a";
    assert StepOps(ParseArg(args, 1, fs), fs) == [Put("* a", "a.cs")];
    assert ConfigOps(args, 1, fs) == [Put("* a", "a.cs")];
    assert StepOps(ParseArg(args, 0, fs), fs) == [Put("* a", "a.cs")];
    var put := Put("* a", "a.cs");
    assert ConfigOps(args, 0, fs) == [put] + [put];
    assert [put][1..] == [];
    ApplyConcat(map[], [put], [put]);
  }

  // ---------------------------------------------------------------------------
  // ContextInit and ContextMining.

  /** The keys `ContextInit` writes or removes. */
  const MANAGED_KEYS := {CTX_SCENE, CTX_ALGORITHM, CTX_SYNTHESIZER, CTX_WIDTH, CTX_HEIGHT,
                         CTX_SUPERSAMPLING, CTX_START_ANIM, CTX_END_ANIM, CTX_FPS}

  /** The context after initialisation with `scene` as its scene entry. */
  function Initialized(
    e: map<string, Value>, scene: Value, width: int, height: int, superSampling: int,
    minTime: real, maxTime: real, fps: real): (r: map<string, Value>)
    ensures CTX_ALGORITHM !in r && CTX_SYNTHESIZER !in r
    ensures CTX_SCENE in r && r[CTX_SCENE] == scene
    ensures CTX_WIDTH in r && r[CTX_WIDTH] == Integer(width)
    ensures CTX_HEIGHT in r && r[CTX_HEIGHT] == Integer(height)
    ensures CTX_SUPERSAMPLING in r && r[CTX_SUPERSAMPLING] == Integer(superSampling)
    ensures CTX_START_ANIM in r && r[CTX_START_ANIM] == Double(minTime)
    ensures CTX_END_ANIM in r && r[CTX_END_ANIM] == Double(maxTime)
    ensures CTX_FPS in r && r[CTX_FPS] == Double(fps)
    ensures forall k :: k !in MANAGED_KEYS ==> (k in r <==> k in e) && (k in e ==> r[k] == e[k])
  {
    (e[CTX_SCENE := scene] - {CTX_ALGORITHM} - {CTX_SYNTHESIZER})[CTX_WIDTH := Integer(width)]
      [CTX_HEIGHT := Integer(height)][CTX_SUPERSAMPLING := Integer(superSampling)]
      [CTX_START_ANIM := Double(minTime)][CTX_END_ANIM := Double(maxTime)][CTX_FPS := Double(fps)]
  }

  /** The context holds a `DefaultRayScene`. */
  predicate HasScene(e: map<string, Value>) {
    CTX_SCENE in e && e[CTX_SCENE].SceneObj?
  }

  /** The component under `key` if it is an image function (`imageFunction`) or else a renderer. */
  function ComponentAt(e: map<string, Value>, key: string, imageFunction: bool): Option<Component> {
    if key in e && e[key].ComponentObj? &&
       (if imageFunction then e[key].component.isImageFunction else e[key].component.isRenderer)
    then Some(e[key].component)
    else None
  }

  /** The stored tooltip if it is a string, else "". */
  function TooltipIn(e: map<string, Value>): string {
    if CTX_TOOLTIP in e && e[CTX_TOOLTIP].Str? then e[CTX_TOOLTIP].text else ""
  }

  /** `Util.TryParse(ctx, key, ref x)`: the parsed value of a present key, else the prior value. */
  function TryParseAt<T>(e: map<string, Value>, key: string, parse: Value -> Option<T>, prior: T): (x: T)
    ensures key !in e ==> x == prior
    ensures key in e && parse(e[key]).Some? ==> x == parse(e[key]).value
    ensures key in e && parse(e[key]).None? ==> x == prior
    ensures x != prior ==> key in e && parse(e[key]) == Some(x)
  {
    if key in e then parse(e[key]).GetOr(prior) else prior
  }

  /**
   * `ContextMining` reads back what `ContextInit` wrote: the scene, no algorithm or
   * renderer, the old tooltip, and the numbers given (for parsers that read back the
   * values stored), whatever the context held before.
   */
  lemma MiningAfterInit(
    e: map<string, Value>, s: RayScene, width: int, height: int, superSampling: int,
    minTime: real, maxTime: real, fps: real,
    parseInt: Value -> Option<int>, parseReal: Value -> Option<real>, priorInt: int, priorReal: real)
    requires forall n: int :: parseInt(Integer(n)) == Some(n)
    requires forall d: real :: parseReal(Double(d)) == Some(d)
    ensures var r := Initialized(e, SceneObj(s), width, height, superSampling, minTime, maxTime, fps);
      && HasScene(r) && r[CTX_SCENE].scene == s
      && ComponentAt(r, CTX_ALGORITHM, true).None?
      && ComponentAt(r, CTX_SYNTHESIZER, false).None?
      && TooltipIn(r) == TooltipIn(e)
      && TryParseAt(r, CTX_WIDTH, parseInt, priorInt) == width
      && TryParseAt(r, CTX_HEIGHT, parseInt, priorInt) == height
      && TryParseAt(r, CTX_SUPERSAMPLING, parseInt, priorInt) == superSampling
      && TryParseAt(r, CTX_START_ANIM, parseReal, priorReal) == minTime
      && TryParseAt(r, CTX_END_ANIM, parseReal, priorReal) == maxTime
      && TryParseAt(r, CTX_FPS, parseReal, priorReal) == fps
  {
    var r := Initialized(e, SceneObj(s), width, height, superSampling, minTime, maxTime, fps);
    assert CTX_TOOLTIP !in MANAGED_KEYS;
    assert parseInt(r[CTX_WIDTH]) == Some(width);
    assert parseInt(r[CTX_HEIGHT]) == Some(height);
    assert parseInt(r[CTX_SUPERSAMPLING]) == Some(superSampling);
    assert parseReal(r[CTX_START_ANIM]) == Some(minTime);
    assert parseReal(r[CTX_END_ANIM]) == Some(maxTime);
    assert parseReal(r[CTX_FPS]) == Some(fps);
  }

  // ---------------------------------------------------------------------------
  // SceneFromObject: which scene builder runs.

  /** The progress texts sent to the message sink; `n` is the value of the static counter shown. */
  datatype Notice =
    | Compiling(name: string, n: int)
    | FinishedOk(name: string)
    | UsingDefault
    | Rendering(name: string, n: int)

  /** How running a scene script ends: it completes, fails to compile, or throws at run time. */
  datatype RunOutcome = Completed | CompileError | Faulted

  /** The observable actions of one resolution, in order. */
  datatype Event =
    | Message(notice: Notice)
    | CompileErrorDialog
    | ScriptRun(source: string, sceneName: string, scene: RayScene, param: string)
    | BuilderCall(builder: Builder, target: RayScene, argument: Option<string>)

  /** The events, the new value of the static counter, and whether an exception escaped. */
  datatype Resolution = Resolution(events: seq<Event>, count: int, propagated: bool)

  /** The builder invocations among `events`, in order. */
  function BuilderCalls(events: seq<Event>): (calls: seq<Event>)
    ensures forall j :: 0 <= j < |calls| ==> calls[j].BuilderCall?
    ensures |calls| <= |events|
    decreases |events|
  {
    if events == [] then []
    else (if events[0].BuilderCall? then [events[0]] else []) + BuilderCalls(events[1..])
  }

  /** The script runs among `events`. */
  function ScriptRuns(events: seq<Event>): (runs: seq<Event>)
    ensures forall j :: 0 <= j < |runs| ==> runs[j].ScriptRun?
    ensures |runs| <= |events|
    decreases |events|
  {
    if events == [] then []
    else (if events[0].ScriptRun? then [events[0]] else []) + ScriptRuns(events[1..])
  }

  /** The message `notice`, sent only when there is a sink. */
  function Say(hasSink: bool, notice: Notice): seq<Event> {
    if hasSink then [Message(notice)] else []
  }

  /** The definition names an existing script file. */
  predicate IsScriptFile(definition: Value, fs: FileSystem) {
    definition.Str? && definition.text != "" && fs.fileExists(definition.text)
  }

  /** The script source read from an existing script file, if readable and non-empty. */
  predicate HasSource(definition: Value, fs: FileSystem) {
    IsScriptFile(definition, fs) && fs.readAllText(definition.text).Some? &&
    fs.readAllText(definition.text).value != ""
  }

  /**
   * What `SceneFromObject` does once the scene `sc` is chosen. `++count` sits inside
   * `message?.Invoke(...)`, so the counter advances only when a sink is present.
   */
  function Resolve(
    definition: Value, name: string, par: string, sc: RayScene, defaultScene: Builder,
    hasSink: bool, count: int, fs: FileSystem, run: string -> RunOutcome): Resolution
  {
    if IsScriptFile(definition, fs) then
      var fallback := Say(hasSink, UsingDefault) + [BuilderCall(defaultScene, sc, None)];
      if HasSource(definition, fs) then
        var source := fs.readAllText(definition.text).value;
        var n := if hasSink then count + 1 else count;
        var start := Say(hasSink, Compiling(name, n));
        match run(source)
        case Completed =>
          Resolution(start + [ScriptRun(source, name, sc, par)] + Say(hasSink, FinishedOk(name)), n, false)
        case Faulted =>
          Resolution(start + [ScriptRun(source, name, sc, par)], n, true)
        case CompileError =>
          Resolution(start + [CompileErrorDialog] + fallback, n, false)
      else
        Resolution(fallback, count, false)
    else
      var n := if hasSink then count + 1 else count;
      var call :=
        match definition
        case SceneDelegate(b) => [BuilderCall(b, sc, None)]
        case SceneParamDelegate(b) => [BuilderCall(b, sc, Some(par))]
        case _ => [];
      Resolution(call + Say(hasSink, Rendering(name, n)), n, false)
  }

  lemma {:induction false} FilterConcat(a: seq<Event>, b: seq<Event>)
    ensures BuilderCalls(a + b) == BuilderCalls(a) + BuilderCalls(b)
    ensures ScriptRuns(a + b) == ScriptRuns(a) + ScriptRuns(b)
    decreases |a|
  {
    if a == [] {
      assert a + b == b;
    } else {
      assert (a + b)[0] == a[0];
      assert (a + b)[1..] == a[1..] + b;
      FilterConcat(a[1..], b);
    }
  }

  lemma SayFiltered(hasSink: bool, notice: Notice)
    ensures BuilderCalls(Say(hasSink, notice)) == [] && ScriptRuns(Say(hasSink, notice)) == []
  {
    if hasSink {
      assert BuilderCalls([Message(notice)]) == [] + BuilderCalls([]);
      assert ScriptRuns([Message(notice)]) == [] + ScriptRuns([]);
    }
  }

  lemma OneEventFiltered(e: Event)
    ensures BuilderCalls([e]) == (if e.BuilderCall? then [e] else [])
    ensures ScriptRuns([e]) == (if e.ScriptRun? then [e] else [])
  {
    assert [e][1..] == [];
  }

  /**
   * A readable, non-empty script that compiles runs once and no builder is called:
   * the default builder is not used. A script that throws at run time propagates.
   */
  lemma ScriptReplacesBuilders(
    definition: Value, name: string, par: string, sc: RayScene, defaultScene: Builder,
    hasSink: bool, count: int, fs: FileSystem, run: string -> RunOutcome)
    requires HasSource(definition, fs)
    requires run(fs.readAllText(definition.text).value) != CompileError
    ensures var res := Resolve(definition, name, par, sc, defaultScene, hasSink, count, fs, run);
      && BuilderCalls(res.events) == []
      && ScriptRuns(res.events) == [ScriptRun(fs.readAllText(definition.text).value, name, sc, par)]
      && res.propagated == (run(fs.readAllText(definition.text).value) == Faulted)
  {
    var source := fs.readAllText(definition.text).value;
    var n := if hasSink then count + 1 else count;
    var start := Say(hasSink, Compiling(name, n));
    var run1 := ScriptRun(source, name, sc, par);
    SayFiltered(hasSink, Compiling(name, n));
    SayFiltered(hasSink, FinishedOk(name));
    OneEventFiltered(run1);
    FilterConcat(start, [run1]);
    FilterConcat(start + [run1], Say(hasSink, FinishedOk(name)));
  }

  /**
   * An existing script file whose source is unreadable or empty, or which does not
   * compile, falls back to exactly one call of `defaultScene(sc)` and no script run.
   */
  lemma FallbackCallsDefaultOnce(
    definition: Value, name: string, par: string, sc: RayScene, defaultScene: Builder,
    hasSink: bool, count: int, fs: FileSystem, run: string -> RunOutcome)
    requires IsScriptFile(definition, fs)
    requires !HasSource(definition, fs) || run(fs.readAllText(definition.text).value) == CompileError
    ensures var res := Resolve(definition, name, par, sc, defaultScene, hasSink, count, fs, run);
      && BuilderCalls(res.events) == [BuilderCall(defaultScene, sc, None)]
      && ScriptRuns(res.events) == []
      && !res.propagated
  {
    var call := BuilderCall(defaultScene, sc, None);
    var fallback := Say(hasSink, UsingDefault) + [call];
    SayFiltered(hasSink, UsingDefault);
    OneEventFiltered(call);
    FilterConcat(Say(hasSink, UsingDefault), [call]);
    if HasSource(definition, fs) {
      var n := if hasSink then count + 1 else count;
      var start := Say(hasSink, Compiling(name, n));
      SayFiltered(hasSink, Compiling(name, n));
      OneEventFiltered(CompileErrorDialog);
      FilterConcat(start, [CompileErrorDialog]);
      FilterConcat(start + [CompileErrorDialog], fallback);
    }
  }

  /**
   * A definition that is not an existing script file calls at most one builder: the
   * delegate it is (with the parameter for the parameter variant), and none for
   * anything else, such as the path of a missing file.
   */
  lemma DelegateDispatch(
    definition: Value, name: string, par: string, sc: RayScene, defaultScene: Builder,
    hasSink: bool, count: int, fs: FileSystem, run: string -> RunOutcome)
    requires !IsScriptFile(definition, fs)
    ensures var res := Resolve(definition, name, par, sc, defaultScene, hasSink, count, fs, run);
      && ScriptRuns(res.events) == []
      && !res.propagated
      && BuilderCalls(res.events) ==
           match definition
           case SceneDelegate(b) => [BuilderCall(b, sc, None)]
           case SceneParamDelegate(b) => [BuilderCall(b, sc, Some(par))]
           case _ => []
  {
    var n := if hasSink then count + 1 else count;
    var call: seq<Event> :=
      match definition
      case SceneDelegate(b) => [BuilderCall(b, sc, None)]
      case SceneParamDelegate(b) => [BuilderCall(b, sc, Some(par))]
      case _ => [];
    SayFiltered(hasSink, Rendering(name, n));
    FilterConcat(call, Say(hasSink, Rendering(name, n)));
    if call != [] {
      OneEventFiltered(call[0]);
      assert call == [call[0]];
    }
  }

  /** The static counter advances by at most one, and only when a sink is present. */
  lemma CountAdvancesWithSink(
    definition: Value, name: string, par: string, sc: RayScene, defaultScene: Builder,
    hasSink: bool, count: int, fs: FileSystem, run: string -> RunOutcome)
    ensures var res := Resolve(definition, name, par, sc, defaultScene, hasSink, count, fs, run);
      && (!hasSink ==> res.count == count)
      && (hasSink ==> res.count == if IsScriptFile(definition, fs) && !HasSource(definition, fs)
                                   then count else count + 1)
  {
  }

  // ---------------------------------------------------------------------------
  // The operations.

  /** The script-support class; `count` is its static counter of script runs and renderings. */
  class Scripts {
    var count: int

    constructor ()
      ensures count == 0
    {
      count := 0;
    }

    /**
     * Reads extra scenes from command-line arguments into `repo`; returns how many
     * scene files were registered.
     */
    static method ReadFromConfig(args: seq<string>, repo: ScriptContext, fs: FileSystem) returns (count: nat)
      modifies repo
      ensures repo.entries == ApplyOps(old(repo.entries), ConfigOps(args, 0, fs))
      ensures count == PutCount(ConfigOps(args, 0, fs))
    {
      count := 0;
      var i := 0;
      while i < |args|
        invariant 0 <= i <= |args|
        invariant ApplyOps(repo.entries, ConfigOps(args, i, fs)) == ApplyOps(old(repo.entries), ConfigOps(args, 0, fs))
        invariant count + PutCount(ConfigOps(args, i, fs)) == PutCount(ConfigOps(args, 0, fs))
        decreases |args| - i
      {
        ghost var st := ParseArg(args, i, fs);
        ConfigOpsStep(args, i, fs);
        ApplyConcat(repo.entries, StepOps(st, fs), ConfigOps(args, st.next, fs));
        var added;
        added, i := ReadArgument(args, i, repo, fs);
        count := count + added;
      }
    }

    /**
     * One turn of the argument loop: interprets the argument at position `i` and
     * registers what it names; returns how many files were registered and the position
     * of the next unread argument.
     */
    static method ReadArgument(args: seq<string>, i: nat, repo: ScriptContext, fs: FileSystem)
      returns (added: nat, next: nat)
      requires i < |args|
      modifies repo
      ensures var st := ParseArg(args, i, fs);
        && next == st.next
        && repo.entries == ApplyOps(old(repo.entries), StepOps(st, fs))
        && added == PutCount(StepOps(st, fs))
    {
      ghost var st := ParseArg(args, i, fs);
      if args[i] == "" {
        return 0, i + 1;
      }
      var fileName, dir, last := ArgumentTarget(args, i, repo, fs);
      added := RegisterTarget(fileName, dir, repo, fs);
      if st.clear {
        assert [Clear][1..] == [];
      }
      next := last + 1;
    }

    /**
     * Interprets the argument at position `i` (not empty): returns the file name or mask
     * and the directory it asks for ("" standing for null) and the position of the last
     * argument it consumed; `-nodefault` clears the repository.
     */
    static method ArgumentTarget(args: seq<string>, i: nat, repo: ScriptContext, fs: FileSystem)
      returns (fileName: string, dir: string, last: nat)
      requires i < |args| && args[i] != ""
      modifies repo
      ensures var st := ParseArg(args, i, fs);
        fileName == st.fileName && dir == st.dir && last + 1 == st.next &&
        repo.entries == if st.clear then map[] else old(repo.entries)
    {
      fileName, dir, last := "", "", i;
      if args[i][0] != '-' {
        if fs.fileExists(args[i]) {
          fileName := fs.fullPath(args[i]);
        }
      } else {
        var opt := args[i][1..];
        if opt == "nodefault" {
          repo.entries := map[];
        } else if opt == "scene" && i + 1 < |args| {
          last := i + 1;
          if fs.fileExists(args[last]) {
            fileName := fs.fullPath(args[last]);
          }
        } else if opt == "dir" && i + 1 < |args| {
          last := i + 1;
          if fs.directoryExists(args[last]) {
            dir := fs.fullPath(args[last]);
            fileName := "*.cs";
          }
        } else if opt == "mask" && i + 1 < |args| {
          last := i + 1;
          dir := fs.fullPath(args[last]);
          fileName := fs.fileName(dir);
          dir := fs.directoryName(dir);
        }
      }
    }

    /** Registers the scene files a file name, or a directory and mask, names; returns how many. */
    static method RegisterTarget(fileName: string, dir: string, repo: ScriptContext, fs: FileSystem)
      returns (added: nat)
      modifies repo
      ensures repo.entries == ApplyOps(old(repo.entries), TargetOps(fileName, dir, fs))
      ensures added == PutCount(TargetOps(fileName, dir, fs))
    {
      added := 0;
      if dir != "" {
        if fileName != "" {
          var search := fs.getFiles(dir, fileName);
          if search.Some? {
            added := RegisterFound(search.value, repo, fs);
          }
        }
      } else if fileName != "" {
        var path := fs.fullPath(fileName);
        if fs.fileExists(path) {
          var key := RepoKey(fs.fileName(path));
          repo.entries := repo.entries[key := Str(path)];
          added := added + 1;
          assert [Register(path, fs)][1..] == [];
        }
      }
    }

    /** The `foreach` over a directory search: registers every returned file that exists. */
    static method RegisterFound(found: seq<string>, repo: ScriptContext, fs: FileSystem) returns (added: nat)
      modifies repo
      ensures repo.entries == ApplyOps(old(repo.entries), FoundOps(found, fs))
      ensures added == PutCount(FoundOps(found, fs))
    {
      added := 0;
      var j := 0;
      while j < |found|
        invariant 0 <= j <= |found|
        invariant ApplyOps(repo.entries, FoundOps(found[j..], fs)) == ApplyOps(old(repo.entries), FoundOps(found, fs))
        invariant added + PutCount(FoundOps(found[j..], fs)) == PutCount(FoundOps(found, fs))
        decreases |found| - j
      {
        ghost var r0 := repo.entries;
        var path := fs.fullPath(found[j]);
        assert found[j..][1..] == found[j + 1..];
        ghost var op := if fs.fileExists(path) then [Register(path, fs)] else [];
        ApplyConcat(repo.entries, op, FoundOps(found[j + 1..], fs));
        if fs.fileExists(path) {
          var key := RepoKey(fs.fileName(path));
          repo.entries := repo.entries[key := Str(path)];
          added := added + 1;
        }
        assert repo.entries == ApplyOps(r0, op) by {
          if op != [] { assert op[1..] == []; }
        }
        j := j + 1;
      }
      assert found[j..] == [];
    }

    /**
     * The scene step of `ContextInit`: the given scene, else the one already there, else
     * a new empty `DefaultRayScene`.
     */
    static method PlaceScene(ctx: ScriptContext, sc: RayScene?)
      modifies ctx
      ensures CTX_SCENE in ctx.entries && ctx.entries[CTX_SCENE] != Null
      ensures ctx.entries == old(ctx.entries)[CTX_SCENE := ctx.entries[CTX_SCENE]]
      ensures sc != null ==> ctx.entries[CTX_SCENE] == SceneObj(sc)
      ensures sc == null && CTX_SCENE in old(ctx.entries) && old(ctx.entries)[CTX_SCENE] != Null ==>
        ctx.entries[CTX_SCENE] == old(ctx.entries)[CTX_SCENE]
      ensures sc == null && (CTX_SCENE !in old(ctx.entries) || old(ctx.entries)[CTX_SCENE] == Null) ==>
        && ctx.entries[CTX_SCENE].SceneObj?
        && fresh(ctx.entries[CTX_SCENE].scene)
        && ctx.entries[CTX_SCENE].scene.Empty()
    {
      if sc != null {
        ctx.entries := ctx.entries[CTX_SCENE := SceneObj(sc)];
      } else if CTX_SCENE !in ctx.entries || ctx.entries[CTX_SCENE] == Null {
        var s := new RayScene();
        ctx.entries := ctx.entries[CTX_SCENE := SceneObj(s)];
      } else {
        assert ctx.entries == ctx.entries[CTX_SCENE := ctx.entries[CTX_SCENE]];
      }
    }

    /**
     * Initialises the context before a scene is resolved: the scene entry, cleared
     * algorithm and synthesizer, and the resolution and animation values.
     */
    static method ContextInit(
      ctx: ScriptContext, sc: RayScene?, width: int, height: int, superSampling: int,
      minTime: real, maxTime: real, fps: real)
      modifies ctx
      ensures CTX_SCENE in ctx.entries
      ensures ctx.entries ==
        Initialized(old(ctx.entries), ctx.entries[CTX_SCENE], width, height, superSampling, minTime, maxTime, fps)
      ensures sc != null ==> ctx.entries[CTX_SCENE] == SceneObj(sc)
      ensures sc == null && CTX_SCENE in old(ctx.entries) && old(ctx.entries)[CTX_SCENE] != Null ==>
        ctx.entries[CTX_SCENE] == old(ctx.entries)[CTX_SCENE]
      ensures sc == null && (CTX_SCENE !in old(ctx.entries) || old(ctx.entries)[CTX_SCENE] == Null) ==>
        && ctx.entries[CTX_SCENE].SceneObj?
        && fresh(ctx.entries[CTX_SCENE].scene)
        && ctx.entries[CTX_SCENE].scene.Empty()
    {
      PlaceScene(ctx, sc);
      ghost var scene := ctx.entries[CTX_SCENE];

      ctx.entries := ctx.entries - {CTX_ALGORITHM};
      ctx.entries := ctx.entries - {CTX_SYNTHESIZER};

      ctx.entries := ctx.entries[CTX_WIDTH := Integer(width)];
      ctx.entries := ctx.entries[CTX_HEIGHT := Integer(height)];
      ctx.entries := ctx.entries[CTX_SUPERSAMPLING := Integer(superSampling)];
      ctx.entries := ctx.entries[CTX_START_ANIM := Double(minTime)];
      ctx.entries := ctx.entries[CTX_END_ANIM := Double(maxTime)];
      ctx.entries := ctx.entries[CTX_FPS := Double(fps)];

      assert ctx.entries == Initialized(old(ctx.entries), scene, width, height, superSampling, minTime, maxTime, fps);
    }

    /**
     * Reads back what a scene script left in the context. Without a `DefaultRayScene`
     * it returns null and defaults and leaves every numeric value as it was; the
     * context itself is never changed.
     */
    static method ContextMining(
      ctx: ScriptContext, parseInt: Value -> Option<int>, parseReal: Value -> Option<real>,
      width0: int, height0: int, superSampling0: int, minTime0: real, maxTime0: real, fps0: real)
      returns (scene: RayScene?, imf: Option<Component>, rend: Option<Component>, tooltip: string,
               width: int, height: int, superSampling: int, minTime: real, maxTime: real, fps: real)
      ensures var e := ctx.entries;
        && (scene != null <==> HasScene(e))
        && (scene != null ==> e[CTX_SCENE] == SceneObj(scene))
        && (!HasScene(e) ==>
              && imf.None? && rend.None? && tooltip == ""
              && width == width0 && height == height0 && superSampling == superSampling0
              && minTime == minTime0 && maxTime == maxTime0 && fps == fps0)
        && (HasScene(e) ==>
              && imf == ComponentAt(e, CTX_ALGORITHM, true)
              && rend == ComponentAt(e, CTX_SYNTHESIZER, false)
              && tooltip == TooltipIn(e)
              && width == TryParseAt(e, CTX_WIDTH, parseInt, width0)
              && height == TryParseAt(e, CTX_HEIGHT, parseInt, height0)
              && superSampling == TryParseAt(e, CTX_SUPERSAMPLING, parseInt, superSampling0)
              && minTime == TryParseAt(e, CTX_START_ANIM, parseReal, minTime0)
              && maxTime == TryParseAt(e, CTX_END_ANIM, parseReal, maxTime0)
              && fps == TryParseAt(e, CTX_FPS, parseReal, fps0))
    {
      width, height, superSampling := width0, height0, superSampling0;
      minTime, maxTime, fps := minTime0, maxTime0, fps0;
      imf := None;
      rend := None;
      tooltip := "";

      if CTX_SCENE !in ctx.entries || !ctx.entries[CTX_SCENE].SceneObj? {
        return null, imf, rend, tooltip, width, height, superSampling, minTime, maxTime, fps;
      }

      var o := ctx.entries;
      if CTX_ALGORITHM in o && o[CTX_ALGORITHM].ComponentObj? && o[CTX_ALGORITHM].component.isImageFunction {
        imf := Some(o[CTX_ALGORITHM].component);
      }
      if CTX_SYNTHESIZER in o && o[CTX_SYNTHESIZER].ComponentObj? && o[CTX_SYNTHESIZER].component.isRenderer {
        rend := Some(o[CTX_SYNTHESIZER].component);
      }
      if CTX_TOOLTIP in o && o[CTX_TOOLTIP].Str? {
        tooltip := o[CTX_TOOLTIP].text;
      }

      width := TryParseAt(o, CTX_WIDTH, parseInt, width);
      height := TryParseAt(o, CTX_HEIGHT, parseInt, height);
      superSampling := TryParseAt(o, CTX_SUPERSAMPLING, parseInt, superSampling);
      minTime := TryParseAt(o, CTX_START_ANIM, parseReal, minTime);
      maxTime := TryParseAt(o, CTX_END_ANIM, parseReal, maxTime);
      fps := TryParseAt(o, CTX_FPS, parseReal, fps);

      scene := o[CTX_SCENE].scene;
    }

    /** `SceneFromObject` once `definition` names an existing script file. */
    method ResolveScript(
      name: string, definition: Value, par: string, sc: RayScene, defaultScene: Builder,
      hasSink: bool, fs: FileSystem, run: string -> RunOutcome)
      returns (events: seq<Event>, propagated: bool)
      requires IsScriptFile(definition, fs)
      modifies this
      ensures Resolution(events, count, propagated) ==
        Resolve(definition, name, par, sc, defaultScene, hasSink, old(count), fs, run)
    {
      var scriptFileName := definition.text;
      events, propagated := [], false;
      var scriptSource := fs.readAllText(scriptFileName);
      if scriptSource.Some? && scriptSource.value != "" {
        if hasSink {
          count := count + 1;
          events := events + [Message(Compiling(name, count))];
        }
        var outcome := run(scriptSource.value);
        if outcome != CompileError {
          events := events + [ScriptRun(scriptSource.value, name, sc, par)];
        } else {
          events := events + [CompileErrorDialog];
        }
        if outcome == Faulted {
          propagated := true;
          return;
        }
        if outcome == Completed {
          if hasSink {
            events := events + [Message(FinishedOk(name))];
          }
          return;
        }
      }
      if hasSink {
        events := events + [Message(UsingDefault)];
      }
      events := events + [BuilderCall(defaultScene, sc, None)];
    }

    /** The context's `DefaultRayScene`, stored there first as a new empty one if missing. */
    static method SceneInContext(ctx: ScriptContext) returns (sc: RayScene)
      modifies ctx
      ensures HasScene(ctx.entries) && ctx.entries[CTX_SCENE] == SceneObj(sc)
      ensures HasScene(old(ctx.entries)) ==> ctx.entries == old(ctx.entries)
      ensures !HasScene(old(ctx.entries)) ==>
        && fresh(sc) && sc.Empty()
        && ctx.entries == old(ctx.entries)[CTX_SCENE := SceneObj(sc)]
    {
      if CTX_SCENE in ctx.entries && ctx.entries[CTX_SCENE].SceneObj? {
        sc := ctx.entries[CTX_SCENE].scene;
      } else {
        sc := new RayScene();
        ctx.entries := ctx.entries[CTX_SCENE := SceneObj(sc)];
      }
    }

    /**
     * Fills the context's scene from `definition`: a script file, a scene delegate or a
     * parameter delegate, falling back to `defaultScene` when the script cannot be used.
     * Returns what happened, in order, and whether an exception escaped.
     */
    method SceneFromObject(
      ctx: ScriptContext, name: string, definition: Value, par: string, defaultScene: Builder,
      hasSink: bool, fs: FileSystem, run: string -> RunOutcome)
      returns (events: seq<Event>, propagated: bool)
      modifies this, ctx
      ensures HasScene(ctx.entries)
      ensures HasScene(old(ctx.entries)) ==> ctx.entries == old(ctx.entries)
      ensures !HasScene(old(ctx.entries)) ==>
        && fresh(ctx.entries[CTX_SCENE].scene)
        && ctx.entries[CTX_SCENE].scene.Empty()
        && ctx.entries == old(ctx.entries)[CTX_SCENE := ctx.entries[CTX_SCENE]]
      ensures Resolution(events, count, propagated) ==
        Resolve(definition, name, par, ctx.entries[CTX_SCENE].scene, defaultScene, hasSink, old(count), fs, run)
    {
      var sc := SceneInContext(ctx);

      var scriptFileName := if definition.Str? then definition.text else "";

      if scriptFileName != "" && fs.fileExists(scriptFileName) {
        events, propagated := ResolveScript(name, definition, par, sc, defaultScene, hasSink, fs, run);
        return;
      }

      events, propagated := [], false;
      if definition.SceneDelegate? {
        events := events + [BuilderCall(definition.builder, sc, None)];
      } else if definition.SceneParamDelegate? {
        events := events + [BuilderCall(definition.builder, sc, Some(par))];
      }
      if hasSink {
        count := count + 1;
        events := events + [Message(Rendering(name, count))];
      }
    }
  }
}
