/**
 * The task that precompiles script plugins: for every script, in list order,
 * it compiles the plugins block, then the build script, each into its own
 * classes and metadata directories, registers each classes directory with the
 * classes copy spec, loads the phase back from the directories it was compiled
 * into, and writes one adapter source file. All of it happens inside one child
 * scope that is created and locked before the first script.
 *
 * The compiler, the loader and the file writer are collaborators whose
 * behaviour is given as functions; every call the task makes on them is
 * recorded as an event.
 */
module PreCompileTask {
  import opened Wrappers
  import opened Scopes
  import opened Layout
  import AdapterSource

  /** Name of the child scope every batch compiles in. */
  const BatchScopeName := "pre-compiled-scripts"

  /** What the task reads of a script's target: the base script class it compiles against. */
  datatype ScriptTarget = ScriptTarget(scriptClass: string)

  /** One discovered script plugin, with the names derived for it. */
  datatype PreCompiledScript = PreCompiledScript(
    id: string,
    source: string,
    pluginsBlockSource: string,
    contentHash: string,
    className: string,
    pluginsBlockClassName: string,
    generatedPluginClassName: string,
    targetClass: string,
    scriptTarget: ScriptTarget)

  datatype Phase = PluginsBlock | BuildScript

  datatype CompileOperation =
    | PluginRequestsOperation(target: ScriptTarget)
    | BuildScriptDataOperation(source: string, target: ScriptTarget)

  /** The verifier hook the compiler runs over the phase's syntax tree. */
  datatype Verifier = DoNothing | ClosureCreationInterceptingVerifier

  datatype CompileRequest = CompileRequest(
    source: string,
    loader: ExportClassLoader,
    classesDir: Path,
    metadataDir: Path,
    operation: CompileOperation,
    scriptClass: string,
    verifier: Verifier)

  datatype LoadRequest = LoadRequest(
    source: string,
    contentHash: string,
    scope: ClassLoaderScope,
    classesDir: Path,
    metadataDir: Path,
    operation: CompileOperation,
    scriptClass: string)

  /** What the task uses of a loaded phase. */
  datatype CompiledScript = CompiledScript(runDoesSomething: bool)

  /** A call the task makes on a collaborator. */
  datatype Event =
    | CreateChildScope(parent: ClassLoaderScope, name: string)
    | LockScope(scope: ClassLoaderScope)
    | CompileToDir(compile: CompileRequest)
    | LoadFromDir(load: LoadRequest)
    /** Writes the chunks `AdapterSource.AdapterLines(adapter)` to `file`, one after the other. */
    | WriteAdapter(file: Path, adapter: AdapterSource.AdapterInput)

  /** The exceptions that end the task. */
  datatype TaskError =
    | CompilationFailed(request: CompileRequest)
    | UncheckedIOException(file: Path)

  /**
   * The collaborators: whether the compiler accepts a request, what the loader
   * returns, and whether a file can be written.
   */
  datatype Collaborators = Collaborators(
    compiles: CompileRequest -> bool,
    load: LoadRequest -> CompiledScript,
    canWrite: Path -> bool)

  function PhaseClassName(s: PreCompiledScript, phase: Phase): string {
    match phase
    case PluginsBlock => s.pluginsBlockClassName
    case BuildScript => s.className
  }

  function PhaseSource(s: PreCompiledScript, phase: Phase): string {
    match phase
    case PluginsBlock => s.pluginsBlockSource
    case BuildScript => s.source
  }

  function PhaseOperation(s: PreCompiledScript, phase: Phase): CompileOperation {
    match phase
    case PluginsBlock => PluginRequestsOperation(s.scriptTarget)
    case BuildScript => BuildScriptDataOperation(s.source, s.scriptTarget)
  }

  function PhaseVerifier(phase: Phase): Verifier {
    match phase
    case PluginsBlock => DoNothing
    case BuildScript => ClosureCreationInterceptingVerifier
  }

  function CompileRequestFor(dirs: TaskDirs, scope: ClassLoaderScope, s: PreCompiledScript, phase: Phase): CompileRequest {
    var name := PhaseClassName(s, phase);
    CompileRequest(
      PhaseSource(s, phase), ExportClassLoader(scope),
      File(dirs.classesDir, name), File(dirs.metadataDir, name),
      PhaseOperation(s, phase), s.scriptTarget.scriptClass, PhaseVerifier(phase))
  }

  function LoadRequestFor(dirs: TaskDirs, scope: ClassLoaderScope, s: PreCompiledScript, phase: Phase): LoadRequest {
    var name := PhaseClassName(s, phase);
    LoadRequest(
      PhaseSource(s, phase), s.contentHash, scope,
      File(dirs.classesDir, name), File(dirs.metadataDir, name),
      PhaseOperation(s, phase), s.scriptTarget.scriptClass)
  }

  /**
   * A phase is loaded from the very directories it is compiled into, with the
   * same source, operation and base class, the script's content hash and the
   * batch scope; only the build script is compiled with the closure verifier.
   */
  lemma LoadReadsWhatCompileWrote(dirs: TaskDirs, scope: ClassLoaderScope, s: PreCompiledScript, phase: Phase)
    ensures var c := CompileRequestFor(dirs, scope, s, phase);
            var l := LoadRequestFor(dirs, scope, s, phase);
      && c.classesDir == l.classesDir == File(dirs.classesDir, PhaseClassName(s, phase))
      && c.metadataDir == l.metadataDir == File(dirs.metadataDir, PhaseClassName(s, phase))
      && c.source == l.source && c.operation == l.operation && c.scriptClass == l.scriptClass
      && c.loader == ExportClassLoader(l.scope) && l.scope == scope
      && l.contentHash == s.contentHash
      && (c.verifier == DoNothing <==> phase == PluginsBlock)
  {
  }

  /** What one phase of one script does: its calls, its copy-spec entries and its result. */
  datatype PhaseOutcome = PhaseOutcome(
    events: seq<Event>,
    classesSpecAdded: seq<Path>,
    result: Result<CompiledScript, TaskError>)

  /** The calls and copy-spec entries of a run so far, and the exception that ended it, if any. */
  datatype Progress = Progress(
    events: seq<Event>,
    classesSpecAdded: seq<Path>,
    failure: Option<TaskError>)

  /** Compile unconditionally, register the classes directory, then load. */
  function PhaseSpec(c: Collaborators, dirs: TaskDirs, scope: ClassLoaderScope, s: PreCompiledScript, phase: Phase): PhaseOutcome {
    var compile := CompileRequestFor(dirs, scope, s, phase);
    if !c.compiles(compile) then
      PhaseOutcome([CompileToDir(compile)], [], Failure(CompilationFailed(compile)))
    else
      var load := LoadRequestFor(dirs, scope, s, phase);
      PhaseOutcome([CompileToDir(compile), LoadFromDir(load)], [compile.classesDir], Success(c.load(load)))
  }

  function AdapterInputFor(s: PreCompiledScript, pluginsBlock: CompiledScript, buildScript: CompiledScript): AdapterSource.AdapterInput {
    AdapterSource.AdapterInput(
      s.targetClass, s.id, s.generatedPluginClassName,
      s.pluginsBlockClassName, s.className,
      pluginsBlock.runDoesSomething, buildScript.runDoesSomething)
  }

  /** The adapter source is an entry directly inside the generated-sources directory, with a `.java` name. */
  function AdapterFile(dirs: TaskDirs, s: PreCompiledScript): (r: Path)
    ensures |r| == |dirs.generatedClassesDir| + 1 && Under(r, dirs.generatedClassesDir)
    ensures var n := r[|r| - 1]; |n| >= 5 && n[|n| - 5..] == ".java"
  {
    File(dirs.generatedClassesDir, s.generatedPluginClassName + ".java")
  }

  /** Two scripts share an adapter file exactly when they share the generated plugin class name. */
  lemma {:induction false} AdapterFilesDistinct(dirs: TaskDirs, s: PreCompiledScript, t: PreCompiledScript)
    ensures AdapterFile(dirs, s) == AdapterFile(dirs, t) <==> s.generatedPluginClassName == t.generatedPluginClassName
  {
    var a, b := s.generatedPluginClassName, t.generatedPluginClassName;
    FileDeterminesDirAndName(dirs.generatedClassesDir, a + ".java", dirs.generatedClassesDir, b + ".java");
    if a + ".java" == b + ".java" {
      assert a == (a + ".java")[..|a|];
    }
  }

  function AdapterSpec(c: Collaborators, dirs: TaskDirs, s: PreCompiledScript, pluginsBlock: CompiledScript, buildScript: CompiledScript): Progress {
    var file := AdapterFile(dirs, s);
    if c.canWrite(file) then
      Progress([WriteAdapter(file, AdapterInputFor(s, pluginsBlock, buildScript))], [], None)
    else
      Progress([], [], Some(UncheckedIOException(file)))
  }

  /** Plugins block, then build script, then the adapter; the first exception stops the script. */
  function ScriptSpec(c: Collaborators, dirs: TaskDirs, scope: ClassLoaderScope, s: PreCompiledScript): Progress {
    var pluginsBlock := PhaseSpec(c, dirs, scope, s, PluginsBlock);
    if pluginsBlock.result.Failure? then
      Progress(pluginsBlock.events, pluginsBlock.classesSpecAdded, Some(pluginsBlock.result.error))
    else
      var buildScript := PhaseSpec(c, dirs, scope, s, BuildScript);
      if buildScript.result.Failure? then
        Progress(pluginsBlock.events + buildScript.events,
                 pluginsBlock.classesSpecAdded + buildScript.classesSpecAdded,
                 Some(buildScript.result.error))
      else
        var adapter := AdapterSpec(c, dirs, s, pluginsBlock.result.value, buildScript.result.value);
        Progress(pluginsBlock.events + buildScript.events + adapter.events,
                 pluginsBlock.classesSpecAdded + buildScript.classesSpecAdded,
                 adapter.failure)
  }

  /** The scripts in list order; an exception in one script ends the whole batch. */
  function BatchSpec(c: Collaborators, dirs: TaskDirs, scope: ClassLoaderScope, scripts: seq<PreCompiledScript>): Progress
    decreases |scripts|
  {
    if scripts == [] then Progress([], [], None)
    else
      var previous := BatchSpec(c, dirs, scope, scripts[..|scripts| - 1]);
      if previous.failure.Some? then previous
      else
        var last := ScriptSpec(c, dirs, scope, scripts[|scripts| - 1]);
        Progress(previous.events + last.events, previous.classesSpecAdded + last.classesSpecAdded, last.failure)
  }

  /** The task action: create and lock the batch scope, then run the batch in it. */
  function CompileScriptsSpec(c: Collaborators, dirs: TaskDirs, root: ClassLoaderScope, scope: ClassLoaderScope, scripts: seq<PreCompiledScript>): Progress {
    var batch := BatchSpec(c, dirs, scope, scripts);
    Progress([CreateChildScope(root, BatchScopeName), LockScope(scope)] + batch.events, batch.classesSpecAdded, batch.failure)
  }

  // ---------------------------------------------------------------------------
  // Reference definitions and the properties of a batch

  /** Two classes directories per script, plugins block first, scripts in list order. */
  function ExpectedClassesSpec(dirs: TaskDirs, scripts: seq<PreCompiledScript>): seq<Path> {
    seq(2 * |scripts|, k requires 0 <= k < 2 * |scripts| =>
      File(dirs.classesDir, if k % 2 == 0 then scripts[k / 2].pluginsBlockClassName else scripts[k / 2].className))
  }

  /** One adapter file per script, in list order. */
  function ExpectedAdapterFiles(dirs: TaskDirs, scripts: seq<PreCompiledScript>): seq<Path> {
    seq(|scripts|, i requires 0 <= i < |scripts| => AdapterFile(dirs, scripts[i]))
  }

  /** The classes directories of the compile calls in `events`, in order. */
  function CompiledClassesDirs(events: seq<Event>): seq<Path> {
    if events == [] then []
    else (if events[0].CompileToDir? then [events[0].compile.classesDir] else []) + CompiledClassesDirs(events[1..])
  }

  /** The files of the adapter writes in `events`, in order. */
  function WrittenAdapterFiles(events: seq<Event>): seq<Path> {
    if events == [] then []
    else (if events[0].WriteAdapter? then [events[0].file] else []) + WrittenAdapterFiles(events[1..])
  }

  /**
   * Every load is immediately preceded by the compile of the same phase of the
   * same script, both against the batch scope.
   */
  ghost predicate LoadsFollowCompiles(dirs: TaskDirs, scope: ClassLoaderScope, scripts: seq<PreCompiledScript>, events: seq<Event>) {
    forall i :: 0 <= i < |events| && events[i].LoadFromDir? ==>
      0 < i &&
        exists s, phase ::
          && s in scripts
          && events[i - 1] == CompileToDir(CompileRequestFor(dirs, scope, s, phase))
          && events[i] == LoadFromDir(LoadRequestFor(dirs, scope, s, phase))
  }

  /**
   * Every compile call is one the task derives for a script of the list, every
   * compile and load goes through the batch scope, and no scope is created or
   * locked.
   */
  ghost predicate CallsAreDerived(dirs: TaskDirs, scope: ClassLoaderScope, scripts: seq<PreCompiledScript>, events: seq<Event>) {
    && (forall e :: e in events && e.CompileToDir? ==>
          exists s, phase :: s in scripts && e.compile == CompileRequestFor(dirs, scope, s, phase))
    && (forall e :: e in events && e.CompileToDir? ==> e.compile.loader == ExportClassLoader(scope))
    && (forall e :: e in events && e.LoadFromDir? ==> e.load.scope == scope)
    && (forall e :: e in events ==> !e.CreateChildScope? && !e.LockScope?)
  }

  lemma {:induction false} CompiledClassesDirsAppend(a: seq<Event>, b: seq<Event>)
    ensures CompiledClassesDirs(a + b) == CompiledClassesDirs(a) + CompiledClassesDirs(b)
  {
    if a != [] {
      assert (a + b)[1..] == a[1..] + b;
      CompiledClassesDirsAppend(a[1..], b);
    } else {
      assert a + b == b;
    }
  }

  lemma {:induction false} WrittenAdapterFilesAppend(a: seq<Event>, b: seq<Event>)
    ensures WrittenAdapterFiles(a + b) == WrittenAdapterFiles(a) + WrittenAdapterFiles(b)
  {
    if a != [] {
      assert (a + b)[1..] == a[1..] + b;
      WrittenAdapterFilesAppend(a[1..], b);
    } else {
      assert a + b == b;
    }
  }

  /** `a` is an initial segment of `b`. */
  predicate IsPrefix<T(==)>(a: seq<T>, b: seq<T>) {
    |a| <= |b| && a == b[..|a|]
  }

  lemma PhaseContribution(c: Collaborators, dirs: TaskDirs, scope: ClassLoaderScope, s: PreCompiledScript, phase: Phase)
    ensures var o := PhaseSpec(c, dirs, scope, s, phase);
      var compile, load := CompileRequestFor(dirs, scope, s, phase), LoadRequestFor(dirs, scope, s, phase);
      && (o.result.Success? <==> c.compiles(compile))
      && o.events == [CompileToDir(compile)] + (if o.result.Success? then [LoadFromDir(load)] else [])
      && (o.result.Success? ==> o.result.value == c.load(load))
    ensures var o := PhaseSpec(c, dirs, scope, s, phase);
      && CompiledClassesDirs(o.events) == [File(dirs.classesDir, PhaseClassName(s, phase))]
      && WrittenAdapterFiles(o.events) == []
      && o.classesSpecAdded == (if o.result.Success? then CompiledClassesDirs(o.events) else [])
  {
    var compile := CompileRequestFor(dirs, scope, s, phase);
    if c.compiles(compile) {
      var load := LoadRequestFor(dirs, scope, s, phase);
      var tail := [LoadFromDir(load)];
      assert tail[1..] == [];
      assert CompiledClassesDirs(tail) == [] && WrittenAdapterFiles(tail) == [];
      var events := [CompileToDir(compile)] + tail;
      assert events[1..] == tail;
      assert CompiledClassesDirs(events) == [compile.classesDir] + CompiledClassesDirs(tail);
      assert WrittenAdapterFiles(events) == [] + WrittenAdapterFiles(tail);
    } else {
      var events := [CompileToDir(compile)];
      assert events[1..] == [];
      assert CompiledClassesDirs(events) == [compile.classesDir] + CompiledClassesDirs(events[1..]);
      assert WrittenAdapterFiles(events) == [] + WrittenAdapterFiles(events[1..]);
    }
  }

  lemma AdapterContribution(c: Collaborators, dirs: TaskDirs, s: PreCompiledScript, pluginsBlock: CompiledScript, buildScript: CompiledScript)
    ensures var w := AdapterSpec(c, dirs, s, pluginsBlock, buildScript);
      && w.classesSpecAdded == [] && CompiledClassesDirs(w.events) == []
      && WrittenAdapterFiles(w.events) == (if w.failure.None? then [AdapterFile(dirs, s)] else [])
    ensures var w := AdapterSpec(c, dirs, s, pluginsBlock, buildScript);
      && (w.failure.Some? <==> !c.canWrite(AdapterFile(dirs, s)))
      && (w.failure.Some? ==> w.failure.value == UncheckedIOException(AdapterFile(dirs, s)) && w.events == [])
  {
    var w := AdapterSpec(c, dirs, s, pluginsBlock, buildScript);
    if w.events != [] {
      assert w.events[1..] == [];
    }
  }

  /**
   * What a single script contributes: the directories it compiles into are a
   * prefix of its plugins-block and build-script directories, the ones it
   * registers are a prefix of those, and on success both are all of them and
   * exactly one adapter file is written.
   */
  ghost predicate ScriptContribution(dirs: TaskDirs, s: PreCompiledScript, p: Progress) {
    var both := [File(dirs.classesDir, s.pluginsBlockClassName), File(dirs.classesDir, s.className)];
    var compiled := CompiledClassesDirs(p.events);
    && IsPrefix(p.classesSpecAdded, compiled) && IsPrefix(compiled, both)
    && (p.failure.None? ==>
          && p.classesSpecAdded == compiled == both
          && WrittenAdapterFiles(p.events) == [AdapterFile(dirs, s)])
  }

  lemma FailureInPluginsBlock(c: Collaborators, dirs: TaskDirs, scope: ClassLoaderScope, s: PreCompiledScript)
    requires PhaseSpec(c, dirs, scope, s, PluginsBlock).result.Failure?
    ensures ScriptContribution(dirs, s, ScriptSpec(c, dirs, scope, s))
  {
    var pb := PhaseSpec(c, dirs, scope, s, PluginsBlock);
    PhaseContribution(c, dirs, scope, s, PluginsBlock);
    assert ScriptSpec(c, dirs, scope, s) == Progress(pb.events, [], Some(pb.result.error));
    var both := [File(dirs.classesDir, s.pluginsBlockClassName), File(dirs.classesDir, s.className)];
    assert both[..1] == [both[0]];
  }

  lemma FailureInBuildScript(c: Collaborators, dirs: TaskDirs, scope: ClassLoaderScope, s: PreCompiledScript)
    requires PhaseSpec(c, dirs, scope, s, PluginsBlock).result.Success?
    requires PhaseSpec(c, dirs, scope, s, BuildScript).result.Failure?
    ensures ScriptContribution(dirs, s, ScriptSpec(c, dirs, scope, s))
  {
    var pb := PhaseSpec(c, dirs, scope, s, PluginsBlock);
    var bs := PhaseSpec(c, dirs, scope, s, BuildScript);
    PhaseContribution(c, dirs, scope, s, PluginsBlock);
    PhaseContribution(c, dirs, scope, s, BuildScript);
    CompiledClassesDirsAppend(pb.events, bs.events);
    assert ScriptSpec(c, dirs, scope, s) == Progress(pb.events + bs.events, pb.classesSpecAdded, Some(bs.result.error));
  }

  lemma BothPhasesCompiled(c: Collaborators, dirs: TaskDirs, scope: ClassLoaderScope, s: PreCompiledScript)
    requires PhaseSpec(c, dirs, scope, s, PluginsBlock).result.Success?
    requires PhaseSpec(c, dirs, scope, s, BuildScript).result.Success?
    ensures ScriptContribution(dirs, s, ScriptSpec(c, dirs, scope, s))
  {
    var pb := PhaseSpec(c, dirs, scope, s, PluginsBlock);
    var bs := PhaseSpec(c, dirs, scope, s, BuildScript);
    var ad := AdapterSpec(c, dirs, s, pb.result.value, bs.result.value);
    PhaseContribution(c, dirs, scope, s, PluginsBlock);
    PhaseContribution(c, dirs, scope, s, BuildScript);
    AdapterContribution(c, dirs, s, pb.result.value, bs.result.value);
    assert ScriptSpec(c, dirs, scope, s)
        == Progress(pb.events + bs.events + ad.events, pb.classesSpecAdded + bs.classesSpecAdded, ad.failure);
    CompiledClassesDirsAppend(pb.events, bs.events);
    WrittenAdapterFilesAppend(pb.events, bs.events);
    CompiledClassesDirsAppend(pb.events + bs.events, ad.events);
    WrittenAdapterFilesAppend(pb.events + bs.events, ad.events);
  }

  lemma ScriptSpecContribution(c: Collaborators, dirs: TaskDirs, scope: ClassLoaderScope, s: PreCompiledScript)
    ensures ScriptContribution(dirs, s, ScriptSpec(c, dirs, scope, s))
  {
    if PhaseSpec(c, dirs, scope, s, PluginsBlock).result.Failure? {
      FailureInPluginsBlock(c, dirs, scope, s);
    } else if PhaseSpec(c, dirs, scope, s, BuildScript).result.Failure? {
      FailureInBuildScript(c, dirs, scope, s);
    } else {
      BothPhasesCompiled(c, dirs, scope, s);
    }
  }

  lemma ExpectedClassesSpecStep(dirs: TaskDirs, scripts: seq<PreCompiledScript>)
    requires scripts != []
    ensures var s := scripts[|scripts| - 1];
      ExpectedClassesSpec(dirs, scripts)
        == ExpectedClassesSpec(dirs, scripts[..|scripts| - 1])
           + [File(dirs.classesDir, s.pluginsBlockClassName), File(dirs.classesDir, s.className)]
  {
  }

  lemma AppendAssociative<T>(a: seq<T>, b: seq<T>, c: seq<T>)
    ensures (a + b) + c == a + (b + c)
  {
  }

  lemma PrefixAppend<T>(a: seq<T>, x: seq<T>, y: seq<T>, b: seq<T>)
    requires IsPrefix(x, y) && b == a + y
    ensures IsPrefix(a + x, b)
  {
    assert b[..|a + x|] == a + y[..|x|];
  }

  /**
   * The classes copy spec: on success it holds exactly two directories per
   * script, plugins block before build script, in list order, and they are the
   * directories compiled into, in compile order. After an exception the
   * directories compiled into are a prefix of that, and the registered ones a
   * prefix of those (a failed compile is not registered).
   */
  lemma {:induction false} BatchClassesSpec(c: Collaborators, dirs: TaskDirs, scope: ClassLoaderScope, scripts: seq<PreCompiledScript>)
    ensures var p := BatchSpec(c, dirs, scope, scripts);
            var expected := ExpectedClassesSpec(dirs, scripts);
            var compiled := CompiledClassesDirs(p.events);
      && IsPrefix(p.classesSpecAdded, compiled) && IsPrefix(compiled, expected)
      && (p.failure.None? ==> p.classesSpecAdded == compiled == expected)
    decreases |scripts|
  {
    if scripts != [] {
      var n := |scripts|;
      var init := scripts[..n - 1];
      var previous := BatchSpec(c, dirs, scope, init);
      BatchClassesSpec(c, dirs, scope, init);
      var e0 := ExpectedClassesSpec(dirs, init);
      var e := ExpectedClassesSpec(dirs, scripts);
      ExpectedClassesSpecStep(dirs, scripts);
      if previous.failure.None? {
        var s := scripts[n - 1];
        var both := [File(dirs.classesDir, s.pluginsBlockClassName), File(dirs.classesDir, s.className)];
        var last := ScriptSpec(c, dirs, scope, s);
        ScriptSpecContribution(c, dirs, scope, s);
        CompiledClassesDirsAppend(previous.events, last.events);
        PrefixAppend(e0, CompiledClassesDirs(last.events), both, e);
        PrefixAppend(e0, last.classesSpecAdded, CompiledClassesDirs(last.events), e0 + CompiledClassesDirs(last.events));
      } else {
        assert e[..|e0|] == e0;
        var compiled := CompiledClassesDirs(previous.events);
        assert e0[..|compiled|] == e[..|compiled|];
      }
    }
  }

  lemma ExpectedAdapterFilesStep(dirs: TaskDirs, scripts: seq<PreCompiledScript>)
    requires scripts != []
    ensures ExpectedAdapterFiles(dirs, scripts)
         == ExpectedAdapterFiles(dirs, scripts[..|scripts| - 1]) + [AdapterFile(dirs, scripts[|scripts| - 1])]
  {
  }

  /** On success the batch writes exactly one adapter per script, in list order. */
  lemma {:induction false} BatchWritesOneAdapterPerScript(c: Collaborators, dirs: TaskDirs, scope: ClassLoaderScope, scripts: seq<PreCompiledScript>)
    ensures var p := BatchSpec(c, dirs, scope, scripts);
      p.failure.None? ==> WrittenAdapterFiles(p.events) == ExpectedAdapterFiles(dirs, scripts)
    decreases |scripts|
  {
    if scripts != [] {
      var n := |scripts|;
      var init := scripts[..n - 1];
      var previous := BatchSpec(c, dirs, scope, init);
      BatchWritesOneAdapterPerScript(c, dirs, scope, init);
      if previous.failure.None? {
        var last := ScriptSpec(c, dirs, scope, scripts[n - 1]);
        ScriptSpecContribution(c, dirs, scope, scripts[n - 1]);
        WrittenAdapterFilesAppend(previous.events, last.events);
        ExpectedAdapterFilesStep(dirs, scripts);
      }
    }
  }

  /** The compile and load calls of a script that gets through both phases, in order. */
  function ScriptCalls(dirs: TaskDirs, scope: ClassLoaderScope, s: PreCompiledScript): seq<Event> {
    [CompileToDir(CompileRequestFor(dirs, scope, s, PluginsBlock)), LoadFromDir(LoadRequestFor(dirs, scope, s, PluginsBlock)),
     CompileToDir(CompileRequestFor(dirs, scope, s, BuildScript)), LoadFromDir(LoadRequestFor(dirs, scope, s, BuildScript))]
  }

  /** A non-empty prefix of the script's calls, possibly followed by one adapter write. */
  predicate ScriptCallShape(dirs: TaskDirs, scope: ClassLoaderScope, s: PreCompiledScript, events: seq<Event>) {
    var calls := ScriptCalls(dirs, scope, s);
    || (0 < |events| <= 4 && events == calls[..|events|])
    || (|events| == 5 && events[..4] == calls && events[4].WriteAdapter?)
  }

  lemma ScriptSpecShape(c: Collaborators, dirs: TaskDirs, scope: ClassLoaderScope, s: PreCompiledScript)
    ensures ScriptCallShape(dirs, scope, s, ScriptSpec(c, dirs, scope, s).events)
  {
    var p := ScriptSpec(c, dirs, scope, s);
    var calls := ScriptCalls(dirs, scope, s);
    if |p.events| == 5 {
      assert p.events[..4] == calls;
    }
  }

  lemma ShapeWellFormed(dirs: TaskDirs, scope: ClassLoaderScope, scripts: seq<PreCompiledScript>, s: PreCompiledScript, events: seq<Event>)
    requires s in scripts && ScriptCallShape(dirs, scope, s, events)
    ensures LoadsFollowCompiles(dirs, scope, scripts, events) && CallsAreDerived(dirs, scope, scripts, events)
  {
    var calls := ScriptCalls(dirs, scope, s);
    forall i | 0 <= i < |events| && i < 4
      ensures events[i] == calls[i]
    {
      if |events| == 5 {
        assert events[i] == events[..4][i];
      } else {
        assert events[i] == calls[..|events|][i];
      }
    }
    forall e | e in events
      ensures e.CompileToDir? ==> exists phase :: e.compile == CompileRequestFor(dirs, scope, s, phase)
      ensures !e.CreateChildScope? && !e.LockScope?
    {
      var i :| 0 <= i < |events| && events[i] == e;
    }
    forall i | 0 <= i < |events| && events[i].LoadFromDir?
      ensures 0 < i &&
        exists s', phase ::
          && s' in scripts
          && events[i - 1] == CompileToDir(CompileRequestFor(dirs, scope, s', phase))
          && events[i] == LoadFromDir(LoadRequestFor(dirs, scope, s', phase))
    {
      if i == 1 {
        assert events[0] == CompileToDir(CompileRequestFor(dirs, scope, s, PluginsBlock));
      } else {
        assert events[i - 1] == CompileToDir(CompileRequestFor(dirs, scope, s, BuildScript));
      }
    }
  }

  lemma ScriptCallsWellFormed(c: Collaborators, dirs: TaskDirs, scope: ClassLoaderScope, scripts: seq<PreCompiledScript>, s: PreCompiledScript)
    requires s in scripts
    ensures var p := ScriptSpec(c, dirs, scope, s);
      && LoadsFollowCompiles(dirs, scope, scripts, p.events)
      && CallsAreDerived(dirs, scope, scripts, p.events)
      && |p.events| > 0 && p.events[0].CompileToDir?
  {
    ScriptSpecShape(c, dirs, scope, s);
    ShapeWellFormed(dirs, scope, scripts, s, ScriptSpec(c, dirs, scope, s).events);
  }

  lemma {:induction false} WellFormedAppend(dirs: TaskDirs, scope: ClassLoaderScope, scripts: seq<PreCompiledScript>, a: seq<Event>, b: seq<Event>)
    requires LoadsFollowCompiles(dirs, scope, scripts, a) && CallsAreDerived(dirs, scope, scripts, a)
    requires LoadsFollowCompiles(dirs, scope, scripts, b) && CallsAreDerived(dirs, scope, scripts, b)
    ensures LoadsFollowCompiles(dirs, scope, scripts, a + b) && CallsAreDerived(dirs, scope, scripts, a + b)
  {
    var ab := a + b;
    forall i | 0 <= i < |ab| && ab[i].LoadFromDir?
      ensures 0 < i &&
        exists s, phase ::
          && s in scripts
          && ab[i - 1] == CompileToDir(CompileRequestFor(dirs, scope, s, phase))
          && ab[i] == LoadFromDir(LoadRequestFor(dirs, scope, s, phase))
    {
      if i < |a| {
        assert a[i].LoadFromDir?;
        assert ab[i - 1] == a[i - 1];
      } else {
        assert b[i - |a|].LoadFromDir?;
        assert ab[i - 1] == b[i - |a| - 1];
      }
    }
  }

  /**
   * Every load in a batch is immediately preceded by the compile of the same
   * phase of the same script, and every compile belongs to a script of the batch.
   */
  lemma {:induction false} BatchLoadsWhatItCompiled(c: Collaborators, dirs: TaskDirs, scope: ClassLoaderScope, scripts: seq<PreCompiledScript>, n: nat)
    requires n <= |scripts|
    ensures var p := BatchSpec(c, dirs, scope, scripts[..n]);
      LoadsFollowCompiles(dirs, scope, scripts, p.events) && CallsAreDerived(dirs, scope, scripts, p.events)
  {
    if n > 0 {
      BatchLoadsWhatItCompiled(c, dirs, scope, scripts, n - 1);
      assert scripts[..n][..n - 1] == scripts[..n - 1];
      var previous := BatchSpec(c, dirs, scope, scripts[..n - 1]);
      if previous.failure.None? {
        ScriptCallsWellFormed(c, dirs, scope, scripts, scripts[n - 1]);
        WellFormedAppend(dirs, scope, scripts, previous.events, ScriptSpec(c, dirs, scope, scripts[n - 1]).events);
      }
    }
  }

  /**
   * The task creates the batch scope below the core-and-plugins scope and locks
   * it before anything else, and every compile and load runs in that scope.
   */
  lemma ScopeLockedBeforeCompiling(c: Collaborators, dirs: TaskDirs, root: ClassLoaderScope, scope: ClassLoaderScope, scripts: seq<PreCompiledScript>)
    ensures var events := CompileScriptsSpec(c, dirs, root, scope, scripts).events;
      && events[0] == CreateChildScope(root, BatchScopeName)
      && events[1] == LockScope(scope)
      && (forall i :: 0 <= i < |events| && events[i].CompileToDir? ==> 1 < i && events[i].compile.loader == ExportClassLoader(scope))
      && (forall i :: 0 <= i < |events| && events[i].LoadFromDir? ==> 1 < i && events[i].load.scope == scope)
      && (forall i :: 1 < i < |events| ==> !events[i].LockScope? && !events[i].CreateChildScope?)
  {
    var batch := BatchSpec(c, dirs, scope, scripts);
    var events := CompileScriptsSpec(c, dirs, root, scope, scripts).events;
    BatchLoadsWhatItCompiled(c, dirs, scope, scripts, |scripts|);
    assert scripts[..|scripts|] == scripts;
    forall i | 1 < i < |events|
      ensures events[i] in batch.events
    {
      assert events[i] == batch.events[i - 2];
    }
  }

  /**
   * The adapter written for a script refers to a phase's class exactly when the
   * loaded phase does something at run time, and otherwise passes null.
   */
  lemma AdapterNamesOnlyPhasesThatRun(c: Collaborators, dirs: TaskDirs, scope: ClassLoaderScope, s: PreCompiledScript)
    ensures var p := ScriptSpec(c, dirs, scope, s);
      p.failure.None? ==>
        && p.events[|p.events| - 1].WriteAdapter?
        && p.events[|p.events| - 1].file == AdapterFile(dirs, s)
        && AdapterSource.ParseAdapter(AdapterSource.AdapterLines(p.events[|p.events| - 1].adapter)) == Some(AdapterSource.AdapterReading(
             s.targetClass, s.id, s.generatedPluginClassName,
             if c.load(LoadRequestFor(dirs, scope, s, PluginsBlock)).runDoesSomething then Some(s.pluginsBlockClassName) else None,
             if c.load(LoadRequestFor(dirs, scope, s, BuildScript)).runDoesSomething then Some(s.className) else None))
  {
    var p := ScriptSpec(c, dirs, scope, s);
    if p.failure.None? {
      var pb := PhaseSpec(c, dirs, scope, s, PluginsBlock);
      var bs := PhaseSpec(c, dirs, scope, s, BuildScript);
      AdapterSource.ParseAdapterRoundTrip(AdapterInputFor(s, pb.result.value, bs.result.value));
    }
  }

  /** Once a prefix of the batch has failed, the rest of the list changes nothing. */
  lemma {:induction false} BatchFailureIsFinal(c: Collaborators, dirs: TaskDirs, scope: ClassLoaderScope, scripts: seq<PreCompiledScript>, n: nat)
    requires n <= |scripts|
    requires BatchSpec(c, dirs, scope, scripts[..n]).failure.Some?
    ensures BatchSpec(c, dirs, scope, scripts) == BatchSpec(c, dirs, scope, scripts[..n])
    decreases |scripts|
  {
    if n < |scripts| {
      var init := scripts[..|scripts| - 1];
      assert init[..n] == scripts[..n];
      BatchFailureIsFinal(c, dirs, scope, init, n);
    } else {
      assert scripts[..n] == scripts;
    }
  }

  lemma BatchStep(c: Collaborators, dirs: TaskDirs, scope: ClassLoaderScope, scripts: seq<PreCompiledScript>, i: nat)
    requires i < |scripts|
    requires BatchSpec(c, dirs, scope, scripts[..i]).failure.None?
    ensures var previous := BatchSpec(c, dirs, scope, scripts[..i]);
            var last := ScriptSpec(c, dirs, scope, scripts[i]);
      BatchSpec(c, dirs, scope, scripts[..i + 1])
        == Progress(previous.events + last.events, previous.classesSpecAdded + last.classesSpecAdded, last.failure)
  {
    assert scripts[..i + 1][..i] == scripts[..i];
  }

  // ---------------------------------------------------------------------------
  // The task itself

  class PreCompileGroovyScriptsTask {
    const collaborators: Collaborators
    const coreAndPluginsScope: ClassLoaderScope
    const scriptPlugins: seq<PreCompiledScript>
    const dirs: TaskDirs
    var classesSpec: seq<Path>
    ghost var events: seq<Event>

    constructor(collaborators: Collaborators, coreAndPluginsScope: ClassLoaderScope,
                scriptPlugins: seq<PreCompiledScript>, buildDir: Path)
      ensures this.collaborators == collaborators
      ensures this.coreAndPluginsScope == coreAndPluginsScope && this.scriptPlugins == scriptPlugins
      ensures dirs == TaskDirsFor(buildDir)
      ensures classesSpec == [] && events == []
    {
      this.collaborators := collaborators;
      this.coreAndPluginsScope := coreAndPluginsScope;
      this.scriptPlugins := scriptPlugins;
      this.dirs := TaskDirsFor(buildDir);
      classesSpec := [];
      events := [];
    }

    /** The task action; an exception is returned as the failure. */
    method CompileScripts() returns (failure: Option<TaskError>, ghost scope: ClassLoaderScope)
      modifies this
      ensures fresh(scope) && scope.parent == coreAndPluginsScope && scope.name == BatchScopeName
      ensures scope.locked && scope.reuseNotifications == 0
      ensures var p := CompileScriptsSpec(collaborators, dirs, coreAndPluginsScope, scope, scriptPlugins);
        events == old(events) + p.events && classesSpec == old(classesSpec) + p.classesSpecAdded && failure == p.failure
    {
      var child := coreAndPluginsScope.CreateChild(BatchScopeName);
      events := events + [CreateChildScope(coreAndPluginsScope, BatchScopeName)];
      child.Lock();
      events := events + [LockScope(child)];
      scope := child;
      failure := CompileBatch(child);
    }

    /** The loop of the task action: every script in list order, until one throws. */
    method CompileBatch(scope: ClassLoaderScope) returns (failure: Option<TaskError>)
      modifies this
      ensures var p := BatchSpec(collaborators, dirs, scope, scriptPlugins);
        events == old(events) + p.events && classesSpec == old(classesSpec) + p.classesSpecAdded && failure == p.failure
    {
      failure := None;
      var i := 0;
      ghost var done := Progress([], [], None);
      assert scriptPlugins[..0] == [];
      while i < |scriptPlugins|
        invariant 0 <= i <= |scriptPlugins| && failure.None?
        invariant done == BatchSpec(collaborators, dirs, scope, scriptPlugins[..i]) && done.failure.None?
        invariant events == old(events) + done.events
        invariant classesSpec == old(classesSpec) + done.classesSpecAdded
      {
        ghost var script := ScriptSpec(collaborators, dirs, scope, scriptPlugins[i]);
        BatchStep(collaborators, dirs, scope, scriptPlugins, i);
        AppendAssociative(old(events), done.events, script.events);
        AppendAssociative(old(classesSpec), done.classesSpecAdded, script.classesSpecAdded);
        failure := CompileScript(scope, scriptPlugins[i]);
        done := Progress(done.events + script.events, done.classesSpecAdded + script.classesSpecAdded, script.failure);
        if failure.Some? {
          BatchFailureIsFinal(collaborators, dirs, scope, scriptPlugins, i + 1);
          assert done == BatchSpec(collaborators, dirs, scope, scriptPlugins);
          return;
        }
        i := i + 1;
      }
      assert scriptPlugins[..i] == scriptPlugins;
    }

    /** One iteration of the task's loop: both phases of a script, then its adapter. */
    method CompileScript(scope: ClassLoaderScope, s: PreCompiledScript) returns (failure: Option<TaskError>)
      modifies this
      ensures var p := ScriptSpec(collaborators, dirs, scope, s);
        events == old(events) + p.events && classesSpec == old(classesSpec) + p.classesSpecAdded && failure == p.failure
    {
      var pluginsBlock := CompilePhase(scope, s, PluginsBlock);
      if pluginsBlock.Failure? {
        return Some(pluginsBlock.error);
      }
      var buildScript := CompilePhase(scope, s, BuildScript);
      if buildScript.Failure? {
        return Some(buildScript.error);
      }
      failure := GenerateScriptPluginAdapter(s, pluginsBlock.value, buildScript.value);
    }

    /** Compiles one phase of a script into its directories, registers them, and loads it back. */
    method CompilePhase(scope: ClassLoaderScope, s: PreCompiledScript, phase: Phase) returns (r: Result<CompiledScript, TaskError>)
      modifies this
      ensures var o := PhaseSpec(collaborators, dirs, scope, s, phase);
        events == old(events) + o.events && classesSpec == old(classesSpec) + o.classesSpecAdded && r == o.result
    {
      var compile := CompileRequestFor(dirs, scope, s, phase);
      events := events + [CompileToDir(compile)];
      if !collaborators.compiles(compile) {
        return Failure(CompilationFailed(compile));
      }
      classesSpec := classesSpec + [compile.classesDir];
      var load := LoadRequestFor(dirs, scope, s, phase);
      events := events + [LoadFromDir(load)];
      r := Success(collaborators.load(load));
    }

    /** Writes the adapter source for a script; a write failure is returned as the exception. */
    method GenerateScriptPluginAdapter(s: PreCompiledScript, pluginsBlock: CompiledScript, buildScript: CompiledScript)
      returns (failure: Option<TaskError>)
      modifies this
      ensures var w := AdapterSpec(collaborators, dirs, s, pluginsBlock, buildScript);
        events == old(events) + w.events && classesSpec == old(classesSpec) && failure == w.failure
    {
      var file := AdapterFile(dirs, s);
      if !collaborators.canWrite(file) {
        return Some(UncheckedIOException(file));
      }
      var adapter := AdapterInputFor(s, pluginsBlock, buildScript);
      events := events + [WriteAdapter(file, adapter)];
      failure := None;
    }
  }
}
