/**
 * The runtime side of a precompiled script plugin: the runner that the
 * generated adapter creates for its target and calls with the two loaded
 * classes. It locks its class-loader scope, then (when given one) runs the
 * plugins-block class and hands the plugin requests it collected to the
 * plugin request applicator, then (when given one) runs the script body.
 *
 * The script runner factory, the script handler factory and the applicator
 * are external services; each call the runner makes on them is recorded as a
 * `RunEvent`. Running a script class is represented by the requests its
 * plugins block collects (`pluginRequests`).
 */
module PreCompiledRunner {
  import opened Wrappers
  import opened Scopes

  /** The script base classes the runner casts the loaded classes to. */
  datatype ScriptBase = PluginsAwareScript | BasicScript

  datatype PluginRequest = PluginRequest(id: string)

  /**
   * A loaded script class: its name, its simple name, the script base classes
   * it extends, and the plugin requests its `plugins {}` block collects when run.
   */
  datatype ScriptClass = ScriptClass(
    name: string,
    simpleName: string,
    bases: set<ScriptBase>,
    pluginRequests: seq<PluginRequest>)

  datatype TextResource = StringTextResource(name: string, text: string)

  /** A script source standing for a class that is already compiled. */
  datatype PrecompiledScriptSource = PrecompiledScriptSource(scriptClass: ScriptClass) {
    function ClassName(): string {
      scriptClass.simpleName
    }

    /** The display name is the class name. */
    function DisplayName(): (r: string)
      ensures r == ClassName()
    {
      scriptClass.simpleName
    }

    /** The class name followed by the ".class" extension. */
    function FileName(): (r: string)
      ensures |r| == |ClassName()| + 6
      ensures r[..|ClassName()|] == ClassName() && r[|ClassName()|..] == ".class"
    {
      scriptClass.simpleName + ".class"
    }

    /** An empty text named after the class. */
    function Resource(): (r: TextResource)
      ensures r.name == ClassName() && |r.text| == 0
    {
      StringTextResource(scriptClass.simpleName, "")
    }
  }

  /**
   * A script source is identified by its class's simple name alone: two
   * sources agree on class name, display name, file name and resource exactly
   * when their classes have the same simple name, whatever their packages.
   */
  lemma SourceIdentifiedBySimpleName(c: ScriptClass, d: ScriptClass)
    ensures var x, y := PrecompiledScriptSource(c), PrecompiledScriptSource(d);
      && (x.ClassName() == y.ClassName() <==> c.simpleName == d.simpleName)
      && (x.DisplayName() == y.DisplayName() <==> c.simpleName == d.simpleName)
      && (x.FileName() == y.FileName() <==> c.simpleName == d.simpleName)
      && (x.Resource() == y.Resource() <==> c.simpleName == d.simpleName)
  {
    var x, y := PrecompiledScriptSource(c), PrecompiledScriptSource(d);
    if x.FileName() == y.FileName() {
      assert c.simpleName == x.FileName()[..|c.simpleName|];
    }
  }

  datatype RunError = ClassCastException(className: string, base: ScriptBase)

  /**
   * A loaded class presented as a compiled script of the given base class,
   * remembering the runner's scope for reuse notifications.
   */
  datatype CompiledGroovyPlugin = CompiledGroovyPlugin(compiledClass: ScriptClass, base: ScriptBase, scope: ClassLoaderScope) {
    function RunDoesSomething(): bool { true }
    function HasMethods(): bool { false }
    function LoadClass(): ScriptClass { compiledClass }
    function Data(): Option<ScriptClass> { None }

    /** Reuse of the compiled script is reported to the runner's scope. */
    method OnReuse()
      modifies scope
      ensures scope.reuseNotifications == old(scope.reuseNotifications) + 1
      ensures scope.locked == old(scope.locked)
    {
      scope.OnReuse();
    }
  }

  /**
   * The cast of the loaded class to the script base: it fails exactly when the
   * class does not extend the base; a successful one always reports that it
   * runs something, has no methods and carries no data.
   */
  function MakeCompiledGroovyPlugin(c: ScriptClass, base: ScriptBase, scope: ClassLoaderScope): (r: Result<CompiledGroovyPlugin, RunError>)
    ensures r.Success? <==> base in c.bases
    ensures r.Failure? ==> r.error == ClassCastException(c.name, base)
    ensures r.Success? ==>
      && r.value.LoadClass() == c && r.value.base in r.value.LoadClass().bases && r.value.scope == scope
      && r.value.RunDoesSomething() && !r.value.HasMethods() && r.value.Data() == None
  {
    if base in c.bases then Success(CompiledGroovyPlugin(c, base, scope))
    else Failure(ClassCastException(c.name, base))
  }

  // ---------------------------------------------------------------------------
  // Targets and the services the runner takes from them

  datatype ServiceRegistry = ServiceRegistry(id: nat)
  datatype PluginManager = PluginManager(id: nat)

  datatype Gradle = Gradle(services: ServiceRegistry, scope: ClassLoaderScope)
  datatype Settings = Settings(services: ServiceRegistry, gradle: Gradle, scope: ClassLoaderScope)
  datatype Project = Project(services: ServiceRegistry, scope: ClassLoaderScope, pluginManager: PluginManager)

  datatype Target = ProjectTarget(project: Project) | SettingsTarget(settings: Settings) | GradleTarget(gradle: Gradle)

  const InitPluginScopeName := "init-plugin"

  /** The script handler the handler factory creates for a source and a scope. */
  datatype ScriptHandler = ScriptHandler(source: PrecompiledScriptSource, scope: ClassLoaderScope)

  /** The calls the runner makes, in order. */
  datatype RunEvent =
    | LockScope(scope: ClassLoaderScope)
    | CreateScriptRunner(compiled: CompiledGroovyPlugin, source: PrecompiledScriptSource, loader: ExportClassLoader)
    | RunScript(script: ScriptClass, target: Target, services: ServiceRegistry)
    | CreateScriptHandler(source: PrecompiledScriptSource, handlerScope: ClassLoaderScope)
    | ApplyPluginRequests(requests: seq<PluginRequest>, handler: ScriptHandler, pluginManager: Option<PluginManager>, applyScope: ClassLoaderScope)

  /** What a runner was constructed with. */
  datatype RunContext = RunContext(
    target: Target,
    services: ServiceRegistry,
    scope: ClassLoaderScope,
    pluginManager: Option<PluginManager>)

  /** The calls of a run and the exception that ended it, if any. */
  datatype RunTrace = RunTrace(events: seq<RunEvent>, error: Option<RunError>)

  // ---------------------------------------------------------------------------
  // What a run does

  /**
   * Run the plugins block against the target, create a script handler for it,
   * and apply the requests the block collected.
   */
  function ApplyPluginsSpec(ctx: RunContext, c: ScriptClass): RunTrace {
    var source := PrecompiledScriptSource(c);
    match MakeCompiledGroovyPlugin(c, PluginsAwareScript, ctx.scope)
    case Failure(e) => RunTrace([], Some(e))
    case Success(compiled) =>
      RunTrace([CreateScriptRunner(compiled, source, ExportClassLoader(ctx.scope)),
                RunScript(compiled.LoadClass(), ctx.target, ctx.services),
                CreateScriptHandler(source, ctx.scope),
                ApplyPluginRequests(c.pluginRequests, ScriptHandler(source, ctx.scope), ctx.pluginManager, ctx.scope)], None)
  }

  /** Run the script body against the target. */
  function ExecuteScriptSpec(ctx: RunContext, c: ScriptClass): RunTrace {
    var source := PrecompiledScriptSource(c);
    match MakeCompiledGroovyPlugin(c, BasicScript, ctx.scope)
    case Failure(e) => RunTrace([], Some(e))
    case Success(compiled) =>
      RunTrace([CreateScriptRunner(compiled, source, ExportClassLoader(ctx.scope)),
                RunScript(compiled.LoadClass(), ctx.target, ctx.services)], None)
  }

  /** Lock, then the plugins block if there is one, then the body if there is one. */
  function RunSpec(ctx: RunContext, pluginsBlockClass: Option<ScriptClass>, precompiledScriptClass: Option<ScriptClass>): RunTrace {
    var lock := [LockScope(ctx.scope)];
    var applied := if pluginsBlockClass.Some? then ApplyPluginsSpec(ctx, pluginsBlockClass.value) else RunTrace([], None);
    if applied.error.Some? then RunTrace(lock + applied.events, applied.error)
    else
      var executed := if precompiledScriptClass.Some? then ExecuteScriptSpec(ctx, precompiledScriptClass.value) else RunTrace([], None);
      RunTrace(lock + applied.events + executed.events, executed.error)
  }

  /** The script-runner creations of a trace for the given base class. */
  predicate RunsAs(events: seq<RunEvent>, base: ScriptBase) {
    exists i :: 0 <= i < |events| && events[i].CreateScriptRunner? && events[i].compiled.base == base
  }

  predicate AppliesPlugins(events: seq<RunEvent>) {
    exists i :: 0 <= i < |events| && events[i].ApplyPluginRequests?
  }

  // ---------------------------------------------------------------------------
  // Properties of a run

  /** The scope is locked first, and only then. */
  lemma RunLocksFirst(ctx: RunContext, pb: Option<ScriptClass>, ps: Option<ScriptClass>)
    ensures var events := RunSpec(ctx, pb, ps).events;
      && |events| > 0 && events[0] == LockScope(ctx.scope)
      && forall i :: 0 < i < |events| ==> !events[i].LockScope?
  {
  }

  /**
   * Plugins are applied exactly when a plugins-block class is given and it
   * extends the plugins-aware script class.
   */
  lemma {:induction false} PluginsAppliedIffPresent(ctx: RunContext, pb: Option<ScriptClass>, ps: Option<ScriptClass>)
    ensures AppliesPlugins(RunSpec(ctx, pb, ps).events) <==> pb.Some? && PluginsAwareScript in pb.value.bases
    ensures RunsAs(RunSpec(ctx, pb, ps).events, PluginsAwareScript) <==> pb.Some? && PluginsAwareScript in pb.value.bases
  {
    var t := RunSpec(ctx, pb, ps);
    var applied := if pb.Some? then ApplyPluginsSpec(ctx, pb.value) else RunTrace([], None);
    var executed := if ps.Some? && applied.error.None? then ExecuteScriptSpec(ctx, ps.value) else RunTrace([], None);
    assert t.events == [LockScope(ctx.scope)] + applied.events + executed.events;
    if pb.Some? && PluginsAwareScript in pb.value.bases {
      assert t.events[4].ApplyPluginRequests?;
      assert t.events[1].CreateScriptRunner? && t.events[1].compiled.base == PluginsAwareScript;
    } else {
      assert applied.events == [];
      forall i | 0 <= i < |t.events|
        ensures !t.events[i].ApplyPluginRequests?
        ensures t.events[i].CreateScriptRunner? ==> t.events[i].compiled.base == BasicScript
      {
        if 0 < i {
          assert t.events[i] == executed.events[i - 1];
        }
      }
    }
  }

  /**
   * The body is executed exactly when a script class is given, it extends the
   * basic script class, and the plugins block (if any) did not fail its cast.
   */
  lemma {:induction false} ScriptExecutedIffPresent(ctx: RunContext, pb: Option<ScriptClass>, ps: Option<ScriptClass>)
    ensures RunsAs(RunSpec(ctx, pb, ps).events, BasicScript)
        <==> && ps.Some? && BasicScript in ps.value.bases
             && (pb.Some? ==> PluginsAwareScript in pb.value.bases)
    ensures RunSpec(ctx, pb, ps).error.None?
        <==> && (ps.Some? ==> BasicScript in ps.value.bases)
             && (pb.Some? ==> PluginsAwareScript in pb.value.bases)
  {
    var t := RunSpec(ctx, pb, ps);
    var applied := if pb.Some? then ApplyPluginsSpec(ctx, pb.value) else RunTrace([], None);
    var executed := if ps.Some? && applied.error.None? then ExecuteScriptSpec(ctx, ps.value) else RunTrace([], None);
    assert t.events == [LockScope(ctx.scope)] + applied.events + executed.events;
    if executed.events != [] {
      assert t.events[1 + |applied.events|] == executed.events[0];
    } else {
      forall i | 0 <= i < |t.events| && t.events[i].CreateScriptRunner?
        ensures t.events[i].compiled.base == PluginsAwareScript
      {
        assert 0 < i < 1 + |applied.events|;
        assert t.events[i] == applied.events[i - 1];
      }
    }
  }

  /** Without classes a run only locks the scope. */
  lemma {:induction false} NothingToRunOnlyLocks(ctx: RunContext, pb: Option<ScriptClass>, ps: Option<ScriptClass>)
    ensures pb.None? && ps.None? <==> RunSpec(ctx, pb, ps) == RunTrace([LockScope(ctx.scope)], None)
  {
    if pb.Some? || ps.Some? {
      var t := RunSpec(ctx, pb, ps);
      if t.error.None? {
        ScriptExecutedIffPresent(ctx, pb, ps);
        PluginsAppliedIffPresent(ctx, pb, ps);
        if pb.Some? {
          assert AppliesPlugins(t.events);
        } else {
          assert RunsAs(t.events, BasicScript);
        }
      }
    }
  }

  /**
   * Plugin application, including the applicator call, completes before the
   * runner for the body is created; and the applicator receives exactly the
   * requests collected by running the plugins block just before, with a
   * handler for this scope, the runner's plugin manager and the scope.
   */
  lemma {:induction false} PluginsAppliedBeforeBody(ctx: RunContext, pb: Option<ScriptClass>, ps: Option<ScriptClass>)
    ensures var events := RunSpec(ctx, pb, ps).events;
      forall i, j ::
        && 0 <= i < |events| && 0 <= j < |events| && events[i].ApplyPluginRequests?
        && events[j].CreateScriptRunner? && events[j].compiled.base == BasicScript
        ==> i < j
    ensures var events := RunSpec(ctx, pb, ps).events;
      forall i :: 0 <= i < |events| && events[i].ApplyPluginRequests? ==>
        && pb.Some? && 3 <= i
        && events[i - 2] == RunScript(pb.value, ctx.target, ctx.services)
        && events[i - 1] == CreateScriptHandler(PrecompiledScriptSource(pb.value), ctx.scope)
        && events[i] == ApplyPluginRequests(pb.value.pluginRequests, ScriptHandler(PrecompiledScriptSource(pb.value), ctx.scope),
                                     ctx.pluginManager, ctx.scope)
  {
    var t := RunSpec(ctx, pb, ps);
    var applied := if pb.Some? then ApplyPluginsSpec(ctx, pb.value) else RunTrace([], None);
    var executed := if ps.Some? && applied.error.None? then ExecuteScriptSpec(ctx, ps.value) else RunTrace([], None);
    assert t.events == [LockScope(ctx.scope)] + applied.events + executed.events;
    forall i | 0 <= i < |t.events|
      ensures t.events[i].ApplyPluginRequests? ==> i == 4 && applied.events != []
      ensures t.events[i].CreateScriptRunner? && t.events[i].compiled.base == BasicScript ==> i > |applied.events|
    {
      if 0 < i <= |applied.events| {
        assert t.events[i] == applied.events[i - 1];
      } else if i > |applied.events| {
        assert t.events[i] == executed.events[i - 1 - |applied.events|];
      }
    }
  }

  /**
   * Both phases run against the runner's target and service registry, through
   * the export class loader of the runner's scope, and only the plugins block
   * is run as a plugins-aware script.
   */
  lemma {:induction false} PhasesShareTargetAndLoader(ctx: RunContext, pb: Option<ScriptClass>, ps: Option<ScriptClass>)
    ensures var events := RunSpec(ctx, pb, ps).events;
      && (forall i :: 0 <= i < |events| && events[i].RunScript? ==>
            events[i].target == ctx.target && events[i].services == ctx.services)
      && (forall i :: 0 <= i < |events| && events[i].CreateScriptRunner? ==>
            && events[i].loader == ExportClassLoader(ctx.scope)
            && events[i].compiled.scope == ctx.scope
            && events[i].source == PrecompiledScriptSource(events[i].compiled.compiledClass)
            && (events[i].compiled.base == PluginsAwareScript ==> pb.Some? && events[i].compiled.compiledClass == pb.value)
            && (events[i].compiled.base == BasicScript ==> ps.Some? && events[i].compiled.compiledClass == ps.value))
  {
    var t := RunSpec(ctx, pb, ps);
    var applied := if pb.Some? then ApplyPluginsSpec(ctx, pb.value) else RunTrace([], None);
    var executed := if ps.Some? && applied.error.None? then ExecuteScriptSpec(ctx, ps.value) else RunTrace([], None);
    assert t.events == [LockScope(ctx.scope)] + applied.events + executed.events;
    forall i | 0 < i < |t.events|
      ensures t.events[i] in applied.events || t.events[i] in executed.events
    {
      if i <= |applied.events| {
        assert t.events[i] == applied.events[i - 1];
      } else {
        assert t.events[i] == executed.events[i - 1 - |applied.events|];
      }
    }
  }

  // ---------------------------------------------------------------------------
  // The runner

  class PreCompiledScriptRunner {
    const target: Target
    const serviceRegistry: ServiceRegistry
    const classLoaderScope: ClassLoaderScope
    const pluginManager: Option<PluginManager>
    ghost var events: seq<RunEvent>

    /** A project runs in its own scope, with its own services and plugin manager. */
    constructor ForProject(project: Project)
      ensures target == ProjectTarget(project) && serviceRegistry == project.services
      ensures classLoaderScope == project.scope && pluginManager == Some(project.pluginManager)
      ensures events == []
    {
      target := ProjectTarget(project);
      serviceRegistry := project.services;
      classLoaderScope := project.scope;
      pluginManager := Some(project.pluginManager);
      events := [];
    }

    /** Settings run in their own scope with the build's services and no plugin manager. */
    constructor ForSettings(settings: Settings)
      ensures target == SettingsTarget(settings) && serviceRegistry == settings.gradle.services
      ensures classLoaderScope == settings.scope && pluginManager == None
      ensures events == []
    {
      target := SettingsTarget(settings);
      serviceRegistry := settings.gradle.services;
      classLoaderScope := settings.scope;
      pluginManager := None;
      events := [];
    }

    /** An init script runs in a new child scope of the build's scope, with no plugin manager. */
    constructor ForGradle(gradle: Gradle)
      ensures target == GradleTarget(gradle) && serviceRegistry == gradle.services
      ensures fresh(classLoaderScope) && classLoaderScope.parent == gradle.scope
      ensures classLoaderScope.name == InitPluginScopeName
      ensures !classLoaderScope.locked && classLoaderScope.reuseNotifications == 0
      ensures pluginManager == None
      ensures events == []
    {
      var child := gradle.scope.CreateChild(InitPluginScopeName);
      target := GradleTarget(gradle);
      serviceRegistry := gradle.services;
      classLoaderScope := child;
      pluginManager := None;
      events := [];
    }

    function Context(): RunContext {
      RunContext(target, serviceRegistry, classLoaderScope, pluginManager)
    }

    /** Locks the scope, then applies the plugins block and runs the body, each when present. */
    method Run(pluginsBlockClass: Option<ScriptClass>, precompiledScriptClass: Option<ScriptClass>) returns (error: Option<RunError>)
      modifies this, classLoaderScope
      ensures classLoaderScope.locked && classLoaderScope.reuseNotifications == old(classLoaderScope.reuseNotifications)
      ensures var t := RunSpec(Context(), pluginsBlockClass, precompiledScriptClass);
        events == old(events) + t.events && error == t.error
    {
      classLoaderScope.Lock();
      events := events + [LockScope(classLoaderScope)];
      error := None;
      if pluginsBlockClass.Some? {
        error := ApplyPlugins(pluginsBlockClass.value);
        if error.Some? {
          return;
        }
      }
      if precompiledScriptClass.Some? {
        error := ExecuteScript(precompiledScriptClass.value);
      }
    }

    method ApplyPlugins(pluginsBlockClass: ScriptClass) returns (error: Option<RunError>)
      modifies this
      ensures var t := ApplyPluginsSpec(Context(), pluginsBlockClass);
        events == old(events) + t.events && error == t.error
    {
      var scriptSource := PrecompiledScriptSource(pluginsBlockClass);
      var compiledPlugins := MakeCompiledGroovyPlugin(pluginsBlockClass, PluginsAwareScript, classLoaderScope);
      if compiledPlugins.Failure? {
        return Some(compiledPlugins.error);
      }
      events := events + [CreateScriptRunner(compiledPlugins.value, scriptSource, ExportClassLoader(classLoaderScope))];
      events := events + [RunScript(compiledPlugins.value.LoadClass(), target, serviceRegistry)];
      var scriptHandler := ScriptHandler(scriptSource, classLoaderScope);
      events := events + [CreateScriptHandler(scriptSource, classLoaderScope)];
      events := events + [ApplyPluginRequests(pluginsBlockClass.pluginRequests, scriptHandler, pluginManager, classLoaderScope)];
      error := None;
    }

    method ExecuteScript(precompiledScriptClass: ScriptClass) returns (error: Option<RunError>)
      modifies this
      ensures var t := ExecuteScriptSpec(Context(), precompiledScriptClass);
        events == old(events) + t.events && error == t.error
    {
      var scriptSource := PrecompiledScriptSource(precompiledScriptClass);
      var compiledScript := MakeCompiledGroovyPlugin(precompiledScriptClass, BasicScript, classLoaderScope);
      if compiledScript.Failure? {
        return Some(compiledScript.error);
      }
      events := events + [CreateScriptRunner(compiledScript.value, scriptSource, ExportClassLoader(classLoaderScope))];
      events := events + [RunScript(compiledScript.value.LoadClass(), target, serviceRegistry)];
      error := None;
    }
  }
}
