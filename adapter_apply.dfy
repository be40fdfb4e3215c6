/**
 * What a generated adapter does when a project, settings or build applies it:
 * it looks up the classes its text names (plugins block first), creates a
 * runner for the target and calls `run` with the two classes in that order;
 * any exception comes out wrapped in a RuntimeException. The class lookup is a
 * parameter (`forName`); the runner is the one of the PreCompiledRunner module.
 */
module AdapterApply {
  import opened Wrappers
  import opened Scopes
  import opened AdapterSource
  import opened PreCompiledRunner

  /** The cause carried by the RuntimeException the adapter throws. */
  datatype Cause = ClassNotFoundException(name: string) | ScriptFailure(error: RunError)

  /**
   * The names passed to `forName`, in order, the runner's calls and, if it was
   * thrown, the RuntimeException's cause.
   */
  datatype ApplyOutcome = ApplyOutcome(lookups: seq<string>, events: seq<RunEvent>, exception: Option<Cause>)

  /** The name a class-reference expression passes to `forName`: none for null. */
  function LookedUp(name: Option<string>): seq<string> {
    if name.Some? then [name.value] else []
  }

  predicate ClassNotFound(o: ApplyOutcome) {
    o.exception.Some? && o.exception.value.ClassNotFoundException?
  }

  /** The value of one class-reference expression: null, or the class found under the name. */
  function Lookup(name: Option<string>, forName: string -> Option<ScriptClass>): Result<Option<ScriptClass>, Cause> {
    match name
    case None => Success(None)
    case Some(n) =>
      match forName(n)
      case None => Failure(ClassNotFoundException(n))
      case Some(c) => Success(Some(c))
  }

  /**
   * The body of `apply` for a reading of the adapter text. The classes are
   * looked up in argument order and only for the expressions that are not
   * null; a missing class ends `apply` before any runner exists. Otherwise the
   * runner is created and its calls begin with the lock of its scope.
   */
  function ApplySpec(r: AdapterReading, forName: string -> Option<ScriptClass>, ctx: RunContext): (o: ApplyOutcome)
    ensures o.lookups <= LookedUp(r.pluginsBlockClass) + LookedUp(r.precompiledScriptClass)
    ensures ClassNotFound(o) ==>
      && o.events == [] && |o.lookups| > 0
      && o.lookups[|o.lookups| - 1] == o.exception.value.name && forName(o.exception.value.name).None?
    ensures !ClassNotFound(o) ==>
      && o.lookups == LookedUp(r.pluginsBlockClass) + LookedUp(r.precompiledScriptClass)
      && |o.events| > 0 && o.events[0] == LockScope(ctx.scope)
  {
    var pluginsLookups := LookedUp(r.pluginsBlockClass);
    match Lookup(r.pluginsBlockClass, forName)
    case Failure(e) => ApplyOutcome(pluginsLookups, [], Some(e))
    case Success(pluginsBlockClass) =>
      var lookups := pluginsLookups + LookedUp(r.precompiledScriptClass);
      match Lookup(r.precompiledScriptClass, forName)
      case Failure(e) => ApplyOutcome(lookups, [], Some(e))
      case Success(precompiledScriptClass) =>
        var run := RunSpec(ctx, pluginsBlockClass, precompiledScriptClass);
        ApplyOutcome(lookups, run.events, if run.error.Some? then Some(ScriptFailure(run.error.value)) else None)
  }

  /** Applying an adapter text: None when the text is not an adapter at all. */
  function ApplyAdapter(lines: seq<string>, forName: string -> Option<ScriptClass>, ctx: RunContext): Option<ApplyOutcome> {
    var r :- ParseAdapter(lines);
    Some(ApplySpec(r, forName, ctx))
  }

  /**
   * A phase whose loaded script does nothing is never looked up nor run: the
   * adapter passes to `forName` exactly the class names of the phases that do
   * something, plugins block first, stopping at the first missing class; with
   * neither phase doing something the adapter only locks the runner's scope;
   * without the plugins block no plugins are applied; without the build
   * script no body is run.
   */
  lemma {:induction false} GeneratedAdapterSkipsIdlePhases(a: AdapterInput, forName: string -> Option<ScriptClass>, ctx: RunContext)
    ensures ApplyAdapter(AdapterLines(a), forName, ctx).Some?
    ensures var o := ApplyAdapter(AdapterLines(a), forName, ctx).value;
      && (!a.pluginsBlockRunsSomething && !a.buildScriptRunsSomething ==> o == ApplyOutcome([], [LockScope(ctx.scope)], None))
      && (!a.pluginsBlockRunsSomething ==> !AppliesPlugins(o.events))
      && (!a.buildScriptRunsSomething ==> !RunsAs(o.events, BasicScript))
    ensures var o := ApplyAdapter(AdapterLines(a), forName, ctx).value;
      o.lookups
        == (if a.pluginsBlockRunsSomething then [a.pluginsBlockClassName] else [])
         + (if a.buildScriptRunsSomething && (a.pluginsBlockRunsSomething ==> forName(a.pluginsBlockClassName).Some?)
            then [a.className] else [])
  {
    ParseAdapterRoundTrip(a);
    var r := Reading(a);
    match Lookup(r.pluginsBlockClass, forName)
    case Failure(e) =>
    case Success(pb) =>
      match Lookup(r.precompiledScriptClass, forName)
      case Failure(e) =>
      case Success(ps) =>
        PluginsAppliedIffPresent(ctx, pb, ps);
        ScriptExecutedIffPresent(ctx, pb, ps);
        NothingToRunOnlyLocks(ctx, pb, ps);
  }

  /**
   * When both phases do something and their classes are found and have the
   * right base classes, the adapter applies exactly the plugins block's
   * requests and then runs the build script's class, without an exception.
   */
  lemma {:induction false} GeneratedAdapterRunsBothPhases(a: AdapterInput, forName: string -> Option<ScriptClass>, ctx: RunContext,
                                                          pb: ScriptClass, ps: ScriptClass)
    requires a.pluginsBlockRunsSomething && a.buildScriptRunsSomething
    requires forName(a.pluginsBlockClassName) == Some(pb) && PluginsAwareScript in pb.bases
    requires forName(a.className) == Some(ps) && BasicScript in ps.bases
    ensures var o := ApplyAdapter(AdapterLines(a), forName, ctx);
      && o.Some? && o.value.exception.None?
      && AppliesPlugins(o.value.events) && RunsAs(o.value.events, BasicScript)
    ensures var o := ApplyAdapter(AdapterLines(a), forName, ctx).value;
      |o.events| == 7
    ensures var o := ApplyAdapter(AdapterLines(a), forName, ctx);
      && o.value.events[4] == ApplyPluginRequests(pb.pluginRequests, ScriptHandler(PrecompiledScriptSource(pb), ctx.scope),
                                                  ctx.pluginManager, ctx.scope)
      && o.value.events[6] == RunScript(ps, ctx.target, ctx.services)
  {
    ParseAdapterRoundTrip(a);
    PluginsAppliedIffPresent(ctx, Some(pb), Some(ps));
    ScriptExecutedIffPresent(ctx, Some(pb), Some(ps));
  }

  /**
   * A phase that does something but whose class cannot be found ends the
   * apply with a wrapped ClassNotFoundException naming that class, before any
   * runner exists; the plugins block is looked up first, and a missing
   * plugins-block class stops `apply` before the body's class is looked up.
   */
  lemma {:induction false} MissingClassIsWrapped(a: AdapterInput, forName: string -> Option<ScriptClass>, ctx: RunContext)
    ensures ApplyAdapter(AdapterLines(a), forName, ctx).Some?
    ensures var o := ApplyAdapter(AdapterLines(a), forName, ctx).value;
      && (a.pluginsBlockRunsSomething && forName(a.pluginsBlockClassName).None? ==>
            o == ApplyOutcome([a.pluginsBlockClassName], [], Some(ClassNotFoundException(a.pluginsBlockClassName))))
      && (a.buildScriptRunsSomething && forName(a.className).None?
          && (a.pluginsBlockRunsSomething ==> forName(a.pluginsBlockClassName).Some?) ==>
            o.events == [] && o.exception == Some(ClassNotFoundException(a.className)))
  {
    ParseAdapterRoundTrip(a);
  }
}
