# Precompiled Groovy script plugins, modelled in Dafny

This project models the core of Gradle's support for precompiled Groovy
script plugins (`*.gradle` files under `src/main/groovy` of a plugin project):

- **The precompile task** (`PreCompileGroovyScriptsTask`). It creates a
  class-loader scope named `pre-compiled-scripts` below the core-and-plugins
  scope and locks it. Then, for every script in list order, it compiles the
  script's `plugins {}` block and then its body. Each phase goes into
  `classes/<name>` and `metadata/<name>` directories, its classes directory is
  registered in the classes copy spec, and the phase is loaded back from the
  same directories. Finally the task writes a Java adapter plugin class whose
  `apply` method starts the runner.
- **The adapter source.** This is the fixed Java template the task writes. It
  has a reader that recovers everything the text determines, and a model of
  what the adapter's `apply` does when a target applies it.
- **The runner** (`PreCompiledScriptRunner`). It is constructed for a project,
  a settings object or a build. Its `run` locks the scope, then applies the
  plugins block's requests if the adapter passed a plugins-block class, then
  executes the script body if it passed a script class.

The compiler, the loader, the adapter file writer, class lookup and the
runner's factories and applicator are external collaborators. Their answers
are parameters: the `Collaborators` datatype and `forName`. The calls made on
the compiler, the loader and the runner's services are recorded in a ghost
event trace kept by the task and by the runner; a write of the adapter file
appears in the trace only when it succeeds, and a failed write shows as the
task's UncheckedIOException instead. The names an applied
adapter passes to `forName` are recorded in its outcome's `lookups`.
Each method is proved against a specification function (`BatchSpec`,
`RunSpec`, …). The lemmas then state the ordering, presence and derivation
properties of those functions.

Modules, one per file:
- `Wrappers`: Option and Result.
- `Scopes`: the class-loader scope as a class with a lock flag.
- `Layout`: the task's directory layout.
- `AdapterSource`: generator and reader of the adapter text.
- `PreCompileTask`: the task class, its specification and its lemmas.
- `PreCompiledRunner`: the runner class, the script source, the compiled-script
  wrapper, the run specification and its lemmas.
- `AdapterApply`: what a generated adapter does at apply time.

Three behaviours of the task action that the model keeps:
- **No caching.** Every phase is compiled unconditionally; nothing is checked
  against a content-hash cache.
- **An exception ends the task.** An exception in one script ends the whole
  task: the scripts after it are not compiled.
- **Direct write.** The adapter is written directly to its final file, with no
  temporary file.

## Model

| member | source | states |
|---|---|---|
| Layout.TaskDirsSeparate | subprojects/plugin-development/src/main/java/org/gradle/plugin/devel/internal/precompiled/PreCompileGroovyScriptsTask.java:84-88 | The four directories derived from the build directory are pairwise separate trees: neither is inside another. |
| Layout.FileDeterminesDirAndName | subprojects/plugin-development/src/main/java/org/gradle/plugin/devel/internal/precompiled/PreCompileGroovyScriptsTask.java:130-131 | `new File(dir, name)` is equal for two pairs exactly when both the directories and the names are equal. |
| Layout.EntriesOfSeparateDirs | subprojects/plugin-development/src/main/java/org/gradle/plugin/devel/internal/precompiled/PreCompileGroovyScriptsTask.java:146-147 | An entry of the classes directory is never an entry of the metadata directory, nor inside it. The same holds for any two separate directories of equal depth. |
| AdapterSource.ClassLookupRoundTrip | subprojects/plugin-development/src/main/java/org/gradle/plugin/devel/internal/precompiled/PreCompileGroovyScriptsTask.java:165-166 | The class expression reads back as a lookup of the phase's class name when the phase runs something, and as `null` otherwise. |
| AdapterSource.ClassLookupSound | subprojects/plugin-development/src/main/java/org/gradle/plugin/devel/internal/precompiled/PreCompileGroovyScriptsTask.java:165-166 | Any expression that reads as a lookup or as null is exactly the expression generated for it. |
| AdapterSource.ClassLookup | subprojects/plugin-development/src/main/java/org/gradle/plugin/devel/internal/precompiled/PreCompileGroovyScriptsTask.java:165-166 | The class-reference expression is Java's `null` exactly when the phase's loaded script runs nothing. |
| AdapterSource.AdapterLines | subprojects/plugin-development/src/main/java/org/gradle/plugin/devel/internal/precompiled/PreCompileGroovyScriptsTask.java:169-185 | The generator writes seventeen chunks, and each chunk is a whole line ending in a newline. |
| AdapterSource.ParseAdapterRoundTrip | subprojects/plugin-development/src/main/java/org/gradle/plugin/devel/internal/precompiled/PreCompileGroovyScriptsTask.java:169-185 | Reading the seventeen generated chunks recovers four things: the target class, the script id, the generated class name, and the two class references in `run` argument order. |
| AdapterSource.ParseAdapterSound | subprojects/plugin-development/src/main/java/org/gradle/plugin/devel/internal/precompiled/PreCompileGroovyScriptsTask.java:169-185 | Every text the reader accepts is exactly the generated adapter for what it read. This covers the import, the declaration implementing `Plugin<target>`, the `run` call and the RuntimeException wrapper. |
| AdapterSource.AdapterDeterminedByReading | subprojects/plugin-development/src/main/java/org/gradle/plugin/devel/internal/precompiled/PreCompileGroovyScriptsTask.java:162-185 | Two inputs yield the same adapter text if and only if they agree on the target class, the id, the class name, and the class referenced for each phase. |
| AdapterSource.AdapterTextStartsWithImport | subprojects/plugin-development/src/main/java/org/gradle/plugin/devel/internal/precompiled/PreCompileGroovyScriptsTask.java:169 | The file text begins with `import <targetClass>;`. |
| PreCompileTask.LoadReadsWhatCompileWrote | subprojects/plugin-development/src/main/java/org/gradle/plugin/devel/internal/precompiled/PreCompileGroovyScriptsTask.java:127-157 | A phase is loaded from the classes and metadata directories it was compiled into, named after its class name, with the same source, operation and base class. The load also passes the script's content hash and the batch scope. The verifier is do-nothing exactly for the plugins block. |
| PreCompileTask.PhaseContribution | subprojects/plugin-development/src/main/java/org/gradle/plugin/devel/internal/precompiled/PreCompileGroovyScriptsTask.java:127-157 | A phase always compiles, into `classesDir/<name>`. The compile succeeds exactly when the compiler accepts the request; then the directory is registered and the load of the same phase from its classes and metadata directories follows directly, and its result is the loaded script. On failure nothing is loaded or registered. |
| PreCompileTask.AdapterContribution | subprojects/plugin-development/src/main/java/org/gradle/plugin/devel/internal/precompiled/PreCompileGroovyScriptsTask.java:159-189 | Adapter generation registers no classes directory and compiles nothing. It writes `generatedClassesDir/<generatedPluginClassName>.java`. It fails exactly when that file cannot be written, and then with UncheckedIOException of that file and no write recorded. |
| PreCompileTask.AdapterFile | subprojects/plugin-development/src/main/java/org/gradle/plugin/devel/internal/precompiled/PreCompileGroovyScriptsTask.java:163 | The adapter source file is an entry directly inside the generated-sources directory, and its name ends in `.java`. |
| PreCompileTask.AdapterFilesDistinct | subprojects/plugin-development/src/main/java/org/gradle/plugin/devel/internal/precompiled/PreCompileGroovyScriptsTask.java:163 | Two scripts get the same adapter file if and only if they have the same generated plugin class name. |
| PreCompileTask.ScriptSpecContribution | subprojects/plugin-development/src/main/java/org/gradle/plugin/devel/internal/precompiled/PreCompileGroovyScriptsTask.java:114-117 | A script compiles its plugins block, then its body, then writes one adapter. On success it registers exactly the two classes directories in that order. After an exception it registers a prefix of them. |
| PreCompileTask.BatchClassesSpec | subprojects/plugin-development/src/main/java/org/gradle/plugin/devel/internal/precompiled/PreCompileGroovyScriptsTask.java:114-118 | After the loop the classes copy spec holds exactly two directories per script: plugins block first, scripts in list order, nothing else. These are the directories compiled into, in compile order. After an exception both lists are prefixes of that. |
| PreCompileTask.BatchWritesOneAdapterPerScript | subprojects/plugin-development/src/main/java/org/gradle/plugin/devel/internal/precompiled/PreCompileGroovyScriptsTask.java:114-118 | A successful batch writes exactly one adapter file per script, in list order. |
| PreCompileTask.BatchLoadsWhatItCompiled | subprojects/plugin-development/src/main/java/org/gradle/plugin/devel/internal/precompiled/PreCompileGroovyScriptsTask.java:127-157 | Every load in the batch immediately follows the compile of the same phase of the same script. Every compile and load belongs to a script of the list. |
| PreCompileTask.ScopeLockedBeforeCompiling | subprojects/plugin-development/src/main/java/org/gradle/plugin/devel/internal/precompiled/PreCompileGroovyScriptsTask.java:110-118 | The task first creates the `pre-compiled-scripts` child of the core-and-plugins scope, then locks it. Only then does any compile or load run, all through that scope, and no further scope is created or locked. |
| PreCompileTask.AdapterNamesOnlyPhasesThatRun | subprojects/plugin-development/src/main/java/org/gradle/plugin/devel/internal/precompiled/PreCompileGroovyScriptsTask.java:162-177 | A successful script ends by writing its adapter file. That adapter looks up a phase's class exactly when the loaded phase reports that it runs something, and passes null otherwise. |
| PreCompileTask.BatchFailureIsFinal | subprojects/plugin-development/src/main/java/org/gradle/plugin/devel/internal/precompiled/PreCompileGroovyScriptsTask.java:114-118 | Once a script throws, the scripts after it do nothing. |
| PreCompileTask.PreCompileGroovyScriptsTask.constructor | subprojects/plugin-development/src/main/java/org/gradle/plugin/devel/internal/precompiled/PreCompileGroovyScriptsTask.java:71-89 | The task keeps the collaborators, the core-and-plugins scope and the script list it is given. Its directories are derived from the build directory. The copy spec and the trace start empty. |
| PreCompileTask.PreCompileGroovyScriptsTask.CompileScripts | subprojects/plugin-development/src/main/java/org/gradle/plugin/devel/internal/precompiled/PreCompileGroovyScriptsTask.java:110-118 | The task action: it returns a new, locked child scope of the core-and-plugins scope named `pre-compiled-scripts`, with no reuse notifications. Its calls, copy-spec entries and exception are those of `CompileScriptsSpec`. |
| PreCompileTask.PreCompileGroovyScriptsTask.CompileBatch | subprojects/plugin-development/src/main/java/org/gradle/plugin/devel/internal/precompiled/PreCompileGroovyScriptsTask.java:114-118 | The loop appends exactly the calls and copy-spec entries of `BatchSpec` and returns its exception. |
| PreCompileTask.PreCompileGroovyScriptsTask.CompileScript | subprojects/plugin-development/src/main/java/org/gradle/plugin/devel/internal/precompiled/PreCompileGroovyScriptsTask.java:115-117 | One loop iteration appends exactly the calls and entries of `ScriptSpec`. |
| PreCompileTask.PreCompileGroovyScriptsTask.CompilePhase | subprojects/plugin-development/src/main/java/org/gradle/plugin/devel/internal/precompiled/PreCompileGroovyScriptsTask.java:127-157 | `compilePluginBlock` and `compileBuildScript` both append exactly the compile, the registration and the load of `PhaseSpec`. |
| PreCompileTask.PreCompileGroovyScriptsTask.GenerateScriptPluginAdapter | subprojects/plugin-development/src/main/java/org/gradle/plugin/devel/internal/precompiled/PreCompileGroovyScriptsTask.java:159-189 | It writes the adapter generated from the script's names and the two run-does-something flags to the adapter file, or fails with UncheckedIOException. The copy spec is unchanged. |
| AdapterApply.GeneratedAdapterSkipsIdlePhases | subprojects/plugin-development/src/main/java/org/gradle/plugin/devel/internal/precompiled/PreCompileGroovyScriptsTask.java:165-183 | The generated adapter passes to `forName` exactly the class names of the phases that run something, plugins block first, and stops at the first class not found. So a phase that runs nothing is neither looked up nor run. With neither phase running something, applying the adapter makes no lookup and only locks the runner's scope. |
| AdapterApply.ApplySpec | subprojects/plugin-development/src/main/java/org/gradle/plugin/devel/internal/precompiled/PreCompileGroovyScriptsTask.java:165-183 | `apply` looks up the non-null class references in argument order. A missing class ends it with no runner call, and the missing class is the last name looked up. Otherwise every reference is looked up and the runner's calls begin with the lock of its scope. |
| AdapterApply.GeneratedAdapterRunsBothPhases | subprojects/plugin-development/src/main/java/org/gradle/plugin/devel/internal/precompiled/PreCompileGroovyScriptsTask.java:176-183 | When both classes are found and castable, the adapter applies the plugins block's requests and then runs the body, with no exception. |
| AdapterApply.MissingClassIsWrapped | subprojects/plugin-development/src/main/java/org/gradle/plugin/devel/internal/precompiled/PreCompileGroovyScriptsTask.java:176-183 | A referenced class that cannot be found ends `apply` with a wrapped ClassNotFoundException naming it, before any runner call. The plugins block is looked up first; when its class is missing, the body's class is not looked up. |
| PreCompiledRunner.PrecompiledScriptSource.DisplayName | subprojects/plugin-development/src/main/java/org/gradle/plugin/devel/internal/precompiled/PreCompiledScriptRunner.java:151-169 | The display name equals the class name, which is the class's simple name. |
| PreCompiledRunner.PrecompiledScriptSource.FileName | subprojects/plugin-development/src/main/java/org/gradle/plugin/devel/internal/precompiled/PreCompiledScriptRunner.java:161-164 | The file name is the class name followed by `.class`. |
| PreCompiledRunner.PrecompiledScriptSource.Resource | subprojects/plugin-development/src/main/java/org/gradle/plugin/devel/internal/precompiled/PreCompiledScriptRunner.java:156-159 | The resource is an empty text named after the class name. |
| PreCompiledRunner.SourceIdentifiedBySimpleName | subprojects/plugin-development/src/main/java/org/gradle/plugin/devel/internal/precompiled/PreCompiledScriptRunner.java:151-154 | A script source's class name is its class's simple name: two sources agree on class name, display name, file name and resource if and only if their classes have the same simple name, whatever their packages. |
| PreCompiledRunner.MakeCompiledGroovyPlugin | subprojects/plugin-development/src/main/java/org/gradle/plugin/devel/internal/precompiled/PreCompiledScriptRunner.java:113-135 | The cast to the script base fails with ClassCastException exactly when the class does not extend the base. On success the compiled script loads that class, runs something, has no methods and has null data. |
| PreCompiledRunner.CompiledGroovyPlugin.OnReuse | subprojects/plugin-development/src/main/java/org/gradle/plugin/devel/internal/precompiled/PreCompiledScriptRunner.java:137-140 | Reuse is reported to the runner's scope: one more notification, lock state unchanged. |
| PreCompiledRunner.RunLocksFirst | subprojects/plugin-development/src/main/java/org/gradle/plugin/devel/internal/precompiled/PreCompiledScriptRunner.java:80-81 | A run locks the scope first, and never again after that. |
| PreCompiledRunner.PluginsAppliedIffPresent | subprojects/plugin-development/src/main/java/org/gradle/plugin/devel/internal/precompiled/PreCompiledScriptRunner.java:83-85 | Plugins are applied, and a plugins-aware script runner is created, if and only if a plugins-block class is given and it extends the plugins-aware script class. |
| PreCompiledRunner.ScriptExecutedIffPresent | subprojects/plugin-development/src/main/java/org/gradle/plugin/devel/internal/precompiled/PreCompiledScriptRunner.java:87-89 | The body runs if and only if three things hold: a script class is given, it extends the basic script class, and the plugins block did not fail its cast. A run ends without exception exactly when every given class has its base. |
| PreCompiledRunner.NothingToRunOnlyLocks | subprojects/plugin-development/src/main/java/org/gradle/plugin/devel/internal/precompiled/PreCompiledScriptRunner.java:80-90 | A run does nothing but lock the scope if and only if both classes are null. |
| PreCompiledRunner.PluginsAppliedBeforeBody | subprojects/plugin-development/src/main/java/org/gradle/plugin/devel/internal/precompiled/PreCompiledScriptRunner.java:83-106 | The applicator call comes before the body's script runner is created. The applicator receives the requests collected by the plugins block, run just before, along with a handler made for this scope, the runner's plugin manager and the scope. |
| PreCompiledRunner.PhasesShareTargetAndLoader | subprojects/plugin-development/src/main/java/org/gradle/plugin/devel/internal/precompiled/PreCompiledScriptRunner.java:92-107 | Both phases run against the runner's target and service registry, through the export loader of its scope, each from a source for its own class. |
| PreCompiledRunner.PreCompiledScriptRunner.ForProject | subprojects/plugin-development/src/main/java/org/gradle/plugin/devel/internal/precompiled/PreCompiledScriptRunner.java:54-56 | A project runner uses the project's services, its scope and its plugin manager. |
| PreCompiledRunner.PreCompiledScriptRunner.ForSettings | subprojects/plugin-development/src/main/java/org/gradle/plugin/devel/internal/precompiled/PreCompiledScriptRunner.java:59-61 | A settings runner uses the build's services (not the settings' own), the settings' scope, and no plugin manager. |
| PreCompiledRunner.PreCompiledScriptRunner.ForGradle | subprojects/plugin-development/src/main/java/org/gradle/plugin/devel/internal/precompiled/PreCompiledScriptRunner.java:64-66 | An init-script runner uses the build's services and a new, unlocked child of the build's scope named `init-plugin`, with no reuse notifications. It has no plugin manager. |
| PreCompiledRunner.PreCompiledScriptRunner.Run | subprojects/plugin-development/src/main/java/org/gradle/plugin/devel/internal/precompiled/PreCompiledScriptRunner.java:80-90 | After a run the scope is locked and its reuse notifications are unchanged. The run appends exactly the calls of `RunSpec` and returns its exception. |
| PreCompiledRunner.PreCompiledScriptRunner.ApplyPlugins | subprojects/plugin-development/src/main/java/org/gradle/plugin/devel/internal/precompiled/PreCompiledScriptRunner.java:92-100 | It appends exactly the calls of `ApplyPluginsSpec`: create runner, run, create handler, apply requests. |
| PreCompiledRunner.PreCompiledScriptRunner.ExecuteScript | subprojects/plugin-development/src/main/java/org/gradle/plugin/devel/internal/precompiled/PreCompiledScriptRunner.java:102-107 | It appends exactly the calls of `ExecuteScriptSpec`: create runner, run. |

## Left out

- **Copying the compiled output.** The final `getProject().copy(...)` step of the task action (PreCompileGroovyScriptsTask.java:120-124) belongs to the file system. The model keeps the copy spec's registered classes directories, but not the copy itself.
- **Service lookups.** The lookups in the runner's private constructor (PreCompiledScriptRunner.java:72-74) are external services and are not modelled. The script runner factory, the script handler factory and the plugin request applicator appear only as trace events.
- **Target getters.** The getters on the targets (`getServices`, `getClassLoaderScope`, `getPluginManager`, `getGradle`) are fields of the target datatypes.
- **Failures inside the collaborators.**
  - A loader failure in `loadFromDir` is not modelled.
  - An exception thrown by a script body or by the applicator is not modelled.
  - The only runner failure modelled is the ClassCastException of the cast to the script base.
  - A compile failure ends the task. A write failure is one all-or-nothing decision of the writer, so a partly written adapter file is not represented.
- **Compilation and class loading.** What the compiler generates and what `Class.forName` does are parameters: `Collaborators.compiles`, `Collaborators.load` and `forName`. A class's simple name and its base classes are given data, not derived.
- **The written text in the trace.** A write event records the generator's input. The text written is `AdapterSource.AdapterLines` of that input, and `AdapterSource` states its properties.
- **Path segments.** A file name is one non-empty path segment. A class name containing a separator is not split. The model treats an empty name as an entry of its own, while `new File(dir, "")` resolves to `dir` itself; so `FileDeterminesDirAndName` matches the Java behaviour only for non-empty names.
- **Collecting plugin requests.** The requests a plugins block collects are a fixed field of the loaded class (`ScriptClass.pluginRequests`). The source reads them from the script instance after running it (PreCompiledScriptRunner.java:96-99). So the model does not capture that running the block is what fills them: that the applicator receives what the block collected holds by construction.
- **Single use.** Nothing prevents calling `Run` twice on the same runner, and the source does not prevent it either. `RunLocksFirst` speaks of one run.
- **Task wiring.** Gradle annotations, property and provider wiring, injection and the up-to-date checks of the task are configuration and are not modelled.
