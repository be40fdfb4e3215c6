/**
 * The Java source of the adapter plugin generated for each precompiled script.
 * The text is a fixed template of seventeen written chunks (each ending in a
 * newline) whose variable parts are the script's names and the two
 * "run does something" flags of its compiled phases. A reader for the template
 * recovers exactly what the text determines: the names that appear in it and
 * the two class references passed to the runner.
 */
module AdapterSource {
  import opened Wrappers

  const RunnerClassName := "org.gradle.plugin.devel.internal.precompiled.PreCompiledScriptRunner"
  const LookupPrefix := "Class.forName(\""
  const LookupSuffix := "\")"
  const NullLiteral := "null"

  /** What the generator reads from a script and its two loaded phases. */
  datatype AdapterInput = AdapterInput(
    targetClass: string,
    id: string,
    generatedPluginClassName: string,
    pluginsBlockClassName: string,
    className: string,
    pluginsBlockRunsSomething: bool,
    buildScriptRunsSomething: bool)

  /**
   * What an adapter text says: its target class, script id, class name, and
   * the class each argument of `run` looks up (None for the literal null).
   */
  datatype AdapterReading = AdapterReading(
    targetClass: string,
    id: string,
    generatedPluginClassName: string,
    pluginsBlockClass: Option<string>,
    precompiledScriptClass: Option<string>)

  /** The middle of `s` once `prefix` and `suffix` are stripped, if it has both. */
  function Between(s: string, prefix: string, suffix: string): (r: Option<string>)
    ensures r.Some? ==> s == prefix + r.value + suffix
  {
    if |prefix| + |suffix| <= |s| && s[..|prefix|] == prefix && s[|s| - |suffix|..] == suffix then
      var middle := s[|prefix|..|s| - |suffix|];
      assert s == s[..|prefix|] + middle + s[|s| - |suffix|..];
      Some(middle)
    else
      None
  }

  lemma BetweenConcat(prefix: string, x: string, suffix: string)
    ensures Between(prefix + x + suffix, prefix, suffix) == Some(x)
  {
    var s := prefix + x + suffix;
    assert s[..|prefix|] == prefix;
    assert s[|s| - |suffix|..] == suffix;
    assert s[|prefix|..|s| - |suffix|] == x;
  }

  /**
   * The class-reference expression for one phase: a reflective lookup of the
   * phase's class when it does something at run time, otherwise Java's null
   * (a null String concatenated into the text prints as "null").
   */
  function ClassLookup(runsSomething: bool, className: string): (r: string)
    ensures r == NullLiteral <==> !runsSomething
  {
    if runsSomething then LookupPrefix + className + LookupSuffix else NullLiteral
  }

  /**
   * Reads a class-reference expression back: Some(Some(n)) for a lookup of n,
   * Some(None) for null, None for any other text.
   */
  function EvalClassLookup(expr: string): Option<Option<string>> {
    if expr == NullLiteral then Some(None)
    else match Between(expr, LookupPrefix, LookupSuffix)
      case Some(name) => Some(Some(name))
      case None => None
  }

  lemma ClassLookupRoundTrip(runsSomething: bool, className: string)
    ensures EvalClassLookup(ClassLookup(runsSomething, className))
         == Some(if runsSomething then Some(className) else None)
  {
    if runsSomething {
      assert |ClassLookup(runsSomething, className)| > |NullLiteral|;
      BetweenConcat(LookupPrefix, className, LookupSuffix);
    }
  }

  lemma ClassLookupSound(expr: string, ref: Option<string>)
    requires EvalClassLookup(expr) == Some(ref)
    ensures expr == ClassLookup(ref.Some?, if ref.Some? then ref.value else "")
  {
  }

  function ImportLine(targetClass: string): string {
    "import " + targetClass + ";\n"
  }

  const DocOpenLine := "/**\n"

  function HeaderLine(id: string): string {
    " * Precompiled " + id + " script plugin.\n"
  }

  const DocCloseLine := " **/\n"
  const ClassKeyword := "public class "

  function DeclarationSuffix(targetClass: string): string {
    " implements org.gradle.api.Plugin<" + targetClass + "> {\n"
  }

  function DeclarationLine(generatedPluginClassName: string, targetClass: string): string {
    ClassKeyword + generatedPluginClassName + DeclarationSuffix(targetClass)
  }

  function ApplyLine(targetClass: string): string {
    "  public void apply(" + targetClass + " target) {\n"
  }

  const TryLine := "      try {\n"
  const PluginsBlockPrefix := "          Class<?> pluginsBlockClass = "
  const BuildScriptPrefix := "          Class<?> precompiledScriptClass = "
  const StatementEnd := ";\n"

  /** The fixed tail of the adapter: the `run` call and the exception wrapper. */
  const Tail: seq<string> := [
    "          new " + RunnerClassName + "(target)\n",
    "              .run(\n",
    "                  pluginsBlockClass,\n",
    "                  precompiledScriptClass\n",
    "              );\n",
    "      } catch (Exception e) { throw new RuntimeException(e); }\n",
    "  }\n",
    "}\n"
  ]

  /** A written chunk is one whole line: it ends in a newline. */
  predicate EndsLine(chunk: string) {
    |chunk| > 0 && chunk[|chunk| - 1] == '\n'
  }

  /** The chunks the generator writes, in order. */
  function AdapterLines(a: AdapterInput): (r: seq<string>)
    ensures |r| == 17
    ensures forall i | 0 <= i < |r| :: EndsLine(r[i])
  {
    [ ImportLine(a.targetClass),
      DocOpenLine,
      HeaderLine(a.id),
      DocCloseLine,
      DeclarationLine(a.generatedPluginClassName, a.targetClass),
      ApplyLine(a.targetClass),
      TryLine,
      PluginsBlockPrefix + ClassLookup(a.pluginsBlockRunsSomething, a.pluginsBlockClassName) + StatementEnd,
      BuildScriptPrefix + ClassLookup(a.buildScriptRunsSomething, a.className) + StatementEnd
    ] + Tail
  }

  /** The whole file: the chunks written one after the other. */
  function Concat(chunks: seq<string>): string {
    if chunks == [] then "" else chunks[0] + Concat(chunks[1..])
  }

  function AdapterText(a: AdapterInput): string {
    Concat(AdapterLines(a))
  }

  /** The reading an adapter generated from `a` is meant to carry. */
  function Reading(a: AdapterInput): AdapterReading {
    AdapterReading(
      a.targetClass,
      a.id,
      a.generatedPluginClassName,
      if a.pluginsBlockRunsSomething then Some(a.pluginsBlockClassName) else None,
      if a.buildScriptRunsSomething then Some(a.className) else None)
  }

  /** An input that produces the reading `r`; names of absent phases are left empty. */
  function InputOf(r: AdapterReading): AdapterInput {
    AdapterInput(
      r.targetClass,
      r.id,
      r.generatedPluginClassName,
      if r.pluginsBlockClass.Some? then r.pluginsBlockClass.value else "",
      if r.precompiledScriptClass.Some? then r.precompiledScriptClass.value else "",
      r.pluginsBlockClass.Some?,
      r.precompiledScriptClass.Some?)
  }

  /** Reads an adapter text: None unless every chunk has the template's form. */
  function ParseAdapter(lines: seq<string>): Option<AdapterReading> {
    if |lines| != 9 + |Tail| then None
    else
      var targetClass :- Between(lines[0], "import ", ";\n");
      var id :- Between(lines[2], " * Precompiled ", " script plugin.\n");
      var name :- Between(lines[4], ClassKeyword, DeclarationSuffix(targetClass));
      var pluginsBlockExpr :- Between(lines[7], PluginsBlockPrefix, StatementEnd);
      var pluginsBlockClass :- EvalClassLookup(pluginsBlockExpr);
      var buildScriptExpr :- Between(lines[8], BuildScriptPrefix, StatementEnd);
      var precompiledScriptClass :- EvalClassLookup(buildScriptExpr);
      if && lines[1] == DocOpenLine
         && lines[3] == DocCloseLine
         && lines[5] == ApplyLine(targetClass)
         && lines[6] == TryLine
         && lines[9..] == Tail
      then Some(AdapterReading(targetClass, id, name, pluginsBlockClass, precompiledScriptClass))
      else None
  }

  /** Reading a generated adapter gives back the names and the two class references. */
  lemma ParseAdapterRoundTrip(a: AdapterInput)
    ensures ParseAdapter(AdapterLines(a)) == Some(Reading(a))
  {
    var lines := AdapterLines(a);
    BetweenConcat("import ", a.targetClass, ";\n");
    BetweenConcat(" * Precompiled ", a.id, " script plugin.\n");
    BetweenConcat(ClassKeyword, a.generatedPluginClassName, DeclarationSuffix(a.targetClass));
    BetweenConcat(PluginsBlockPrefix, ClassLookup(a.pluginsBlockRunsSomething, a.pluginsBlockClassName), StatementEnd);
    BetweenConcat(BuildScriptPrefix, ClassLookup(a.buildScriptRunsSomething, a.className), StatementEnd);
    ClassLookupRoundTrip(a.pluginsBlockRunsSomething, a.pluginsBlockClassName);
    ClassLookupRoundTrip(a.buildScriptRunsSomething, a.className);
    assert lines[9..] == Tail;
  }

  /** Whatever the reader accepts is exactly the adapter generated for its reading. */
  lemma ParseAdapterSound(lines: seq<string>, r: AdapterReading)
    requires ParseAdapter(lines) == Some(r)
    ensures lines == AdapterLines(InputOf(r)) && Reading(InputOf(r)) == r
  {
    var targetClass := Between(lines[0], "import ", ";\n").value;
    var pluginsBlockExpr := Between(lines[7], PluginsBlockPrefix, StatementEnd).value;
    var buildScriptExpr := Between(lines[8], BuildScriptPrefix, StatementEnd).value;
    ClassLookupSound(pluginsBlockExpr, r.pluginsBlockClass);
    ClassLookupSound(buildScriptExpr, r.precompiledScriptClass);
    var expected := AdapterLines(InputOf(r));
    assert lines[..9] == expected[..9];
    assert lines == lines[..9] + lines[9..];
  }

  /**
   * Two inputs give the same adapter exactly when they give the same reading:
   * the text depends on the target class, id, class name and the two flags,
   * and on a phase's class name only when that phase does something.
   */
  lemma AdapterDeterminedByReading(a: AdapterInput, b: AdapterInput)
    ensures AdapterLines(a) == AdapterLines(b) <==> Reading(a) == Reading(b)
  {
    ParseAdapterRoundTrip(a);
    ParseAdapterRoundTrip(b);
    ParseAdapterSound(AdapterLines(a), Reading(a));
    ParseAdapterSound(AdapterLines(b), Reading(b));
  }

  /** The file starts with the import of the target class. */
  lemma AdapterTextStartsWithImport(a: AdapterInput)
    ensures var text := AdapterText(a); var first := ImportLine(a.targetClass);
      |first| <= |text| && text[..|first|] == first
  {
    var lines := AdapterLines(a);
    assert Concat(lines) == lines[0] + Concat(lines[1..]);
  }
}
