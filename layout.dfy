/**
 * The directory layout of the precompile task. A path is the sequence of its
 * segments, so `new File(dir, name)` appends one segment.
 */
module Layout {

  type Path = seq<string>

  const CompiledClassesRelative: seq<string> := ["groovy-dsl", "compiled-scripts", "classes"]
  const CompiledMetadataRelative: seq<string> := ["groovy-dsl", "compiled-scripts", "metadata"]
  const OutputRelative: seq<string> := ["generated-classes", "groovy-dsl-plugins", "classes"]
  const GeneratedSourcesRelative: seq<string> := ["generated-classes", "groovy-dsl-plugins", "java"]

  /** The entry `name` directly inside `dir`. */
  function File(dir: Path, name: string): Path {
    dir + [name]
  }

  /** `p` is `dir` itself or lies somewhere below it. */
  predicate Under(p: Path, dir: Path) {
    |dir| <= |p| && p[..|dir|] == dir
  }

  /** Neither directory contains the other. */
  predicate Separate(x: Path, y: Path) {
    !Under(x, y) && !Under(y, x)
  }

  datatype TaskDirs = TaskDirs(
    classesDir: Path,
    metadataDir: Path,
    outputDir: Path,
    generatedClassesDir: Path)

  /** The four directories the task derives from the build directory. */
  function TaskDirsFor(buildDir: Path): TaskDirs {
    TaskDirs(
      buildDir + CompiledClassesRelative,
      buildDir + CompiledMetadataRelative,
      buildDir + OutputRelative,
      buildDir + GeneratedSourcesRelative)
  }

  /** A file path names its directory and its entry name, and nothing else does. */
  lemma FileDeterminesDirAndName(dir: Path, name: string, dir': Path, name': string)
    ensures File(dir, name) == File(dir', name') <==> dir == dir' && name == name'
  {
    if File(dir, name) == File(dir', name') {
      assert |dir| == |dir'|;
      assert dir == File(dir, name)[..|dir|];
      assert name == File(dir, name)[|dir|];
    }
  }

  lemma {:induction false} AppendedSeparate(base: Path, r1: seq<string>, r2: seq<string>)
    requires |r1| == |r2| && r1 != r2
    ensures Separate(base + r1, base + r2)
  {
    assert (base + r1)[|base|..] == r1;
    assert (base + r2)[|base|..] == r2;
  }

  /** The task's four directories are pairwise disjoint trees. */
  lemma TaskDirsSeparate(buildDir: Path)
    ensures var d := TaskDirsFor(buildDir);
      && Separate(d.classesDir, d.metadataDir)
      && Separate(d.classesDir, d.outputDir)
      && Separate(d.classesDir, d.generatedClassesDir)
      && Separate(d.metadataDir, d.outputDir)
      && Separate(d.metadataDir, d.generatedClassesDir)
      && Separate(d.outputDir, d.generatedClassesDir)
  {
    AppendedSeparate(buildDir, CompiledClassesRelative, CompiledMetadataRelative);
    AppendedSeparate(buildDir, CompiledClassesRelative, OutputRelative);
    AppendedSeparate(buildDir, CompiledClassesRelative, GeneratedSourcesRelative);
    AppendedSeparate(buildDir, CompiledMetadataRelative, OutputRelative);
    AppendedSeparate(buildDir, CompiledMetadataRelative, GeneratedSourcesRelative);
    AppendedSeparate(buildDir, OutputRelative, GeneratedSourcesRelative);
  }

  /** Entries of two separate directories of equal depth never coincide. */
  lemma {:induction false} EntriesOfSeparateDirs(x: Path, y: Path, a: string, b: string)
    requires Separate(x, y) && |x| == |y|
    ensures File(x, a) != File(y, b) && !Under(File(x, a), y)
  {
    assert File(x, a)[..|x|] == x;
    assert File(y, b)[..|y|] == y;
  }
}
