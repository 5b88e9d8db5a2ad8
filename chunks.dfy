/**
 * Chunk-to-package helpers of packages/webpack-plugin/lib/index.js:
 * `isChunkInPackage`, the split-chunks cache group per package, and the
 * runtime chunk name rule.
 */
module Chunks {
  import opened Wrappers

  /**
   * Whether chunk `chunkName` belongs to package `packageName`: the chunk
   * lives in the package's directory. This is the intended reading of the
   * source's `^${packageName}\/` test, with the package name taken literally.
   */
  function IsChunkInPackage(chunkName: string, packageName: string): (r: bool)
    ensures r <==> exists rest :: chunkName == packageName + "/" + rest
  {
    if packageName + "/" <= chunkName then
      var rest := chunkName[|packageName| + 1..];
      assert chunkName == packageName + "/" + rest;
      true
    else
      false
  }

  /** The characters a RegExp `.` does not match. */
  predicate IsLineTerminator(c: char)
  {
    c == '\n' || c == '\r' || c == '\U{2028}' || c == '\U{2029}'
  }

  /**
   * An anchored RegExp prefix test for a pattern whose only metacharacter is
   * `.`: every pattern position matches the same character, or `.` matches
   * any character but a line terminator.
   */
  predicate PatternPrefixMatch(pattern: string, s: string)
  {
    && |pattern| <= |s|
    && forall i :: 0 <= i < |pattern| ==>
         if pattern[i] == '.' then !IsLineTerminator(s[i]) else s[i] == pattern[i]
  }

  /** The RegExp metacharacters other than `.`, which `PatternPrefixMatch` does not interpret. */
  predicate IsOtherRegExpSyntax(c: char)
  {
    c in {'\\', '^', '$', '*', '+', '?', '(', ')', '[', ']', '{', '}', '|'}
  }

  /** A package name in which `.` is the only RegExp metacharacter. */
  predicate OnlyDotIsSpecial(packageName: string)
  {
    forall i :: 0 <= i < |packageName| ==> !IsOtherRegExpSyntax(packageName[i])
  }

  /**
   * `isChunkInPackage` as written: the package name is spliced into the RegExp
   * unescaped. Modelled for names whose only metacharacter is `.`, over
   * characters rather than UTF-16 code units. A match still needs a real '/'
   * right after as many characters as the name has.
   */
  function IsChunkInPackageAsWritten(chunkName: string, packageName: string): (r: bool)
    ensures r ==> |packageName| < |chunkName| && chunkName[|packageName|] == '/'
  {
    var pattern := packageName + "/";
    var matched := PatternPrefixMatch(pattern, chunkName);
    assert matched ==> pattern[|packageName|] == '/' && chunkName[|packageName|] == '/';
    matched
  }

  /** As written, a package root containing `.` claims chunks of another package. */
  lemma DottedPackageClaimsForeignChunk()
    ensures IsChunkInPackageAsWritten("subXa/pages/index", "sub.a")
    ensures !IsChunkInPackage("subXa/pages/index", "sub.a")
  {
    var pattern := "sub.a" + "/";
    var chunk := "subXa/pages/index";
    assert forall i :: 0 <= i < |pattern| ==>
      if pattern[i] == '.' then !IsLineTerminator(chunk[i]) else chunk[i] == pattern[i];
    assert chunk[3] != '.';
  }

  /**
   * For package names with no RegExp metacharacter but `.`, the literal test
   * accepts only chunks the as-written test accepts, and the two agree on
   * names without `.` too.
   */
  lemma {:induction false} LiteralTestRefinesAsWritten(chunkName: string, packageName: string)
    requires OnlyDotIsSpecial(packageName)
    ensures IsChunkInPackage(chunkName, packageName) ==> IsChunkInPackageAsWritten(chunkName, packageName)
    ensures (forall i :: 0 <= i < |packageName| ==> packageName[i] != '.') ==>
      (IsChunkInPackageAsWritten(chunkName, packageName) <==> IsChunkInPackage(chunkName, packageName))
  {
    var pattern := packageName + "/";
    if IsChunkInPackage(chunkName, packageName) {
      assert pattern <= chunkName;
      forall i | 0 <= i < |pattern|
        ensures if pattern[i] == '.' then !IsLineTerminator(chunkName[i]) else chunkName[i] == pattern[i]
      {
        assert chunkName[i] == pattern[i];
      }
    }
    if (forall i :: 0 <= i < |packageName| ==> packageName[i] != '.') && IsChunkInPackageAsWritten(chunkName, packageName) {
      assert forall i :: 0 <= i < |pattern| ==> pattern[i] != '.';
      assert pattern == chunkName[..|pattern|];
      assert chunkName == pattern + chunkName[|pattern|..];
    }
  }

  /** Whether every chunk name lies in the package. */
  function AllChunksInPackage(chunkNames: seq<string>, packageName: string): (r: bool)
    ensures r <==> forall i :: 0 <= i < |chunkNames| ==> IsChunkInPackage(chunkNames[i], packageName)
    decreases |chunkNames|
  {
    if chunkNames == [] then true
    else IsChunkInPackage(chunkNames[0], packageName) && AllChunksInPackage(chunkNames[1..], packageName)
  }

  /**
   * A split-chunks cache group. `test` is `Some(pkg)` for the source's
   * closure, taken to receive the names of the chunks that use a module (the
   * webpack 4 `test(module, chunks)` signature) and accepting the module when
   * every one of them is in `pkg`,
   * and `None` when the group has no test.
   */
  datatype CacheGroup = CacheGroup(
    name: string,
    minChunks: nat,
    minSize: Option<nat>,
    priority: Option<int>,
    chunks: string,
    test: Option<string>)

  /** Whether the group's test accepts a module used by the chunks named `chunkNames`. */
  predicate GroupAccepts(group: CacheGroup, chunkNames: seq<string>)
  {
    group.test.None? || AllChunksInPackage(chunkNames, group.test.value)
  }

  /**
   * `getPackageCacheGroup`: main's group `bundle` takes every module shared
   * by two chunks; a subpackage's group `<pkg>/bundle` takes only modules all
   * of whose chunks are in that subpackage, with precedence 100 over main.
   */
  function GetPackageCacheGroup(packageName: string): (g: CacheGroup)
    ensures g.minChunks == 2 && g.chunks == "all"
    ensures packageName == "main" ==>
      g.name == "bundle" && g.minSize.None? && g.priority.None? && forall names :: GroupAccepts(g, names)
    ensures packageName != "main" ==>
      && g.name == packageName + "/bundle" && g.minSize == Some(1000) && g.priority == Some(100)
      && forall names :: GroupAccepts(g, names) <==>
           forall i :: 0 <= i < |names| ==> IsChunkInPackage(names[i], packageName)
  {
    if packageName == "main" then
      CacheGroup("bundle", 2, None, None, "all", None)
    else
      CacheGroup(packageName + "/bundle", 2, Some(1000), Some(100), "all", Some(packageName))
  }

  /**
   * `optimization.runtimeChunk.name`: an entry point inside an independent
   * subpackage gets that subpackage's own runtime `<pkg>/bundle` (the first
   * such package in key order); every other entry point shares `bundle`.
   */
  method RuntimeChunkName(entrypointName: string, independentSubpackages: seq<string>) returns (name: string)
    ensures name == "bundle" <==>
      forall i :: 0 <= i < |independentSubpackages| ==> !IsChunkInPackage(entrypointName, independentSubpackages[i])
    ensures name != "bundle" ==>
      exists i :: 0 <= i < |independentSubpackages|
        && IsChunkInPackage(entrypointName, independentSubpackages[i])
        && name == independentSubpackages[i] + "/bundle"
        && forall j :: 0 <= j < i ==> !IsChunkInPackage(entrypointName, independentSubpackages[j])
  {
    for i := 0 to |independentSubpackages|
      invariant forall j :: 0 <= j < i ==> !IsChunkInPackage(entrypointName, independentSubpackages[j])
    {
      var packageName := independentSubpackages[i];
      if IsChunkInPackage(entrypointName, packageName) {
        name := packageName + "/bundle";
        assert |name| > |"bundle"|;
        return;
      }
    }
    name := "bundle";
  }
}
