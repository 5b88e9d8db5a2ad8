/**
 * The per-kind package registries of one build and the placement rule that
 * decides which package a component, static resource or subpackage module is
 * emitted into (`getPackageInfo` in packages/webpack-plugin/lib/index.js).
 */
module Placement {
  import opened Wrappers

  /** The three registries the build context keeps, one per resource kind. */
  datatype Kind = Components | StaticResources | SubpackageModules

  /** A registry value: the output path recorded for the resource, or the claim marker `true`. */
  datatype Entry = Path(path: string) | Reserved

  /** package name -> resource path -> entry */
  type ResourceMap = map<string, map<string, Entry>>

  /** The `auditResource` option: `false`, `'component'`, or any other truthy value. */
  datatype AuditResource = NoAudit | AuditComponents | AuditAll

  const MainPackage: string := "main"

  /** JavaScript truthiness of a registry value. */
  predicate Truthy(e: Entry)
  {
    e.Reserved? || e.path != ""
  }

  /** `packageMap[resourcePath]` is truthy: the package has claimed the resource. */
  predicate Claims(packageMap: map<string, Entry>, resourcePath: string)
  {
    resourcePath in packageMap && Truthy(packageMap[resourcePath])
  }

  /** The name of the package rooted at `root`: the root itself, or main for the empty root. */
  function PackageNameOf(root: string): (name: string)
    ensures name != ""
    ensures root != "" ==> name == root
    ensures root == "" ==> name == MainPackage
  {
    if root == "" then MainPackage else root
  }

  /** An output path template is used only when it is truthy. */
  predicate HasOutputPath(outputPath: Option<string>)
  {
    outputPath.Some? && outputPath.value != ""
  }

  /**
   * The posix join of a package root and a relative path (index.js:511),
   * without segment normalisation: the parts joined by one '/', an empty part
   * dropped, and "." for an empty result.
   */
  function Join(root: string, p: string): (r: string)
    ensures r != ""
    ensures root == "" && p != "" ==> r == p
    ensures root != "" && p != "" ==> |r| == |root| + 1 + |p| && r[..|root|] == root && r[|root|] == '/' && r[|root| + 1..] == p
  {
    if root == "" && p == "" then "."
    else if root == "" then p
    else if p == "" then root
    else root + "/" + p
  }

  /** Whether segment `i` of `p` starts at index `i`. */
  predicate SegmentStart(p: string, i: int)
    requires 0 <= i < |p|
  {
    i == 0 || p[i - 1] == '/'
  }

  /**
   * A relative path that path normalisation leaves as it is: non-empty, no
   * leading or trailing '/', and no empty, "." or ".." segment.
   */
  predicate IsNormalisedRelative(p: string)
  {
    && p != "" && p[|p| - 1] != '/'
    && forall i :: 0 <= i < |p| && SegmentStart(p, i) ==>
         && p[i] != '/'
         && !(p[i] == '.' && (i + 1 == |p| || p[i + 1] == '/'))
         && !(p[i] == '.' && i + 1 < |p| && p[i + 1] == '.' && (i + 2 == |p| || p[i + 2] == '/'))
  }

  /**
   * Under one package root, distinct normalised templates give distinct output
   * paths. (Templates such as `a` and `./a` do collide once path
   * normalisation applies, which is why they are excluded.)
   */
  lemma {:induction false} JoinInjective(root: string, a: string, b: string)
    requires IsNormalisedRelative(a) && IsNormalisedRelative(b)
    requires Join(root, a) == Join(root, b)
    ensures a == b
  {
    if root != "" {
      var n := |root| + 1;
      assert Join(root, a)[n..] == a;
      assert Join(root, b)[n..] == b;
    }
  }

  datatype PlacementRequest = PlacementRequest(resourcePath: string, kind: Kind, outputPath: Option<string>)

  /**
   * What `getPackageInfo` reads besides the registry: the current package
   * root, whether it is an independent subpackage, whether a
   * forceMainPackageRules condition matches the resource, and the audit option.
   */
  datatype PlacementContext = PlacementContext(
    currentPackageRoot: string,
    isIndependent: bool,
    forceMainMatch: bool,
    auditResource: AuditResource)

  /** The object `getPackageInfo` returns. */
  datatype PlacementInfo = PlacementInfo(
    packageName: string,
    packageRoot: string,
    outputPath: Option<string>,
    alreadyOutputed: bool)

  /** One duplication advisory: `resourcePath` is also referenced by subpackage `sibling`. */
  datatype AuditWarning = DuplicatedInSubpackages(kind: Kind, resourcePath: string, sibling: string, packageName: string)

  /** The result of one placement, the registry afterwards and the warnings issued. */
  datatype Resolution = Resolution(info: PlacementInfo, after: ResourceMap, warnings: set<AuditWarning>)

  /** The placement stays in the current package: nothing draws it to main, or the package is independent. */
  predicate StaysInCurrent(m: ResourceMap, resourcePath: string, ctx: PlacementContext)
    requires MainPackage in m
  {
    !(Claims(m[MainPackage], resourcePath) || ctx.forceMainMatch) || ctx.isIndependent
  }

  /** The audit option selects this kind, and the current package is not independent. */
  predicate AuditEnabled(kind: Kind, ctx: PlacementContext)
  {
    && ctx.auditResource != NoAudit
    && kind != SubpackageModules
    && !ctx.isIndependent
    && (ctx.auditResource != AuditComponents || kind == Components)
  }

  /** A subpackage other than `packageName` (and other than main) that has already claimed the resource. */
  predicate IsDuplicatingSibling(m: ResourceMap, resourcePath: string, packageName: string, sibling: string)
  {
    sibling in m && sibling != MainPackage && sibling != packageName && Claims(m[sibling], resourcePath)
  }

  /** The audit's reference definition: one warning per duplicating sibling. */
  function DuplicateWarnings(m: ResourceMap, kind: Kind, resourcePath: string, packageName: string): (warnings: set<AuditWarning>)
    ensures forall w :: w in warnings <==>
      w.kind == kind && w.resourcePath == resourcePath && w.packageName == packageName
      && IsDuplicatingSibling(m, resourcePath, packageName, w.sibling)
  {
    set sibling | sibling in m.Keys && IsDuplicatingSibling(m, resourcePath, packageName, sibling)
      :: DuplicatedInSubpackages(kind, resourcePath, sibling, packageName)
  }

  /**
   * The audit loop: walks the package keys of the registry and issues one
   * warning for each non-main key other than `packageName` whose map claims
   * `resourcePath`. It only reads the registry.
   */
  method CollectDuplicateWarnings(m: ResourceMap, kind: Kind, resourcePath: string, packageName: string)
    returns (warnings: set<AuditWarning>)
    ensures warnings == DuplicateWarnings(m, kind, resourcePath, packageName)
  {
    warnings := {};
    var keys := m.Keys;
    while keys != {}
      invariant keys <= m.Keys
      invariant forall w :: w in warnings <==>
        w.kind == kind && w.resourcePath == resourcePath && w.packageName == packageName
        && w.sibling !in keys && IsDuplicatingSibling(m, resourcePath, packageName, w.sibling)
      decreases keys
    {
      var key :| key in keys;
      if key != MainPackage && Claims(m[key], resourcePath) && key != packageName {
        warnings := warnings + {DuplicatedInSubpackages(kind, resourcePath, key, packageName)};
      }
      keys := keys - {key};
    }
    assert forall w :: w in warnings <==> w in DuplicateWarnings(m, kind, resourcePath, packageName);
  }

  /** The registry changed at most at `m'[packageName][resourcePath]`; inner maps are only ever added. */
  ghost predicate OnlyEntryChanged(m: ResourceMap, m': ResourceMap, packageName: string, resourcePath: string)
  {
    && (forall k :: k in m ==> k in m')
    && (forall k :: k in m' ==> k in m || k == packageName)
    && (forall k, q :: k in m && q in m[k] && (k != packageName || q != resourcePath) ==>
          q in m'[k] && m'[k][q] == m[k][q])
    && (forall k, q :: k in m' && q in m'[k] && (k != packageName || q != resourcePath) ==>
          k in m && q in m[k])
  }

  /** Where a placement goes and what the audit reports. */
  datatype PlacementTarget = PlacementTarget(packageRoot: string, packageName: string, warnings: set<AuditWarning>)

  /**
   * The first half of `getPackageInfo`: the package the resource goes to
   * and, when it stays in the current package, the duplication audit.
   */
  function Target(m: ResourceMap, resourcePath: string, kind: Kind, ctx: PlacementContext): (t: PlacementTarget)
    requires MainPackage in m
    ensures (Claims(m[MainPackage], resourcePath) || ctx.forceMainMatch) && !ctx.isIndependent ==>
      t.packageName == MainPackage && t.packageRoot == "" && t.warnings == {}
    ensures ctx.isIndependent || !(Claims(m[MainPackage], resourcePath) || ctx.forceMainMatch) ==>
      t.packageName == PackageNameOf(ctx.currentPackageRoot) && t.packageRoot == ctx.currentPackageRoot
    ensures forall w :: w in t.warnings <==>
      && StaysInCurrent(m, resourcePath, ctx) && AuditEnabled(kind, ctx)
      && w.kind == kind && w.resourcePath == resourcePath && w.packageName == t.packageName
      && IsDuplicatingSibling(m, resourcePath, t.packageName, w.sibling)
  {
    if StaysInCurrent(m, resourcePath, ctx) then
      var name := PackageNameOf(ctx.currentPackageRoot);
      PlacementTarget(ctx.currentPackageRoot, name,
        if AuditEnabled(kind, ctx) then DuplicateWarnings(m, kind, resourcePath, name) else {})
    else
      PlacementTarget("", MainPackage, {})
  }

  /**
   * The second half of `getPackageInfo`: record `resourcePath` in the map of
   * its package (created if absent), as a path under the package root or as
   * the claim marker, unless that exact path is recorded already.
   */
  function Record(m: ResourceMap, packageName: string, packageRoot: string, resourcePath: string, outputPath: Option<string>)
    : (r: (PlacementInfo, ResourceMap))
    ensures r.0.packageName == packageName && r.0.packageRoot == packageRoot
    ensures HasOutputPath(outputPath) ==> r.0.outputPath == Some(Join(packageRoot, outputPath.value))
    ensures !HasOutputPath(outputPath) ==> r.0.outputPath == outputPath
    ensures packageName in r.1 && resourcePath in r.1[packageName]
    ensures r.1[packageName][resourcePath] == if HasOutputPath(outputPath) then Path(r.0.outputPath.value) else Reserved
    ensures r.0.alreadyOutputed <==>
      HasOutputPath(outputPath) && packageName in m && resourcePath in m[packageName]
      && m[packageName][resourcePath] == Path(r.0.outputPath.value)
    ensures r.0.alreadyOutputed ==> r.1 == m
    ensures OnlyEntryChanged(m, r.1, packageName, resourcePath)
  {
    var current := if packageName in m then m[packageName] else map[];
    if HasOutputPath(outputPath) then
      var out := Join(packageRoot, outputPath.value);
      if resourcePath in current && current[resourcePath] == Path(out) then
        (PlacementInfo(packageName, packageRoot, Some(out), true), m)
      else
        (PlacementInfo(packageName, packageRoot, Some(out), false), m[packageName := current[resourcePath := Path(out)]])
    else
      (PlacementInfo(packageName, packageRoot, outputPath, false), m[packageName := current[resourcePath := Reserved]])
  }

  /**
   * `getPackageInfo`: place one resource and record the placement.
   * Main precedence, independent override, idempotent re-recording, the
   * reservation marker, the single written entry and the audit are stated in
   * the contract.
   */
  function Resolve(m: ResourceMap, req: PlacementRequest, ctx: PlacementContext): (r: Resolution)
    requires MainPackage in m
    // main precedence: claimed by main or forced there, and not independent
    ensures (Claims(m[MainPackage], req.resourcePath) || ctx.forceMainMatch) && !ctx.isIndependent ==>
      r.info.packageName == MainPackage && r.info.packageRoot == ""
    // otherwise (in particular whenever the package is independent) the current package
    ensures ctx.isIndependent || !(Claims(m[MainPackage], req.resourcePath) || ctx.forceMainMatch) ==>
      r.info.packageName == PackageNameOf(ctx.currentPackageRoot) && r.info.packageRoot == ctx.currentPackageRoot
    // the recorded value
    ensures HasOutputPath(req.outputPath) ==>
      r.info.outputPath == Some(Join(r.info.packageRoot, req.outputPath.value))
    ensures !HasOutputPath(req.outputPath) ==> r.info.outputPath == req.outputPath
    ensures r.info.packageName in r.after && req.resourcePath in r.after[r.info.packageName]
    ensures r.after[r.info.packageName][req.resourcePath] ==
      if HasOutputPath(req.outputPath) then Path(r.info.outputPath.value) else Reserved
    // idempotent re-recording
    ensures r.info.alreadyOutputed <==>
      HasOutputPath(req.outputPath) && r.info.packageName in m && req.resourcePath in m[r.info.packageName]
      && m[r.info.packageName][req.resourcePath] == Path(r.info.outputPath.value)
    ensures r.info.alreadyOutputed ==> r.after == m
    // nothing else changes
    ensures OnlyEntryChanged(m, r.after, r.info.packageName, req.resourcePath)
    ensures MainPackage in r.after
    // the audit
    ensures forall w :: w in r.warnings <==>
      && StaysInCurrent(m, req.resourcePath, ctx) && AuditEnabled(req.kind, ctx)
      && w.kind == req.kind && w.resourcePath == req.resourcePath && w.packageName == r.info.packageName
      && IsDuplicatingSibling(m, req.resourcePath, r.info.packageName, w.sibling)
  {
    var target := Target(m, req.resourcePath, req.kind, ctx);
    var recorded := Record(m, target.packageName, target.packageRoot, req.resourcePath, req.outputPath);
    Resolution(recorded.0, recorded.1, target.warnings)
  }


  /** A claim, once recorded, is never withdrawn: every truthy entry survives a placement. */
  lemma {:induction false} ClaimsPersist(m: ResourceMap, req: PlacementRequest, ctx: PlacementContext, k: string, q: string)
    requires MainPackage in m
    requires k in m && Claims(m[k], q)
    ensures var r := Resolve(m, req, ctx); k in r.after && Claims(r.after[k], q)
  {
    var r := Resolve(m, req, ctx);
    if k == r.info.packageName && q == req.resourcePath {
      assert Truthy(r.after[k][q]);
    } else {
      assert r.after[k][q] == m[k][q];
    }
  }

  /**
   * Resolving the same request again in the same context records nothing new:
   * same package, same output path, the registry unchanged, and the second
   * call reports `alreadyOutputed` exactly when an output path is given.
   */
  lemma {:induction false} ResolveAgain(m: ResourceMap, req: PlacementRequest, ctx: PlacementContext)
    requires MainPackage in m
    requires ctx.currentPackageRoot != MainPackage
    ensures var r1 := Resolve(m, req, ctx);
      var r2 := Resolve(r1.after, req, ctx);
      && r2.info.packageName == r1.info.packageName
      && r2.info.packageRoot == r1.info.packageRoot
      && r2.info.outputPath == r1.info.outputPath
      && r2.after == r1.after
      && (r2.info.alreadyOutputed <==> HasOutputPath(req.outputPath))
  {
    var p := req.resourcePath;
    var t1 := Target(m, p, req.kind, ctx);
    var r1 := Resolve(m, req, ctx);
    var t2 := Target(r1.after, p, req.kind, ctx);
    if !StaysInCurrent(m, p, ctx) {
      // drawn to main; main's claim survives the write (or the force rule still matches)
      if Claims(m[MainPackage], p) {
        ClaimsPersist(m, req, ctx, MainPackage, p);
      }
      assert !StaysInCurrent(r1.after, p, ctx);
    } else if !ctx.isIndependent && ctx.currentPackageRoot == "" {
      // placed in main from main: the second call goes to main by precedence, to the same root
      assert Claims(r1.after[MainPackage], p);
    } else if !ctx.isIndependent {
      // placed in a subpackage: main's map is untouched, so the decision repeats
      assert r1.after[MainPackage] == m[MainPackage];
      assert StaysInCurrent(r1.after, p, ctx);
    }
    assert t2.packageName == t1.packageName && t2.packageRoot == t1.packageRoot;
    RecordAgain(m, t1.packageName, t1.packageRoot, p, req.outputPath);
  }

  /** Recording the same placement twice: the second records nothing and reports it exactly when a path is given. */
  lemma RecordAgain(m: ResourceMap, packageName: string, packageRoot: string, resourcePath: string, outputPath: Option<string>)
    ensures var r1 := Record(m, packageName, packageRoot, resourcePath, outputPath);
      var r2 := Record(r1.1, packageName, packageRoot, resourcePath, outputPath);
      r2.1 == r1.1 && r2.0 == r1.0.(alreadyOutputed := HasOutputPath(outputPath))
  {
    var r1 := Record(m, packageName, packageRoot, resourcePath, outputPath);
    var r2 := Record(r1.1, packageName, packageRoot, resourcePath, outputPath);
    assert r2.1[packageName] == r1.1[packageName];
  }

  /**
   * A resource first placed from main (root "") is then shared by every
   * non-independent subpackage: the subpackage's call resolves to main, gets
   * main's output path, and finds it already output.
   */
  lemma {:induction false} MainClaimSharedBySubpackage(
    m: ResourceMap, req: PlacementRequest, audit: AuditResource, sub: string, forced: bool)
    requires MainPackage in m
    requires HasOutputPath(req.outputPath)
    requires sub != ""
    ensures var r1 := Resolve(m, req, PlacementContext("", false, forced, audit));
      var r2 := Resolve(r1.after, req, PlacementContext(sub, false, forced, audit));
      && r1.info.packageName == MainPackage
      && r1.info.outputPath == Some(req.outputPath.value)
      && r2.info.packageName == MainPackage
      && r2.info.outputPath == r1.info.outputPath
      && r2.info.alreadyOutputed
      && r2.after == r1.after
      && r2.warnings == {}
  {
    var r1 := Resolve(m, req, PlacementContext("", false, forced, audit));
    assert Claims(r1.after[MainPackage], req.resourcePath);
  }

  /**
   * An independent subpackage keeps its own copy even of a resource main has
   * already claimed: the output path lies under its root.
   */
  lemma {:induction false} IndependentKeepsOwnCopy(m: ResourceMap, req: PlacementRequest, root: string, forced: bool, audit: AuditResource)
    requires MainPackage in m && Claims(m[MainPackage], req.resourcePath)
    requires HasOutputPath(req.outputPath)
    requires root != "" && root != MainPackage
    ensures var r := Resolve(m, req, PlacementContext(root, true, forced, audit));
      && r.info.packageName == root
      && r.info.outputPath == Some(root + "/" + req.outputPath.value)
      && r.after[MainPackage] == m[MainPackage]
      && r.warnings == {}
  {
  }

  /**
   * Two sibling subpackages referencing a resource nobody has claimed each get
   * their own copy, and the second placement warns about the first.
   */
  lemma {:induction false} SiblingsDuplicateWithWarning(
    m: ResourceMap, p: string, template: string, sub1: string, sub2: string)
    requires MainPackage in m
    requires forall k :: k in m ==> !Claims(m[k], p)
    requires template != ""
    requires sub1 != "" && sub2 != "" && sub1 != sub2 && sub1 != MainPackage && sub2 != MainPackage
    ensures var req := PlacementRequest(p, StaticResources, Some(template));
      var r1 := Resolve(m, req, PlacementContext(sub1, false, false, AuditAll));
      var r2 := Resolve(r1.after, req, PlacementContext(sub2, false, false, AuditAll));
      && r1.info.outputPath == Some(sub1 + "/" + template)
      && r2.info.outputPath == Some(sub2 + "/" + template)
      && r1.warnings == {}
      && r2.warnings == {DuplicatedInSubpackages(StaticResources, p, sub1, sub2)}
  {
    var req := PlacementRequest(p, StaticResources, Some(template));
    var ctx1 := PlacementContext(sub1, false, false, AuditAll);
    var ctx2 := PlacementContext(sub2, false, false, AuditAll);
    var r1 := Resolve(m, req, ctx1);
    assert r1.after[MainPackage] == m[MainPackage];
    var r2 := Resolve(r1.after, req, ctx2);
    var expected := DuplicatedInSubpackages(StaticResources, p, sub1, sub2);
    assert IsDuplicatingSibling(r1.after, p, sub2, sub1);
    forall w | w in r2.warnings ensures w == expected {
      var s := w.sibling;
      assert IsDuplicatingSibling(r1.after, p, sub2, s);
    }
  }
}
