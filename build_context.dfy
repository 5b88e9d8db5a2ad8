/**
 * The per-build `mpx` object of packages/webpack-plugin/lib/index.js: the
 * package registries, the extracted-file cache and the entry graph, with the
 * operations `getPackageInfo`, `getExtractedFile` and `getEntryNode` that
 * update them in place.
 */
module BuildContext {
  import opened Wrappers
  import opened Placement
  import opened Extraction
  import opened EntryGraph

  /** Plugin options and the collaborators the build context calls without this model seeing them. */
  datatype Options = Options(
    forceMainPackageRules: string -> bool,  // matchCondition(resourcePath, forceMainPackageRules)
    auditResource: AuditResource,
    pathHash: string -> string,             // mpx.pathHash: hash-sum of the absolute or project-relative path
    resourceName: string -> string,         // path.parse(resourcePath).name
    typeExt: string -> string)              // typeExtMap[type] of the target mode

  /** An entry pushed to `compilation.errors`. */
  datatype BuildError = EntryTypeConflict(request: string, requestedType: string, existingType: string)

  class Mpx {
    const options: Options
    /** The root of the package being built; "" for main. Set by the package walk, outside this model. */
    var currentPackageRoot: string
    /** The keys of `independentSubpackagesMap`, in insertion order (each maps to `true`). */
    var independentSubpackages: seq<string>
    var componentsMap: ResourceMap
    var staticResourcesMap: ResourceMap
    var subpackageModulesMap: ResourceMap
    var appInfo: Option<AppInfo>
    var pagesMap: map<string, string>
    /** The extracted-file cache: cache key (see `ExtractedKey`) -> file name. */
    var extractedFilesMap: map<string, string>
    var entryNodesMap: map<string, EntryNode>
    var entryModulesMap: map<ModuleHandle, EntryNode>
    var errors: seq<BuildError>

    /**
     * Every registry has a `main` map; cached file names are truthy; each
     * entry node is filed under its own request; every module maps to a node
     * of the graph.
     */
    ghost predicate Valid()
      reads this
    {
      && MainPackage in componentsMap
      && MainPackage in staticResourcesMap
      && MainPackage in subpackageModulesMap
      && (forall key :: key in extractedFilesMap ==> extractedFilesMap[key] != "")
      && (forall request :: request in entryNodesMap ==> entryNodesMap[request].request == request)
      && (forall m :: m in entryModulesMap ==> entryModulesMap[m] in entryNodesMap.Values)
    }

    /** The state `mpx` starts a compilation with. */
    constructor (options: Options)
      ensures Valid()
      ensures this.options == options
      ensures currentPackageRoot == "" && independentSubpackages == []
      ensures componentsMap == staticResourcesMap == subpackageModulesMap == map[MainPackage := map[]]
      ensures appInfo == None && pagesMap == map[] && extractedFilesMap == map[]
      ensures entryNodesMap == map[] && entryModulesMap == map[] && errors == []
    {
      this.options := options;
      currentPackageRoot := "";
      independentSubpackages := [];
      componentsMap := map[MainPackage := map[]];
      staticResourcesMap := map[MainPackage := map[]];
      subpackageModulesMap := map[MainPackage := map[]];
      appInfo := None;
      pagesMap := map[];
      extractedFilesMap := map[];
      entryNodesMap := map[];
      entryModulesMap := map[];
      errors := [];
    }

    /** `mpx[`${resourceType}Map`]` */
    function RegistryOf(kind: Kind): ResourceMap
      reads this`componentsMap, this`staticResourcesMap, this`subpackageModulesMap
    {
      match kind
      case Components => componentsMap
      case StaticResources => staticResourcesMap
      case SubpackageModules => subpackageModulesMap
    }

    /** What `getPackageInfo` reads of the build state and options for `resourcePath`. */
    function ContextFor(resourcePath: string): PlacementContext
      reads this`currentPackageRoot, this`independentSubpackages
    {
      PlacementContext(
        currentPackageRoot,
        currentPackageRoot in independentSubpackages,
        options.forceMainPackageRules(resourcePath),
        options.auditResource)
    }

    method SetRegistry(kind: Kind, m: ResourceMap)
      modifies this`componentsMap, this`staticResourcesMap, this`subpackageModulesMap
      ensures RegistryOf(kind) == m
      ensures componentsMap == if kind == Components then m else old(componentsMap)
      ensures staticResourcesMap == if kind == StaticResources then m else old(staticResourcesMap)
      ensures subpackageModulesMap == if kind == SubpackageModules then m else old(subpackageModulesMap)
    {
      match kind
      case Components => componentsMap := m;
      case StaticResources => staticResourcesMap := m;
      case SubpackageModules => subpackageModulesMap := m;
    }

    /**
     * `getPackageInfo`: places the resource as `Resolve` prescribes, records
     * the placement in the registry of its kind, and returns the warnings of
     * the duplication audit; the other registries are untouched.
     */
    method GetPackageInfo(resourcePath: string, kind: Kind, outputPath: Option<string>)
      returns (info: PlacementInfo, warnings: set<AuditWarning>)
      requires Valid()
      modifies this`componentsMap, this`staticResourcesMap, this`subpackageModulesMap
      ensures Valid()
      ensures var r := Resolve(old(RegistryOf(kind)), PlacementRequest(resourcePath, kind, outputPath), ContextFor(resourcePath));
        info == r.info && warnings == r.warnings && RegistryOf(kind) == r.after
      ensures kind != Components ==> componentsMap == old(componentsMap)
      ensures kind != StaticResources ==> staticResourcesMap == old(staticResourcesMap)
      ensures kind != SubpackageModules ==> subpackageModulesMap == old(subpackageModulesMap)
    {
      var resourceMap := RegistryOf(kind);
      var packageRoot, packageName;
      packageRoot, packageName, warnings := ComputeTarget(resourceMap, resourcePath, kind);
      info := RecordPlacement(kind, resourceMap, packageName, packageRoot, resourcePath, outputPath);
      assert MainPackage in componentsMap && MainPackage in staticResourcesMap && MainPackage in subpackageModulesMap;
    }

    /** The first half of `getPackageInfo`, computed as `Target` prescribes. */
    method ComputeTarget(resourceMap: ResourceMap, resourcePath: string, kind: Kind)
      returns (packageRoot: string, packageName: string, warnings: set<AuditWarning>)
      requires MainPackage in resourceMap
      ensures PlacementTarget(packageRoot, packageName, warnings) == Target(resourceMap, resourcePath, kind, ContextFor(resourcePath))
    {
      var currentPackageName := PackageNameOf(currentPackageRoot);
      var isIndependent := currentPackageRoot in independentSubpackages;
      packageRoot, packageName := "", MainPackage;
      warnings := {};
      if !(Claims(resourceMap[MainPackage], resourcePath) || options.forceMainPackageRules(resourcePath)) || isIndependent {
        packageRoot, packageName := currentPackageRoot, currentPackageName;
        if options.auditResource != NoAudit && kind != SubpackageModules && !isIndependent {
          if options.auditResource != AuditComponents || kind == Components {
            warnings := CollectDuplicateWarnings(resourceMap, kind, resourcePath, packageName);
          }
        }
      }
    }

    /**
     * The second half of `getPackageInfo`: records the placement in the
     * registry of `kind`, which must hold `resourceMap`.
     */
    method RecordPlacement(
      kind: Kind, resourceMap: ResourceMap, packageName: string, packageRoot: string,
      resourcePath: string, outputPath: Option<string>) returns (info: PlacementInfo)
      requires RegistryOf(kind) == resourceMap
      modifies this`componentsMap, this`staticResourcesMap, this`subpackageModulesMap
      ensures var recorded := Record(resourceMap, packageName, packageRoot, resourcePath, outputPath);
        info == recorded.0 && RegistryOf(kind) == recorded.1
      ensures kind != Components ==> componentsMap == old(componentsMap)
      ensures kind != StaticResources ==> staticResourcesMap == old(staticResourcesMap)
      ensures kind != SubpackageModules ==> subpackageModulesMap == old(subpackageModulesMap)
    {
      var currentResourceMap := if packageName in resourceMap then resourceMap[packageName] else map[];
      var alreadyOutputed := false;
      var resultPath := outputPath;
      if HasOutputPath(outputPath) {
        var joined := Join(packageRoot, outputPath.value);
        resultPath := Some(joined);
        if resourcePath in currentResourceMap && currentResourceMap[resourcePath] == Path(joined) {
          alreadyOutputed := true;
        } else {
          currentResourceMap := currentResourceMap[resourcePath := Path(joined)];
        }
      } else {
        currentResourceMap := currentResourceMap[resourcePath := Reserved];
      }
      if !alreadyOutputed {
        SetRegistry(kind, resourceMap[packageName := currentResourceMap]);
      }
      info := PlacementInfo(packageName, packageRoot, resultPath, alreadyOutputed);
    }

    /** The cache key `getExtractedFile` uses for `req` in the current state. */
    function ExtractedKeyFor(req: ExtractRequest): string
      reads this`currentPackageRoot
    {
      ExtractedKey(req.resourcePath, req.fileType, RequestPackageName(req.packageName, currentPackageRoot))
    }

    /** The output template of a static resource. */
    function StaticTemplateFor(req: ExtractRequest): string
    {
      StaticTemplate(req.fileType, options.resourceName(req.resourcePath),
        options.pathHash(req.resourcePath), options.typeExt(req.fileType))
    }

    /**
     * `getExtractedFile`: a write-once cache of final file names. A cached
     * name is returned as is, whatever has changed since; otherwise a static
     * resource is placed in the static-resources registry and a page or
     * component is named from the name tables (with the `missing-filename`
     * fallback and an error report), and the result is cached under its key.
     * A thrown TypeError caches nothing.
     */
    method GetExtractedFile(req: ExtractRequest)
      returns (r: Result<string, ExtractError>, missingName: bool, warnings: set<AuditWarning>)
      requires Valid()
      modifies this`extractedFilesMap, this`componentsMap, this`staticResourcesMap, this`subpackageModulesMap
      ensures Valid()
      ensures subpackageModulesMap == old(subpackageModulesMap) && componentsMap == old(componentsMap)
      // a hit: the cached name, nothing recomputed or changed
      ensures ExtractedKeyFor(req) in old(extractedFilesMap) ==>
        && r == Ok(old(extractedFilesMap)[ExtractedKeyFor(req)]) && !missingName && warnings == {}
        && extractedFilesMap == old(extractedFilesMap) && staticResourcesMap == old(staticResourcesMap)
      // a miss on a static resource: placed like any static resource
      ensures ExtractedKeyFor(req) !in old(extractedFilesMap) && req.isStatic ==>
        var placed := Resolve(old(staticResourcesMap),
          PlacementRequest(req.resourcePath, StaticResources, Some(StaticTemplateFor(req))), ContextFor(req.resourcePath));
        && r == Ok(placed.info.outputPath.value) && !missingName && warnings == placed.warnings
        && staticResourcesMap == placed.after
        && extractedFilesMap == old(extractedFilesMap)[ExtractedKeyFor(req) := r.value]
      // a miss on a page or component: named from the tables
      ensures ExtractedKeyFor(req) !in old(extractedFilesMap) && !req.isStatic ==>
        var lookup := LookupName(appInfo, req, pagesMap, componentsMap,
          RequestPackageName(req.packageName, currentPackageRoot));
        && warnings == {} && staticResourcesMap == old(staticResourcesMap)
        && (lookup.Err? ==> r == Err(lookup.error) && !missingName && extractedFilesMap == old(extractedFilesMap))
        && (lookup.Ok? ==>
              var named := NamedFile(lookup.value, options.typeExt(req.fileType));
              && r == Ok(named.0) && missingName == named.1
              && extractedFilesMap == old(extractedFilesMap)[ExtractedKeyFor(req) := named.0])
    {
      var key := ExtractedKeyFor(req);
      if key in extractedFilesMap && extractedFilesMap[key] != "" {
        return Ok(extractedFilesMap[key]), false, {};
      }
      if req.isStatic {
        var file;
        file, warnings := ExtractStatic(req);
        r, missingName := Ok(file), false;
      } else {
        r, missingName := ExtractNamed(req);
        warnings := {};
      }
    }

    /** A cache miss on a static resource: place it, then cache its output path. */
    method ExtractStatic(req: ExtractRequest) returns (file: string, warnings: set<AuditWarning>)
      requires Valid() && ExtractedKeyFor(req) !in extractedFilesMap
      modifies this`extractedFilesMap, this`componentsMap, this`staticResourcesMap, this`subpackageModulesMap
      ensures Valid()
      ensures subpackageModulesMap == old(subpackageModulesMap) && componentsMap == old(componentsMap)
      ensures var placed := Resolve(old(staticResourcesMap),
          PlacementRequest(req.resourcePath, StaticResources, Some(StaticTemplateFor(req))), ContextFor(req.resourcePath));
        && file == placed.info.outputPath.value && warnings == placed.warnings
        && staticResourcesMap == placed.after
        && extractedFilesMap == old(extractedFilesMap)[ExtractedKeyFor(req) := file]
    {
      var info;
      info, warnings := GetPackageInfo(req.resourcePath, StaticResources, Some(StaticTemplateFor(req)));
      file := info.outputPath.value;
      extractedFilesMap := extractedFilesMap[ExtractedKeyFor(req) := file];
    }

    /** A cache miss on a page or component: name it from the tables, then cache the name. */
    method ExtractNamed(req: ExtractRequest) returns (r: Result<string, ExtractError>, missingName: bool)
      requires Valid() && ExtractedKeyFor(req) !in extractedFilesMap
      modifies this`extractedFilesMap
      ensures Valid()
      ensures var lookup := LookupName(appInfo, req, pagesMap, componentsMap,
          RequestPackageName(req.packageName, currentPackageRoot));
        && (lookup.Err? ==> r == Err(lookup.error) && !missingName && extractedFilesMap == old(extractedFilesMap))
        && (lookup.Ok? ==>
              var named := NamedFile(lookup.value, options.typeExt(req.fileType));
              && r == Ok(named.0) && missingName == named.1
              && extractedFilesMap == old(extractedFilesMap)[ExtractedKeyFor(req) := named.0])
    {
      var lookup := LookupName(appInfo, req, pagesMap, componentsMap,
        RequestPackageName(req.packageName, currentPackageRoot));
      if lookup.Err? {
        return Err(lookup.error), false;
      }
      var named := NamedFile(lookup.value, options.typeExt(req.fileType));
      assert |named.0| > |options.typeExt(req.fileType)|;
      extractedFilesMap := extractedFilesMap[ExtractedKeyFor(req) := named.0];
      r, missingName := Ok(named.0), named.1;
    }

    /** The node already filed under `request`, as a frame. */
    function NodeFor(request: string): set<EntryNode>
      reads this
    {
      if request in entryNodesMap then {entryNodesMap[request]} else {}
    }

    /**
     * `getEntryNode`: one node per request, created on first use. A type
     * different from the node's pushes an error and the node keeps its first
     * type; a supplied module is attached to the node and mapped to it.
     */
    method GetEntryNode(request: string, entryType: string, entryModule: Option<ModuleHandle>) returns (node: EntryNode)
      requires Valid()
      modifies this`entryNodesMap, this`entryModulesMap, this`errors, NodeFor(request)`entryModule
      ensures Valid()
      ensures node.request == request
      ensures request in old(entryNodesMap) ==>
        node == old(entryNodesMap[request]) && entryNodesMap == old(entryNodesMap)
      ensures request !in old(entryNodesMap) ==>
        && fresh(node) && node.entryType == entryType && node.parents == {} && node.children == {}
        && entryNodesMap == old(entryNodesMap)[request := node]
      ensures errors == old(errors) +
        if node.entryType == entryType then [] else [EntryTypeConflict(request, entryType, node.entryType)]
      ensures entryModule.Some? ==> node.entryModule == entryModule && entryModulesMap == old(entryModulesMap)[entryModule.value := node]
      ensures entryModule.None? ==> entryModulesMap == old(entryModulesMap)
      ensures entryModule.None? && request in old(entryNodesMap) ==> node.entryModule == old(node.entryModule)
      ensures entryModule.None? && request !in old(entryNodesMap) ==> node.entryModule == None
    {
      if request !in entryNodesMap {
        var created := new EntryNode(request, entryType);
        ghost var before := entryNodesMap;
        entryNodesMap := entryNodesMap[request := created];
        forall m | m in entryModulesMap ensures entryModulesMap[m] in entryNodesMap.Values {
          var r :| r in before && before[r] == entryModulesMap[m];
          assert entryNodesMap[r] == before[r];
        }
      }
      node := entryNodesMap[request];
      assert node in entryNodesMap.Values;
      if node.entryType != entryType {
        errors := errors + [EntryTypeConflict(request, entryType, node.entryType)];
      }
      if entryModule.Some? {
        node.entryModule := entryModule;
        entryModulesMap := entryModulesMap[entryModule.value := node];
      }
    }
  }
}
