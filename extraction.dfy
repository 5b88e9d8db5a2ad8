/**
 * The naming rules behind `getExtractedFile` (packages/webpack-plugin/lib/index.js):
 * the cache key, the template of a static resource's output path, and the
 * name lookup for the app, pages and components.
 */
module Extraction {
  import opened Wrappers
  import opened Placement

  /** `mpx.appInfo` when it is set: the app's request and its output name. */
  datatype AppInfo = AppInfo(resource: string, name: string)

  /**
   * The parts of `parseRequest(resource)` that `getExtractedFile` reads: the
   * full request, its resource path, and the `type` (here `fileType`), `isStatic` and
   * `packageName` query fields (`packageName` is "" when absent).
   */
  datatype ExtractRequest = ExtractRequest(
    resource: string,
    resourcePath: string,
    fileType: string,
    isStatic: bool,
    packageName: string)

  /** The two places where the source throws a TypeError. */
  datatype ExtractError =
    | AppInfoMissing                        // `appInfo.resource` with `appInfo` still null
    | ComponentsMapMissing(packageName: string)  // `componentsMap[resourcePath]` on an undefined package map

  const MissingFilename: string := "missing-filename"

  /** The package a request is extracted for: its `packageName` query if set, else the current package. */
  function RequestPackageName(queryPackageName: string, currentPackageRoot: string): (name: string)
    ensures name != ""
    ensures queryPackageName != "" ==> name == queryPackageName
    ensures queryPackageName == "" ==> name == PackageNameOf(currentPackageRoot)
  {
    if queryPackageName != "" then queryPackageName else PackageNameOf(currentPackageRoot)
  }

  /** The cache key: resource path, type and package, separated by '|'. */
  function ExtractedKey(resourcePath: string, fileType: string, packageName: string): (key: string)
    ensures |key| == |resourcePath| + |fileType| + |packageName| + 2
    ensures key[..|resourcePath|] == resourcePath && key[|resourcePath|] == '|'
    ensures key[|resourcePath| + 1..|resourcePath| + 1 + |fileType|] == fileType
    ensures key[|resourcePath| + 1 + |fileType|] == '|'
    ensures key[|key| - |packageName|..] == packageName
  {
    resourcePath + "|" + fileType + "|" + packageName
  }

  /** Requests that differ in resource path, type or package never share a key, unless a part itself contains '|'. */
  lemma {:induction false} ExtractedKeyInjective(p1: string, t1: string, n1: string, p2: string, t2: string, n2: string)
    requires forall i :: 0 <= i < |p1| ==> p1[i] != '|'
    requires forall i :: 0 <= i < |p2| ==> p2[i] != '|'
    requires forall i :: 0 <= i < |t1| ==> t1[i] != '|'
    requires forall i :: 0 <= i < |t2| ==> t2[i] != '|'
    requires ExtractedKey(p1, t1, n1) == ExtractedKey(p2, t2, n2)
    ensures p1 == p2 && t1 == t2 && n1 == n2
  {
    assert ExtractedKey(p1, t1, n1) == p1 + "|" + (t1 + "|" + n1);
    assert ExtractedKey(p2, t2, n2) == p2 + "|" + (t2 + "|" + n2);
    SplitAtFirstBar(p1, t1 + "|" + n1, p2, t2 + "|" + n2);
    SplitAtFirstBar(t1, n1, t2, n2);
  }

  /** Splitting at the first '|' recovers both halves. */
  lemma {:induction false} SplitAtFirstBar(a1: string, b1: string, a2: string, b2: string)
    requires forall i :: 0 <= i < |a1| ==> a1[i] != '|'
    requires forall i :: 0 <= i < |a2| ==> a2[i] != '|'
    requires a1 + "|" + b1 == a2 + "|" + b2
    ensures a1 == a2 && b1 == b2
  {
    var s := a1 + "|" + b1;
    // the shorter prefix is followed by '|', which the longer one does not contain
    if |a1| < |a2| {
      BarAfterShorterPrefix(a1, b1, a2, b2);
      assert false;
    } else if |a2| < |a1| {
      BarAfterShorterPrefix(a2, b2, a1, b1);
      assert false;
    }
    assert a1 == s[..|a1|] == a2;
    assert b1 == s[|a1| + 1..] == b2;
  }

  lemma BarAfterShorterPrefix(a1: string, b1: string, a2: string, b2: string)
    requires a1 + "|" + b1 == a2 + "|" + b2
    requires |a1| < |a2|
    ensures a2[|a1|] == '|'
  {
    assert (a1 + "|" + b1)[|a1|] == '|';
  }

  /** The text of a registry value as a file name: a recorded path, or "true" for the claim marker. */
  function EntryText(e: Entry): (text: string)
    ensures Truthy(e) ==> text != ""
  {
    match e
    case Path(p) => p
    case Reserved => "true"
  }

  /** The template a static resource is placed with: its type directory, then name, hash and extension. */
  function StaticTemplate(fileType: string, resourceName: string, pathHash: string, ext: string): (t: string)
    ensures HasOutputPath(Some(t))
  {
    Join(fileType, resourceName + pathHash + ext)
  }

  /** The outcome of the name lookup: a name, or none (the `missing-filename` case). */
  datatype NameLookup = Named(name: string) | Unnamed

  /** `pagesMap[resourcePath]` is truthy. */
  predicate PageNamed(pagesMap: map<string, string>, resourcePath: string)
  {
    resourcePath in pagesMap && pagesMap[resourcePath] != ""
  }

  /**
   * The name of a page, component or the app (index.js:467): the app's name
   * when the request is the app's own, else the page's name when it has one,
   * else the name recorded in the component table of `packageName`.
   */
  function LookupName(
    appInfo: Option<AppInfo>, req: ExtractRequest, pagesMap: map<string, string>,
    componentsMap: ResourceMap, packageName: string): (r: Result<NameLookup, ExtractError>)
    // the two TypeErrors
    ensures r == Err(AppInfoMissing) <==> appInfo.None?
    ensures r == Err(ComponentsMapMissing(packageName)) <==>
      appInfo.Some? && req.resource != appInfo.value.resource
      && !PageNamed(pagesMap, req.resourcePath) && packageName !in componentsMap
    ensures r.Err? ==> r == Err(AppInfoMissing) || r == Err(ComponentsMapMissing(packageName))
    // a name found is never empty; the app's own name, then the page table, then the component table
    ensures r.Ok? && r.value.Named? ==> r.value.name != ""
    ensures r.Ok? && req.resource == appInfo.value.resource ==>
      r.value == if appInfo.value.name != "" then Named(appInfo.value.name) else Unnamed
    ensures r.Ok? && req.resource != appInfo.value.resource && PageNamed(pagesMap, req.resourcePath) ==>
      r.value == Named(pagesMap[req.resourcePath])
    ensures r.Ok? && req.resource != appInfo.value.resource && !PageNamed(pagesMap, req.resourcePath) ==>
      r.value == if Claims(componentsMap[packageName], req.resourcePath)
                 then Named(EntryText(componentsMap[packageName][req.resourcePath]))
                 else Unnamed
  {
    if appInfo.None? then Err(AppInfoMissing)
    else if req.resource == appInfo.value.resource then
      Ok(if appInfo.value.name != "" then Named(appInfo.value.name) else Unnamed)
    else if PageNamed(pagesMap, req.resourcePath) then
      Ok(Named(pagesMap[req.resourcePath]))
    else if packageName !in componentsMap then
      Err(ComponentsMapMissing(packageName))
    else if Claims(componentsMap[packageName], req.resourcePath) then
      Ok(Named(EntryText(componentsMap[packageName][req.resourcePath])))
    else
      Ok(Unnamed)
  }

  /**
   * The file name of a page or component: its name plus the extension of its
   * type, or `missing-filename` plus that extension, in which case an error is
   * reported (`missing` is true).
   */
  function NamedFile(lookup: NameLookup, ext: string): (r: (string, bool))
    ensures r.1 <==> lookup.Unnamed?
    ensures |r.0| >= |ext| && r.0[|r.0| - |ext|..] == ext
    ensures r.0[..|r.0| - |ext|] == if lookup.Named? then lookup.name else MissingFilename
  {
    match lookup
    case Named(name) => (name + ext, false)
    case Unnamed => (MissingFilename + ext, true)
  }
}
