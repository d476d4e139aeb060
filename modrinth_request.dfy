/** Searching the Modrinth registry and choosing the files of one mod:
    the sorting filter, the search URL with its facets, the lookup loop of
    `download_mod` and the version scan of `extract_files`. */
module ModrinthRequest {
  import opened Wrappers
  import opened Text
  import opened JsonValue

  const SEARCH_API_END_POINT: string := "https://api.modrinth.com/v2/search"
  const PROJECT_API: string := "https://api.modrinth.com/v2/project/"
  const MOD_LOADERS: seq<string> :=
    ["fabric", "forge", "quilt", "neoforge", "liteloader", "modloader", "rift"]
  const FILTERS: seq<string> := ["relevance", "downloads", "follows", "newest", "updated"]
  const DEFAULT_LIMIT: nat := 10
  const DEFAULT_OFFSET: nat := 0
  const DEFAULT_FILE_NAME: string := "mod_file.zip"

  // =====================================================================
  // Sorting filter
  // =====================================================================

  datatype SortingFilter = Relevance | Downloads | Follows | Newest | Updated

  /** The `index` parameter the registry expects for a filter. */
  function GetFilter(filter: SortingFilter): (name: string)
    ensures name in FILTERS && IsLowerCase(name)
  {
    match filter
    case Relevance => FILTERS[0]
    case Downloads => FILTERS[1]
    case Follows => FILTERS[2]
    case Newest => FILTERS[3]
    case Updated => FILTERS[4]
  }

  /** `ModrinthSortingFilter::with`: the filter whose name the text is, in any
      casing; `None` for any other text and for no text. */
  function With(maybeFilter: Option<string>): (r: Option<SortingFilter>)
    ensures r.Some? <==> maybeFilter.Some? && ToLower(maybeFilter.value) in FILTERS
    ensures r.Some? ==> GetFilter(r.value) == ToLower(maybeFilter.value)
  {
    match maybeFilter
    case None => None
    case Some(text) =>
      var value := ToLower(text);
      if value == FILTERS[0] then Some(Relevance)
      else if value == FILTERS[1] then Some(Downloads)
      else if value == FILTERS[2] then Some(Follows)
      else if value == FILTERS[3] then Some(Newest)
      else if value == FILTERS[4] then Some(Updated)
      else None
  }

  /** Distinct filters have distinct names. */
  lemma GetFilterInjective(f: SortingFilter, g: SortingFilter)
    ensures GetFilter(f) == GetFilter(g) ==> f == g
  {
    if f != g {
      assert GetFilter(f)[0] != GetFilter(g)[0] || |GetFilter(f)| != |GetFilter(g)|;
    }
  }

  /** Parsing the name of a filter gives the filter back. */
  lemma WithGetFilterRoundTrip(filter: SortingFilter)
    ensures With(Some(GetFilter(filter))) == Some(filter)
  {
    LowerCaseUnchanged(GetFilter(filter));
    var r := With(Some(GetFilter(filter)));
    GetFilterInjective(r.value, filter);
  }

  /** Any casing of a filter's name parses to that filter. */
  lemma WithIgnoresCase(text: string, filter: SortingFilter)
    requires ToLower(text) == GetFilter(filter)
    ensures With(Some(text)) == Some(filter)
  {
    var r := With(Some(text));
    GetFilterInjective(r.value, filter);
  }

  // =====================================================================
  // Search URL
  // =====================================================================

  function VersionFacet(version: string): string {
    "versions:" + version
  }

  function LoaderFacet(loader: string): string {
    "categories:" + loader
  }

  /** The facets `search_modrinth_mod` pushes: the version facet when a version
      is given, then a loader facet when the loader is one of MOD_LOADERS. */
  function Facets(modVersion: Option<string>, modLoader: Option<string>): seq<string> {
    (if modVersion.Some? then [VersionFacet(modVersion.value)] else [])
    + (if modLoader.Some? && modLoader.value in MOD_LOADERS then [LoaderFacet(modLoader.value)] else [])
  }

  /** `json!(facets)`: an array of one-string arrays, written compactly. */
  function FacetsJson(facets: seq<string>): string {
    "[" + JoinOn(seq(|facets|, i requires 0 <= i < |facets| => "[" + Quote(facets[i]) + "]"), ',') + "]"
  }

  /** The URL `search_modrinth_mod` requests. The facets JSON follows the query
      text directly: there is no `&facets=` key in front of it. */
  function SearchUrl(modName: string, modVersion: Option<string>, modLoader: Option<string>,
                     maxModNumber: Option<nat>, sorting: Option<SortingFilter>, offset: Option<nat>): string
  {
    SEARCH_API_END_POINT
    + ("?query=" + modName)
    + FacetsJson(Facets(modVersion, modLoader))
    + ("&limit=" + NatToString(maxModNumber.GetOr(DEFAULT_LIMIT)))
    + ("&index=" + (if sorting.Some? then GetFilter(sorting.value) else FILTERS[0]))
    + ("&offset=" + NatToString(offset.GetOr(DEFAULT_OFFSET)))
  }

  predicate Distinct(names: seq<string>) {
    forall i, j :: 0 <= i < j < |names| ==> names[i] != names[j]
  }

  /** The loader facets the loop over `names` pushes for `loader`: one per equal name. */
  function LoaderMatches(names: seq<string>, loader: string): seq<string> {
    if names == [] then []
    else
      var last := names[|names| - 1];
      LoaderMatches(names[..|names| - 1], loader) + (if last == loader then [LoaderFacet(last)] else [])
  }

  /** Over distinct names the loop pushes the loader facet at most once. */
  lemma {:induction false} LoaderMatchesAtMostOnce(names: seq<string>, loader: string)
    requires Distinct(names)
    ensures LoaderMatches(names, loader) == if loader in names then [LoaderFacet(loader)] else []
  {
    if names != [] {
      var init := names[..|names| - 1];
      var last := names[|names| - 1];
      assert names == init + [last];
      assert Distinct(init);
      LoaderMatchesAtMostOnce(init, loader);
      if last == loader {
        assert loader !in init;
      }
    }
  }

  lemma ModLoadersDistinct()
    ensures Distinct(MOD_LOADERS)
  {
  }

  /** The facet loop of `search_modrinth_mod`: a loader facet for every entry
      of MOD_LOADERS equal to `loader`. */
  method PushLoaderFacets(facets: seq<string>, loader: string) returns (pushed: seq<string>)
    ensures pushed == facets + (if loader in MOD_LOADERS then [LoaderFacet(loader)] else [])
  {
    pushed := facets;
    var loaders := MOD_LOADERS;
    for i := 0 to |loaders|
      invariant pushed == facets + LoaderMatches(loaders[..i], loader)
    {
      assert loaders[..i + 1][..i] == loaders[..i];
      if loader == loaders[i] {
        pushed := pushed + [LoaderFacet(loaders[i])];
      }
    }
    assert loaders[..|loaders|] == loaders;
    ModLoadersDistinct();
    LoaderMatchesAtMostOnce(loaders, loader);
  }

  /** A search for `modName` requests this URL. */
  method BuildSearchUrl(modName: string, modVersion: Option<string>, modLoader: Option<string>,
                        maxModNumber: Option<nat>, sorting: Option<SortingFilter>, offset: Option<nat>)
    returns (url: string)
    ensures url == SearchUrl(modName, modVersion, modLoader, maxModNumber, sorting, offset)
  {
    var query := "?query=" + modName;
    var facets: seq<string> := [];
    if modVersion.Some? {
      facets := facets + [VersionFacet(modVersion.value)];
    }
    if modLoader.Some? {
      facets := PushLoaderFacets(facets, modLoader.value);
    }
    assert facets == Facets(modVersion, modLoader);
    var limit := "&limit=" + NatToString(if maxModNumber.Some? then maxModNumber.value else DEFAULT_LIMIT);
    var index := "&index=" + (if sorting.Some? then GetFilter(sorting.value) else FILTERS[0]);
    var skip := "&offset=" + NatToString(if offset.Some? then offset.value else DEFAULT_OFFSET);
    url := SEARCH_API_END_POINT + query + FacetsJson(facets) + limit + index + skip;
  }

  /** Without a limit, a sorting filter and an offset the search asks for ten
      hits sorted by relevance from the first one. */
  lemma SearchUrlDefaults(modName: string, modVersion: Option<string>, modLoader: Option<string>)
    ensures SearchUrl(modName, modVersion, modLoader, None, None, None)
      == SEARCH_API_END_POINT + ("?query=" + modName) + FacetsJson(Facets(modVersion, modLoader))
         + "&limit=10" + "&index=relevance" + "&offset=0"
  {
    assert NatToString(10) == "10";
    assert NatToString(0) == "0";
    assert "&limit=" + NatToString(10) == "&limit=10";
    assert "&offset=" + NatToString(0) == "&offset=0";
  }

  /** A `versions:` facet is sent exactly for the version given. */
  lemma VersionFacetIff(modVersion: Option<string>, modLoader: Option<string>, version: string)
    ensures VersionFacet(version) in Facets(modVersion, modLoader) <==> modVersion == Some(version)
  {
    var facets := Facets(modVersion, modLoader);
    if VersionFacet(version) in facets {
      if modLoader.Some? && modLoader.value in MOD_LOADERS {
        assert LoaderFacet(modLoader.value)[0] != VersionFacet(version)[0];
      }
      assert modVersion.Some?;
      assert VersionFacet(version)[9..] == version;
      assert VersionFacet(modVersion.value)[9..] == modVersion.value;
    }
  }

  /** A `categories:` facet is sent exactly for a loader given and listed in MOD_LOADERS. */
  lemma LoaderFacetIff(modVersion: Option<string>, modLoader: Option<string>, loader: string)
    ensures LoaderFacet(loader) in Facets(modVersion, modLoader)
      <==> modLoader == Some(loader) && loader in MOD_LOADERS
  {
    var facets := Facets(modVersion, modLoader);
    if LoaderFacet(loader) in facets {
      if modVersion.Some? {
        assert LoaderFacet(loader)[0] != VersionFacet(modVersion.value)[0];
      }
      assert modLoader.Some?;
      assert LoaderFacet(loader)[11..] == loader;
      assert LoaderFacet(modLoader.value)[11..] == modLoader.value;
    }
  }

  /** When both facets are sent the version facet comes first. */
  lemma VersionFacetFirst(version: string, loader: string)
    requires loader in MOD_LOADERS
    ensures Facets(Some(version), Some(loader)) == [VersionFacet(version), LoaderFacet(loader)]
  {
  }

  // =====================================================================
  // extract_files
  // =====================================================================

  /** A version entry stops the whole scan when a version is asked for and the
      entry has no `game_versions` array (the `?` in the source). */
  predicate StopsScan(entry: Value, version: Option<string>) {
    version.Some? && AsArray(Index(entry, "game_versions")).None?
  }

  /** A version entry whose files are returned when the scan reaches it. */
  predicate Qualifies(entry: Value, version: Option<string>) {
    && !StopsScan(entry, version)
    && (version.Some? ==> Str(version.value) in AsArray(Index(entry, "game_versions")).value)
    && AsArray(Index(entry, "files")).Some?
  }

  function FilesOf(entry: Value): seq<Value> {
    AsArray(Index(entry, "files")).GetOr([])
  }

  /** The scan of `extract_files` over the entries of a version list. */
  function ScanVersions(entries: seq<Value>, version: Option<string>): Option<seq<Value>> {
    if entries == [] then None
    else if StopsScan(entries[0], version) then None
    else if Qualifies(entries[0], version) then Some(FilesOf(entries[0]))
    else ScanVersions(entries[1..], version)
  }

  /** `i` is the entry the scan stops at with a result: it qualifies and every
      entry before it neither qualifies nor stops the scan. */
  predicate FirstQualifying(entries: seq<Value>, version: Option<string>, i: int) {
    && 0 <= i < |entries|
    && Qualifies(entries[i], version)
    && forall j :: 0 <= j < i ==> !Qualifies(entries[j], version) && !StopsScan(entries[j], version)
  }

  /** The scan returns files exactly when some entry is the first qualifying
      one, and then it returns that entry's files. */
  lemma {:induction false} ScanPicksFirstQualifying(entries: seq<Value>, version: Option<string>)
    ensures ScanVersions(entries, version).Some? <==> exists i :: FirstQualifying(entries, version, i)
    ensures forall i :: FirstQualifying(entries, version, i) ==>
      ScanVersions(entries, version) == Some(FilesOf(entries[i]))
  {
    if entries != [] && !StopsScan(entries[0], version) && !Qualifies(entries[0], version) {
      var rest := entries[1..];
      ScanPicksFirstQualifying(rest, version);
      forall i | FirstQualifying(entries, version, i)
        ensures i >= 1 && FirstQualifying(rest, version, i - 1)
      {
      }
      if ScanVersions(rest, version).Some? {
        var k :| FirstQualifying(rest, version, k);
        assert FirstQualifying(entries, version, k + 1);
      }
    } else if entries != [] && Qualifies(entries[0], version) {
      assert FirstQualifying(entries, version, 0);
    }
  }

  /** Without a requested version nothing stops the scan: it fails only when no
      entry has a `files` array. */
  lemma {:induction false} ScanWithoutVersion(entries: seq<Value>)
    ensures ScanVersions(entries, None).None? <==>
      forall i :: 0 <= i < |entries| ==> AsArray(Index(entries[i], "files")).None?
  {
    if entries != [] {
      ScanWithoutVersion(entries[1..]);
      if AsArray(Index(entries[0], "files")).None? {
        forall i | 1 <= i < |entries| ensures entries[i] == entries[1..][i - 1] { }
      }
    }
  }

  /** What `extract_files` returns for a response: the scan of its entries when
      it is an array, `None` otherwise. */
  function ExtractedFiles(data: Value, version: Option<string>): Option<seq<Value>> {
    if data.Array? then ScanVersions(data.items, version) else None
  }

  // =====================================================================
  // download_mod
  // =====================================================================

  /** `https://api.modrinth.com/v2/project/{id}/version` */
  function ProjectVersionsUrl(id: string): string {
    PROJECT_API + id + "/version"
  }

  /** The by-name search `download_mod` sends: quoted query, mods only. */
  function NameSearchUrl(name: string): string {
    SEARCH_API_END_POINT + "?query=\"" + name + "\"&facets=[[\"project_type:mod\"]]"
  }

  /** The stdin choice `n` among `count` hits is accepted iff 1 <= n <= count. */
  predicate AcceptedChoice(choice: Option<nat>, count: nat) {
    choice.Some? && 0 < choice.value <= count
  }

  /** A file `download_mod` fetches and writes. */
  datatype Download = Download(url: string, path: string)

  /** How `download_mod` ends. `MissingIdAndName` and `MissingProjectId` are panics. */
  datatype DownloadEnd =
    | Downloaded
    | NoSuitableFiles
    | InvalidSelection
    | FetchFailed
    | MissingIdAndName
    | MissingProjectId

  /** Everything `download_mod` does that the model keeps: the final value of the
      caller's `mod_id`, the lookup URLs requested in order, the files written,
      and how it ends. */
  datatype DownloadRun = DownloadRun(
    modId: Option<string>,
    requested: seq<string>,
    downloads: seq<Download>,
    end: DownloadEnd)

  /** The download attempted for one file entry: only entries with a `url`
      string, written under their `filename` or "mod_file.zip". */
  function FileDownload(file: Value, dir: string): seq<Download> {
    match AsStr(Index(file, "url"))
    case None => []
    case Some(url) => [Download(url, Join(dir, AsStr(Index(file, "filename")).GetOr(DEFAULT_FILE_NAME)))]
  }

  function PlannedDownloads(files: seq<Value>, dir: string): seq<Download> {
    if files == [] then []
    else PlannedDownloads(files[..|files| - 1], dir) + FileDownload(files[|files| - 1], dir)
  }

  /** When every file entry has a URL, there is one download per entry, in order. */
  lemma {:induction false} DownloadsFollowFiles(files: seq<Value>, dir: string)
    requires forall i :: 0 <= i < |files| ==> AsStr(Index(files[i], "url")).Some?
    ensures |PlannedDownloads(files, dir)| == |files|
    ensures forall i :: 0 <= i < |files| ==>
      PlannedDownloads(files, dir)[i] == Download(AsStr(Index(files[i], "url")).value,
                                                  Join(dir, AsStr(Index(files[i], "filename")).GetOr(DEFAULT_FILE_NAME)))
  {
    if files != [] {
      var init := files[..|files| - 1];
      DownloadsFollowFiles(init, dir);
    }
  }

  /** A file entry without a URL adds no download. */
  lemma {:induction false} DownloadsAtMostFiles(files: seq<Value>, dir: string)
    ensures |PlannedDownloads(files, dir)| <= |files|
  {
    if files != [] {
      DownloadsAtMostFiles(files[..|files| - 1], dir);
    }
  }

  function ResolveFiles(id: Option<string>, requested: seq<string>, data: Value,
                        version: Option<string>, dir: string): DownloadRun {
    match ExtractedFiles(data, version)
    case None => DownloadRun(id, requested, [], NoSuitableFiles)
    case Some(files) => DownloadRun(id, requested, PlannedDownloads(files, dir), Downloaded)
  }

  /** A round of the loop once the project id is known. */
  function ByIdRound(id: string, prior: seq<string>, version: Option<string>, dir: string,
                     fetch: string -> Option<Value>): DownloadRun {
    var url := ProjectVersionsUrl(id);
    match fetch(url)
    case None => DownloadRun(Some(id), prior + [url], [], FetchFailed)
    case Some(data) => ResolveFiles(Some(id), prior + [url], data, version, dir)
  }

  /** What `download_mod` does, given the registry's answers (`fetch`, `None`
      for a failed request or unparsable body) and the number read from stdin
      (`choice`, `None` when it does not parse). */
  function DownloadModRun(modId: Option<string>, modName: Option<string>, version: Option<string>,
                          dir: string, fetch: string -> Option<Value>, choice: Option<nat>): DownloadRun {
    if modId.Some? then ByIdRound(modId.value, [], version, dir, fetch)
    else if modName.None? then DownloadRun(None, [], [], MissingIdAndName)
    else
      var url := NameSearchUrl(modName.value);
      match fetch(url)
      case None => DownloadRun(None, [url], [], FetchFailed)
      case Some(data) =>
        var hits := AsArray(Index(data, "hits"));
        if hits.None? || |hits.value| <= 1 then ResolveFiles(None, [url], data, version, dir)
        else if !AcceptedChoice(choice, |hits.value|) then DownloadRun(None, [url], [], InvalidSelection)
        else match AsStr(Index(hits.value[choice.value - 1], "project_id"))
          case None => DownloadRun(None, [url], [], MissingProjectId)
          case Some(projectId) => ByIdRound(projectId, [url], version, dir, fetch)
  }

  /** A known id is looked up directly: one request, to the project's version
      list, no search, no prompt, and the id stays as it was. */
  lemma KnownIdSkipsSearch(id: string, name1: Option<string>, name2: Option<string>, version: Option<string>,
                           dir: string, fetch: string -> Option<Value>, choice1: Option<nat>, choice2: Option<nat>)
    ensures DownloadModRun(Some(id), name1, version, dir, fetch, choice1).requested == [ProjectVersionsUrl(id)]
    ensures DownloadModRun(Some(id), name1, version, dir, fetch, choice1).modId == Some(id)
    ensures DownloadModRun(Some(id), name1, version, dir, fetch, choice1)
         == DownloadModRun(Some(id), name2, version, dir, fetch, choice2)
  {
  }

  /** With several hits, the choice is accepted exactly when it is between 1 and
      the number of hits. */
  lemma ChoiceAcceptedIff(name: string, version: Option<string>, dir: string,
                          fetch: string -> Option<Value>, choice: Option<nat>, hits: seq<Value>)
    requires fetch(NameSearchUrl(name)).Some?
    requires AsArray(Index(fetch(NameSearchUrl(name)).value, "hits")) == Some(hits)
    requires |hits| > 1
    ensures DownloadModRun(None, Some(name), version, dir, fetch, choice).end != InvalidSelection
      <==> AcceptedChoice(choice, |hits|)
  {
    var run := DownloadModRun(None, Some(name), version, dir, fetch, choice);
    if AcceptedChoice(choice, |hits|) {
      match AsStr(Index(hits[choice.value - 1], "project_id"))
      case None =>
      case Some(projectId) =>
        var url := ProjectVersionsUrl(projectId);
        if fetch(url).Some? {
          assert run == ResolveFiles(Some(projectId), [NameSearchUrl(name), url], fetch(url).value, version, dir);
        }
    }
  }

  /** An accepted choice n makes `mod_id` the `project_id` of hit n, and that
      project's version list is requested next. */
  lemma ChoiceSetsModId(name: string, version: Option<string>, dir: string,
                        fetch: string -> Option<Value>, n: nat, hits: seq<Value>, projectId: string)
    requires fetch(NameSearchUrl(name)).Some?
    requires AsArray(Index(fetch(NameSearchUrl(name)).value, "hits")) == Some(hits)
    requires 1 < |hits| && 1 <= n <= |hits|
    requires AsStr(Index(hits[n - 1], "project_id")) == Some(projectId)
    ensures DownloadModRun(None, Some(name), version, dir, fetch, Some(n)).modId == Some(projectId)
    ensures DownloadModRun(None, Some(name), version, dir, fetch, Some(n)).requested
      == [NameSearchUrl(name), ProjectVersionsUrl(projectId)]
  {
  }

  /** A name search that needs no choice hands the search response itself to
      `extract_files`; being an object, it yields no files. */
  lemma FewHitsFindNoFiles(name: string, version: Option<string>, dir: string,
                           fetch: string -> Option<Value>, choice: Option<nat>)
    requires fetch(NameSearchUrl(name)).Some? && fetch(NameSearchUrl(name)).value.Object?
    requires var hits := AsArray(Index(fetch(NameSearchUrl(name)).value, "hits"));
             hits.None? || |hits.value| <= 1
    ensures DownloadModRun(None, Some(name), version, dir, fetch, choice).end == NoSuitableFiles
    ensures DownloadModRun(None, Some(name), version, dir, fetch, choice).downloads == []
  {
  }

  /** Files are only written by a run that found suitable files. */
  lemma DownloadsOnlyWhenDownloaded(modId: Option<string>, modName: Option<string>, version: Option<string>,
                                    dir: string, fetch: string -> Option<Value>, choice: Option<nat>)
    ensures DownloadModRun(modId, modName, version, dir, fetch, choice).downloads != []
      ==> DownloadModRun(modId, modName, version, dir, fetch, choice).end == Downloaded
  {
  }

  // =====================================================================
  // The MCMod record
  // =====================================================================

  class MCMod {
    var modName: Option<string>
    var modId: Option<string>
    var modVersion: Option<string>
    var modLoader: Option<string>
    var response: Option<Value>

    /** `MCMod::builder()`, i.e. `Default`: every field empty. */
    constructor Builder()
      ensures modName == None && modId == None && modVersion == None && modLoader == None
      ensures response == None
    {
      modName, modId, modVersion, modLoader := None, None, None, None;
      response := None;
    }

    /** `search_modrinth_mod`: requests the search URL and keeps the decoded
        answer; a failed request or body leaves `response` as it was. */
    method SearchModrinthMod(modName: string, modVersion: Option<string>, modLoader: Option<string>,
                             maxModNumber: Option<nat>, sorting: Option<SortingFilter>, offset: Option<nat>,
                             fetch: string -> Option<Value>)
      returns (url: string)
      modifies this`response
      ensures url == SearchUrl(modName, modVersion, modLoader, maxModNumber, sorting, offset)
      ensures response == if fetch(url).Some? then fetch(url) else old(response)
    {
      url := BuildSearchUrl(modName, modVersion, modLoader, maxModNumber, sorting, offset);
      var answer := fetch(url);
      if answer.Some? {
        response := answer;
      }
    }

    /** `extract_files`: the files of the first version entry that has a `files`
        array and, when a version is asked for, lists it in `game_versions`. */
    method ExtractFiles(data: Value, version: Option<string>) returns (files: Option<seq<Value>>)
      ensures files == ExtractedFiles(data, version)
    {
      if !data.Array? {
        return None;
      }
      var versions := data.items;
      for i := 0 to |versions|
        invariant ScanVersions(versions, version) == ScanVersions(versions[i..], version)
      {
        var versionData := versions[i];
        assert versions[i..][1..] == versions[i + 1..];
        if version.Some? {
          var gameVersions := AsArray(Index(versionData, "game_versions"));
          if gameVersions.None? {
            return None;
          }
          if Str(version.value) !in gameVersions.value {
            continue;
          }
        }
        var entryFiles := AsArray(Index(versionData, "files"));
        if entryFiles.Some? {
          return entryFiles;
        }
      }
      return None;
    }

    /** The download loop of `download_mod`: for each file entry with a URL, the
        file is fetched and written under its name in `dir`. */
    method PlanDownloads(entries: seq<Value>, dir: string) returns (downloads: seq<Download>)
      ensures downloads == PlannedDownloads(entries, dir)
    {
      downloads := [];
      for i := 0 to |entries|
        invariant downloads == PlannedDownloads(entries[..i], dir)
      {
        assert entries[..i + 1][..i] == entries[..i];
        var downloadUrl := AsStr(Index(entries[i], "url"));
        if downloadUrl.Some? {
          var fileName := AsStr(Index(entries[i], "filename"));
          var fullPath := Join(dir, if fileName.Some? then fileName.value else DEFAULT_FILE_NAME);
          downloads := downloads + [Download(downloadUrl.value, fullPath)];
        }
      }
      assert entries[..|entries|] == entries;
    }

    /** `download_mod`: the lookup loop. `mod_id` is the caller's variable, which
        the result's `modId` gives back; files go to `downloadPath`, or else to
        `currentDir`. */
    method DownloadMod(modId: Option<string>, modName: Option<string>, version: Option<string>,
                       downloadPath: Option<string>, currentDir: string,
                       fetch: string -> Option<Value>, choice: Option<nat>)
      returns (run: DownloadRun)
      ensures run == DownloadModRun(modId, modName, version, downloadPath.GetOr(currentDir), fetch, choice)
    {
      if modId.None? && modName.None? {
        return DownloadRun(None, [], [], MissingIdAndName);
      }
      var dir := if downloadPath.Some? then downloadPath.value else currentDir;
      var modIdOrName := if modId.Some? then modId.value else modName.value;
      var currentId := modId;
      var requested: seq<string> := [];
      while true
        invariant currentId.None? ==> modId.None? && modName == Some(modIdOrName) && requested == []
        invariant currentId.Some? ==>
          && currentId == Some(modIdOrName)
          && DownloadModRun(modId, modName, version, dir, fetch, choice)
             == ByIdRound(modIdOrName, requested, version, dir, fetch)
        decreases if currentId.None? then 1 else 0
      {
        var url := if currentId.Some? then ProjectVersionsUrl(modIdOrName) else NameSearchUrl(modIdOrName);
        var prior := requested;
        requested := requested + [url];
        var answer := fetch(url);
        if answer.None? {
          return DownloadRun(currentId, requested, [], FetchFailed);
        }
        var data := answer.value;
        if currentId.None? {
          var hits := AsArray(Index(data, "hits"));
          if hits.Some? && |hits.value| > 1 {
            var mods := hits.value;
            if !(choice.Some? && 0 < choice.value <= |mods|) {
              return DownloadRun(None, requested, [], InvalidSelection);
            }
            var projectId := AsStr(Index(mods[choice.value - 1], "project_id"));
            if projectId.None? {
              return DownloadRun(None, requested, [], MissingProjectId);
            }
            modIdOrName := projectId.value;
            currentId := Some(modIdOrName);
            continue;
          }
        }
        var files := ExtractFiles(data, version);
        if files.None? {
          return DownloadRun(currentId, requested, [], NoSuitableFiles);
        }
        var downloads := PlanDownloads(files.value, dir);
        return DownloadRun(currentId, requested, downloads, Downloaded);
      }
    }
  }
}
