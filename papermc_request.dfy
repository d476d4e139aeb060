/** Resolving a Paper server: the builds request, the choice of a build by its
    application name, the guarded download of the jar, the Java command line,
    and the record saved to and restored from MCA.json. */
module PaperRequest {
  import opened Wrappers
  import opened Text
  import opened Prompt
  import opened JsonValue
  import opened StateStore

  const PAPERMC_API: string := "https://api.papermc.io"
  /** The two pieces around the game version in the builds URL. */
  const BUILDS_PATH: string := "/v2/projects/paper/versions/"
  const BUILDS_SUFFIX: string := "/builds"
  const PROJECT: string := "paper"
  const EULA_FILE_NAME: string := "eula.txt"

  /** The fields of PaperMCRequest as MCA.json holds them. */
  datatype PaperRecord = PaperRecord(
    project: Option<string>,
    gameVersion: Option<string>,
    build: Option<int>,
    download: Option<string>,
    response: Option<Value>,
    serverPath: Option<string>,
    jarPath: Option<string>)

  // =====================================================================
  // Builds URL
  // =====================================================================

  /** The URL `check_build` requests: the build, when one is given, is
      appended right after `/builds`, with no slash in between. */
  function BuildsUrl(gameVersion: string, build: Option<string>): string {
    if build.None? then PAPERMC_API + BUILDS_PATH + gameVersion + BUILDS_SUFFIX
    else PAPERMC_API + BUILDS_PATH + gameVersion + BUILDS_SUFFIX + build.value
  }

  /** After the fixed path, the builds URL has two segments: the game version,
      and `builds` with the given build run into it. */
  lemma BuildsUrlSegments(gameVersion: string, build: Option<string>)
    requires '/' !in gameVersion
    requires build.Some? ==> '/' !in build.value
    ensures var url := BuildsUrl(gameVersion, build);
      var prefix := PAPERMC_API + BUILDS_PATH;
      && url[..|prefix|] == prefix
      && SplitOn(url[|prefix|..], '/') == [gameVersion, "builds" + build.GetOr("")]
  {
    var prefix := PAPERMC_API + BUILDS_PATH;
    var last := "builds" + build.GetOr("");
    var url := BuildsUrl(gameVersion, build);
    assert BUILDS_SUFFIX + build.GetOr("") == "/" + last;
    assert url == prefix + (gameVersion + "/" + last);
    assert url[|prefix|..] == gameVersion + "/" + last;
    SplitAfterFirst(gameVersion, '/', last);
    SplitFree(last, '/');
  }

  // =====================================================================
  // Builds and the choice among them
  // =====================================================================

  /** What `check_build` reads from one entry of the `builds` array. */
  datatype BuildEntry = BuildEntry(number: int, application: string)

  /** The unwrap chain of `check_build` on one entry: a numeric `build` and the
      string `downloads.application.name`; anything else panics. */
  function BuildOf(entry: Value): Option<BuildEntry> {
    var number := Index(entry, "build");
    var downloads := AsObject(Index(entry, "downloads"));
    if !number.Number? || downloads.None? || "application" !in downloads.value then None
    else
      var application := AsObject(downloads.value["application"]);
      if application.None? || "name" !in application.value then None
      else
        var name := AsStr(application.value["name"]);
        if name.None? then None else Some(BuildEntry(number.n, name.value))
  }

  /** The entries read one by one; a single malformed entry spoils the list. */
  function BuildsOf(entries: seq<Value>): (builds: Option<seq<BuildEntry>>)
    ensures builds.Some? <==> forall i :: 0 <= i < |entries| ==> BuildOf(entries[i]).Some?
    ensures builds.Some? ==>
      && |builds.value| == |entries|
      && forall i :: 0 <= i < |entries| ==> BuildOf(entries[i]) == Some(builds.value[i])
  {
    if entries == [] then Some([])
    else
      var first := BuildOf(entries[0]);
      var rest := BuildsOf(entries[1..]);
      if first.None? then None
      else if rest.None? then
        assert exists j :: 1 <= j < |entries| && BuildOf(entries[j]).None? by {
          var j :| 0 <= j < |entries| - 1 && BuildOf(entries[1..][j]).None?;
          assert entries[1..][j] == entries[j + 1];
        }
        None
      else Some([first.value] + rest.value)
  }

  /** The prompt's options: the application names, last build first. */
  function BuildOptions(builds: seq<BuildEntry>): (options: seq<string>)
    ensures |options| == |builds|
    ensures forall k :: 0 <= k < |options| ==> options[k] == builds[|builds| - 1 - k].application
  {
    Reverse(seq(|builds|, i requires 0 <= i < |builds| => builds[i].application))
  }

  /** The `find` of `check_build`: the first build, in fetched order, whose
      application name is the chosen one. */
  function FirstNamed(builds: seq<BuildEntry>, name: string): (found: Option<nat>)
    ensures found.Some? ==>
      && found.value < |builds|
      && builds[found.value].application == name
      && forall j :: 0 <= j < found.value ==> builds[j].application != name
    ensures found.None? <==> forall j :: 0 <= j < |builds| ==> builds[j].application != name
  {
    if builds == [] then None
    else if builds[0].application == name then Some(0)
    else
      var rest := FirstNamed(builds[1..], name);
      if rest.None? then None else Some(rest.value + 1)
  }

  /** The builds of a decoded answer, when it has a well-formed `builds` array. */
  function BuildsIn(response: Value): Option<seq<BuildEntry>> {
    var entries := AsArray(Index(response, "builds"));
    if entries.None? then None else BuildsOf(entries.value)
  }

  /** The options the prompt shows for a decoded answer; none when the answer
      has no well-formed `builds` array. */
  function OptionsOf(response: Value): seq<string> {
    if BuildsIn(response).None? then [] else BuildOptions(BuildsIn(response).value)
  }

  datatype CheckBuildEnd =
    | NoGameVersion        // returns before any request
    | RequestFailed        // the request or its body failed; nothing changes
    | NoBuildsPanic        // the answer has no `builds` array
    | MalformedBuildPanic  // an entry lacks a numeric `build` or an application name
    | PromptPanic          // the prompt had no options, or was cancelled
    | BuildRangePanic      // the chosen build number does not fit in an i64
    | Selected(build: int, download: string)

  /** Every option offered names a build, so the `find` always succeeds. */
  lemma OptionIsNamed(builds: seq<BuildEntry>, k: nat)
    requires k < |builds|
    ensures FirstNamed(builds, BuildOptions(builds)[k]).Some?
  {
    assert builds[|builds| - 1 - k].application == BuildOptions(builds)[k];
  }

  /** Option `k` chosen: the first build named like it, its number read as an i64. */
  function Pick(builds: seq<BuildEntry>, k: nat): CheckBuildEnd
    requires k < |builds|
  {
    var chosen := BuildOptions(builds)[k];
    OptionIsNamed(builds, k);
    var b := builds[FirstNamed(builds, chosen).value];
    var number := AsI64(Number(b.number));
    if number.None? then BuildRangePanic else Selected(number.value, b.application)
  }

  /** What `check_build` makes of a decoded answer and the prompt's answer. */
  function Selection(response: Value, answer: Answer): CheckBuildEnd
    requires Offered(answer, |OptionsOf(response)|)
  {
    if AsArray(Index(response, "builds")).None? then NoBuildsPanic
    else if BuildsIn(response).None? then MalformedBuildPanic
    else if BuildsIn(response).value == [] || answer.Cancelled? then PromptPanic
    else Pick(BuildsIn(response).value, answer.index)
  }

  /** The build selected is the first one, in fetched order, whose application
      name is the option chosen. */
  lemma PickIsFirstNamed(builds: seq<BuildEntry>, k: nat)
    requires k < |builds|
    requires Pick(builds, k).Selected?
    ensures Pick(builds, k).download == BuildOptions(builds)[k]
    ensures exists i :: && 0 <= i < |builds|
                        && builds[i] == BuildEntry(Pick(builds, k).build, Pick(builds, k).download)
                        && forall j :: 0 <= j < i ==> builds[j].application != Pick(builds, k).download
  {
    OptionIsNamed(builds, k);
    var i := FirstNamed(builds, BuildOptions(builds)[k]).value;
    assert builds[i] == BuildEntry(Pick(builds, k).build, Pick(builds, k).download);
  }

  /** When the application names are distinct, option `k` selects the build
      `k` places from the end of the fetched list. */
  lemma DistinctNamesPickReversed(builds: seq<BuildEntry>, k: nat)
    requires k < |builds|
    requires forall i, j :: 0 <= i < j < |builds| ==> builds[i].application != builds[j].application
    ensures var b := builds[|builds| - 1 - k];
      Pick(builds, k) == if I64_MIN <= b.number <= I64_MAX then Selected(b.number, b.application)
                         else BuildRangePanic
  {
    var chosen := BuildOptions(builds)[k];
    var found := FirstNamed(builds, chosen);
    assert builds[|builds| - 1 - k].application == chosen;
    assert found.value == |builds| - 1 - k;
  }

  /** The reading of the answer in `check_build`: the `builds` array, each
      entry's number and name, the prompt over the names last build first, and
      the `find` of the first build carrying the chosen name. */
  method ChooseBuild(response: Value, answer: Answer) returns (end: CheckBuildEnd)
    requires Offered(answer, |OptionsOf(response)|)
    ensures end == Selection(response, answer)
  {
    var entries := AsArray(Index(response, "builds"));
    if entries.None? {
      return NoBuildsPanic;
    }
    var parsed := BuildsOf(entries.value);
    if parsed.None? {
      return MalformedBuildPanic;
    }
    var options := BuildOptions(parsed.value);
    if options == [] || answer.Cancelled? {
      return PromptPanic;
    }
    var chosen := options[answer.index];
    OptionIsNamed(parsed.value, answer.index);
    var selected := parsed.value[FirstNamed(parsed.value, chosen).value];
    var number := AsI64(Number(selected.number));
    if number.None? {
      return BuildRangePanic;
    }
    return Selected(number.value, selected.application);
  }

  // =====================================================================
  // Download URL
  // =====================================================================

  /** `{api}/v2/projects/{project}/versions/{game}/builds/{build}/downloads/{download}` */
  function DownloadUrl(project: string, gameVersion: string, build: int, download: string): string {
    PAPERMC_API + "/v2/projects/" + project + "/versions/" + gameVersion + "/builds/" + IntToString(build)
    + "/downloads/" + download
  }

  /** Reads project, game version, build and file name back out of a download URL. */
  function ParseDownloadUrl(url: string): Option<(string, string, int, string)> {
    var prefix := PAPERMC_API + "/v2/projects/";
    if |url| < |prefix| || url[..|prefix|] != prefix then None
    else
      var parts := SplitOn(url[|prefix|..], '/');
      if |parts| == 7 && parts[1] == "versions" && parts[3] == "builds" && parts[5] == "downloads"
         && ParseInt(parts[4]).Some?
      then Some((parts[0], parts[2], ParseInt(parts[4]).value, parts[6]))
      else None
  }

  /** The last four segments of a download path split back apart. */
  lemma SplitBuildPath(number: string, download: string)
    requires '/' !in number && '/' !in download
    ensures SplitOn("builds" + "/" + (number + "/" + ("downloads" + "/" + download)), '/')
            == ["builds", number, "downloads", download]
  {
    var t5 := "downloads" + "/" + download;
    var t4 := number + "/" + t5;
    SplitFree(download, '/');
    SplitAfterFirst("downloads", '/', download);
    SplitAfterFirst(number, '/', t5);
    SplitAfterFirst("builds", '/', t4);
  }

  /** The seven segments of a download path split back apart. */
  lemma SplitDownloadPath(project: string, gameVersion: string, number: string, download: string)
    requires '/' !in project && '/' !in gameVersion && '/' !in number && '/' !in download
    ensures SplitOn(project + "/" + ("versions" + "/" + (gameVersion + "/" + ("builds" + "/" + (number + "/"
              + ("downloads" + "/" + download))))), '/')
            == [project, "versions", gameVersion, "builds", number, "downloads", download]
  {
    var t3 := "builds" + "/" + (number + "/" + ("downloads" + "/" + download));
    var t2 := gameVersion + "/" + t3;
    var t1 := "versions" + "/" + t2;
    var tail := ["builds", number, "downloads", download];
    SplitBuildPath(number, download);
    SplitAfterFirst(gameVersion, '/', t3);
    assert SplitOn(t2, '/') == [gameVersion] + tail;
    assert '/' !in "versions";
    SplitAfterFirst("versions", '/', t2);
    assert SplitOn(t1, '/') == ["versions", gameVersion] + tail;
    SplitAfterFirst(project, '/', t1);
    assert SplitOn(project + "/" + t1, '/') == [project, "versions", gameVersion] + tail;
  }

  /** The path of a download URL after `/v2/projects/`, one segment per field. */
  lemma DownloadUrlSegments(project: string, gameVersion: string, build: int, download: string)
    requires '/' !in project && '/' !in gameVersion && '/' !in download
    ensures var url := DownloadUrl(project, gameVersion, build, download);
      var prefix := PAPERMC_API + "/v2/projects/";
      && |prefix| <= |url| && url[..|prefix|] == prefix
      && SplitOn(url[|prefix|..], '/')
         == [project, "versions", gameVersion, "builds", IntToString(build), "downloads", download]
  {
    var prefix := PAPERMC_API + "/v2/projects/";
    var number := IntToString(build);
    var t0 := project + "/" + ("versions" + "/" + (gameVersion + "/" + ("builds" + "/" + (number + "/"
              + ("downloads" + "/" + download)))));
    var url := DownloadUrl(project, gameVersion, build, download);
    assert url == prefix + t0;
    assert url[|prefix|..] == t0;
    SplitDownloadPath(project, gameVersion, number, download);
  }

  /** The download URL determines the four fields it was built from, as long as
      none of the texts contains a slash. */
  lemma DownloadUrlRoundTrip(project: string, gameVersion: string, build: int, download: string)
    requires '/' !in project && '/' !in gameVersion && '/' !in download
    ensures ParseDownloadUrl(DownloadUrl(project, gameVersion, build, download))
            == Some((project, gameVersion, build, download))
  {
    DownloadUrlSegments(project, gameVersion, build, download);
    IntRoundTrip(build);
  }

  // =====================================================================
  // Java command line
  // =====================================================================

  /** The condition of `start_server` for `-nogui`: `is_gui` absent or false. */
  predicate NoGui(isGui: Option<bool>) {
    isGui.None? || !isGui.value
  }

  /** The memory flags after both inserts at index 0: `-Xmx` ahead of `-Xms`. */
  function MemoryArgs(xmx: Option<string>, xms: Option<string>): seq<string> {
    (if xmx.Some? then ["-Xmx" + xmx.value] else []) + (if xms.Some? then ["-Xms" + xms.value] else [])
  }

  /** The arguments `start_server` passes to `java`: the memory flags, `-Xmx`
      first, then the jar, then `-nogui` unless a GUI was asked for. */
  function PaperJavaArgs(xmx: Option<string>, xms: Option<string>, jar: string, isGui: Option<bool>): seq<string> {
    MemoryArgs(xmx, xms) + ["-jar", jar] + (if NoGui(isGui) then ["-nogui"] else [])
  }

  /** The jar follows `-jar` right after the memory flags, and the command ends
      in `-nogui` exactly when no GUI was asked for (or the jar itself is named
      `-nogui`). */
  lemma JarAndNoGuiPositions(xmx: Option<string>, xms: Option<string>, jar: string, isGui: Option<bool>)
    ensures var args := PaperJavaArgs(xmx, xms, jar, isGui);
      var m := |MemoryArgs(xmx, xms)|;
      && m + 1 < |args|
      && args[m] == "-jar" && args[m + 1] == jar
      && (args[|args| - 1] == "-nogui" <==> NoGui(isGui) || jar == "-nogui")
  {
  }

  /** The flags `-Xmx` and `-Xms` lead, in that order. */
  lemma MemoryFlagsLead(xmx: string, xms: string, jar: string, isGui: Option<bool>)
    ensures PaperJavaArgs(Some(xmx), Some(xms), jar, isGui)[..4] == ["-Xmx" + xmx, "-Xms" + xms, "-jar", jar]
  {
  }

  // =====================================================================
  // The PaperMCRequest record
  // =====================================================================

  /** How the jar transfer of `download_build` goes. */
  datatype Transfer = RequestError | BodyError | WriteError | Written

  datatype DownloadEnd =
    | MissingProjectPanic
    | MissingGameVersionPanic
    | MissingBuildPanic
    | MissingDownloadPanic
    | RequestPanic
    | BodyPanic
    | WritePanic
    | Downloaded

  /** What `start_server` does when it gets that far: accept the EULA, save
      the record, run `java` in the server directory. */
  datatype ServerStart = ServerStart(
    eulaPath: string,
    dataPath: string,
    saved: PaperRecord,
    javaArgs: seq<string>,
    workingDir: string)

  datatype StartEnd = DownloadUnsetPanic | ServerPathUnsetPanic | Started(start: ServerStart)

  class PaperMCRequest {
    var project: Option<string>
    var gameVersion: Option<string>
    var build: Option<int>
    var download: Option<string>
    var response: Option<Value>
    var serverPath: Option<string>
    var jarPath: Option<string>

    function Record(): PaperRecord
      reads this
    {
      PaperRecord(project, gameVersion, build, download, response, serverPath, jarPath)
    }

    /** All four fields the download URL is built from are known. */
    predicate Ready()
      reads this
    {
      project.Some? && gameVersion.Some? && build.Some? && download.Some?
    }

    /** `PaperMCRequest::build`, i.e. `Default`: every field empty. */
    constructor Build()
      ensures Record() == PaperRecord(None, None, None, None, None, None, None)
    {
      project, gameVersion, build, download := None, None, None, None;
      response, serverPath, jarPath := None, None, None;
    }

    /** `check_build`: with a game version, requests the builds and lets the
        user choose one by application name; the choice sets project, game
        version, build and download. `fetch` gives the decoded answer to a URL,
        `None` when the request or its body fails. */
    method CheckBuild(requestedVersion: Option<string>, requestedBuild: Option<string>,
                      fetch: string -> Option<Value>, answer: Answer)
      returns (url: Option<string>, end: CheckBuildEnd)
      requires requestedVersion.Some? && fetch(BuildsUrl(requestedVersion.value, requestedBuild)).Some? ==>
        Offered(answer, |OptionsOf(fetch(BuildsUrl(requestedVersion.value, requestedBuild)).value)|)
      modifies this`project, this`gameVersion, this`build, this`download
      ensures url.None? <==> requestedVersion.None?
      ensures url.Some? ==> url.value == BuildsUrl(requestedVersion.value, requestedBuild)
      ensures end == if url.None? then NoGameVersion
                     else if fetch(url.value).None? then RequestFailed
                     else Selection(fetch(url.value).value, answer)
      ensures end.Selected? ==>
        && project == Some(PROJECT) && gameVersion == requestedVersion
        && build == Some(end.build) && download == Some(end.download)
      ensures !end.Selected? ==> Record() == old(Record())
    {
      if requestedVersion.None? {
        return None, NoGameVersion;
      }
      var builds := BuildsUrl(requestedVersion.value, requestedBuild);
      url := Some(builds);
      var json := fetch(builds);
      if json.None? {
        return url, RequestFailed;
      }
      end := ChooseBuild(json.value, answer);
      if end.Selected? {
        build := Some(end.build);
        project := Some(PROJECT);
        gameVersion := requestedVersion;
        download := Some(end.download);
      }
    }

    /** `download_build`: project, game version, build and download are checked
        in that order, each missing one with its own panic; then the jar is
        fetched and written under its own name in the server directory.
        `transfer` says how fetching and writing the jar goes. */
    method DownloadBuild(serverPath: string, transfer: string -> Transfer)
      returns (url: Option<string>, end: DownloadEnd)
      modifies this`serverPath, this`jarPath
      ensures end == MissingProjectPanic <==> project.None?
      ensures end == MissingGameVersionPanic <==> project.Some? && gameVersion.None?
      ensures end == MissingBuildPanic <==> project.Some? && gameVersion.Some? && build.None?
      ensures end == MissingDownloadPanic <==> project.Some? && gameVersion.Some? && build.Some? && download.None?
      ensures url.Some? <==> Ready()
      ensures url.Some? ==> url.value == DownloadUrl(project.value, gameVersion.value, build.value, download.value)
      ensures url.Some? ==> end == match transfer(url.value)
                                   case RequestError => RequestPanic
                                   case BodyError => BodyPanic
                                   case WriteError => WritePanic
                                   case Written => Downloaded
      ensures end == WritePanic || end == Downloaded ==>
        this.serverPath == Some(serverPath) && jarPath == Some(Join(serverPath, download.value))
      ensures !(end == WritePanic || end == Downloaded) ==>
        this.serverPath == old(this.serverPath) && jarPath == old(jarPath)
    {
      if project.None? {
        return None, MissingProjectPanic;
      }
      if gameVersion.None? {
        return None, MissingGameVersionPanic;
      }
      if build.None? {
        return None, MissingBuildPanic;
      }
      if download.None? {
        return None, MissingDownloadPanic;
      }
      var downloadUrl := DownloadUrl(project.value, gameVersion.value, build.value, download.value);
      url := Some(downloadUrl);
      var outcome := transfer(downloadUrl);
      if outcome == RequestError {
        return url, RequestPanic;
      }
      if outcome == BodyError {
        return url, BodyPanic;
      }
      this.serverPath := Some(serverPath);
      jarPath := Some(Join(serverPath, download.value));
      end := if outcome == WriteError then WritePanic else Downloaded;
    }

    /** `start_server`: the arguments are built by inserting the memory flags
        at the front; an unset download or server path is a panic, in that
        order. The record saved to MCA.json is the whole record. */
    method StartServer(xmx: Option<string>, xms: Option<string>, isGui: Option<bool>) returns (end: StartEnd)
      ensures end == DownloadUnsetPanic <==> download.None?
      ensures end == ServerPathUnsetPanic <==> download.Some? && serverPath.None?
      ensures end.Started? ==>
        end.start == ServerStart(Join(serverPath.value, EULA_FILE_NAME), DataPath(serverPath.value), Record(),
                                 PaperJavaArgs(xmx, xms, download.value, isGui), serverPath.value)
    {
      if download.None? {
        return DownloadUnsetPanic;
      }
      var javaArgs := ["-jar"];
      javaArgs := javaArgs + [download.value];
      if xms.Some? {
        javaArgs := ["-Xms" + xms.value] + javaArgs;
      }
      if xmx.Some? {
        javaArgs := ["-Xmx" + xmx.value] + javaArgs;
      }
      if serverPath.None? {
        return ServerPathUnsetPanic;
      }
      var dir := serverPath.value;
      var eulaPath := Join(dir, EULA_FILE_NAME);
      if isGui.None? || !isGui.value {
        javaArgs := javaArgs + ["-nogui"];
      }
      end := Started(ServerStart(eulaPath, DataPath(dir), Record(), javaArgs, dir));
    }

    /** `check_data`: copies every field but `response` from the MCA.json of
        `path`, the server path and jar path included; an absent file is
        `Err(())` and changes nothing. */
    method CheckData(path: string, disk: Disk<PaperRecord>) returns (load: Load)
      modifies this`project, this`gameVersion, this`build, this`download, this`serverPath, this`jarPath
      ensures load == NotFound <==> DataPath(path) !in disk
      ensures load == UnreadablePanic <==> DataPath(path) in disk && disk[DataPath(path)].Unparsable?
      ensures load == Loaded <==> DataPath(path) in disk && disk[DataPath(path)].Parsed?
      ensures load == Loaded ==>
        var saved := disk[DataPath(path)].record;
        Record() == saved.(response := response)
      ensures response == old(response)
      ensures load != Loaded ==> Record() == old(Record())
    {
      var dataPath := DataPath(path);
      if dataPath !in disk {
        return NotFound;
      }
      match disk[dataPath]
      case Unparsable =>
        return UnreadablePanic;
      case Parsed(paper) =>
        project := paper.project;
        gameVersion := paper.gameVersion;
        build := paper.build;
        download := paper.download;
        serverPath := paper.serverPath;
        jarPath := paper.jarPath;
        return Loaded;
    }
  }

  /** The first run: a chosen build is downloaded into the server directory
      and started there, and `java` finds the jar where it was written. */
  method FirstRunStartsDownloadedJar(request: PaperMCRequest, gameVersion: string, requestedBuild: Option<string>,
                                     fetch: string -> Option<Value>, answer: Answer,
                                     dir: string, transfer: string -> Transfer,
                                     xmx: Option<string>, xms: Option<string>, isGui: Option<bool>)
    returns (start: StartEnd)
    requires fetch(BuildsUrl(gameVersion, requestedBuild)).Some?
    requires Offered(answer, |OptionsOf(fetch(BuildsUrl(gameVersion, requestedBuild)).value)|)
    requires Selection(fetch(BuildsUrl(gameVersion, requestedBuild)).value, answer).Selected?
    requires forall url :: transfer(url) == Written
    modifies request
    ensures start.Started?
    ensures start.start.workingDir == dir
    ensures var m := |MemoryArgs(xmx, xms)|;
      && m + 1 < |start.start.javaArgs|
      && request.jarPath == Some(Join(start.start.workingDir, start.start.javaArgs[m + 1]))
  {
    var url, end := request.CheckBuild(Some(gameVersion), requestedBuild, fetch, answer);
    var jarUrl, downloaded := request.DownloadBuild(dir, transfer);
    start := request.StartServer(xmx, xms, isGui);
    JarAndNoGuiPositions(xmx, xms, request.download.value, isGui);
  }

  /** A later run in the same directory restores what `start_server` saved:
      every field but `response` comes back, so resolution can be skipped. */
  method RestartRestoresResolution(running: PaperMCRequest, later: PaperMCRequest, disk: Disk<PaperRecord>,
                                   xmx: Option<string>, xms: Option<string>, isGui: Option<bool>)
    returns (start: StartEnd, load: Load)
    requires running != later
    requires running.download.Some? && running.serverPath.Some?
    modifies later
    ensures start.Started? && load == Loaded
    ensures later.Record() == running.Record().(response := old(later.response))
  {
    start := running.StartServer(xmx, xms, isGui);
    var written := disk[start.start.dataPath := Parsed(start.start.saved)];
    load := later.CheckData(running.serverPath.value, written);
  }
}
