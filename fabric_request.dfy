/** Resolving a Fabric server: game, loader and installer versions chosen one
    after the other, the download URL built from the three, the Java command
    line, and the record saved to and restored from MCA.json. */
module FabricRequest {
  import opened Wrappers
  import opened Text
  import opened Prompt
  import opened StateStore

  const FABRICMC_API_DOWNLOAD: string := "https://meta.fabricmc.net/v2/versions/loader"
  const PROJECT: string := "fabric"
  const SERVER_JAR: string := "fabric-server.jar"
  const SCRIPT_NAME: string := "start.bat"

  datatype GameVersion = GameVersion(version: string, stable: bool)
  datatype LoaderVersion = LoaderVersion(version: string, stable: bool)
  datatype InstallerVersion = InstallerVersion(version: string)

  /** The fields of FabricMCRequest as MCA.json holds them. */
  datatype FabricRecord = FabricRecord(
    project: string,
    gameVersion: Option<string>,
    loaderVersion: Option<string>,
    installerVersion: Option<string>,
    downloadUrl: Option<string>,
    serverPath: Option<string>)

  // =====================================================================
  // Download URL
  // =====================================================================

  /** `{base}/{game}/{loader}/{installer}/server/jar` */
  function DownloadUrl(game: string, loader: string, installer: string): string {
    FABRICMC_API_DOWNLOAD + "/" + game + "/" + loader + "/" + installer + "/server/jar"
  }

  /** Reads the three versions back out of a download URL. */
  function ParseDownloadUrl(url: string): Option<(string, string, string)> {
    var prefix := FABRICMC_API_DOWNLOAD + "/";
    if |url| < |prefix| || url[..|prefix|] != prefix then None
    else
      var parts := SplitOn(url[|prefix|..], '/');
      if |parts| == 5 && parts[3] == "server" && parts[4] == "jar" then Some((parts[0], parts[1], parts[2]))
      else None
  }

  /** The download URL determines the three versions it was built from, as long
      as none of them contains a slash. */
  lemma DownloadUrlRoundTrip(game: string, loader: string, installer: string)
    requires '/' !in game && '/' !in loader && '/' !in installer
    ensures ParseDownloadUrl(DownloadUrl(game, loader, installer)) == Some((game, loader, installer))
  {
    var prefix := FABRICMC_API_DOWNLOAD + "/";
    var parts := [game, loader, installer, "server", "jar"];
    var tail := JoinOn(parts, '/');
    assert parts[1..][1..] == parts[2..] && parts[2..][1..] == parts[3..] && parts[3..][1..] == parts[4..];
    assert JoinOn(parts[4..], '/') == "jar";
    assert JoinOn(parts[3..], '/') == "server" + "/" + "jar";
    assert JoinOn(parts[2..], '/') == installer + "/" + "server/jar";
    assert JoinOn(parts[1..], '/') == loader + "/" + (installer + "/server/jar");
    assert tail == game + "/" + (loader + "/" + (installer + "/server/jar"));
    var url := DownloadUrl(game, loader, installer);
    assert url == prefix + tail;
    assert url[..|prefix|] == prefix;
    assert url[|prefix|..] == tail;
    assert '/' !in "server" && '/' !in "jar";
    SplitJoin(parts, '/');
  }

  // =====================================================================
  // Prompt options
  // =====================================================================

  /** The game versions offered by the prompt: the fetched list reversed. */
  function GameOptions(versions: seq<GameVersion>): (options: seq<string>)
    ensures |options| == |versions|
    ensures forall k :: 0 <= k < |options| ==> options[k] == versions[|versions| - 1 - k].version
  {
    Reverse(seq(|versions|, i requires 0 <= i < |versions| => versions[i].version))
  }

  /** The loader versions offered by the prompt: the fetched list in order. */
  function LoaderOptions(versions: seq<LoaderVersion>): (options: seq<string>)
    ensures |options| == |versions|
    ensures forall k :: 0 <= k < |options| ==> options[k] == versions[k].version
  {
    seq(|versions|, i requires 0 <= i < |versions| => versions[i].version)
  }

  /** The exact-match scan of `select_game_version`: the first entry whose
      version is the requested text. */
  method FindGameVersion(versions: seq<GameVersion>, requested: string) returns (found: Option<nat>)
    ensures found.Some? ==> found.value < |versions| && versions[found.value].version == requested
    ensures found.Some? ==> forall j :: 0 <= j < found.value ==> versions[j].version != requested
    ensures found.None? <==> forall j :: 0 <= j < |versions| ==> versions[j].version != requested
  {
    for i := 0 to |versions|
      invariant forall j :: 0 <= j < i ==> versions[j].version != requested
    {
      if requested == versions[i].version {
        return Some(i);
      }
    }
    return None;
  }

  // =====================================================================
  // Java command line and start.bat
  // =====================================================================

  predicate NoGui(isGui: Option<bool>) {
    isGui.None? || !isGui.value
  }

  function MemoryArgs(xmx: Option<string>, xms: Option<string>): seq<string> {
    (if xmx.Some? then ["-Xmx" + xmx.value] else []) + (if xms.Some? then ["-Xms" + xms.value] else [])
  }

  /** The arguments `start_server` passes to `java`. */
  function JavaArgs(xmx: Option<string>, xms: Option<string>, isGui: Option<bool>): seq<string> {
    MemoryArgs(xmx, xms) + ["-jar", SERVER_JAR] + (if NoGui(isGui) then ["-nogui"] else [])
  }

  /** The text of start.bat: the memory flags are written with no space after
      them, so they run into each other and into `-jar`. */
  function StartupScript(xmx: Option<string>, xms: Option<string>, isGui: Option<bool>): string {
    "java "
    + (if xmx.Some? then "-Xmx" + xmx.value else "")
    + (if xms.Some? then "-Xms" + xms.value else "")
    + "-jar fabric-server.jar"
    + (if NoGui(isGui) then " -nogui" else "")
  }

  /** The two are built side by side, one push at a time. */
  method AssembleCommand(xmx: Option<string>, xms: Option<string>, isGui: Option<bool>)
    returns (javaArgs: seq<string>, startupScript: string)
    ensures javaArgs == JavaArgs(xmx, xms, isGui)
    ensures startupScript == StartupScript(xmx, xms, isGui)
  {
    javaArgs := [];
    startupScript := "java ";
    if xmx.Some? {
      javaArgs := javaArgs + ["-Xmx" + xmx.value];
      startupScript := startupScript + ("-Xmx" + xmx.value);
    }
    assert startupScript == "java " + (if xmx.Some? then "-Xmx" + xmx.value else "");
    if xms.Some? {
      javaArgs := javaArgs + ["-Xms" + xms.value];
      startupScript := startupScript + ("-Xms" + xms.value);
    }
    assert javaArgs == MemoryArgs(xmx, xms);
    assert startupScript == "java "
      + (if xmx.Some? then "-Xmx" + xmx.value else "")
      + (if xms.Some? then "-Xms" + xms.value else "");
    javaArgs := javaArgs + ["-jar"];
    javaArgs := javaArgs + [SERVER_JAR];
    startupScript := startupScript + "-jar fabric-server.jar";
    assert javaArgs == MemoryArgs(xmx, xms) + ["-jar", SERVER_JAR];
    if NoGui(isGui) {
      javaArgs := javaArgs + ["-nogui"];
      startupScript := startupScript + " -nogui";
    }
  }

  /** `-nogui` is passed, as the last argument, exactly when no GUI is asked for. */
  lemma NoGuiIff(xmx: Option<string>, xms: Option<string>, isGui: Option<bool>)
    ensures "-nogui" in JavaArgs(xmx, xms, isGui) <==> isGui != Some(true)
    ensures isGui != Some(true) ==> JavaArgs(xmx, xms, isGui)[|JavaArgs(xmx, xms, isGui)| - 1] == "-nogui"
  {
    var memory := MemoryArgs(xmx, xms);
    if !NoGui(isGui) {
      assert JavaArgs(xmx, xms, isGui) == memory + ["-jar", SERVER_JAR];
      assert forall m | m in memory :: |m| > 1 && m[1] == 'X';
      assert "-nogui"[1] == 'n';
    }
  }

  /** The memory flags lead the arguments, `-Xmx` before `-Xms`. */
  lemma MemoryFlagsLead(xmx: string, xms: string, isGui: Option<bool>)
    ensures JavaArgs(Some(xmx), Some(xms), isGui)[..4] == ["-Xmx" + xmx, "-Xms" + xms, "-jar", SERVER_JAR]
  {
  }

  /** Without memory flags, start.bat is `java` followed by the arguments. */
  lemma ScriptWithoutMemoryFlags(isGui: Option<bool>)
    ensures StartupScript(None, None, isGui) == "java " + JoinOn(JavaArgs(None, None, isGui), ' ')
  {
    if NoGui(isGui) {
      HeadlessScriptWithoutMemoryFlags(isGui);
    } else {
      JarText();
      assert JavaArgs(None, None, isGui) == ["-jar", SERVER_JAR];
      assert JoinOn(["-jar", SERVER_JAR][1..], ' ') == SERVER_JAR;
    }
  }

  lemma JarText()
    ensures "-jar fabric-server.jar" == "-jar" + [' '] + SERVER_JAR
  {
  }

  lemma HeadlessScriptWithoutMemoryFlags(isGui: Option<bool>)
    requires NoGui(isGui)
    ensures StartupScript(None, None, isGui) == "java " + JoinOn(JavaArgs(None, None, isGui), ' ')
  {
    var args := JavaArgs(None, None, isGui);
    var jar, server, noGui := "-jar", SERVER_JAR, "-nogui";
    assert args == [jar, server, noGui];
    assert args[1..] == [server, noGui] && args[1..][1..] == [noGui];
    assert JoinOn(args[1..][1..], ' ') == noGui;
    assert JoinOn(args[1..], ' ') == server + [' '] + noGui;
    assert JoinOn(args, ' ') == jar + [' '] + (server + [' '] + noGui);
    JarText();
    assert " -nogui" == [' '] + noGui;
    assert StartupScript(None, None, isGui) == "java " + (jar + [' '] + server) + ([' '] + noGui);
  }

  /** Joined with spaces, the arguments have a space right after the first. */
  lemma SpaceAfterFirstArgument(args: seq<string>)
    requires |args| >= 2
    ensures |"java " + JoinOn(args, ' ')| > 5 + |args[0]|
    ensures ("java " + JoinOn(args, ' '))[5 + |args[0]|] == ' '
  {
    assert JoinOn(args, ' ') == args[0] + [' '] + JoinOn(args[1..], ' ');
  }

  /** In start.bat the first memory flag runs straight into a `-`. */
  lemma DashAfterFirstFlag(xmx: Option<string>, xms: Option<string>, isGui: Option<bool>)
    requires xmx.Some? || xms.Some?
    ensures |StartupScript(xmx, xms, isGui)| > 5 + |JavaArgs(xmx, xms, isGui)[0]|
    ensures StartupScript(xmx, xms, isGui)[5 + |JavaArgs(xmx, xms, isGui)[0]|] == '-'
  {
    var flag := if xmx.Some? then "-Xmx" + xmx.value else "-Xms" + xms.value;
    assert JavaArgs(xmx, xms, isGui)[0] == flag;
    var s1 := "java " + (if xmx.Some? then "-Xmx" + xmx.value else "");
    var s2 := s1 + (if xms.Some? then "-Xms" + xms.value else "");
    var s3 := s2 + "-jar fabric-server.jar";
    var s4 := s3 + (if NoGui(isGui) then " -nogui" else "");
    assert StartupScript(xmx, xms, isGui) == s4;
    var k := 5 + |flag|;
    if xmx.Some? && xms.Some? {
      assert k == |s1| && s2[k] == '-';
      assert s3[k] == s2[k];
    } else {
      assert k == |s2| && s3[k] == '-';
    }
    assert s4[k] == s3[k];
  }

  /** With a memory flag, start.bat has no space after it where the arguments
      joined by spaces do. */
  lemma ScriptGluesMemoryFlag(xmx: Option<string>, xms: Option<string>, isGui: Option<bool>)
    requires xmx.Some? || xms.Some?
    ensures StartupScript(xmx, xms, isGui) != "java " + JoinOn(JavaArgs(xmx, xms, isGui), ' ')
  {
    SpaceAfterFirstArgument(JavaArgs(xmx, xms, isGui));
    DashAfterFirstFlag(xmx, xms, isGui);
  }

  /** start.bat runs the same command as `start_server` exactly when no memory
      flag is given. */
  lemma ScriptMatchesArgsIff(xmx: Option<string>, xms: Option<string>, isGui: Option<bool>)
    ensures StartupScript(xmx, xms, isGui) == "java " + JoinOn(JavaArgs(xmx, xms, isGui), ' ')
      <==> xmx.None? && xms.None?
  {
    if xmx.None? && xms.None? {
      ScriptWithoutMemoryFlags(isGui);
    } else {
      ScriptGluesMemoryFlag(xmx, xms, isGui);
    }
  }

  // =====================================================================
  // The FabricMCRequest record
  // =====================================================================

  /** The jar download `download_build` performs. */
  datatype JarDownload = JarDownload(url: string, path: string)

  /** What `start_server` writes and runs: MCA.json with the record, start.bat
      with the script, and `java` with the arguments in the server directory. */
  datatype ServerStart = ServerStart(
    dataPath: string,
    saved: FabricRecord,
    scriptPath: string,
    startupScript: string,
    javaArgs: seq<string>,
    workingDir: string)

  class FabricMCRequest {
    var project: string
    var gameVersion: Option<string>
    var loaderVersion: Option<string>
    var installerVersion: Option<string>
    var downloadUrl: Option<string>
    var serverPath: Option<string>

    function Record(): FabricRecord
      reads this
    {
      FabricRecord(project, gameVersion, loaderVersion, installerVersion, downloadUrl, serverPath)
    }

    /** `FabricMCRequest::build`: project "fabric", nothing resolved yet. */
    constructor Build(serverPath: Option<string>)
      ensures project == PROJECT && this.serverPath == serverPath
      ensures gameVersion == None && loaderVersion == None && installerVersion == None
      ensures downloadUrl == None
    {
      project := PROJECT;
      gameVersion, loaderVersion, installerVersion := None, None, None;
      downloadUrl := None;
      this.serverPath := serverPath;
    }

    /** `select_game_version` given the fetched list (`None` when the request
        failed) and the prompt's answer. A requested version that is in the
        list is taken without a prompt; otherwise the list is offered newest
        first. A cancelled prompt is a panic. */
    method SelectGameVersion(requested: Option<string>, fetched: Option<seq<GameVersion>>, answer: Answer)
      returns (panicked: bool)
      requires Offered(answer, |fetched.GetOr([])|)
      modifies this`gameVersion
      ensures var versions := fetched.GetOr([]);
        if versions == [] then
          !panicked && gameVersion == old(gameVersion)
        else if requested.Some? && exists i :: 0 <= i < |versions| && versions[i].version == requested.value then
          !panicked && gameVersion == requested
        else if answer.Cancelled? then
          panicked && gameVersion == old(gameVersion)
        else
          !panicked && gameVersion == Some(GameOptions(versions)[answer.index])
    {
      var versions := if fetched.Some? then fetched.value else [];
      if versions == [] {
        return false;
      }
      if requested.Some? {
        var found := FindGameVersion(versions, requested.value);
        if found.Some? {
          gameVersion := Some(versions[found.value].version);
          return false;
        }
      }
      var options := GameOptions(versions);
      if answer.Cancelled? {
        return true;
      }
      gameVersion := Some(options[answer.index]);
      panicked := false;
    }

    /** `select_loader_version`: the loader chosen from the fetched list, offered
        in the order fetched. */
    method SelectLoaderVersion(fetched: Option<seq<LoaderVersion>>, answer: Answer) returns (panicked: bool)
      requires Offered(answer, |fetched.GetOr([])|)
      modifies this`loaderVersion
      ensures var versions := fetched.GetOr([]);
        if versions == [] then
          !panicked && loaderVersion == old(loaderVersion)
        else if answer.Cancelled? then
          panicked && loaderVersion == old(loaderVersion)
        else
          !panicked && loaderVersion == Some(versions[answer.index].version)
    {
      var versions := if fetched.Some? then fetched.value else [];
      if versions == [] {
        return false;
      }
      var options := LoaderOptions(versions);
      if answer.Cancelled? {
        return true;
      }
      loaderVersion := Some(options[answer.index]);
      panicked := false;
    }

    /** `fetch_latest_installer_version`: the first installer of the list. */
    method FetchLatestInstallerVersion(fetched: Option<seq<InstallerVersion>>)
      modifies this`installerVersion
      ensures var versions := fetched.GetOr([]);
        installerVersion == if versions == [] then old(installerVersion) else Some(versions[0].version)
    {
      var versions := if fetched.Some? then fetched.value else [];
      if versions == [] {
        return;
      }
      installerVersion := Some(versions[0].version);
    }

    /** `generate_download_url`: set only when all three versions are known. */
    method GenerateDownloadUrl()
      modifies this`downloadUrl
      ensures gameVersion.Some? && loaderVersion.Some? && installerVersion.Some? ==>
        downloadUrl == Some(DownloadUrl(gameVersion.value, loaderVersion.value, installerVersion.value))
      ensures !(gameVersion.Some? && loaderVersion.Some? && installerVersion.Some?) ==>
        downloadUrl == old(downloadUrl)
    {
      if gameVersion.Some? && loaderVersion.Some? && installerVersion.Some? {
        downloadUrl := Some(DownloadUrl(gameVersion.value, loaderVersion.value, installerVersion.value));
      }
    }

    /** `download_build`: the jar is fetched from the download URL, when there
        is one, into `fabric-server.jar` of the given directory. */
    method DownloadBuild(serverPath: string) returns (download: Option<JarDownload>)
      ensures download.Some? <==> downloadUrl.Some?
      ensures download.Some? ==> download.value == JarDownload(downloadUrl.value, Join(serverPath, SERVER_JAR))
    {
      if downloadUrl.Some? {
        return Some(JarDownload(downloadUrl.value, Join(serverPath, SERVER_JAR)));
      }
      return None;
    }

    /** `start_server`: saves the record to MCA.json, writes start.bat and runs
        `java` in the server directory; a missing server path is a panic. */
    method StartServer(xmx: Option<string>, xms: Option<string>, isGui: Option<bool>)
      returns (start: Option<ServerStart>)
      ensures start.None? <==> serverPath.None?
      ensures start.Some? ==> start.value.dataPath == DataPath(serverPath.value)
      ensures start.Some? ==> start.value.saved == Record()
      ensures start.Some? ==> start.value.scriptPath == Join(serverPath.value, SCRIPT_NAME)
      ensures start.Some? ==> start.value.startupScript == StartupScript(xmx, xms, isGui)
      ensures start.Some? ==> start.value.javaArgs == JavaArgs(xmx, xms, isGui)
      ensures start.Some? ==> start.value.workingDir == serverPath.value
    {
      if serverPath.None? {
        return None;
      }
      var dir := serverPath.value;
      var saved := Record();
      var javaArgs, startupScript := AssembleCommand(xmx, xms, isGui);
      start := Some(ServerStart(DataPath(dir), saved, Join(dir, SCRIPT_NAME), startupScript, javaArgs, dir));
    }

    /** `get_download_path`: the `mods` folder of the server, when there is a server path. */
    function GetDownloadPath(): (path: Option<string>)
      reads this
      ensures path.None? <==> serverPath.None?
      ensures path.Some? ==> path.value == serverPath.value + "\\mods"
    {
      if serverPath.Some? then Some(serverPath.value + "\\mods") else None
    }

    /** The directory `check_data` looks in: the given path, or else the server path. */
    function DataDir(path: Option<string>): Option<string>
      reads this
    {
      if path.Some? then path else serverPath
    }

    /** `check_data`: copies the resolved fields from the MCA.json of the
        directory; the server path is kept. Without a directory it panics; an
        absent file is `Err(())` and changes nothing. */
    method CheckData(path: Option<string>, disk: Disk<FabricRecord>) returns (load: Load)
      modifies this`project, this`gameVersion, this`loaderVersion, this`installerVersion, this`downloadUrl
      ensures load == NoServerPathPanic <==> old(DataDir(path)).None?
      ensures load == NotFound <==> old(DataDir(path)).Some? && DataPath(old(DataDir(path)).value) !in disk
      ensures load == UnreadablePanic <==>
        old(DataDir(path)).Some? && DataPath(old(DataDir(path)).value) in disk
        && disk[DataPath(old(DataDir(path)).value)].Unparsable?
      ensures load == Loaded ==>
        var saved := disk[DataPath(old(DataDir(path)).value)].record;
        && project == saved.project
        && gameVersion == saved.gameVersion
        && loaderVersion == saved.loaderVersion
        && installerVersion == saved.installerVersion
        && downloadUrl == saved.downloadUrl
      ensures load != Loaded ==> Record() == old(Record())
    {
      var dir;
      if path.Some? {
        dir := path.value;
      } else if serverPath.Some? {
        dir := serverPath.value;
      } else {
        return NoServerPathPanic;
      }
      var dataPath := DataPath(dir);
      if dataPath !in disk {
        return NotFound;
      }
      match disk[dataPath]
      case Unparsable =>
        return UnreadablePanic;
      case Parsed(fabric) =>
        project := fabric.project;
        gameVersion := fabric.gameVersion;
        loaderVersion := fabric.loaderVersion;
        installerVersion := fabric.installerVersion;
        downloadUrl := fabric.downloadUrl;
        return Loaded;
    }
  }

  /** A later run in the same directory restores what `start_server` saved:
      every resolved field comes back, so resolution can be skipped. */
  method RestartRestoresResolution(running: FabricMCRequest, later: FabricMCRequest, disk: Disk<FabricRecord>,
                                   xmx: Option<string>, xms: Option<string>, isGui: Option<bool>)
    returns (start: Option<ServerStart>, load: Load)
    requires running != later
    requires running.serverPath.Some? && later.serverPath == running.serverPath
    modifies later
    ensures start.Some? && load == Loaded
    ensures later.Record() == running.Record()
  {
    start := running.StartServer(xmx, xms, isGui);
    var written := disk[start.value.dataPath := Parsed(start.value.saved)];
    load := later.CheckData(None, written);
  }
}
