# MCT resolution state, modelled in Dafny

MCT is a command-line tool that sets up Minecraft servers and mods. It works
with three catalogues:

- the Modrinth mod registry (`src/modrinth_request.rs`): a search with facets
  and a sorting filter, then a look-up loop that picks a project and its files;
- the Fabric metadata API (`src/fabric_request.rs`): game, loader and installer
  versions chosen one after the other, which give the server jar's URL;
- the PaperMC build API (`src/papermc_request.rs`): a game version and a build,
  chosen by its application name, which give the jar's URL.

The resolved fields of a Fabric or Paper server are saved to `MCA.json` in the
server directory when it starts. A later run reads them back and skips
resolution.

The model keeps the source's form:

- `FabricMCRequest`, `PaperMCRequest` and `MCMod` are classes whose methods
  assign their fields.
- Loops stay loops: the facet push, the version scan of `extract_files`, the
  look-up loop of `download_mod`, the exact-match scan of
  `select_game_version` and the file download loop.
- Each method is proved against a specification function or states its new
  state outright. Lemmas about those functions state what the source promises.

Everything outside the program is an argument of the operation:

- a catalogue answer is `fetch: string -> Option<Value>`, a decoded JSON
  document or `None` when the request or its body fails;
- a prompt answer is `Prompt.Answer` (`Cancelled`, or the index chosen among
  the options offered);
- the disk holding `MCA.json` is a map from path to stored record;
- a jar transfer is an outcome value.

A panic is a distinguished outcome value. On that path the fields the source
would not have assigned stay unchanged.

Modules:

- `Wrappers` and `Prompt` (wrappers.dfy): `Option` and the prompt answer.
- `Text` (text.dfy): ASCII lower-casing, decimal formatting and parsing,
  reversal, `Path::join` with the Windows separator, splitting and joining.
- `JsonValue` (json.dfy): the part of `serde_json::Value` the source uses, and
  compact string escaping.
- `StateStore` (state_store.dfy): the `MCA.json` path and how loading it ends.
- `ModrinthRequest` (modrinth_request.dfy), `FabricRequest`
  (fabric_request.dfy) and `PaperRequest` (papermc_request.dfy): one per
  source file.

Quirks of the code that the model keeps as written:

- The Modrinth search URL puts the facets JSON right after the query text,
  with no `&facets=` key.
- The Paper builds URL appends a requested build right after `/builds`,
  with no slash. `PaperRequest.BuildsUrlSegments` shows the build ends up
  inside the `builds` path segment.
- Fabric's `start.bat` writes the memory flags with no space after them.
  `FabricRequest.ScriptMatchesArgsIff` shows the script runs the same command
  as `start_server` only when no memory flag is given.

Behaviour one might expect of such a tool that the code does not have, and
the model does not either:

- There is no retry of a failed request.
- There is no dependency walking.
- `extract_files` does not match loaders.
- Paper builds are chosen by application name, not by build number.
- Paper's download URL takes the project from the record.
- An unreadable `MCA.json` panics instead of falling back to resolution.
- A missing server path panics in Fabric's `check_data`.
- A Modrinth name search with a single hit does not pick it. With one hit or
  none, the search answer itself goes to `extract_files`, which finds no
  files in it, so nothing is downloaded. `ModrinthRequest.FewHitsFindNoFiles`
  states this.

## Model

| member | source | states |
|---|---|---|
| ModrinthRequest.MCMod.Builder | src/modrinth_request.rs:64-69 | a new record has every field empty, as `Default` gives it |
| ModrinthRequest.MCMod.SearchModrinthMod | src/modrinth_request.rs:72-152 | the search URL is requested and a decoded answer replaces `response`; a failed request or body leaves it as it was |
| ModrinthRequest.GetFilter | src/modrinth_request.rs:37-45 | the `index` name of every filter is one of FILTERS and is lower case |
| ModrinthRequest.With | src/modrinth_request.rs:21-36 | a filter is returned exactly when text is given and its lower-cased form is in FILTERS, and that filter's name is the lower-cased text |
| ModrinthRequest.GetFilterInjective | src/modrinth_request.rs:37-45 | distinct filters have distinct names |
| ModrinthRequest.WithGetFilterRoundTrip | src/modrinth_request.rs:21-45 | parsing a filter's name gives the filter back |
| ModrinthRequest.WithIgnoresCase | src/modrinth_request.rs:21-36 | every casing of a filter's name parses to that filter |
| ModrinthRequest.LoaderMatchesAtMostOnce | src/modrinth_request.rs:93-100 | over distinct loader names the facet loop pushes the `categories:` facet once if the loader is listed and never otherwise |
| ModrinthRequest.ModLoadersDistinct | src/modrinth_request.rs:2-10 | the seven MOD_LOADERS are distinct |
| ModrinthRequest.PushLoaderFacets | src/modrinth_request.rs:93-100 | the loop appends one `categories:` facet exactly when the loader is one of MOD_LOADERS |
| ModrinthRequest.BuildSearchUrl | src/modrinth_request.rs:85-136 | the URL is the endpoint, the query, the facets JSON with no `&facets=` key, then limit, index and offset, as SearchUrl gives them |
| ModrinthRequest.SearchUrlDefaults | src/modrinth_request.rs:102-125 | with no limit, sorting or offset the search asks for `&limit=10&index=relevance&offset=0` |
| ModrinthRequest.VersionFacetIff | src/modrinth_request.rs:90-92 | a `versions:` facet is sent if and only if that version was given |
| ModrinthRequest.LoaderFacetIff | src/modrinth_request.rs:93-100 | a `categories:` facet is sent if and only if that loader was given and is in MOD_LOADERS |
| ModrinthRequest.VersionFacetFirst | src/modrinth_request.rs:87-100 | with both given, the version facet precedes the loader facet |
| ModrinthRequest.ScanPicksFirstQualifying | src/modrinth_request.rs:347-365 | the scan returns files if and only if some entry is reached that has a `files` array and lists the requested version, and then it returns that first entry's files |
| ModrinthRequest.ScanWithoutVersion | src/modrinth_request.rs:347-365 | with no version requested, the scan fails only when no entry has a `files` array |
| ModrinthRequest.MCMod.ExtractFiles | src/modrinth_request.rs:347-365 | the loop with its early returns (the `?` on `game_versions` ends the whole scan) returns what ExtractedFiles specifies |
| ModrinthRequest.DownloadsFollowFiles | src/modrinth_request.rs:290-333 | when every file entry has a URL there is one download per entry, in order, to `filename` or `mod_file.zip` under the directory |
| ModrinthRequest.DownloadsAtMostFiles | src/modrinth_request.rs:290-333 | there are never more downloads than file entries |
| ModrinthRequest.MCMod.PlanDownloads | src/modrinth_request.rs:290-333 | the download loop produces the downloads PlannedDownloads specifies |
| ModrinthRequest.MCMod.DownloadMod | src/modrinth_request.rs:216-345 | the look-up loop, including its `continue` after a choice, ends in the run DownloadModRun specifies: the final `mod_id`, the URLs requested, the files written, how it ends |
| ModrinthRequest.KnownIdSkipsSearch | src/modrinth_request.rs:223-234 | a known id is looked up with one request to its version list, whatever the name and stdin choice, and `mod_id` is unchanged |
| ModrinthRequest.ChoiceAcceptedIff | src/modrinth_request.rs:256-277 | with several hits the choice is rejected if and only if it is not between 1 and the number of hits |
| ModrinthRequest.ChoiceSetsModId | src/modrinth_request.rs:278-285 | an accepted choice n sets `mod_id` to hit n's `project_id` and that project's version list is requested next |
| ModrinthRequest.FewHitsFindNoFiles | src/modrinth_request.rs:256-290 | a name search with at most one hit hands the search object to `extract_files` and ends with no suitable files |
| ModrinthRequest.DownloadsOnlyWhenDownloaded | src/modrinth_request.rs:290-337 | files are written only by a run that found suitable files |
| JsonValue.EscapeRoundTrip | src/modrinth_request.rs:132 | the compact JSON escaping of a facet string is undone by unescaping |
| JsonValue.EscapeHasNoBareQuote | src/modrinth_request.rs:132 | every quote in an escaped facet string directly follows a backslash |
| JsonValue.QuotedStringClosesAtItsEnd | src/modrinth_request.rs:132 | a serialised facet string, whatever follows it, is ended by a JSON reader exactly at its own closing quote, never earlier |
| FabricRequest.FabricMCRequest.Build | src/fabric_request.rs:43-55 | a new request has project `fabric`, the given server path, and nothing resolved |
| FabricRequest.DownloadUrlRoundTrip | src/fabric_request.rs:150-159 | the download URL gives back the game, loader and installer versions it was built from, when none contains a slash |
| FabricRequest.GameOptions | src/fabric_request.rs:107 | the game-version prompt offers the fetched versions newest first: option k is entry n-1-k |
| FabricRequest.LoaderOptions | src/fabric_request.rs:125 | the loader prompt offers the fetched versions in fetched order |
| FabricRequest.FindGameVersion | src/fabric_request.rs:92-105 | the scan finds the first entry equal to the requested version, and finds none if and only if no entry equals it |
| FabricRequest.AssembleCommand | src/fabric_request.rs:195-251 | the pushes build exactly JavaArgs and StartupScript |
| FabricRequest.NoGuiIff | src/fabric_request.rs:248-251 | `-nogui` is passed if and only if no GUI was asked for, and then it is the last argument |
| FabricRequest.MemoryFlagsLead | src/fabric_request.rs:235-245 | with both memory flags, `-Xmx` then `-Xms` come first, then `-jar fabric-server.jar` |
| FabricRequest.ScriptMatchesArgsIff | src/fabric_request.rs:235-251 | start.bat is `java` followed by the arguments joined by spaces if and only if no memory flag is given |
| FabricRequest.ScriptGluesMemoryFlag | src/fabric_request.rs:236-246 | with a memory flag, start.bat has a `-` where the arguments joined by spaces have a space |
| FabricRequest.FabricMCRequest.SelectGameVersion | src/fabric_request.rs:85-116 | an empty or failed list changes nothing; a requested version in the list is taken without a prompt; otherwise the chosen option of the reversed list is taken and a cancelled prompt panics |
| FabricRequest.FabricMCRequest.SelectLoaderVersion | src/fabric_request.rs:119-134 | an empty list changes nothing; otherwise the chosen loader in fetched order is taken and a cancelled prompt panics |
| FabricRequest.FabricMCRequest.FetchLatestInstallerVersion | src/fabric_request.rs:137-147 | the installer becomes the first fetched entry; an empty list changes nothing |
| FabricRequest.FabricMCRequest.GenerateDownloadUrl | src/fabric_request.rs:150-173 | the URL is set from the three versions when all are known, and left as it was otherwise |
| FabricRequest.FabricMCRequest.DownloadBuild | src/fabric_request.rs:176-191 | the jar is fetched only when there is a download URL, and goes to `fabric-server.jar` in the given directory |
| FabricRequest.FabricMCRequest.StartServer | src/fabric_request.rs:194-266 | without a server path it panics; otherwise it saves the whole record to MCA.json, writes start.bat and runs `java` with JavaArgs in the server directory |
| FabricRequest.FabricMCRequest.GetDownloadPath | src/fabric_request.rs:273-285 | the mods folder is absent if and only if the server path is, and otherwise is the server path followed by `\mods` |
| FabricRequest.FabricMCRequest.CheckData | src/fabric_request.rs:289-313 | with no directory it panics; an absent file is `Err` and changes nothing; a stored record gives its five resolved fields and the server path is kept |
| FabricRequest.RestartRestoresResolution | src/main.rs:352-373 | a later run in the same directory loads what `start_server` saved and gets every resolved field back |
| PaperRequest.PaperMCRequest.Build | src/papermc_request.rs:26-30 | a new request has every field empty, as `Default` gives it |
| PaperRequest.BuildsUrlSegments | src/papermc_request.rs:66-83 | after the fixed path the builds URL has two segments: the game version, and `builds` with any requested build appended to it |
| PaperRequest.BuildsOf | src/papermc_request.rs:91-105 | the builds are read if and only if every entry has a numeric `build` and an application name, and then there is one per entry, in order |
| PaperRequest.BuildOptions | src/papermc_request.rs:91-109 | the prompt offers the application names, last build first: option k names entry n-1-k |
| PaperRequest.FirstNamed | src/papermc_request.rs:112-124 | the `find` gives the first build whose name is the chosen one, and none if and only if no build has that name |
| PaperRequest.OptionIsNamed | src/papermc_request.rs:106-124 | every option offered names some build, so the `find` always succeeds |
| PaperRequest.PickIsFirstNamed | src/papermc_request.rs:112-137 | the selected download is the chosen option, and the selected number and name are those of the first build with that name |
| PaperRequest.DistinctNamesPickReversed | src/papermc_request.rs:91-137 | with distinct names, option k selects the build k places from the end, unless its number does not fit in an i64 |
| PaperRequest.ChooseBuild | src/papermc_request.rs:89-137 | reading the answer ends as Selection specifies: no `builds` array, a malformed entry, an empty or cancelled prompt, or a build number outside i64 each panic |
| PaperRequest.PaperMCRequest.CheckBuild | src/papermc_request.rs:61-152 | with no game version nothing is requested or changed; a failed request changes nothing; a selection sets project `paper`, the requested game version, the build and the download |
| PaperRequest.DownloadUrlSegments | src/papermc_request.rs:161-172 | the download URL's path has one segment per field: project, game version, build number, file name |
| PaperRequest.DownloadUrlRoundTrip | src/papermc_request.rs:161-172 | the download URL gives back the project, game version, build number and file name it was built from |
| PaperRequest.PaperMCRequest.DownloadBuild | src/papermc_request.rs:156-209 | project, game version, build and download are checked in that order, each with its own panic; then the URL is requested; the server path and `jar_path = server_path.join(download)` are set once the body is read |
| PaperRequest.JarAndNoGuiPositions | src/papermc_request.rs:214-234 | the jar follows `-jar` right after the memory flags, and the last argument is `-nogui` if and only if no GUI was asked for (or the jar is itself named `-nogui`) |
| PaperRequest.MemoryFlagsLead | src/papermc_request.rs:216-221 | inserting `-Xms` and then `-Xmx` at the front puts `-Xmx` first |
| PaperRequest.PaperMCRequest.StartServer | src/papermc_request.rs:213-256 | an unset download panics, then an unset server path; otherwise the EULA file, the saved whole record and the arguments PaperJavaArgs are used in the server directory |
| PaperRequest.PaperMCRequest.CheckData | src/papermc_request.rs:260-277 | an absent file is `Err` and changes nothing; a stored record gives every field but `response`, the server and jar paths included |
| PaperRequest.FirstRunStartsDownloadedJar | src/main.rs:326-348 | after a selected build is downloaded and started, the jar `java` is given, taken in its working directory, is the file that was written |
| PaperRequest.RestartRestoresResolution | src/main.rs:303-323 | a later run loads what `start_server` saved and gets every field back except `response` |

## Left out

- Network requests, JSON parsing, stdin and `inquire` prompts are parameters.
  They are decoded answers, prompt answers and transfer outcomes.
- JSON numbers are integers. Floating-point numbers are not modelled.
- Writing files is not modelled: jars, `eula.txt`, `start.bat`, `MCA.json`,
  and the EULA read-and-replace fallback. Only the record saved and the paths
  used are kept. A failed write of `MCA.json` is a panic the model does not
  represent.
- Spawning `java`, the ssh tunnel, the CLI definition and dispatch in
  `src/main.rs`, `verify_path` and `check_server_path` are not modelled.
- `display_mods` is not modelled: it only prints.
- The field readers `FabricMCRequest::get_version`,
  `PaperMCRequest::_get_version` and `PaperMCRequest::_get_server_dir` are
  not modelled: each only returns a copy of one field.
- `src/modname.rs` is not part of this model.
- async and tokio are not modelled.
- `fetch_game_versions`, `fetch_loader_versions` and
  `fetch_installer_versions` are only HTTP plus parsing. Their results are
  the `fetched` parameters.
- URLs are built without percent-encoding, as `format!` builds them.
- `str::to_lowercase` is modelled on ASCII. For the five filter names this
  gives the same `with` result.
- `Text.Join` models `Path::join` for a relative name. A name that is an
  absolute path, which `Path::join` would substitute, is not modelled.
- ModrinthRequest.MCMod.DownloadMod: a file download that fails, or whose
  write fails, only prints and the loop goes on. The model lists the
  downloads attempted, not which of them succeeded.
- FabricRequest.FabricMCRequest.DownloadBuild: gives the URL and target path
  only. A failed request prints; a failed body or write panics. These are
  not distinguished.
- FabricRequest.FabricMCRequest.StartServer: `start_server` writes
  `MCA.json` before it builds the command line. A failed write, and a
  `java` that cannot be spawned, are panics the model does not represent.
- PaperRequest.PaperMCRequest.StartServer: a failed write of `MCA.json` and a
  `java` that cannot be spawned are panics the model does not represent.
- `MCMod.response` is stored by `search_modrinth_mod` and read only by
  `display_mods`, which is left out. `PaperMCRequest.response` is never assigned, and `check_data`
  does not copy it.
