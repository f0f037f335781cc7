/**
 * Launch-time argument assembly and library checks (`Launcher` in
 * src/libs/launch.ts).
 *
 * `GenerateArguments` fills the defaults into the caller's options object
 * in place and then builds the command line token by token.
 * `EnsureLibraries` picks the missing or corrupt libraries from
 * per-library answers, and `ExtractNative` / `EnsureNative` select and
 * write the entries of native archives.
 *
 * What the code delegates (version parsing, template formatting, the
 * folder layout, offline accounts, path resolution, the platform, a fresh
 * UUID, file existence and checksums, archive reading) is passed in as
 * values and never interpreted.
 */
module Launcher {
  import opened Results
  import opened Text
  import opened Seqs

  // ---------------------------------------------------------------------
  // Data

  /** Extraction settings of a native library: entry-name prefixes to skip. */
  datatype NativeExtraction = NativeExtraction(extractExclude: Option<seq<string>>)

  /**
   * A library of a version: its storage path relative to the libraries
   * folder, its expected SHA-1 ("" when unknown), and, for a native
   * library, how to extract it.
   */
  datatype Library = Library(path: string, sha1: string, native: Option<NativeExtraction>)

  /** The parts of a parsed version that the launch reads. */
  datatype Version = Version(
    id: string,
    client: string,
    versionType: string,
    assets: string,
    mainClass: string,
    libraries: seq<Library>,
    jvmArguments: seq<string>,
    gameArguments: seq<string>)

  datatype GameProfile = GameProfile(name: string, id: string)

  /**
   * An account. `properties` and `userType` hold the text that
   * `JSON.stringify` and `UserType.toString` make of them.
   */
  datatype Auth = Auth(selectedProfile: Option<GameProfile>, accessToken: string, properties: string, userType: string)

  /** The `version` option: absent, a version id still to be parsed, or a parsed version. */
  datatype VersionRef = Unset | VersionId(id: string) | Parsed(version: Version)

  datatype Server = Server(ip: string, port: Option<int>)
  datatype Resolution = Resolution(width: Option<int>, height: Option<int>, fullscreen: bool)
  datatype Agent = Agent(jar: string, server: string)

  /**
   * The value of a `Launcher.Option` object. An absent boolean flag is
   * `false`; JavaScript numbers are integers here.
   */
  datatype Settings = Settings(
    auth: Option<Auth>,
    launcherName: Option<string>,
    launcherBrand: Option<string>,
    gamePath: string,
    resourcePath: Option<string>,
    javaPath: string,
    minMemory: Option<int>,
    maxMemory: Option<int>,
    version: VersionRef,
    server: Option<Server>,
    resolution: Option<Resolution>,
    extraJVMArgs: Option<seq<string>>,
    extraMCArgs: Option<seq<string>>,
    isDemo: Option<bool>,
    yggdrasilAgent: Option<Agent>,
    ignoreInvalidMinecraftCertificates: bool,
    ignorePatchDiscrepancies: bool)

  /** The collaborators the launch calls but does not define. */
  datatype Environment = Environment(
    platform: string,                                  // os.platform()
    isAbsolute: string -> bool,                        // path.isAbsolute
    resolvePath: string -> string,                     // path.resolve
    joinPath: (string, string) -> string,              // path.join
    offlineAuth: string -> Auth,                       // Auth.offline
    parseVersion: (string, string) -> Result<Version>, // Version.parse(root, id)
    nativesRoot: (string, string) -> string,           // new MinecraftFolder(root).getNativesRoot(id)
    libraryByPath: (string, string) -> string,         // new MinecraftFolder(root).getLibraryByPath(path)
    versionJar: (string, string) -> string,            // new MinecraftFolder(root).getVersionJar(id)
    format: (string, map<string, string>) -> string,   // format(template, values)
    freshUuid: string)                                 // v4()

  const DefaultMemory := 512
  const DefaultLauncherName := "JMCCC"
  const DefaultLauncherBrand := "InfinityStudio"
  const DefaultPlayer := "Steve"
  const DefaultWidth := 850
  const DefaultHeight := 470
  const NoVersionMessage := "Version cannot be null!"
  const NoProfileMessage := "TypeError: Cannot read property 'id' of undefined"
  const CertificatesFlag := "-Dfml.ignoreInvalidMinecraftCertificates=true"
  const PatchFlag := "-Dfml.ignorePatchDiscrepancies=true"

  /** JavaScript truthiness of an optional string: present and not "". */
  predicate SetText(s: Option<string>) {
    s.Some? && s.value != ""
  }

  /** JavaScript truthiness of an optional number: present and not 0. */
  predicate SetNumber(n: Option<int>) {
    n.Some? && n.value != 0
  }

  /** JavaScript truthiness of the `version` option. */
  predicate SetVersion(v: VersionRef) {
    v.Parsed? || (v.VersionId? && v.id != "")
  }

  // ---------------------------------------------------------------------
  // Defaults (src/libs/launch.ts:85-94)

  /** Every field the defaults fill in holds a usable value. */
  predicate Defaulted(d: Settings) {
    && d.auth.Some?
    && d.resourcePath.Some?
    && SetNumber(d.minMemory)
    && SetNumber(d.maxMemory)
    && SetText(d.launcherName)
    && SetText(d.launcherBrand)
    && d.isDemo.Some?
  }

  /** `d` keeps every value of `s` that was already set, and every field the defaults do not touch. */
  predicate KeepsSetValues(s: Settings, d: Settings, env: Environment) {
    && (s.auth.Some? ==> d.auth == s.auth)
    && (env.isAbsolute(s.gamePath) ==> d.gamePath == s.gamePath)
    && (SetText(s.resourcePath) ==> d.resourcePath == s.resourcePath)
    && (SetNumber(s.minMemory) ==> d.minMemory == s.minMemory)
    && (SetNumber(s.maxMemory) ==> d.maxMemory == s.maxMemory)
    && (SetText(s.launcherName) ==> d.launcherName == s.launcherName)
    && (SetText(s.launcherBrand) ==> d.launcherBrand == s.launcherBrand)
    && (s.isDemo == Some(true) ==> d.isDemo == s.isDemo)
    && d.javaPath == s.javaPath
    && d.version == s.version
    && d.server == s.server
    && d.resolution == s.resolution
    && d.extraJVMArgs == s.extraJVMArgs
    && d.extraMCArgs == s.extraMCArgs
    && d.yggdrasilAgent == s.yggdrasilAgent
    && d.ignoreInvalidMinecraftCertificates == s.ignoreInvalidMinecraftCertificates
    && d.ignorePatchDiscrepancies == s.ignorePatchDiscrepancies
  }

  /** Lines 86-88: the account, the absolute game path, and the resource path. */
  function PathDefaults(s: Settings, env: Environment): Settings {
    var gamePath := if env.isAbsolute(s.gamePath) then s.gamePath else env.resolvePath(s.gamePath);
    s.(
      auth := if s.auth.Some? then s.auth else Some(env.offlineAuth(DefaultPlayer)),
      gamePath := gamePath,
      resourcePath := if SetText(s.resourcePath) then s.resourcePath else Some(gamePath))
  }

  /** Lines 89-90: the memory bounds. */
  function MemoryDefaults(s: Settings): Settings {
    var minMemory := if SetNumber(s.minMemory) then s.minMemory else Some(DefaultMemory);
    s.(
      minMemory := minMemory,
      maxMemory := if SetNumber(s.maxMemory) then s.maxMemory else minMemory)
  }

  /** Lines 91-93: the launcher name and brand, and the demo flag. */
  function LauncherDefaults(s: Settings): Settings {
    s.(
      launcherName := if SetText(s.launcherName) then s.launcherName else Some(DefaultLauncherName),
      launcherBrand := if SetText(s.launcherBrand) then s.launcherBrand else Some(DefaultLauncherBrand),
      isDemo := if s.isDemo == Some(true) then s.isDemo else Some(false))
  }

  /** The options after lines 86-93: each falsy option replaced by its default. */
  function FillDefaults(s: Settings, env: Environment): (d: Settings)
    ensures Defaulted(d)
    ensures KeepsSetValues(s, d, env)
  {
    LauncherDefaults(MemoryDefaults(PathDefaults(s, env)))
  }

  /**
   * The default values: the resource path falls back to the (resolved) game
   * path, a falsy minimum memory (0 included) to 512, a falsy maximum to the
   * final minimum, the launcher name and brand to "JMCCC" and
   * "InfinityStudio", a missing account to the offline account "Steve",
   * and a falsy demo flag to `false`.
   */
  lemma DefaultValues(s: Settings, env: Environment)
    ensures var d := FillDefaults(s, env);
      && (!SetText(s.resourcePath) ==> d.resourcePath == Some(d.gamePath))
      && (!SetNumber(s.minMemory) ==> d.minMemory == Some(512))
      && (!SetNumber(s.maxMemory) ==> d.maxMemory == d.minMemory)
      && (!SetText(s.launcherName) ==> d.launcherName == Some("JMCCC"))
      && (!SetText(s.launcherBrand) ==> d.launcherBrand == Some("InfinityStudio"))
      && (s.auth.None? ==> d.auth == Some(env.offlineAuth("Steve")))
      && (!env.isAbsolute(s.gamePath) ==> d.gamePath == env.resolvePath(s.gamePath))
      && (s.isDemo != Some(true) ==> d.isDemo == Some(false))
  {
  }

  /**
   * Filling the defaults a second time changes nothing, once the resolved
   * game path counts as absolute: the options object that
   * `generateArguments` leaves behind can be passed to it again.
   */
  lemma FillDefaultsIdempotent(s: Settings, env: Environment)
    requires env.isAbsolute(FillDefaults(s, env).gamePath)
    ensures FillDefaults(FillDefaults(s, env), env) == FillDefaults(s, env)
  {
  }

  /** Line 94: a version id is parsed under the resource path; a parsed version is kept. */
  function ResolveVersion(d: Settings, env: Environment): (r: Result<Version>)
    requires d.resourcePath.Some?
    ensures d.version.Parsed? ==> r == Ok(d.version.version)
    ensures d.version.VersionId? ==> r == env.parseVersion(d.resourcePath.value, d.version.id)
    ensures d.version.Unset? ==> r == Err(NoVersionMessage)
  {
    match d.version
    case Parsed(v) => Ok(v)
    case VersionId(id) => env.parseVersion(d.resourcePath.value, id)
    case Unset => Err(NoVersionMessage)
  }

  // ---------------------------------------------------------------------
  // The command line (src/libs/launch.ts:96-167)

  /** The classpath separator: ":" on darwin, ";" elsewhere. */
  function ClasspathSeparator(platform: string): (c: char)
    ensures c == ':' <==> platform == "darwin"
    ensures platform != "darwin" ==> c == ';'
  {
    if platform == "darwin" then ':' else ';'
  }

  /** The files of the classpath: every library in library order, then the version jar. */
  function ClasspathFiles(v: Version, root: string, env: Environment): seq<string> {
    Map(v.libraries, (lib: Library) => env.libraryByPath(root, lib.path)) + [env.versionJar(root, v.client)]
  }

  /** The `classpath` value of lines 121-123. */
  function Classpath(v: Version, root: string, env: Environment): string {
    Join(ClasspathFiles(v, root, env), ClasspathSeparator(env.platform))
  }

  /**
   * The classpath lists the library files in library order and then the
   * version jar, and nothing else: splitting it at the separator gives
   * them back whenever no file name contains the separator.
   */
  lemma ClasspathLists(v: Version, root: string, env: Environment)
    requires forall k :: 0 <= k < |ClasspathFiles(v, root, env)| ==>
      ClasspathSeparator(env.platform) !in ClasspathFiles(v, root, env)[k]
    ensures var files := Split(Classpath(v, root, env), ClasspathSeparator(env.platform));
      && |files| == |v.libraries| + 1
      && (forall k :: 0 <= k < |v.libraries| ==> files[k] == env.libraryByPath(root, v.libraries[k].path))
      && files[|v.libraries|] == env.versionJar(root, v.client)
  {
    SplitJoin(ClasspathFiles(v, root, env), ClasspathSeparator(env.platform));
  }

  /** The values the jvm argument templates are formatted with (lines 117-124). */
  function JvmValues(d: Settings, v: Version, env: Environment): map<string, string>
    requires Defaulted(d)
  {
    map[
      "natives_directory" := env.nativesRoot(d.resourcePath.value, v.id),
      "launcher_name" := d.launcherName.value,
      "launcher_version" := d.launcherBrand.value,
      "classpath" := Classpath(v, d.resourcePath.value, env)]
  }

  /**
   * The jvm templates see exactly four values: the natives directory of the
   * version under the resource path, the launcher name, the launcher brand
   * (as `launcher_version`) and the classpath.
   */
  lemma JvmTemplateValues(d: Settings, v: Version, env: Environment)
    requires Defaulted(d)
    ensures var r := JvmValues(d, v, env);
      && r.Keys == {"natives_directory", "launcher_name", "launcher_version", "classpath"}
      && r["natives_directory"] == env.nativesRoot(d.resourcePath.value, v.id)
      && r["launcher_name"] == d.launcherName.value
      && r["launcher_version"] == d.launcherBrand.value
      && r["classpath"] == Classpath(v, d.resourcePath.value, env)
  {
  }

  /**
   * The values the game argument templates are formatted with (lines
   * 128-144). Line 137 allows for an account without a selected profile,
   * but line 138 reads its `id` all the same, which throws a TypeError.
   */
  function GameValues(d: Settings, v: Version, env: Environment): (r: Result<map<string, string>>)
    requires Defaulted(d)
    ensures r.Err? <==> d.auth.value.selectedProfile.None?
    ensures r.Ok? ==> "game_directory" in r.value && r.value["game_directory"] == d.gamePath
    ensures r.Ok? ==> "version_name" in r.value && r.value["version_name"] == v.id
  {
    var auth := d.auth.value;
    var resolution := if d.resolution.Some? then d.resolution.value
      else Resolution(Some(DefaultWidth), Some(DefaultHeight), false);
    var assetsDir := env.joinPath(d.resourcePath.value, "assets");
    match auth.selectedProfile
    case None => Err(NoProfileMessage)
    case Some(profile) =>
      Ok(map[
        "version_name" := v.id,
        "version_type" := v.versionType,
        "assets_root" := assetsDir,
        "game_assets" := assetsDir,
        "assets_index_name" := v.assets,
        "game_directory" := d.gamePath,
        "auth_player_name" := if profile.name != "" then profile.name else DefaultPlayer,
        "auth_uuid" := RemoveAll(profile.id, '-'),
        "auth_access_token" := if auth.accessToken != "" then auth.accessToken else env.freshUuid,
        "user_properties" := auth.properties,
        "user_type" := auth.userType,
        "resolution_width" := IntToString(if SetNumber(resolution.width) then resolution.width.value else DefaultWidth),
        "resolution_height" := IntToString(if SetNumber(resolution.height) then resolution.height.value else DefaultHeight)])
  }

  /**
   * The version and folder values: both asset values are the "assets"
   * folder under the resource path, and the game directory is the
   * (resolved) game path.
   */
  lemma GameFolderValues(d: Settings, v: Version, env: Environment)
    requires Defaulted(d) && d.auth.value.selectedProfile.Some?
    ensures GameValues(d, v, env).Ok?
    ensures var r := GameValues(d, v, env).value;
      && r["version_name"] == v.id
      && r["version_type"] == v.versionType
      && r["assets_root"] == r["game_assets"] == env.joinPath(d.resourcePath.value, "assets")
      && r["assets_index_name"] == v.assets
      && r["game_directory"] == d.gamePath
  {
  }

  /**
   * The account values: the player name falls back to "Steve" when the
   * profile's name is empty, the uuid is the profile id without its
   * dashes, and the access token falls back to a fresh UUID.
   */
  lemma GameAccountValues(d: Settings, v: Version, env: Environment)
    requires Defaulted(d) && d.auth.value.selectedProfile.Some?
    ensures GameValues(d, v, env).Ok?
    ensures var r, auth, profile := GameValues(d, v, env).value, d.auth.value, d.auth.value.selectedProfile.value;
      && r["auth_player_name"] == (if profile.name == "" then "Steve" else profile.name)
      && r["auth_uuid"] == RemoveAll(profile.id, '-')
      && r["auth_access_token"] == (if auth.accessToken == "" then env.freshUuid else auth.accessToken)
      && r["user_properties"] == auth.properties
      && r["user_type"] == auth.userType
  {
  }

  /** The window values: a missing or falsy width or height falls back to 850 or 470. */
  lemma GameResolutionValues(d: Settings, v: Version, env: Environment)
    requires Defaulted(d) && d.auth.value.selectedProfile.Some?
    ensures GameValues(d, v, env).Ok?
    ensures var r := GameValues(d, v, env).value;
      && r["resolution_width"] == IntToString(
           if d.resolution.Some? && SetNumber(d.resolution.value.width) then d.resolution.value.width.value else 850)
      && r["resolution_height"] == IntToString(
           if d.resolution.Some? && SetNumber(d.resolution.value.height) then d.resolution.value.height.value else 470)
  {
  }

  /** With a selected profile, the game templates see exactly thirteen values. */
  lemma GameTemplateKeys(d: Settings, v: Version, env: Environment)
    requires Defaulted(d) && d.auth.value.selectedProfile.Some?
    ensures GameValues(d, v, env).Ok?
    ensures GameValues(d, v, env).value.Keys ==
      {"version_name", "version_type", "assets_root", "game_assets", "assets_index_name",
       "game_directory", "auth_player_name", "auth_uuid", "auth_access_token", "user_properties",
       "user_type", "resolution_width", "resolution_height"}
  {
  }

  /** `templates.map((arg) => format(arg, values))` */
  function FormatAll(templates: seq<string>, values: map<string, string>, env: Environment): (r: seq<string>)
    ensures |r| == |templates|
    ensures forall k :: 0 <= k < |templates| ==> r[k] == env.format(templates[k], values)
  {
    Map(templates, (t: string) => env.format(t, values))
  }

  /** Lines 101-102: the two memory tokens. */
  function MemoryTokens(d: Settings): seq<string>
    requires Defaulted(d)
  {
    ["-Xmn" + IntToString(d.minMemory.value) + "M", "-Xms" + IntToString(d.maxMemory.value) + "M"]
  }

  /** Lines 104-115: the certificate flag, the patch flag, the agent and the extra jvm arguments, each only when set. */
  function JvmFlags(d: Settings): seq<string> {
    (if d.ignoreInvalidMinecraftCertificates then [CertificatesFlag] else [])
    + (if d.ignorePatchDiscrepancies then [PatchFlag] else [])
    + (if d.yggdrasilAgent.Some? then
         ["-javaagent:" + d.yggdrasilAgent.value.jar + "=@" + d.yggdrasilAgent.value.server]
       else [])
    + ExtraJvmArgs(d)
  }

  /**
   * The flags in order: the certificate flag, the patch flag, the agent,
   * each present exactly when set, and then the extra jvm arguments.
   */
  lemma JvmFlagsOrder(d: Settings)
    ensures var cert, patch, agent := if d.ignoreInvalidMinecraftCertificates then 1 else 0,
        if d.ignorePatchDiscrepancies then 1 else 0, if d.yggdrasilAgent.Some? then 1 else 0;
      var r := JvmFlags(d);
      && |r| == cert + patch + agent + |ExtraJvmArgs(d)|
      && (d.ignoreInvalidMinecraftCertificates ==> r[0] == CertificatesFlag)
      && (d.ignorePatchDiscrepancies ==> r[cert] == PatchFlag)
      && (d.yggdrasilAgent.Some? ==>
            r[cert + patch] == "-javaagent:" + d.yggdrasilAgent.value.jar + "=@" + d.yggdrasilAgent.value.server)
      && r[cert + patch + agent..] == ExtraJvmArgs(d)
  {
  }

  /** `extraJVMArgs` when present. */
  function ExtraJvmArgs(d: Settings): seq<string> {
    if d.extraJVMArgs.Some? then d.extraJVMArgs.value else []
  }

  /** Lines 149-154: "--server" and the address, then "--port" and the port only for a truthy port. */
  function ServerTokens(server: Option<Server>): seq<string> {
    match server
    case None => []
    case Some(sv) =>
      ["--server", sv.ip] + (if SetNumber(sv.port) then ["--port", IntToString(sv.port.value)] else [])
  }

  /**
   * No tokens without a server; otherwise "--server" and the address, then
   * "--port" and the port exactly when the port is truthy.
   */
  lemma ServerTokensLayout(server: Option<Server>)
    ensures var r := ServerTokens(server);
      && (server.None? ==> r == [])
      && (server.Some? ==> |r| == (if SetNumber(server.value.port) then 4 else 2))
      && (server.Some? ==> r[..2] == ["--server", server.value.ip])
      && (server.Some? ==>
            r[2..] == (if SetNumber(server.value.port) then ["--port", IntToString(server.value.port.value)] else []))
  {
  }

  /**
   * Lines 155-166: a fullscreen resolution gives "--fullscreen" alone;
   * otherwise "--height h" comes before "--width w", each a single token
   * and each only when truthy.
   */
  function ResolutionTokens(resolution: Option<Resolution>): (r: seq<string>)
    ensures resolution.None? ==> r == []
    ensures resolution.Some? && resolution.value.fullscreen ==> r == ["--fullscreen"]
    ensures resolution.Some? && !resolution.value.fullscreen ==>
      var res := resolution.value;
      && |r| == (if SetNumber(res.height) then 1 else 0) + (if SetNumber(res.width) then 1 else 0)
      && (SetNumber(res.height) ==> r[0] == "--height " + IntToString(res.height.value))
      && (SetNumber(res.width) ==> r[|r| - 1] == "--width " + IntToString(res.width.value))
  {
    match resolution
    case None => []
    case Some(res) =>
      if res.fullscreen then ["--fullscreen"]
      else
        (if SetNumber(res.height) then ["--height " + IntToString(res.height.value)] else [])
        + (if SetNumber(res.width) then ["--width " + IntToString(res.width.value)] else [])
  }

  /** `extraMCArgs` when present. */
  function ExtraGameArgs(d: Settings): seq<string> {
    if d.extraMCArgs.Some? then d.extraMCArgs.value else []
  }

  /** The command line built from defaulted options and the parsed version, or the error thrown on the way. */
  function CommandLine(d: Settings, v: Version, env: Environment): Result<seq<string>>
    requires Defaulted(d)
  {
    match GameValues(d, v, env)
    case Err(e) => Err(e)
    case Ok(game) =>
      Ok(Head(d)
         + FormatAll(v.jvmArguments, JvmValues(d, v, env), env)
         + [v.mainClass]
         + FormatAll(v.gameArguments, game, env)
         + Tail(d))
  }

  /** The tokens before the version's jvm arguments: java path, memory, flags. */
  function Head(d: Settings): seq<string>
    requires Defaulted(d)
  {
    [d.javaPath] + MemoryTokens(d) + JvmFlags(d)
  }

  /** The tokens after the formatted game arguments: extra game arguments, server, resolution. */
  function Tail(d: Settings): seq<string> {
    ExtraGameArgs(d) + ServerTokens(d.server) + ResolutionTokens(d.resolution)
  }

  /**
   * The token order: the java path, "-Xmn<min>M", "-Xms<max>M", the
   * flags, each jvm argument template formatted with the jvm values, the
   * main class, each game argument template formatted with the game values,
   * and last the extra game arguments, the server tokens and the resolution
   * tokens.
   */
  lemma TokenOrder(d: Settings, v: Version, env: Environment, cmd: seq<string>)
    requires Defaulted(d)
    requires CommandLine(d, v, env) == Ok(cmd)
    ensures var flags, main := |JvmFlags(d)|, 3 + |JvmFlags(d)| + |v.jvmArguments|;
      && |cmd| == main + 1 + |v.gameArguments| + |Tail(d)|
      && cmd[0] == d.javaPath
      && cmd[1] == "-Xmn" + IntToString(d.minMemory.value) + "M"
      && cmd[2] == "-Xms" + IntToString(d.maxMemory.value) + "M"
      && cmd[3..3 + flags] == JvmFlags(d)
      && cmd[3 + flags..main] == FormatAll(v.jvmArguments, JvmValues(d, v, env), env)
      && cmd[main] == v.mainClass
      && cmd[main + 1..main + 1 + |v.gameArguments|] == FormatAll(v.gameArguments, GameValues(d, v, env).value, env)
      && cmd[main + 1 + |v.gameArguments|..] == Tail(d)
  {
    var jvm := FormatAll(v.jvmArguments, JvmValues(d, v, env), env);
    var game := FormatAll(v.gameArguments, GameValues(d, v, env).value, env);
    assert cmd == Head(d) + jvm + [v.mainClass] + game + Tail(d);
    HeadLayout(d);
    Layout(cmd, Head(d), JvmFlags(d), jvm, |v.jvmArguments|, v.mainClass, game, |v.gameArguments|, Tail(d));
  }

  /** The head: the java path, the two memory tokens, then the flags. */
  lemma HeadLayout(d: Settings)
    requires Defaulted(d)
    ensures |Head(d)| == 3 + |JvmFlags(d)|
    ensures Head(d)[0] == d.javaPath
    ensures Head(d)[1] == "-Xmn" + IntToString(d.minMemory.value) + "M"
    ensures Head(d)[2] == "-Xms" + IntToString(d.maxMemory.value) + "M"
    ensures Head(d)[3..] == JvmFlags(d)
  {
  }

  /** Where each section of a command line laid out as head, jvm arguments, main class, game arguments, tail lies. */
  lemma Layout(cmd: seq<string>, head: seq<string>, flags: seq<string>, jvm: seq<string>, jvmCount: nat,
               main: string, game: seq<string>, gameCount: nat, tail: seq<string>)
    requires cmd == head + jvm + [main] + game + tail
    requires |head| == 3 + |flags| && head[3..] == flags
    requires |jvm| == jvmCount && |game| == gameCount
    ensures |cmd| == 4 + |flags| + jvmCount + gameCount + |tail|
    ensures cmd[0] == head[0] && cmd[1] == head[1] && cmd[2] == head[2]
    ensures cmd[3..3 + |flags|] == flags
    ensures cmd[3 + |flags|..3 + |flags| + jvmCount] == jvm
    ensures cmd[3 + |flags| + jvmCount] == main
    ensures cmd[3 + |flags| + jvmCount + 1..3 + |flags| + jvmCount + 1 + gameCount] == game
    ensures cmd[4 + |flags| + jvmCount + gameCount..] == tail
  {
    var front := head + jvm + [main] + game;
    assert cmd[|front|..] == tail;
    assert cmd[3..3 + |flags|] == head[3..];
    assert cmd[|head|..|head| + |jvm|] == jvm;
    assert cmd[|head| + |jvm| + 1..|front|] == game;
  }

  /** What `generateArguments` returns or throws for options `s`. */
  function Arguments(s: Settings, env: Environment): Result<seq<string>> {
    if !SetVersion(s.version) then Err(NoVersionMessage)
    else
      var d := FillDefaults(s, env);
      match ResolveVersion(d, env)
      case Err(e) => Err(e)
      case Ok(v) => CommandLine(d.(version := Parsed(v)), v, env)
  }

  /**
   * The options object after `generateArguments`: untouched when the
   * version is missing; defaulted when parsing the version fails; defaulted
   * and holding the parsed version otherwise.
   */
  function OptionsAfter(s: Settings, env: Environment): Settings {
    if !SetVersion(s.version) then s
    else
      var d := FillDefaults(s, env);
      match ResolveVersion(d, env)
      case Err(_) => d
      case Ok(v) => d.(version := Parsed(v))
  }

  /** Without a version, `generateArguments` throws and changes nothing. */
  lemma NoVersionFails(s: Settings, env: Environment)
    requires s.version.Unset? || s.version == VersionId("")
    ensures Arguments(s, env) == Err("Version cannot be null!")
    ensures OptionsAfter(s, env) == s
  {
  }

  /** A `Launcher.Option` object, which `generateArguments` updates in place. */
  class LaunchOptions {
    var auth: Option<Auth>
    var launcherName: Option<string>
    var launcherBrand: Option<string>
    var gamePath: string
    var resourcePath: Option<string>
    var javaPath: string
    var minMemory: Option<int>
    var maxMemory: Option<int>
    var version: VersionRef
    var server: Option<Server>
    var resolution: Option<Resolution>
    var extraJVMArgs: Option<seq<string>>
    var extraMCArgs: Option<seq<string>>
    var isDemo: Option<bool>
    var yggdrasilAgent: Option<Agent>
    var ignoreInvalidMinecraftCertificates: bool
    var ignorePatchDiscrepancies: bool

    /** The current value of every option. */
    function Value(): Settings
      reads this
    {
      Settings(auth, launcherName, launcherBrand, gamePath, resourcePath, javaPath, minMemory, maxMemory,
               version, server, resolution, extraJVMArgs, extraMCArgs, isDemo, yggdrasilAgent,
               ignoreInvalidMinecraftCertificates, ignorePatchDiscrepancies)
    }

    /** Line 94's assignment: the version option now holds the parsed version. */
    method UseParsedVersion(v: Version)
      modifies this
      ensures Value() == old(Value()).(version := Parsed(v))
    {
      version := Parsed(v);
    }

    constructor (s: Settings)
      ensures Value() == s
    {
      auth, launcherName, launcherBrand := s.auth, s.launcherName, s.launcherBrand;
      gamePath, resourcePath, javaPath := s.gamePath, s.resourcePath, s.javaPath;
      minMemory, maxMemory, version := s.minMemory, s.maxMemory, s.version;
      server, resolution := s.server, s.resolution;
      extraJVMArgs, extraMCArgs, isDemo := s.extraJVMArgs, s.extraMCArgs, s.isDemo;
      yggdrasilAgent := s.yggdrasilAgent;
      ignoreInvalidMinecraftCertificates := s.ignoreInvalidMinecraftCertificates;
      ignorePatchDiscrepancies := s.ignorePatchDiscrepancies;
    }
  }

  /** Lines 86-88, assigned into the options object. */
  method FillPathDefaults(options: LaunchOptions, env: Environment)
    modifies options
    ensures options.Value() == PathDefaults(old(options.Value()), env)
  {
    if options.auth.None? { options.auth := Some(env.offlineAuth(DefaultPlayer)); }
    if !env.isAbsolute(options.gamePath) { options.gamePath := env.resolvePath(options.gamePath); }
    if !SetText(options.resourcePath) { options.resourcePath := Some(options.gamePath); }
  }

  /** Lines 89-90, assigned into the options object. */
  method FillMemoryDefaults(options: LaunchOptions)
    modifies options
    ensures options.Value() == MemoryDefaults(old(options.Value()))
  {
    if !SetNumber(options.minMemory) { options.minMemory := Some(DefaultMemory); }
    if !SetNumber(options.maxMemory) { options.maxMemory := options.minMemory; }
  }

  /** Lines 91-93, assigned into the options object. */
  method FillLauncherDefaults(options: LaunchOptions)
    modifies options
    ensures options.Value() == LauncherDefaults(old(options.Value()))
  {
    if !SetText(options.launcherName) { options.launcherName := Some(DefaultLauncherName); }
    if !SetText(options.launcherBrand) { options.launcherBrand := Some(DefaultLauncherBrand); }
    if options.isDemo != Some(true) { options.isDemo := Some(false); }
  }

  /** Lines 86-93: the defaults, assigned into the options object one field at a time. */
  method FillDefaultsInPlace(options: LaunchOptions, env: Environment)
    modifies options
    ensures options.Value() == FillDefaults(old(options.Value()), env)
  {
    FillPathDefaults(options, env);
    FillMemoryDefaults(options);
    FillLauncherDefaults(options);
  }

  /** Lines 99-115: the java path and the memory tokens, then the flags. */
  method PushHead(d: Settings) returns (cmd: seq<string>)
    requires Defaulted(d)
    ensures cmd == Head(d)
  {
    cmd := [d.javaPath];
    cmd := cmd + ["-Xmn" + IntToString(d.minMemory.value) + "M"];
    cmd := cmd + ["-Xms" + IntToString(d.maxMemory.value) + "M"];
    cmd := PushFlags(cmd, d);
  }

  /** Lines 104-115: the flags pushed onto `cmd`, each only when set. */
  method PushFlags(cmd0: seq<string>, d: Settings) returns (cmd: seq<string>)
    ensures cmd == cmd0 + JvmFlags(d)
  {
    cmd := cmd0;
    if d.ignoreInvalidMinecraftCertificates {
      cmd := cmd + [CertificatesFlag];
    }
    if d.ignorePatchDiscrepancies {
      cmd := cmd + [PatchFlag];
    }
    if d.yggdrasilAgent.Some? {
      cmd := cmd + ["-javaagent:" + d.yggdrasilAgent.value.jar + "=@" + d.yggdrasilAgent.value.server];
    }
    ghost var flags := cmd[|cmd0|..];
    assert cmd == cmd0 + flags;
    if d.extraJVMArgs.Some? {
      cmd := cmd + d.extraJVMArgs.value;
    }
    assert cmd == cmd0 + flags + ExtraJvmArgs(d);
  }

  /** Lines 148-166: the extra game arguments, the server and the resolution pushed onto `cmd`. */
  method PushTail(cmd0: seq<string>, d: Settings) returns (cmd: seq<string>)
    ensures cmd == cmd0 + Tail(d)
  {
    cmd := cmd0;
    if d.extraMCArgs.Some? {
      cmd := cmd + d.extraMCArgs.value;
    }
    assert cmd == cmd0 + ExtraGameArgs(d);
    cmd := PushServer(cmd, d.server);
    assert cmd == cmd0 + (ExtraGameArgs(d) + ServerTokens(d.server));
    cmd := PushResolution(cmd, d.resolution);
  }

  /** Lines 149-154: the server tokens pushed onto `cmd`. */
  method PushServer(cmd0: seq<string>, server: Option<Server>) returns (cmd: seq<string>)
    ensures cmd == cmd0 + ServerTokens(server)
  {
    cmd := cmd0;
    if server.Some? {
      cmd := cmd + ["--server"];
      cmd := cmd + [server.value.ip];
      if SetNumber(server.value.port) {
        cmd := cmd + ["--port"];
        cmd := cmd + [IntToString(server.value.port.value)];
      }
    }
  }

  /** Lines 155-166: the resolution tokens pushed onto `cmd`. */
  method PushResolution(cmd0: seq<string>, resolution: Option<Resolution>) returns (cmd: seq<string>)
    ensures cmd == cmd0 + ResolutionTokens(resolution)
  {
    cmd := cmd0;
    if resolution.Some? {
      if resolution.value.fullscreen {
        cmd := cmd + ["--fullscreen"];
      } else {
        if SetNumber(resolution.value.height) {
          cmd := cmd + ["--height " + IntToString(resolution.value.height.value)];
        }
        if SetNumber(resolution.value.width) {
          cmd := cmd + ["--width " + IntToString(resolution.value.width.value)];
        }
      }
    }
  }

  /** Lines 96-167: the command line, pushed onto `cmd` group by group. */
  method BuildCommandLine(d: Settings, v: Version, env: Environment) returns (r: Result<seq<string>>)
    requires Defaulted(d)
    ensures r == CommandLine(d, v, env)
  {
    var cmd := PushHead(d);
    cmd := cmd + FormatAll(v.jvmArguments, JvmValues(d, v, env), env);
    cmd := cmd + [v.mainClass];
    var game := GameValues(d, v, env);
    if game.Err? {
      return Err(game.message);
    }
    cmd := cmd + FormatAll(v.gameArguments, game.value, env);
    cmd := PushTail(cmd, d);
    r := Ok(cmd);
  }

  /**
   * `generateArguments`: fills the defaults into `options` in place, parses
   * the version when it is given by id, and builds the command line.
   */
  method GenerateArguments(options: LaunchOptions, env: Environment) returns (r: Result<seq<string>>)
    modifies options
    ensures r == Arguments(old(options.Value()), env)
    ensures options.Value() == OptionsAfter(old(options.Value()), env)
  {
    if !SetVersion(options.version) {
      return Err(NoVersionMessage);
    }
    FillDefaultsInPlace(options, env);
    var version: Version;
    if options.version.VersionId? {
      var parsed := env.parseVersion(options.resourcePath.value, options.version.id);
      if parsed.Err? {
        return Err(parsed.message);
      }
      version := parsed.value;
    } else {
      version := options.version.version;
    }
    options.UseParsedVersion(version);
    r := BuildCommandLine(options.Value(), version, env);
  }

  // ---------------------------------------------------------------------
  // Library checks (src/libs/launch.ts:170-192)

  /** What `ensureLibraries` concludes: all present and sound, or the libraries it throws with. */
  datatype LibraryCheck = Complete | MissingLibs(libs: seq<Library>) | CorruptedLibs(libs: seq<Library>)

  /** A library is corrupt when its SHA-1 is known and differs from the computed checksum. */
  predicate Corrupted(lib: Library, sum: string) {
    lib.sha1 != "" && sum != lib.sha1
  }

  /** `(lib) => lib.download.sha1 !== "" && sum !== lib.download.sha1`, with the checksum of each library's file. */
  function CorruptedBy(checksum: Library -> string): Library -> bool {
    (lib: Library) => Corrupted(lib, checksum(lib))
  }

  /**
   * `ensureLibraries`, given whether each library's file is missing and the
   * checksum of each library's file. Missing libraries are reported first
   * and alone; only when none is missing are checksums compared.
   */
  function EnsureLibraries(libs: seq<Library>, missing: Library -> bool, checksum: Library -> string): (r: LibraryCheck)
    ensures r.MissingLibs? <==> exists i :: 0 <= i < |libs| && missing(libs[i])
    ensures r.CorruptedLibs? <==>
      (forall i :: 0 <= i < |libs| ==> !missing(libs[i]))
      && exists i :: 0 <= i < |libs| && Corrupted(libs[i], checksum(libs[i]))
    ensures r.Complete? <==> forall i :: 0 <= i < |libs| ==> !missing(libs[i]) && !Corrupted(libs[i], checksum(libs[i]))
    ensures r.MissingLibs? ==> r.libs == Filter(libs, missing)
    ensures r.CorruptedLibs? ==> r.libs == Filter(libs, CorruptedBy(checksum))
  {
    FilterEmpty(libs, missing);
    FilterEmpty(libs, CorruptedBy(checksum));
    var missingLibs := Filter(libs, missing);
    if |missingLibs| > 0 then MissingLibs(missingLibs)
    else
      var corruptedLibs := Filter(libs, CorruptedBy(checksum));
      if |corruptedLibs| > 0 then CorruptedLibs(corruptedLibs)
      else Complete
  }

  /**
   * The reported missing libraries are exactly the missing ones, each at
   * its own position, in library order.
   */
  lemma MissingReportedInLibraryOrder(libs: seq<Library>, missing: Library -> bool, checksum: Library -> string)
    requires EnsureLibraries(libs, missing, checksum).MissingLibs?
    ensures var r, idx := EnsureLibraries(libs, missing, checksum).libs, Selected(libs, missing);
      && |r| == |idx|
      && (forall k :: 0 <= k < |idx| ==> idx[k] < |libs| && r[k] == libs[idx[k]])
      && (forall k, l :: 0 <= k < l < |idx| ==> idx[k] < idx[l])
      && (forall i :: 0 <= i < |libs| ==> (missing(libs[i]) <==> i in idx))
  {
    FilterIsSubsequence(libs, missing);
  }

  /**
   * When none is missing, the reported corrupt libraries are exactly the
   * corrupt ones, each at its own position, in library order.
   */
  lemma CorruptedReportedInLibraryOrder(libs: seq<Library>, missing: Library -> bool, checksum: Library -> string)
    requires EnsureLibraries(libs, missing, checksum).CorruptedLibs?
    ensures var r, idx := EnsureLibraries(libs, missing, checksum).libs, Selected(libs, CorruptedBy(checksum));
      && |r| == |idx|
      && (forall k :: 0 <= k < |idx| ==> idx[k] < |libs| && r[k] == libs[idx[k]])
      && (forall k, l :: 0 <= k < l < |idx| ==> idx[k] < idx[l])
      && (forall i :: 0 <= i < |libs| ==> (Corrupted(libs[i], checksum(libs[i])) <==> i in idx))
  {
    FilterIsSubsequence(libs, CorruptedBy(checksum));
  }

  /** When a library is missing, no checksum is compared: the outcome does not depend on them. */
  lemma MissingSkipsChecksums(libs: seq<Library>, missing: Library -> bool, sum1: Library -> string, sum2: Library -> string)
    requires exists i :: 0 <= i < |libs| && missing(libs[i])
    ensures EnsureLibraries(libs, missing, sum1) == EnsureLibraries(libs, missing, sum2)
  {
  }

  /** A library without a known SHA-1 is never reported corrupt, whatever its checksum. */
  lemma UnknownChecksumNeverCorrupt(libs: seq<Library>, missing: Library -> bool, checksum: Library -> string, lib: Library)
    requires lib.sha1 == ""
    ensures var r := EnsureLibraries(libs, missing, checksum);
      r.CorruptedLibs? ==> lib !in r.libs
  {
  }

  // ---------------------------------------------------------------------
  // Native extraction (src/libs/launch.ts:194-209)

  /** An entry of a native archive, as the archive reader lists it. */
  datatype ArchiveEntry = ArchiveEntry(name: string, dir: bool)

  /** `excluded.filter((s) => p.startsWith(s)).length === 0` */
  predicate NoExcludeMatches(name: string, excluded: seq<string>) {
    |Filter(excluded, (s: string) => StartsWith(name, s))| == 0
  }

  /** `n.extractExclude ? n.extractExclude : []` */
  function Excludes(native: NativeExtraction): seq<string> {
    if native.extractExclude.Some? then native.extractExclude.value else []
  }

  /** `zip.filter(containsExcludes)` as a predicate on entries. */
  function Included(native: NativeExtraction): ArchiveEntry -> bool {
    (e: ArchiveEntry) => NoExcludeMatches(e.name, Excludes(native))
  }

  /** `(p) => !p.dir` */
  predicate IsFileEntry(e: ArchiveEntry) {
    !e.dir
  }

  /** The entries `ensureNative` writes out, in archive order. */
  function Extracted(entries: seq<ArchiveEntry>, native: NativeExtraction): seq<ArchiveEntry> {
    Filter(Filter(entries, Included(native)), IsFileEntry)
  }

  /** An entry is matched by no exclude prefix exactly when it starts with none of them. */
  lemma NoExcludeMatchesIff(name: string, excluded: seq<string>)
    ensures NoExcludeMatches(name, excluded) <==> forall k :: 0 <= k < |excluded| ==> !StartsWith(name, excluded[k])
  {
    var matching := Filter(excluded, (s: string) => StartsWith(name, s));
    FilterMembers(excluded, (s: string) => StartsWith(name, s));
    if |matching| > 0 {
      assert matching[0] in excluded && StartsWith(name, matching[0]);
    }
  }

  /**
   * An archive entry is extracted exactly when it is not a directory and
   * its name starts with none of the exclude prefixes; without an exclude
   * list only directories are skipped.
   */
  lemma ExtractedIff(entries: seq<ArchiveEntry>, native: NativeExtraction, e: ArchiveEntry)
    requires e in entries
    ensures e in Extracted(entries, native) <==>
      !e.dir && forall k :: 0 <= k < |Excludes(native)| ==> !StartsWith(e.name, Excludes(native)[k])
    ensures native.extractExclude.None? ==> (e in Extracted(entries, native) <==> !e.dir)
  {
    NoExcludeMatchesIff(e.name, Excludes(native));
    var included := Filter(entries, Included(native));
    FilterMembers(entries, Included(native));
    FilterMembers(included, IsFileEntry);
    if !e.dir && Included(native)(e) {
      var i :| 0 <= i < |entries| && entries[i] == e;
      assert e in included;
      var j :| 0 <= j < |included| && included[j] == e;
    }
  }

  /** `(entry) => entry.name` */
  function EntryName(e: ArchiveEntry): string {
    e.name
  }

  /**
   * The loop of lines 203-207 for one native library: the names of the
   * entries it writes into the natives directory, in the order it writes them.
   */
  method ExtractNative(entries: seq<ArchiveEntry>, native: NativeExtraction) returns (written: seq<string>)
    ensures written == Map(Extracted(entries, native), EntryName)
  {
    var selected := Filter(Filter(entries, Included(native)), IsFileEntry);
    written := [];
    for i := 0 to |selected|
      invariant |written| == i
      invariant forall j :: 0 <= j < i ==> written[j] == selected[j].name
    {
      written := written + [selected[i].name];
    }
  }

  /** `lib instanceof Native` */
  predicate IsNative(lib: Library) {
    lib.native.Some?
  }

  /**
   * `ensureNative`: extracts every native library of the version, in
   * library order, from the entries `archive` lists for it. The k-th
   * result is what the k-th native library writes.
   */
  method EnsureNative(version: Version, archive: Library -> seq<ArchiveEntry>) returns (extracted: seq<seq<string>>)
    ensures var natives := Filter(version.libraries, IsNative);
      && |extracted| == |natives|
      && forall k :: 0 <= k < |natives| ==>
           extracted[k] == Map(Extracted(archive(natives[k]), natives[k].native.value), EntryName)
  {
    var natives := Filter(version.libraries, IsNative);
    extracted := [];
    for k := 0 to |natives|
      invariant |extracted| == k
      invariant forall j :: 0 <= j < k ==>
        extracted[j] == Map(Extracted(archive(natives[j]), natives[j].native.value), EntryName)
    {
      var written := ExtractNative(archive(natives[k]), natives[k].native.value);
      extracted := extracted + [written];
    }
  }
}
