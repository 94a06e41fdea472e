/**
 * The native bootstrapper's view of the install: it finds the Reloaded
 * configuration under AppData, reads the loader and launcher locations from
 * it, and derives the path of the loader's runtime configuration. Every
 * "file not found" exception of the bootstrapper is an `Err` here.
 */
module LoaderConfig {
  import Paths

  datatype Option<T> = None | Some(value: T)

  /** A value, or the message of the exception the bootstrapper throws. */
  datatype Result<T> = Ok(value: T) | Err(message: string)

  const AppDataError := "Failed to obtain the path of the AppData folder."
  const ConfigNotFoundError := "Reloaded config has not been found."
  const LoaderNotFoundError := "Reloaded Mod Loader DLL has not been found."
  const RuntimeConfigNotFoundError := "Reloaded Mod Loader runtime configuration has not been found."

  /** The configuration file's location relative to AppData, with its separators written out. */
  const ConfigRelativePath := "\\" + "Reloaded-Mod-Loader-II" + "\\" + "ReloadedII.json"
  const RuntimeConfigSuffix := ".runtimeconfig.json"
  const LauncherPathKey := "LauncherPath"

  /** The build the bootstrapper is compiled for (`_WIN64` or not). */
  datatype Platform = Win32 | Win64

  /** The JSON properties of the configuration file, already converted to wide strings. */
  type Properties = map<string, string>

  /** A constructed `LoaderConfig`: the parsed properties of its configuration text. */
  datatype Config = Config(properties: Properties)

  /** The result pair of `get_loader_paths`. */
  datatype ReloadedPaths = ReloadedPaths(loaderPath: string, runtimeConfigPath: string)

  /** Whether a file exists; the bootstrapper asks the file system. */
  type FileExists = string -> bool

  /** The parsed properties of the file at a path; the bootstrapper reads and parses the file. */
  type ReadProperties = string -> Properties

  /**
   * The path the bootstrapper reads the configuration from: AppData, then the
   * launcher's configuration folder and file names, each after a backslash.
   */
  function ReloadedConfigPath(appData: string): (r: string)
    ensures r == appData + [Paths.DirectorySeparator] + Paths.ConfigFolderName
                 + [Paths.DirectorySeparator] + Paths.LauncherConfigName
  {
    RelativePathSegments();
    appData + ConfigRelativePath
  }

  /**
   * The constructor: fails when AppData is unknown or the configuration file is
   * missing; otherwise keeps the properties read from the configuration file.
   */
  function Load(appData: Option<string>, readProperties: ReadProperties, fileExists: FileExists): (r: Result<Config>)
    ensures appData.None? ==> r == Err(AppDataError)
    ensures appData.Some? && !fileExists(ReloadedConfigPath(appData.value)) ==> r == Err(ConfigNotFoundError)
    ensures r.Ok? <==> appData.Some? && fileExists(ReloadedConfigPath(appData.value))
    ensures r.Ok? ==> r.value.properties == readProperties(ReloadedConfigPath(appData.value))
  {
    match appData
    case None => Err(AppDataError)
    case Some(folder) =>
      var configPath := ReloadedConfigPath(folder);
      if !fileExists(configPath) then Err(ConfigNotFoundError)
      else Ok(Config(readProperties(configPath)))
  }

  /** The property that holds the loader's location on each build. */
  function LoaderPathKey(platform: Platform): (key: string)
    ensures platform == Win64 ==> key == "LoaderPath64"
    ensures platform == Win32 ==> key == "LoaderPath32"
  {
    match platform
    case Win64 => "LoaderPath64"
    case Win32 => "LoaderPath32"
  }

  /** `get_loader_path`: the configured loader DLL, if it exists. */
  function GetLoaderPath(config: Config, platform: Platform, fileExists: FileExists): (r: Result<string>)
    requires LoaderPathKey(platform) in config.properties
    ensures var configured := config.properties[LoaderPathKey(platform)];
      (r.Ok? <==> fileExists(configured))
      && (r.Ok? ==> r.value == configured)
      && (r.Err? ==> r.message == LoaderNotFoundError)
  {
    var loaderPath := config.properties[LoaderPathKey(platform)];
    if !fileExists(loaderPath) then Err(LoaderNotFoundError) else Ok(loaderPath)
  }

  /**
   * `get_launcher_path`: the configured launcher, if it exists. The message of
   * its failure is the loader DLL's message, as in the bootstrapper.
   */
  function GetLauncherPath(config: Config, fileExists: FileExists): (r: Result<string>)
    requires LauncherPathKey in config.properties
    ensures var configured := config.properties[LauncherPathKey];
      (r.Ok? <==> fileExists(configured))
      && (r.Ok? ==> r.value == configured)
      && (r.Err? ==> r.message == LoaderNotFoundError)
  {
    var launcherPath := config.properties[LauncherPathKey];
    if !fileExists(launcherPath) then Err(LoaderNotFoundError) else Ok(launcherPath)
  }

  // ----- The runtime configuration path ----------------------------------------

  /** One more than the largest `size_t` of the build. */
  function SizeModulus(platform: Platform): nat {
    match platform
    case Win32 => 0x1_0000_0000
    case Win64 => 0x1_0000_0000_0000_0000
  }

  /** `a - b` on `size_t`: wraps around below zero. */
  function SizeSub(a: nat, b: nat, platform: Platform): nat
    requires a < SizeModulus(platform) && b < SizeModulus(platform)
  {
    if a >= b then a - b else SizeModulus(platform) + a - b
  }

  /** `s.substr(0, count)`: a count past the end takes the whole string. */
  function Prefix(s: string, count: nat): string {
    if count <= |s| then s[..count] else s
  }

  /**
   * `loaderPath.substr(0, loaderPath.size() - 4) + L".runtimeconfig.json"`:
   * drops the last four characters (the `.dll` extension) and appends the
   * suffix. For a path shorter than four characters the unsigned difference
   * wraps and the whole path is kept.
   */
  function RuntimeConfigPathOf(loaderPath: string, platform: Platform): (r: string)
    requires |loaderPath| < SizeModulus(platform)
    ensures |loaderPath| >= 4 ==> r == loaderPath[..|loaderPath| - 4] + RuntimeConfigSuffix
    ensures |loaderPath| < 4 ==> r == loaderPath + RuntimeConfigSuffix
  {
    Prefix(loaderPath, SizeSub(|loaderPath|, 4, platform)) + RuntimeConfigSuffix
  }

  /** The path contains no more than a `size_t` can count. */
  predicate FitsSize(config: Config, platform: Platform) {
    LoaderPathKey(platform) in config.properties
    && |config.properties[LoaderPathKey(platform)]| < SizeModulus(platform)
  }

  /** `get_runtime_config_path`: fails as `get_loader_path` does, or when the derived file is missing. */
  function GetRuntimeConfigPath(config: Config, platform: Platform, fileExists: FileExists): (r: Result<string>)
    requires FitsSize(config, platform)
    ensures var configured := config.properties[LoaderPathKey(platform)];
      var derived := RuntimeConfigPathOf(configured, platform);
      (!fileExists(configured) ==> r == Err(LoaderNotFoundError))
      && (fileExists(configured) && !fileExists(derived) ==> r == Err(RuntimeConfigNotFoundError))
      && (r.Ok? <==> fileExists(configured) && fileExists(derived))
      && (r.Ok? ==> r.value == derived)
  {
    match GetLoaderPath(config, platform, fileExists)
    case Err(message) => Err(message)
    case Ok(loaderPath) =>
      var runtimeConfigPath := RuntimeConfigPathOf(loaderPath, platform);
      if !fileExists(runtimeConfigPath) then Err(RuntimeConfigNotFoundError)
      else Ok(runtimeConfigPath)
  }

  /** `get_loader_paths`: the loader and, derived from it, its runtime configuration. */
  function GetLoaderPaths(config: Config, platform: Platform, fileExists: FileExists): (r: Result<ReloadedPaths>)
    requires FitsSize(config, platform)
    ensures var configured := config.properties[LoaderPathKey(platform)];
      (r.Ok? <==> fileExists(configured) && fileExists(RuntimeConfigPathOf(configured, platform)))
      && (r.Err? ==> r == Err(if fileExists(configured) then RuntimeConfigNotFoundError else LoaderNotFoundError))
      && (r.Ok? ==> r.value.loaderPath == configured
                    && r.value.runtimeConfigPath == RuntimeConfigPathOf(r.value.loaderPath, platform))
  {
    match GetLoaderPath(config, platform, fileExists)
    case Err(message) => Err(message)
    case Ok(loaderPath) =>
      match GetRuntimeConfigPath(config, platform, fileExists)
      case Err(message) => Err(message)
      case Ok(runtimeConfigPath) => Ok(ReloadedPaths(loaderPath, runtimeConfigPath))
  }

  // ----- Properties ------------------------------------------------------------

  /** The bootstrapper's literal spells out the launcher's two names. */
  lemma RelativePathSegments()
    ensures ConfigRelativePath == [Paths.DirectorySeparator] + Paths.ConfigFolderName
                                  + [Paths.DirectorySeparator] + Paths.LauncherConfigName
  {
  }

  /**
   * The bootstrapper and the launcher agree on the configuration's location
   * exactly when `Path.Combine` inserts a separator after AppData: an empty
   * AppData, or one ending in a separator, makes them disagree.
   */
  lemma ConfigPathAgreesWithLauncher(appData: string)
    ensures ReloadedConfigPath(appData) == Paths.LauncherConfigPath(appData) <==> Paths.NeedsSeparator(appData)
  {
    var sep := [Paths.DirectorySeparator];
    var tail := Paths.ConfigFolderName + sep + Paths.LauncherConfigName;
    LauncherConfigPathSplits(appData);
    assert ReloadedConfigPath(appData) == appData + sep + tail;
    assert Paths.LauncherConfigPath(appData) == appData + Paths.SeparatorAfter(appData) + tail;
    if !Paths.NeedsSeparator(appData) {
      assert |Paths.LauncherConfigPath(appData)| < |ReloadedConfigPath(appData)|;
    }
  }

  /** The launcher's path: AppData, a separator if needed, and the same two names. */
  lemma LauncherConfigPathSplits(appData: string)
    ensures Paths.LauncherConfigPath(appData)
         == appData + Paths.SeparatorAfter(appData) + (Paths.ConfigFolderName + [Paths.DirectorySeparator] + Paths.LauncherConfigName)
  {
    Paths.NamesAreSegments();
    Paths.JoinSegment(appData, Paths.ConfigFolderName);
  }

  /** For a loader DLL the derived path replaces the `.dll` extension and keeps the stem. */
  lemma RuntimeConfigReplacesExtension(loaderPath: string, platform: Platform)
    requires |loaderPath| < SizeModulus(platform)
    requires Paths.EndsWith(loaderPath, ".dll")
    ensures var r := RuntimeConfigPathOf(loaderPath, platform);
      Paths.EndsWith(r, RuntimeConfigSuffix)
      && r[..|loaderPath| - 4] == loaderPath[..|loaderPath| - 4]
      && r != loaderPath
  {
    var r := RuntimeConfigPathOf(loaderPath, platform);
    assert |r| == |loaderPath| + 15;
  }

  lemma LoaderDllNameHasStem()
    ensures Paths.LoaderDllName == "Reloaded.Mod.Loader" + ".dll"
  {
  }

  /** The runtime configuration the bootstrapper looks for next to the installed 64-bit loader. */
  lemma RuntimeConfigOfInstalledLoader(launcherPath: string)
    requires |Paths.GetLoaderPath64(launcherPath)| < SizeModulus(Win64)
    ensures RuntimeConfigPathOf(Paths.GetLoaderPath64(launcherPath), Win64)
         == Paths.GetLoaderFolder64(launcherPath) + [Paths.DirectorySeparator]
            + "Reloaded.Mod.Loader" + RuntimeConfigSuffix
  {
    var dll := Paths.GetLoaderPath64(launcherPath);
    var folder := Paths.GetLoaderFolder64(launcherPath);
    var stem := folder + [Paths.DirectorySeparator] + "Reloaded.Mod.Loader";
    LoaderDllNameHasStem();
    assert dll == stem + ".dll";
    assert dll[..|dll| - 4] == stem;
  }

  /** A successful `get_loader_paths` agrees with the two getters it is made of. */
  lemma LoaderPathsAgreeWithGetters(config: Config, platform: Platform, fileExists: FileExists)
    requires FitsSize(config, platform)
    requires GetLoaderPaths(config, platform, fileExists).Ok?
    ensures GetLoaderPath(config, platform, fileExists) == Ok(GetLoaderPaths(config, platform, fileExists).value.loaderPath)
    ensures GetRuntimeConfigPath(config, platform, fileExists) == Ok(GetLoaderPaths(config, platform, fileExists).value.runtimeConfigPath)
  {
  }
}
