/**
 * The install and configuration layout of the mod loader: every path is a
 * `Path.Combine` of an argument (the launcher folder, or the user's AppData
 * folder) with fixed relative names.
 */
module Paths {

  /** Windows' `Path.DirectorySeparatorChar`. */
  const DirectorySeparator: char := '\\'
  /** Windows' `Path.AltDirectorySeparatorChar`. */
  const AltDirectorySeparator: char := '/'

  const LoaderSegment := "Loader"
  const X86Segment := "x86"
  const X64Segment := "x64"
  const LoaderDllName := "Reloaded.Mod.Loader.dll"
  const BootstrapperSegment := "Bootstrapper"
  const BootstrapperDllName := "Reloaded.Mod.Loader.Bootstrapper.dll"
  const Kernel32AddressDumperRelativePath := "Loader/Kernel32AddressDumper.exe"
  const ConfigFolderName := "Reloaded-Mod-Loader-II"
  const LauncherConfigName := "ReloadedII.json"
  const ProfileOptimizationName := "ProfileOptimization"
  const LogFolderName := "Logs"
  const ArchivedLogName := "Logs.zip"

  predicate IsSeparator(c: char) {
    c == DirectorySeparator || c == AltDirectorySeparator
  }

  predicate IsDriveLetter(c: char) {
    ('a' <= c <= 'z') || ('A' <= c <= 'Z')
  }

  /** `Path.IsPathRooted` on Windows: a leading separator or a drive such as `C:`. */
  predicate IsRooted(p: string) {
    (|p| >= 1 && IsSeparator(p[0])) || (|p| >= 2 && IsDriveLetter(p[0]) && p[1] == ':')
  }

  /** True when combining `a` with a further part has to insert a separator. */
  predicate NeedsSeparator(a: string) {
    a != "" && !IsSeparator(a[|a| - 1])
  }

  /** A relative name with no separator in it: one path segment. */
  predicate IsSegment(name: string) {
    name != "" && !IsRooted(name) && forall i :: 0 <= i < |name| ==> !IsSeparator(name[i])
  }

  predicate EndsWith(s: string, suffix: string) {
    |suffix| <= |s| && s[|s| - |suffix|..] == suffix
  }

  /**
   * `Path.Combine(a, b)`: a rooted `b` replaces `a`; an empty part is skipped;
   * otherwise one directory separator is inserted unless `a` already ends in one.
   */
  function Join(a: string, b: string): (r: string)
    ensures IsRooted(b) ==> r == b
    ensures !IsRooted(b) ==> a <= r && EndsWith(r, b)
    ensures !IsRooted(b) && b != "" ==> r == a + SeparatorAfter(a) + b
  {
    if IsRooted(b) then b
    else if a == "" then b
    else if b == "" then a
    else if IsSeparator(a[|a| - 1]) then a + b
    else a + [DirectorySeparator] + b
  }

  /** What `Join` puts between `a` and a relative part. */
  function SeparatorAfter(a: string): string {
    if NeedsSeparator(a) then [DirectorySeparator] else []
  }

  /** A relative part that does not end in a separator. */
  predicate IsTail(b: string) {
    b != "" && !IsRooted(b) && !IsSeparator(b[|b| - 1])
  }

  /** Joining a segment that does not end in a separator: the result does not either. */
  lemma JoinSegment(a: string, b: string)
    requires IsTail(b)
    ensures Join(a, b) == a + SeparatorAfter(a) + b
    ensures NeedsSeparator(Join(a, b))
  {
    assert !IsRooted(b) && b != "";
    var r := a + SeparatorAfter(a) + b;
    assert r[|r| - 1] == b[|b| - 1];
  }

  /** `child` is the entry `name` directly inside `parent`. */
  predicate IsChildNamed(parent: string, child: string, name: string) {
    IsSegment(name) && child == parent + [DirectorySeparator] + name
  }

  /** The fixed names used below are single segments. */
  lemma NamesAreSegments()
    ensures IsSegment(ConfigFolderName) && IsSegment(LauncherConfigName)
    ensures IsSegment(ProfileOptimizationName) && IsSegment(LogFolderName)
    ensures IsSegment(ArchivedLogName)
  {
  }

  /** The fixed names of the install layout do not end in a separator. */
  lemma InstallNamesAreTails()
    ensures IsTail(LoaderSegment) && IsTail(X86Segment) && IsTail(X64Segment)
    ensures IsTail(LoaderDllName) && IsTail(BootstrapperSegment) && IsTail(BootstrapperDllName)
    ensures IsTail(Kernel32AddressDumperRelativePath)
  {
  }

  // ----- Folders under AppData -------------------------------------------------

  /** `Paths.ConfigFolder`: the Reloaded folder under AppData. */
  function ConfigFolder(appData: string): (r: string)
    ensures r == appData + SeparatorAfter(appData) + ConfigFolderName
    ensures appData <= r && EndsWith(r, ConfigFolderName)
    ensures NeedsSeparator(appData) ==> IsChildNamed(appData, r, ConfigFolderName)
  {
    NamesAreSegments();
    JoinSegment(appData, ConfigFolderName);
    Join(appData, ConfigFolderName)
  }

  /** `Paths.LauncherConfigPath`: the static configuration that locates the install. */
  function LauncherConfigPath(appData: string): (r: string)
    ensures IsChildNamed(ConfigFolder(appData), r, LauncherConfigName)
  {
    NamesAreSegments();
    JoinSegment(ConfigFolder(appData), LauncherConfigName);
    Join(ConfigFolder(appData), LauncherConfigName)
  }

  /** `Paths.ProfileOptimizationPath`. */
  function ProfileOptimizationPath(appData: string): (r: string)
    ensures IsChildNamed(ConfigFolder(appData), r, ProfileOptimizationName)
  {
    NamesAreSegments();
    JoinSegment(ConfigFolder(appData), ProfileOptimizationName);
    Join(ConfigFolder(appData), ProfileOptimizationName)
  }

  /** `Paths.LogPath`: the loader's log folder. */
  function LogPath(appData: string): (r: string)
    ensures IsChildNamed(ConfigFolder(appData), r, LogFolderName)
  {
    NamesAreSegments();
    JoinSegment(ConfigFolder(appData), LogFolderName);
    Join(ConfigFolder(appData), LogFolderName)
  }

  /** `Paths.ArchivedLogPath`: the archive inside the log folder. */
  function ArchivedLogPath(appData: string): (r: string)
    ensures IsChildNamed(LogPath(appData), r, ArchivedLogName)
  {
    NamesAreSegments();
    JoinSegment(LogPath(appData), ArchivedLogName);
    Join(LogPath(appData), ArchivedLogName)
  }

  // ----- Files and folders under the launcher folder ----------------------------

  /** The launcher folder followed, when needed, by a separator. */
  function InLauncher(launcherPath: string, relative: string): string {
    launcherPath + SeparatorAfter(launcherPath) + relative
  }

  /** The dumper's relative name is appended verbatim: its `/` is not normalised. */
  function GetKernel32AddressDumperPath(launcherPath: string): (r: string)
    ensures launcherPath <= r
    ensures r == InLauncher(launcherPath, Kernel32AddressDumperRelativePath)
  {
    InstallNamesAreTails();
    JoinSegment(launcherPath, Kernel32AddressDumperRelativePath);
    Join(launcherPath, Kernel32AddressDumperRelativePath)
  }

  function GetLoaderFolder32(launcherPath: string): (r: string)
    ensures launcherPath <= r
    ensures r == InLauncher(launcherPath, LoaderSegment + [DirectorySeparator] + X86Segment)
  {
    InstallNamesAreTails();
    JoinSegment(launcherPath, LoaderSegment);
    JoinSegment(Join(launcherPath, LoaderSegment), X86Segment);
    Join(Join(launcherPath, LoaderSegment), X86Segment)
  }

  function GetLoaderFolder64(launcherPath: string): (r: string)
    ensures launcherPath <= r
    ensures r == InLauncher(launcherPath, LoaderSegment + [DirectorySeparator] + X64Segment)
  {
    InstallNamesAreTails();
    JoinSegment(launcherPath, LoaderSegment);
    JoinSegment(Join(launcherPath, LoaderSegment), X64Segment);
    Join(Join(launcherPath, LoaderSegment), X64Segment)
  }

  function GetLoaderPath32(launcherPath: string): (r: string)
    ensures launcherPath <= r
    ensures GetLoaderFolder32(launcherPath) < r
    ensures r == GetLoaderFolder32(launcherPath) + [DirectorySeparator] + LoaderDllName
  {
    InstallNamesAreTails();
    var folder := GetLoaderFolder32(launcherPath);
    assert folder[|folder| - 1] == '6';
    JoinSegment(folder, LoaderDllName);
    Join(folder, LoaderDllName)
  }

  function GetLoaderPath64(launcherPath: string): (r: string)
    ensures launcherPath <= r
    ensures GetLoaderFolder64(launcherPath) < r
    ensures r == GetLoaderFolder64(launcherPath) + [DirectorySeparator] + LoaderDllName
  {
    InstallNamesAreTails();
    JoinSegment(GetLoaderFolder64(launcherPath), LoaderDllName);
    Join(GetLoaderFolder64(launcherPath), LoaderDllName)
  }

  function GetBootstrapperPath32(launcherPath: string): (r: string)
    ensures launcherPath <= r
    ensures r == GetLoaderFolder32(launcherPath) + [DirectorySeparator] + BootstrapperSegment + [DirectorySeparator] + BootstrapperDllName
  {
    InstallNamesAreTails();
    JoinSegment(GetLoaderFolder32(launcherPath), BootstrapperSegment);
    JoinSegment(Join(GetLoaderFolder32(launcherPath), BootstrapperSegment), BootstrapperDllName);
    Join(Join(GetLoaderFolder32(launcherPath), BootstrapperSegment), BootstrapperDllName)
  }

  function GetBootstrapperPath64(launcherPath: string): (r: string)
    ensures launcherPath <= r
    ensures r == GetLoaderFolder64(launcherPath) + [DirectorySeparator] + BootstrapperSegment + [DirectorySeparator] + BootstrapperDllName
  {
    InstallNamesAreTails();
    JoinSegment(GetLoaderFolder64(launcherPath), BootstrapperSegment);
    JoinSegment(Join(GetLoaderFolder64(launcherPath), BootstrapperSegment), BootstrapperDllName);
    Join(Join(GetLoaderFolder64(launcherPath), BootstrapperSegment), BootstrapperDllName)
  }

  // ----- Properties of the layout ----------------------------------------------

  /** The 32-bit and 64-bit loader folders agree except in their last segment. */
  lemma LoaderFoldersDifferOnlyInArchitecture(launcherPath: string)
    ensures var f32, f64 := GetLoaderFolder32(launcherPath), GetLoaderFolder64(launcherPath);
      |f32| == |f64| && |f32| >= 3
      && f32[..|f32| - 3] == f64[..|f64| - 3]
      && f32[|f32| - 3..] == X86Segment && f64[|f64| - 3..] == X64Segment
      && f32 != f64
  {
    var f32, f64 := GetLoaderFolder32(launcherPath), GetLoaderFolder64(launcherPath);
    var stem := InLauncher(launcherPath, LoaderSegment + [DirectorySeparator]);
    assert f32 == stem + X86Segment;
    assert f64 == stem + X64Segment;
    assert f32[|f32| - 1] != f64[|f64| - 1];
  }

  /** The 32-bit and 64-bit installs never share a file. */
  lemma ArchitecturesAreDisjoint(launcherPath: string)
    ensures GetLoaderPath32(launcherPath) != GetLoaderPath64(launcherPath)
    ensures GetBootstrapperPath32(launcherPath) != GetBootstrapperPath64(launcherPath)
  {
    var f32, f64 := GetLoaderFolder32(launcherPath), GetLoaderFolder64(launcherPath);
    LoaderFoldersDifferOnlyInArchitecture(launcherPath);
    var k := |f32| - 1;
    assert GetLoaderPath32(launcherPath)[k] == f32[k];
    assert GetLoaderPath64(launcherPath)[k] == f64[k];
    assert GetBootstrapperPath32(launcherPath)[k] == f32[k];
    assert GetBootstrapperPath64(launcherPath)[k] == f64[k];
  }

  /** The entries directly under the configuration folder are pairwise distinct. */
  lemma ConfigEntriesAreDistinct(appData: string)
    ensures LauncherConfigPath(appData) != ProfileOptimizationPath(appData)
    ensures LauncherConfigPath(appData) != LogPath(appData)
    ensures ProfileOptimizationPath(appData) != LogPath(appData)
    ensures ArchivedLogPath(appData) != LogPath(appData)
  {
    var c := ConfigFolder(appData);
    var k := |c| + 1;
    assert LauncherConfigPath(appData)[k] == 'R';
    assert ProfileOptimizationPath(appData)[k] == 'P';
    assert LogPath(appData)[k] == 'L';
    assert LauncherConfigPath(appData)[k + 1] == 'e';
  }

  /** The log archive sits one level below the configuration folder. */
  lemma ArchivedLogUnderConfigFolder(appData: string)
    ensures ConfigFolder(appData) < LogPath(appData) < ArchivedLogPath(appData)
    ensures ArchivedLogPath(appData) == ConfigFolder(appData) + [DirectorySeparator] + LogFolderName + [DirectorySeparator] + ArchivedLogName
  {
  }
}
