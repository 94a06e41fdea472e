# Reloaded-II: console logger, install layout and bootstrapper paths

This project models three parts of the Reloaded-II mod loader in Dafny and
proves properties of each.

- **The loader's console logger** (`logging.dfy`, module `Logging`). A write
  either renders at once, when the console is ready, or waits in a FIFO
  queue. A background worker drains that queue. The logger is the class
  `Logger`. Its fields are:
  - the flags `isEnabled`, `isReady` and `isShuttingDown`;
  - the queue `messages`;
  - the rendered console output `console`;
  - the texts passed to `OnPrintMessage`, in `printed`;
  - the `OnConsoleClose` count;
  - the state of the initialisation task and of the worker thread.

  Threads are modelled as arbitrary sequences of calls (`Logger.Run`):
  - the constructor's task ends in `AttachSucceeded` or `AttachFailed`;
  - one iteration of `ProcessQueue` is `DrainStep`;
  - a `Take` on an empty queue is a step that cannot happen.

  The invariant `Valid()` carries the FIFO argument through three ghost
  fields:
  - `accepted` and `drained`: every entry ever queued and every entry the
    worker took. `accepted == drained + messages` holds.
  - `byWorker`: which console entries the worker rendered. Those entries,
    in console order, are exactly `drained`.

  `Valid()` also states `printed == Texts(console)`: `OnPrintMessage` has
  carried each rendered entry's text once, in order. The twostate predicate
  `OnlyGrows()` states what any call may change. `Evolved()` adds that a
  deadlocked shutdown stays deadlocked, which holds for the worker as
  written.
- **The install layout** (`paths.dfy`, module `Paths`). These are the
  launcher's and loader's path builders. `Path.Combine` is modelled as
  `Join` with its Windows rules:
  - a rooted second part replaces the first;
  - an empty part is skipped;
  - otherwise one `\` is inserted, unless the first part already ends in
    `\` or `/`.
- **The native bootstrapper's path derivations** (`loader_config.dfy`,
  module `LoaderConfig`, which imports `Paths`). These are:
  - the configuration file under AppData;
  - the loader and launcher locations taken from its properties;
  - the runtime configuration derived from the loader DLL's path.

  Every exception becomes `Err(message)`, with the bootstrapper's messages.
  File existence is a function parameter, `FileExists`. The build's pointer
  width is the `Platform` parameter.

Two edge cases deserve a note:
- `loaderPath.size() - 4` is an unsigned `size_t` subtraction, and
  `substr` clamps a count past the end. The code therefore keeps a path
  shorter than four characters whole. No precondition excludes such a path
  (`RuntimeConfigPathOf`).
- The bootstrapper's configuration path and the launcher's
  `LauncherConfigPath` are meant to be the same file. The two strings agree
  exactly when AppData is non-empty and does not end in a separator
  (`ConfigPathAgreesWithLauncher`). For an AppData ending in a separator, the
  bootstrapper's string has a doubled separator. Windows resolves that string
  to the same file, but the strings differ.

## Model

| member | source | states |
|---|---|---|
| Paths.Join | Source/Reloaded.Mod.Loader.IO/Paths.cs:17-79 | `Path.Combine(a, b)`: a rooted `b` is the result. Otherwise the result starts with `a` and ends with `b`. A non-empty relative `b` is joined with exactly one separator, unless `a` is empty or already ends in one. |
| Paths.ConfigFolder | Source/Reloaded.Mod.Loader.IO/Paths.cs:17 | The configuration folder is AppData, a separator if AppData needs one, then `Reloaded-Mod-Loader-II`. It starts with AppData. When AppData needs a separator, the folder is AppData's direct child of that name. |
| Paths.LauncherConfigPath | Source/Reloaded.Mod.Loader.IO/Paths.cs:22 | `ReloadedII.json` is a direct child of the configuration folder. |
| Paths.ProfileOptimizationPath | Source/Reloaded.Mod.Loader.IO/Paths.cs:27 | `ProfileOptimization` is a direct child of the configuration folder. |
| Paths.LogPath | Source/Reloaded.Mod.Loader.IO/Paths.cs:32 | `Logs` is a direct child of the configuration folder. |
| Paths.ArchivedLogPath | Source/Reloaded.Mod.Loader.IO/Paths.cs:37 | `Logs.zip` is a direct child of the log folder. |
| Paths.GetKernel32AddressDumperPath | Source/Reloaded.Mod.Loader.IO/Paths.cs:43 | The result starts with the launcher path. It is the launcher path, a separator if needed, and `Loader/Kernel32AddressDumper.exe` verbatim: the `/` is not normalised. |
| Paths.GetLoaderFolder32 | Source/Reloaded.Mod.Loader.IO/Paths.cs:49 | The result starts with the launcher path. It is the launcher path, a separator if needed, then `Loader\x86`. |
| Paths.GetLoaderFolder64 | Source/Reloaded.Mod.Loader.IO/Paths.cs:55 | The result starts with the launcher path. It is the launcher path, a separator if needed, then `Loader\x64`. |
| Paths.GetLoaderPath32 | Source/Reloaded.Mod.Loader.IO/Paths.cs:61 | The 32-bit loader folder is a proper prefix of the result. The result is that folder, `\`, then `Reloaded.Mod.Loader.dll`. It starts with the launcher path. |
| Paths.GetLoaderPath64 | Source/Reloaded.Mod.Loader.IO/Paths.cs:67 | The same, for the 64-bit folder. |
| Paths.GetBootstrapperPath32 | Source/Reloaded.Mod.Loader.IO/Paths.cs:73 | The result is the 32-bit loader folder, `\Bootstrapper\`, then `Reloaded.Mod.Loader.Bootstrapper.dll`. It starts with the launcher path. |
| Paths.GetBootstrapperPath64 | Source/Reloaded.Mod.Loader.IO/Paths.cs:79 | The same, for the 64-bit folder. |
| Paths.LoaderFoldersDifferOnlyInArchitecture | Source/Reloaded.Mod.Loader.IO/Paths.cs:49-55 | The 32-bit and 64-bit loader folders have the same length. They agree except in their last three characters, which are `x86` and `x64`. The two folders are distinct. |
| Paths.ArchitecturesAreDisjoint | Source/Reloaded.Mod.Loader.IO/Paths.cs:61-79 | The 32-bit and 64-bit loader DLL paths differ, and so do the two bootstrapper paths. |
| Paths.ConfigEntriesAreDistinct | Source/Reloaded.Mod.Loader.IO/Paths.cs:22-37 | The launcher configuration, the profile-optimisation folder and the log folder are pairwise distinct. The archive differs from the log folder. |
| Paths.ArchivedLogUnderConfigFolder | Source/Reloaded.Mod.Loader.IO/Paths.cs:17-37 | The configuration folder is a proper prefix of the log folder, which is a proper prefix of the archive. The archive is the configuration folder, `\Logs\`, then `Logs.zip`. |
| LoaderConfig.ReloadedConfigPath | source/Reloaded.Mod.Loader.Bootstrapper/LoaderConfig.cpp:20 | The bootstrapper's configuration path is AppData, `\`, the launcher's configuration folder name `Reloaded-Mod-Loader-II`, `\`, then its file name `ReloadedII.json`. |
| LoaderConfig.Load | source/Reloaded.Mod.Loader.Bootstrapper/LoaderConfig.cpp:9-34 | An unknown AppData fails with the AppData message. A missing configuration file fails with "Reloaded config has not been found.". The constructor succeeds exactly when AppData is known and the file exists. It then keeps the properties read from the file at that path. |
| LoaderConfig.LoaderPathKey | source/Reloaded.Mod.Loader.Bootstrapper/LoaderConfig.cpp:39-44 | The key is `LoaderPath64` on 64-bit builds and `LoaderPath32` otherwise. |
| LoaderConfig.GetLoaderPath | source/Reloaded.Mod.Loader.Bootstrapper/LoaderConfig.cpp:37-59 | The call succeeds exactly when the configured DLL exists, and it returns the configured value unchanged. It fails with the loader-DLL message otherwise. |
| LoaderConfig.GetLauncherPath | source/Reloaded.Mod.Loader.Bootstrapper/LoaderConfig.cpp:72-82 | The call succeeds exactly when the configured launcher exists, and it returns the value unchanged. It fails with the loader-DLL message otherwise, as the source does. |
| LoaderConfig.RuntimeConfigPathOf | source/Reloaded.Mod.Loader.Bootstrapper/LoaderConfig.cpp:65 | A path of four or more characters loses its last four characters and gains `.runtimeconfig.json`. A shorter path is kept whole, because the `size_t` difference wraps and `substr` clamps. |
| LoaderConfig.GetRuntimeConfigPath | source/Reloaded.Mod.Loader.Bootstrapper/LoaderConfig.cpp:61-70 | A missing loader DLL fails with its message first. A missing derived file then fails with the runtime-configuration message. The call succeeds exactly when both files exist, and it returns the derived path. |
| LoaderConfig.GetLoaderPaths | source/Reloaded.Mod.Loader.Bootstrapper/LoaderConfig.cpp:84-89 | The call succeeds exactly when the DLL and its runtime configuration exist. The error names the check that failed. The pair holds the configured DLL and the runtime configuration derived from it. |
| LoaderConfig.ConfigPathAgreesWithLauncher | source/Reloaded.Mod.Loader.Bootstrapper/LoaderConfig.cpp:20 | The bootstrapper's configuration path equals the launcher's `LauncherConfigPath` (Paths.cs lines 17 and 22) exactly when AppData is non-empty and does not end in a separator. |
| LoaderConfig.RuntimeConfigReplacesExtension | source/Reloaded.Mod.Loader.Bootstrapper/LoaderConfig.cpp:65 | For a path ending in `.dll`, the derived path keeps the stem, ends in `.runtimeconfig.json`, and differs from the DLL's path. |
| LoaderConfig.RuntimeConfigOfInstalledLoader | source/Reloaded.Mod.Loader.Bootstrapper/LoaderConfig.cpp:64-65 | For the installed 64-bit loader, the bootstrapper looks for `Reloaded.Mod.Loader.runtimeconfig.json` in the 64-bit loader folder. |
| LoaderConfig.LoaderPathsAgreeWithGetters | source/Reloaded.Mod.Loader.Bootstrapper/LoaderConfig.cpp:84-89 | A successful `get_loader_paths` returns what `get_loader_path` and `get_runtime_config_path` return. |
| Logging.TextsAreTheEntries | source/Reloaded.Mod.Loader/Logging/Console.cs:82-83 | The `OnPrintMessage` texts of rendered entries are one per entry, each the entry's own text, in order. |
| Logging.WorkerRenderedIsSubsequence | source/Reloaded.Mod.Loader/Logging/Console.cs:180-189 | The worker never renders more entries than the console holds, which `Run` uses to bound the entries taken. |
| Logging.NotifyOnConsoleClose | source/Reloaded.Mod.Loader/Logging/Console.cs:199-205 | The handler never suppresses the default handling. It raises `OnConsoleClose` exactly for the close signal. |
| Logging.CenterCursor | source/Reloaded.Mod.Loader/Logging/Console.cs:282-290 | The column is never negative. For text no wider than the window, the text is centred, rounding down: `2*col + len <= width < 2*col + len + 2`. Text as wide as the window or wider starts at column 0. |
| Logging.WriteLinesCentered | source/Reloaded.Mod.Loader/Logging/Console.cs:262-271 | One line is written per input line, in order, and the x-th line gets the x-th formatter. |
| Logging.Logger.constructor | source/Reloaded.Mod.Loader/Logging/Console.cs:47-54 | A new logger is valid, empty, not ready and not shutting down. Its initialisation task is pending exactly when it is enabled. |
| Logging.Logger.AttachSucceeded | source/Reloaded.Mod.Loader/Logging/Console.cs:56-70 | After a successful allocation, the handler is registered, the worker runs and the logger is ready. |
| Logging.Logger.AttachFailed | source/Reloaded.Mod.Loader/Logging/Console.cs:56-58 | A failed allocation ends the task. The logger stays not ready, with no worker. |
| Logging.Logger.WriteLineAsync | source/Reloaded.Mod.Loader/Logging/Console.cs:107-111 | Exactly one `WriteLine` entry is appended at the back exactly when the logger is enabled and not shutting down. Otherwise the queue and its history are unchanged. |
| Logging.Logger.WriteAsync | source/Reloaded.Mod.Loader/Logging/Console.cs:113-117 | The same, for a `Write` entry. |
| Logging.Logger.Render | source/Reloaded.Mod.Loader/Logging/Console.cs:80-84 | Rendering appends exactly the entry to the console and its text to the `OnPrintMessage` record, and records who rendered it. The worker's renderings gain the entry exactly when the worker rendered it. `printed == Texts(console)` is kept. |
| Logging.Logger.WriteLine | source/Reloaded.Mod.Loader/Logging/Console.cs:78-89 | When ready, exactly one entry is rendered and `OnPrintMessage` gets the text once, even during shutdown, and the queue is unchanged. When not ready, the call behaves exactly as `WriteLineAsync`. |
| Logging.Logger.Write | source/Reloaded.Mod.Loader/Logging/Console.cs:91-102 | The same, for `Write` and `WriteAsync`. |
| Logging.Logger.DrainStep | source/Reloaded.Mod.Loader/Logging/Console.cs:174-197 | A step happens exactly when the worker is alive and the queue is non-empty. It removes the front entry and renders it once, marked as the worker's. It then stops the worker exactly when the queue is empty and shutdown was requested. Without a step nothing changes. |
| Logging.Logger.DrainStepIntended | source/Reloaded.Mod.Loader/Logging/Console.cs:193-195 | This worker also stops on an empty queue once shutdown was requested. Otherwise it behaves as `DrainStep`. It keeps `OnlyGrows()`. |
| Logging.Logger.WaitForConsoleInit | source/Reloaded.Mod.Loader/Logging/Console.cs:144-155 | The wait returns exactly when the logger is disabled, is ready, or the caller cancelled. |
| Logging.Logger.AwaitWorker | source/Reloaded.Mod.Loader/Logging/Console.cs:167-171 | The wait of a ready `Shutdown` renders every queued entry in order, and `OnPrintMessage` gets their texts in order. The worker is still alive afterwards exactly when the queue was empty to begin with. |
| Logging.Logger.AwaitWorkerIntended | source/Reloaded.Mod.Loader/Logging/Console.cs:167-171 | With the corrected worker, the wait renders every queued entry in order and the worker always stops. It keeps `OnlyGrows()`. |
| Logging.Logger.Shutdown | source/Reloaded.Mod.Loader/Logging/Console.cs:161-172 | Shutdown is set exactly when the logger is enabled. When not ready, the queue and the output are unchanged. When ready, every queued entry is rendered in order. The call returns exactly when the logger is not ready or the worker has stopped: when ready, it returns only once the worker has stopped. The worker stays alive exactly when it was alive on an empty queue. So the call returns exactly unless the logger was ready, the worker alive and the queue empty. In that case the logger is deadlocked. |
| Logging.Logger.ShutdownIntended | source/Reloaded.Mod.Loader/Logging/Console.cs:161-172 | With the corrected worker, `Shutdown` always returns and leaves no worker running. When ready, every queued entry has been rendered in order. It keeps `OnlyGrows()`. |
| Logging.Logger.ReceiveControlSignal | source/Reloaded.Mod.Loader/Logging/Console.cs:199-205 | The registered handler never suppresses the signal. It counts one `OnConsoleClose` exactly for the close signal. |
| Logging.Logger.Perform | source/Reloaded.Mod.Loader/Logging/Console.cs:47-197 | Any single call from any thread preserves `Valid()` and `Evolved()`. |
| Logging.Logger.Run | source/Reloaded.Mod.Loader/Logging/Console.cs:47-197 | Any interleaving of calls has these properties. The flags never reset, a failed initialisation stays failed, and a ready logger's stopped worker stays stopped. The worker's renderings, followed by the queue, are every accepted entry in enqueue order. `OnPrintMessage` has carried each rendered entry's text once, in console order. The histories and outputs only grow. Nothing is accepted after shutdown, and a deadlocked shutdown stays deadlocked. The worker has taken no more entries than the console holds. A disabled logger never queues, renders or notifies. |
| Logging.DisabledLoggerStaysSilent | source/Reloaded.Mod.Loader/Logging/Console.cs:49-52 | After any calls, a disabled logger has printed nothing and queued nothing, and its `Shutdown` returns. |
| Logging.FailedAttachStrandsEntries | source/Reloaded.Mod.Loader/Logging/Console.cs:56-58 | After a failed allocation, `Shutdown` returns. Whatever calls follow, the logger never becomes ready, the buffered entries stay queued in order, and nothing is printed. |
| Logging.ShutdownDrainsInEnqueueOrder | source/Reloaded.Mod.Loader/Logging/Console.cs:174-195 | Entries buffered before the console is ready are printed in the order they were written. `Shutdown` returns after a non-empty queue, and then the worker has stopped. Later buffered writes are dropped. |
| Logging.ShutdownReturnsAgain | source/Reloaded.Mod.Loader/Logging/Console.cs:161-172 | With entries buffered before the console is ready, `Shutdown` returns. After any later calls, a second `Shutdown` returns too, because the stopped worker never restarts. |
| Logging.ReadyLoggerWrites | source/Reloaded.Mod.Loader/Logging/Console.cs:78-89 | On a ready logger, a direct write prints at once. A buffered write prints only when the worker takes it. |
| Logging.IdleShutdownNeverReturns | source/Reloaded.Mod.Loader/Logging/Console.cs:169-195 | Once the worker has drained the queue, `Shutdown` does not return. The worker never stops, whatever calls follow. |
| Logging.IdleShutdownIntendedReturns | source/Reloaded.Mod.Loader/Logging/Console.cs:193-195 | With the corrected worker, the same calls let `Shutdown` return. The worker stops, having printed the one entry. |
| Logging.CloseSignalNotifiesOnce | source/Reloaded.Mod.Loader/Logging/Console.cs:199-205 | Over any sequence of signals, `OnConsoleClose` is raised once per close signal and the default is never suppressed. |

## Left out
- LoaderConfig.RuntimeConfigPathOf: lengths are counted in characters (Unicode scalar values), while `std::wstring`'s `size()` and `substr` count UTF-16 code units. The two agree whenever the path's last four code units are not surrogates, which holds for every path ending in `.dll`. A path with supplementary-plane characters among its last four code units is cut differently.
- Console allocation, `SetConsoleCtrlHandler`, and Colorful/System.Console rendering, colours, `Clear` and cursor moves are foreign calls. Rendering is an append to `console` and `printed`. Allocation is the choice between `AttachSucceeded` and `AttachFailed`.
- Real threads are left out: `Task.Run`, the `Thread` object, `Thread.Sleep(1)` polling and the inner workings of `BlockingCollection`. They are replaced by arbitrary call orders. Each method is atomic, so the unsynchronised race between a direct write and the worker is not modelled.
- Logging.Logger.WaitForConsoleInit: models one poll of the wait loop (whether it returns now), not the loop itself, because the loop only sleeps until another thread acts.
- Logging.Logger.DrainStep: renders through `Render` rather than by calling `WriteLine`/`Write`. The worker runs only on a ready logger, where those two take exactly their rendering branch.
- Logging.Logger.AwaitWorker: models the `IsAlive` wait loop as worker steps taken while the caller sleeps. Other threads' calls during the wait are not interleaved.
- The `default:` branch of `ProcessQueue` cannot arise here: `LogMessageType` has exactly the two kinds, and its declaration is not part of this model.
- The banner is left out: its ASCII art, `String.Format`, the `Formatter` rendering, and the version strings of `PrintBanner`/`PrintCoreVersion`. Only the line-to-formatter pairing and the centring arithmetic are modelled.
- Logging.WriteLinesCentered: requires at least as many formatters as lines. The source would throw `IndexOutOfRangeException` otherwise, and its only caller passes ten of each.
- Logging.CenterCursor: takes the window width and text length as inputs, both within `int` range. The cursor row is not modelled.
- The colour palette constants are left out. Only the default text colour is kept, because the colourless overloads pass it on.
- The colourless overloads (Console.cs:75-76, 104-105) and `PrintMessage` are left out. The overloads pass `TextColor` to the coloured method; `PrintMessage` is `WriteLine` with the caller's colour.
- The `OnPrintMessage` and `OnConsoleClose` subscribers are not modelled. The model records the texts passed and counts the notifications.
- `App.xaml.cs` (WPF start-up) and `Usings.cs` (global usings) are not part of this model.
- The bootstrapper's I/O and parsing are inputs: `SHGetSpecialFolderPath` (as `Option<string>`), the `ifstream` read and tiny-json parsing (as a property map), and UTF-8 to UTF-16 conversion (identity).
- LoaderConfig.GetLoaderPath, LoaderConfig.GetLauncherPath, LoaderConfig.GetRuntimeConfigPath, LoaderConfig.GetLoaderPaths: require the JSON key to be present. For a missing key the source builds a `std::string` from a null pointer, which is undefined behaviour, not an error it reports.
- LoaderConfig.RuntimeConfigPathOf: requires the path's length to fit in the build's `size_t`.
- Paths.Join: does not model `Path.Combine`'s null-argument and invalid-character exceptions, nor the three-argument overload's own rules. The three-argument calls are modelled as nested two-argument joins, which agree for the relative constant parts used here.
- `Environment.GetFolderPath` is the `appData` argument of the configuration paths.

## Findings

| source | as written | input that shows it | evidently intended | confidence | as-written member | corrected member |
|---|---|---|---|---|---|---|
| source/Reloaded.Mod.Loader/Logging/Console.cs:169-195 | The worker checks `_messages.Count == 0 && _isShuttingDown` only after a `Take()`. `Shutdown` spins on `_loggingThread.IsAlive`, and nothing calls `CompleteAdding`. | Enable the logger and let initialisation succeed. Write one buffered line and let the worker render it. Then call `Shutdown()`: the worker is blocked in `Take` on an empty queue, so `Shutdown` never returns. | `Shutdown` returns once every buffered entry is rendered, with the worker stopped. The worker also stops on an empty queue after shutdown was requested. | high, not executed | Logging.IdleShutdownNeverReturns | Logging.Logger.ShutdownIntended |

`Logger.Run` and `Logger.Perform` keep the worker as written, so the hang stays reachable in the interleaving model. The corrected worker goes through `DrainStepIntended`, `AwaitWorkerIntended` and `ShutdownIntended`, and `IdleShutdownIntendedReturns` replays the failing input against it.
