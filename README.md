# WakaTime heartbeat agent for Visual Studio — verified model

This project models the editor side of the WakaTime extension for Visual Studio.
`VsEventLog` receives the IDE's document-opened, document-saved and
window-activated events. It throttles repeated reports of the same file, works
out the project name from the open solution, and passes each report to the
`UtilityManager` singleton. `UtilityManager` builds the `wakatime-cli.py`
command line and starts the first working Python interpreter on it.

The project has four files:

- `wrappers.dfy`: the `Option` type, which stands for a .NET reference that may be null.
- `dotnet.dfy`: the parts of the .NET base library the agent relies on:
  - `string.IsNullOrWhiteSpace` and how `string.Format` renders a null argument;
  - C#'s truncating `/` and `%`;
  - `TimeSpan.Minutes` over a tick count;
  - `Path.GetFileName` and `Path.GetFileNameWithoutExtension`.
- `utility_manager.dfy`: module `Utility`. It contains:
  - the 42 interpreter candidates and the ordered probe search;
  - the collector paths;
  - the command line and a parser for its optional flags;
  - class `UtilityManager` (key setter, `GetPython`, `IsPythonInstalled`, `Initialize`, `SendFile`);
  - the lazily created shared instance (`UtilityRegistry.Instance`).
- `vs_event_log.dfy`: module `EventLog`. It contains:
  - the throttle as written and a two-minute reference policy;
  - the project-name rule;
  - class `VsEventLog` (constructor, `Initialize`, `InitializeEvents`, `CheckForApiKey`, `DisplayApiKeyDialog`, `SendFileToWakatime`, the three handlers).

  Module `EventLogScenarios` drives a session through a sequence of opens and saves.

Effects the agent has on the outside world are kept as ghost histories on `UtilityManager`:

- log messages;
- writes to the credential store;
- requested downloads;
- the argument string of every `SendFile` call;
- the processes actually started.

The outside world is passed in as parameters:

- `probe` says what running `<candidate> --version` did;
- `start` says what `Process.Start` did with a command line;
- `fileExists` answers `File.Exists`;
- `storedKey` is what the credential store holds;
- `dialog` is what the API-key dialog returned;
- `now` is `DateTime.UtcNow`, in ticks.

Time is counted in .NET ticks (100 ns). The initial `lastTimeSent` is 1970-01-01
00:00:00, which is 621 355 968 000 000 000 ticks.

In four places the code behaves in ways a reader may not expect; the model keeps the code's behaviour:

- **Throttle.** The throttle compares `TimeSpan.Minutes`, the minutes component of the gap, which drops whole hours. It does not compare the total minutes. `ShouldSend` is exactly that condition. The code points to a two-minute interval: the commented-out `HeartbeatInterval = 2 * 60 * 1000` (VsEventLog.cs:34) and the variable name `minutesSinceLastSent` (VsEventLog.cs:194). `ShouldSendByTotal` is that two-minute policy. `ThrottleAgreesWithinHour` shows the two agree for gaps under an hour. `HourlyWrapSuppresses` shows they disagree in the first two minutes of every later hour.
- **State after a failed start.** `SendFile` swallows every start failure, so `lastFileSent` and `lastTimeSent` are overwritten after every dispatched event, even when starting the collector failed.
- **Missing interpreter.** `SendFile` does not check for an interpreter. With none found, it still builds the command line and calls `Process.Start` with a null file name. The resulting `InvalidOperationException` is caught and logged.
- **Events bound whatever the key check says.** The constructor calls `InitializeEvents` unconditionally after `Initialize`. So the handlers are bound even when the key dialog was cancelled.

## Model

| member | source | states |
|---|---|---|
| DotNet.NullOrWhiteSpaceCases | Weebree.VsEventLog/Domain/UtilityManager.cs:44 | `string.IsNullOrWhiteSpace`, the guard of the key setter, of `--project` (UtilityManager.cs:226), of the key check (VsEventLog.cs:176) and of the project name (VsEventLog.cs:197-198): null, empty and all-white-space strings are blank, a visible character is not |
| DotNet.TruncDiv | Weebree.VsEventLog/Domain/VsEventLog.cs:194-195 | C# `/` for a positive divisor truncates toward zero: `b*q <= a < b*q + b` for a non-negative dividend, `b*q - b < a <= b*q` for a negative one |
| DotNet.TruncRem | Weebree.VsEventLog/Domain/VsEventLog.cs:194-195 | C# `%`: the remainder takes the sign of the dividend |
| DotNet.MinutesComponent | Weebree.VsEventLog/Domain/VsEventLog.cs:194-195 | `TimeSpan.Minutes` lies in -59..59, is (whole minutes mod 60) for a non-negative span, and is never positive for a negative span |
| DotNet.MinutesComponentBelowHour | Weebree.VsEventLog/Domain/VsEventLog.cs:195 | for a gap under an hour, including a negative gap, `Minutes >= 2` holds iff at least two whole minutes passed |
| DotNet.MinutesComponentPeriodic | Weebree.VsEventLog/Domain/VsEventLog.cs:195 | adding whole hours to a non-negative gap leaves `Minutes` unchanged |
| DotNet.GetFileName | Weebree.VsEventLog/Domain/VsEventLog.cs:200 | `Path.GetFileName` is the longest suffix of the path without a `\`, `/` or `:`: it ends the path, holds no separator, and a separator precedes it |
| DotNet.LastIndexOf | Weebree.VsEventLog/Domain/VsEventLog.cs:200 | the index of the last occurrence of the character, or none iff it does not occur |
| DotNet.GetFileNameWithoutExtension | Weebree.VsEventLog/Domain/VsEventLog.cs:200 | the result is a prefix of the file name holding no separator: the whole name when it has no '.', otherwise the name cut at its last '.' |
| DotNet.GetFileNameAfterSeparator | Weebree.VsEventLog/Domain/VsEventLog.cs:200 | the file name of `dir\name` is `name` for a separator-free name |
| DotNet.FileNameWithoutExtensionOfFile | Weebree.VsEventLog/Domain/VsEventLog.cs:200 | `dir\stem.ext`, with a dot-free extension, loses exactly `.ext` |
| Utility.LocationsAsListed | Weebree.VsEventLog/Domain/UtilityManager.cs:101-145 | the candidate list has 42 entries, starting with `pythonw`, `python`, `\Python37\pythonw` and ending with `\python26\python` |
| Utility.FirstWorkingIsFirstAccepted | Weebree.VsEventLog/Domain/UtilityManager.cs:146-167 | a found interpreter is a candidate whose probe started with empty standard error and every earlier probe failed or threw; none is found iff every probe failed or threw |
| Utility.CliDirName | Weebree.VsEventLog/Domain/UtilityManager.cs:94-97 | `GetCliDir` is a directory directly inside the assembly directory, named `wakatime` |
| Utility.CliScriptName | Weebree.VsEventLog/Domain/UtilityManager.cs:89-92 | `GetCli` lies inside `GetCliDir`; its file name is `wakatime-cli.py` and its directory is named `wakatime-master` |
| Utility.Arguments | Weebree.VsEventLog/Domain/UtilityManager.cs:224-234 | the command line starts with the quoted collector path, `--key`, `--file` and `--plugin="visualstudio/<version> visualstudio-wakatime/2.0.2"`, in that order |
| Utility.ArgumentsRoundTrip | Weebree.VsEventLog/Domain/UtilityManager.cs:224-234 | the whole command line parses back: after the head it gives the project name iff that is not null or white space, and the write flag iff the event is a save |
| Utility.KeyField | Weebree.VsEventLog/Domain/UtilityManager.cs:224 | the key field follows the quoted collector path: `--key=""` when no key is set, the key itself otherwise |
| Utility.OptionFlagsRoundTrip | Weebree.VsEventLog/Domain/UtilityManager.cs:226-234 | parsing the flags gives back the project name iff it is not null or white space, and the write flag iff the event is a save, which comes after `--project` |
| Utility.WriteFlagIff | Weebree.VsEventLog/Domain/UtilityManager.cs:231-234 | the whole command line ends with ` --write` iff the event is a save |
| Utility.StartCollector | Weebree.VsEventLog/Domain/UtilityManager.cs:236-244 | `Process.Start` with no interpreter (a null file name) fails with InvalidOperationException; only a found interpreter can be started |
| Utility.SpawnedBy | Weebree.VsEventLog/Domain/UtilityManager.cs:236-245 | at most one process starts; none without an interpreter; one iff `Process.Start` succeeded |
| Utility.FailureLog | Weebree.VsEventLog/Domain/UtilityManager.cs:242-255 | a failed start, whatever the exception, writes two errors, the first being the interpreter and the command line; a successful one writes nothing |
| Utility.UtilityManager.constructor | Weebree.VsEventLog/Domain/UtilityManager.cs:13-23 | a new manager has no key and empty histories |
| Utility.UtilityManager.SetApiKey | Weebree.VsEventLog/Domain/UtilityManager.cs:42-49 | a null or white-space value changes nothing; any other value becomes the key and is written to the credential store |
| Utility.UtilityManager.GetPython | Weebree.VsEventLog/Domain/UtilityManager.cs:99-168 | the loop returns the first accepted candidate (`FirstWorking`), probing the candidates in order and stopping at the one returned, or probing all of them when none is accepted |
| Utility.UtilityManager.IsPythonInstalled | Weebree.VsEventLog/Domain/UtilityManager.cs:296-303 | true iff `GetPython` finds an interpreter |
| Utility.UtilityManager.Initialize | Weebree.VsEventLog/Domain/UtilityManager.cs:183-220 | requests the Python installer iff no interpreter is found and the collector archive iff the script is missing; logs what was found; loads the stored key and logs an error iff it is null or white space |
| Utility.UtilityManager.SendFile | Weebree.VsEventLog/Domain/UtilityManager.cs:222-256 | records the command line built from the current key; starts the first working interpreter on it or logs the failure, never both; the key and the credential store are unchanged |
| Utility.UtilityRegistry.Instance | Weebree.VsEventLog/Domain/UtilityManager.cs:25-35 | the first call creates a fresh manager; later calls return that same manager |
| EventLog.ShouldSend | Weebree.VsEventLog/Domain/VsEventLog.cs:195 | the throttle as written always lets a save and a file other than the last one through, and lets a repeat of the last file through only after two whole minutes |
| EventLog.ThrottleAgreesWithinHour | Weebree.VsEventLog/Domain/VsEventLog.cs:193-195 | for a gap under an hour, the throttle as written is the two-minute policy |
| EventLog.HourlyWrapSuppresses | Weebree.VsEventLog/Domain/VsEventLog.cs:193-195 | a repeat of the last file, in the first two minutes of any hour after the first, is suppressed although more than two minutes passed |
| EventLog.SentOpensWindow | Weebree.VsEventLog/Domain/VsEventLog.cs:195 | after a heartbeat, non-save events for the same file are suppressed for two minutes |
| EventLog.ProjectName | Weebree.VsEventLog/Domain/VsEventLog.cs:197-201 | a project name exists iff there is a solution whose FullName is not null or white space, and it holds no path separator |
| EventLog.DotSolutionHasNoProject | Weebree.VsEventLog/Domain/VsEventLog.cs:197-202 | a solution file `dir\.sln` gives the empty project name, so the command line carries no `--project` |
| EventLog.ProjectNameOfSolutionFile | Weebree.VsEventLog/Domain/VsEventLog.cs:197-201 | a solution `dir\stem.ext` gives the project name `stem` |
| EventLog.VsEventLog.constructor | Weebree.VsEventLog/Domain/VsEventLog.cs:19-45 | the session uses the shared manager; it starts with `lastFileSent = ""` and `lastTimeSent` = 1970-01-01; the handlers are bound exactly once; the manager's requested downloads and status log are those of its `Initialize`; the credential store is not written; the key is loaded; the dialog is shown iff no key was stored |
| EventLog.VsEventLog.Initialize | Weebree.VsEventLog/Domain/VsEventLog.cs:51-75 | runs the manager's `Initialize` (its requested downloads and status log are stated exactly) and loads the key; binds the events iff they were already bound, a key is present, or the dialog was not cancelled; sends nothing |
| EventLog.VsEventLog.InitializeEvents | Weebree.VsEventLog/Domain/VsEventLog.cs:80-93 | afterwards each handler is subscribed exactly once; a second call subscribes nothing more |
| EventLog.VsEventLog.DisplayApiKeyDialog | Weebree.VsEventLog/Domain/VsEventLog.cs:162-172 | shows the dialog once, returns its result, and binds the events when it is OK |
| EventLog.VsEventLog.CheckForApiKey | Weebree.VsEventLog/Domain/VsEventLog.cs:174-185 | with a key: true, no prompt. Without one: one prompt, and false iff it was cancelled |
| EventLog.VsEventLog.SendFileToWakatime | Weebree.VsEventLog/Domain/VsEventLog.cs:191-206 | dispatches iff another file, a save, or `Minutes >= 2`; a dispatch is one `SendFile` with the derived project name and moves the state to (file, now) whatever the start did; a suppressed event changes nothing |
| EventLog.VsEventLog.WindowActivated | Weebree.VsEventLog/Domain/VsEventLog.cs:109-123 | reports the active document as a non-save; sends nothing for a window without a document; logs the null-reference error when there is no active window |
| EventLog.VsEventLog.DocumentOpened | Weebree.VsEventLog/Domain/VsEventLog.cs:129-139 | reports the opened document as a non-save |
| EventLog.VsEventLog.DocumentSaved | Weebree.VsEventLog/Domain/VsEventLog.cs:145-155 | reports the saved document as a save: it is always dispatched and becomes the last file sent |
| EventLogScenarios.ThrottleScenarios | Weebree.VsEventLog/Domain/VsEventLog.cs:191-206 | open, repeated open after 10 s, save, open 2 min after the save, open of another file: exactly four command lines are dispatched |

## Left out

- Bitness detection (`InternalCheckIsWow64`, `IsWow64Process`, the 64-bit flags) is not modelled. The Python installer request is therefore recorded without its download URL.
- The downloads themselves are not modelled; `Initialize` only records which downloads it requests. `Downloader.cs` is not part of this model. If a downloader threw, `Initialize`'s catch would skip the key load; that case is not modelled.
- Starting processes and reading their standard error are the `probe` and `start` parameters. One `probe` answers every run of a candidate, so the repeated `GetPython` calls inside `SendFile`'s error messages name the interpreter whose start was attempted.
- The credential store (`ConfigFileHelper.cs`) is not part of this model. Reading it is the `storedKey` parameter and writing it is the ghost `persistedKeys` history.
- `Logger.cs` is not part of this model. Its messages are the ghost `log` sequences.
- The model keeps two ghost logs, `VsEventLog.log` and `UtilityManager.log`, for the one `Logger.Instance`. The interleaving of a handler's error with `SendFile`'s errors is therefore not modelled.
- The downloader's own Info messages (Downloader.cs:64, 68, 84, 101, 103) are not in `log`.
- The IDE automation object and its event sources are not modelled. A handler receives what it reads from the IDE as an `Ide` value. Subscriptions are the `subscriptions` list.
- The `APIKeyForm` dialog is not modelled. Its result is the `dialog` parameter, and whether it stores a key is not modelled.
- The handlers require a constructed session (`Valid()`). The constructor always binds the events, so the handlers' null-`objDte` failure path is not modelled.
- The catch blocks of `Initialize`, `DocumentEvents_DocumentOpened` and `DocumentEvents_DocumentSaved` guard against exceptions this model cannot raise, so they are not modelled.
- `GetPythonDir`, `DoesPythonExist` and `GetCurrentDirectory` are not modelled. The first two are never called by the modelled code. The assembly directory is a constructor parameter of `UtilityRegistry`.
- `Path.GetFileNameWithoutExtension` throwing on invalid path characters is not modelled.
- The clock and the culture-dependent `DateTime.Parse` are not modelled. `now` is a parameter and the epoch is a constant.
- Utility.LocationsAsListed: the candidate list is built from the version list (`Python<v>` then `python<v>`, for `pythonw` then `python`). The lemma checks its length and both ends rather than all 42 entries.
