/**
 * UtilityManager: locates the Python interpreter and the wakatime command-line
 * collector, keeps the API key, and starts one collector process per heartbeat.
 *
 * Process creation is an oracle: `probe` says what running a candidate interpreter
 * with `--version` did, `start` says what Process.Start did with a command line.
 * Log messages, credential-store writes, requested downloads, the argument strings
 * built for the collector and the processes started are kept as ghost histories.
 */
module Utility {
  import opened Wrappers
  import opened DotNet

  const PluginName: string := "visualstudio-wakatime"
  const PluginVersion: string := "2.0.2"

  /** The Python versions GetPython looks for in install directories, newest first. */
  const Versions: seq<string> := ["37", "36", "35", "34", "33", "32", "31", "30", "27", "26"]

  /** `\Python<v>\<exe>` for every version, then `\python<v>\<exe>` for every version. */
  function InstallCandidates(exe: string): (c: seq<string>)
    ensures |c| == 2 * |Versions|
  {
    seq(2 * |Versions|, i requires 0 <= i < 2 * |Versions| =>
      "\\" + (if i < |Versions| then "Python" else "python") + Versions[i % |Versions|] + "\\" + exe)
  }

  /** The interpreters GetPython tries, in order: the bare commands, then the install
      directories for pythonw, then for python. */
  const Locations: seq<string> := ["pythonw", "python"] + InstallCandidates("pythonw") + InstallCandidates("python")

  /** The candidate list has the 42 entries of the source, from `pythonw` to `\\python26\\python`. */
  lemma LocationsAsListed()
    ensures |Locations| == 42
    ensures Locations[0] == "pythonw" && Locations[1] == "python"
    ensures Locations[2] == "\\Python37\\pythonw" && Locations[41] == "\\python26\\python"
  {
    assert Locations[2] == InstallCandidates("pythonw")[0];
    assert Locations[41] == InstallCandidates("python")[19];
  }

  /** What running `<candidate> --version` did: Process.Start (or reading the
      error stream) threw, or the process ran and wrote this to standard error. */
  datatype ProbeOutcome = Threw | Exited(standardError: Option<string>)

  /** A candidate is accepted when it started and its standard error was null or empty. */
  predicate ProbeOk(o: ProbeOutcome) {
    o.Exited? && (o.standardError.None? || o.standardError.value == "")
  }

  /** The first candidate whose probe is accepted, or None when no probe is. */
  function FirstWorking(candidates: seq<string>, probe: string -> ProbeOutcome): (r: Option<string>) {
    if candidates == [] then None
    else if ProbeOk(probe(candidates[0])) then Some(candidates[0])
    else FirstWorking(candidates[1..], probe)
  }

  /** FirstWorking returns a candidate whose probe is accepted and before which every
      probe failed; it returns None exactly when every probe failed. */
  lemma {:induction false} FirstWorkingIsFirstAccepted(candidates: seq<string>, probe: string -> ProbeOutcome)
    ensures var r := FirstWorking(candidates, probe);
      r.Some? ==>
        exists k | 0 <= k < |candidates| ::
          candidates[k] == r.value && ProbeOk(probe(candidates[k]))
          && forall j | 0 <= j < k :: !ProbeOk(probe(candidates[j]))
    ensures FirstWorking(candidates, probe).None? <==> forall j | 0 <= j < |candidates| :: !ProbeOk(probe(candidates[j]))
  {
    if candidates == [] {
    } else if ProbeOk(probe(candidates[0])) {
    } else {
      var rest := candidates[1..];
      FirstWorkingIsFirstAccepted(rest, probe);
      var r := FirstWorking(rest, probe);
      assert forall j | 1 <= j < |candidates| :: candidates[j] == rest[j - 1];
      if r.Some? {
        var k :| 0 <= k < |rest| && rest[k] == r.value && ProbeOk(probe(rest[k]))
                 && forall j | 0 <= j < k :: !ProbeOk(probe(rest[j]));
        assert candidates[k + 1] == r.value;
        assert forall j | 0 <= j < k + 1 :: !ProbeOk(probe(candidates[j]));
      }
    }
  }

  // ------------------------------------------------------------ path layout

  /** GetCliDir: the `wakatime` directory inside the assembly directory. */
  function CliDir(currentDirectory: string): (dir: string) {
    currentDirectory + "\\wakatime"
  }

  /** GetCli: the collector script inside the collector directory. */
  function CliPath(currentDirectory: string): (cli: string) {
    CliDir(currentDirectory) + "\\wakatime-master\\wakatime-cli.py"
  }

  /** The collector directory lies directly inside the assembly directory and is named
      `wakatime`. */
  lemma CliDirName(currentDirectory: string)
    ensures currentDirectory + "\\" <= CliDir(currentDirectory)
    ensures GetFileName(CliDir(currentDirectory)) == "wakatime"
  {
    assert CliDir(currentDirectory) == currentDirectory + "\\" + "wakatime";
    GetFileNameAfterSeparator(currentDirectory, "wakatime");
  }

  /** The collector script lies inside the collector directory: it is `wakatime-cli.py`,
      in a directory named `wakatime-master` (the root of the unpacked archive). */
  lemma CliScriptName(currentDirectory: string)
    ensures CliDir(currentDirectory) + "\\" <= CliPath(currentDirectory)
    ensures var cli := CliPath(currentDirectory);
      && GetFileName(cli) == "wakatime-cli.py"
      && GetFileName(cli[..|cli| - |"\\wakatime-cli.py"|]) == "wakatime-master"
  {
    var dir := CliDir(currentDirectory);
    var master := dir + "\\" + "wakatime-master";
    var cli := CliPath(currentDirectory);
    assert cli == master + "\\" + "wakatime-cli.py";
    GetFileNameAfterSeparator(master, "wakatime-cli.py");
    assert cli[..|cli| - |"\\wakatime-cli.py"|] == master;
    GetFileNameAfterSeparator(dir, "wakatime-master");
  }

  // ------------------------------------------------------------ command line

  /** The fixed leading fields of the collector command line: the quoted script path,
      the key, the file and the plugin identity, in this order. */
  function CommandHead(cli: string, key: Option<string>, fileName: string, vsVersion: string): (head: string) {
    "\"" + cli + "\" --key=\"" + FormatArg(key) + "\" --file=\"" + fileName
    + "\" --plugin=\"visualstudio/" + vsVersion + " " + PluginName + "/" + PluginVersion + "\""
  }

  const ProjectOption: string := " --project=\""
  const WriteOption: string := " --write"

  /** What SendFile appends to the head: ` --project="<name>"` unless the project
      name is null or white space, then ` --write` for a save. */
  function OptionFlags(projectName: Option<string>, isWrite: bool): (flags: string) {
    (if IsNullOrWhiteSpace(projectName) then "" else ProjectOption + projectName.value + "\"")
    + (if isWrite then WriteOption else "")
  }

  /** The arguments SendFile passes to the interpreter. */
  function Arguments(cli: string, key: Option<string>, fileName: string, projectName: Option<string>,
                     isWrite: bool, vsVersion: string): (args: string)
    ensures CommandHead(cli, key, fileName, vsVersion) <= args
  {
    CommandHead(cli, key, fileName, vsVersion) + OptionFlags(projectName, isWrite)
  }

  /** Reads the optional flags that follow the fixed head of a command line:
      the project name, if present, and whether the write flag ends it.
      None when the text is not of that form. */
  function ParseOptions(tail: string): (options: Option<(Option<string>, bool)>) {
    var isWrite := EndsWith(tail, WriteOption);
    var rest := if isWrite then tail[..|tail| - |WriteOption|] else tail;
    if rest == "" then Some((None, isWrite))
    else if ProjectOption <= rest && |rest| > |ProjectOption| && rest[|rest| - 1] == '"' then
      Some((Some(rest[|ProjectOption|..|rest| - 1]), isWrite))
    else None
  }

  /** The flags after the head give back exactly what SendFile was asked to send:
      `--project` carries the project name iff it is not null or white space,
      ` --write` is present iff the event is a save, and it comes after `--project`. */
  lemma OptionFlagsRoundTrip(projectName: Option<string>, isWrite: bool)
    ensures ParseOptions(OptionFlags(projectName, isWrite))
              == Some((if IsNullOrWhiteSpace(projectName) then None else projectName, isWrite))
  {
    var project := if IsNullOrWhiteSpace(projectName) then "" else ProjectOption + projectName.value + "\"";
    var tail := OptionFlags(projectName, isWrite);
    if isWrite {
      assert tail[..|tail| - |WriteOption|] == project;
    } else {
      assert tail == project;
      if project != "" {
        assert tail[|tail| - 1] == '"';
      }
      assert !EndsWith(tail, WriteOption);
    }
    if project != "" {
      assert ProjectOption <= project;
      assert project[|ProjectOption|..|project| - 1] == projectName.value;
    }
  }

  /** The whole command line parses back: what follows the fixed head gives the project
      name iff it is not null or white space, and the write flag iff the event is a save. */
  lemma ArgumentsRoundTrip(cli: string, key: Option<string>, fileName: string,
                           projectName: Option<string>, isWrite: bool, vsVersion: string)
    ensures var head := CommandHead(cli, key, fileName, vsVersion);
      ParseOptions(Arguments(cli, key, fileName, projectName, isWrite, vsVersion)[|head|..])
        == Some((if IsNullOrWhiteSpace(projectName) then None else projectName, isWrite))
  {
    var head := CommandHead(cli, key, fileName, vsVersion);
    assert Arguments(cli, key, fileName, projectName, isWrite, vsVersion)[|head|..] == OptionFlags(projectName, isWrite);
    OptionFlagsRoundTrip(projectName, isWrite);
  }

  /** The key field follows the quoted collector path: `--key=""` when no key is set
      (string.Format renders null as nothing), the key itself otherwise. */
  lemma KeyField(cli: string, key: Option<string>, fileName: string, vsVersion: string)
    ensures key.None? ==> "\"" + cli + "\" --key=\"\" --file=\"" <= CommandHead(cli, key, fileName, vsVersion)
    ensures key.Some? ==> "\"" + cli + "\" --key=\"" + key.value + "\" --file=\"" <= CommandHead(cli, key, fileName, vsVersion)
  {
  }

  /** The command line ends with ` --write` exactly when the event is a save: otherwise
      it ends with the closing quote of the plugin or project field. */
  lemma WriteFlagIff(cli: string, key: Option<string>, fileName: string,
                     projectName: Option<string>, isWrite: bool, vsVersion: string)
    ensures EndsWith(Arguments(cli, key, fileName, projectName, isWrite, vsVersion), WriteOption) <==> isWrite
  {
    var head := CommandHead(cli, key, fileName, vsVersion);
    var flags := OptionFlags(projectName, isWrite);
    var args := head + flags;
    if !isWrite {
      assert head[|head| - 1] == '"';
      assert args[|args| - 1] == '"';
    }
  }

  // ------------------------------------------------------------ processes and logs

  /** What Process.Start did: started the process, or threw. */
  datatype StartOutcome = Started | InvalidOperation(message: string) | Failed(message: string)

  /** A process started with a file name and an argument string. */
  datatype Command = Command(fileName: string, arguments: string)

  datatype LogEntry = Info(text: string) | Error(text: string)

  /** A download the Initialize step hands to the installer. */
  datatype Download = PythonInstaller | CliArchive(installDir: string)

  /** Process.Start refuses a start request without a file name. */
  const NoFileNameMessage: string := "Cannot start process because a file name has not been provided."

  /** The outcome of starting the collector through `python`; with no interpreter
      found, the start request has no file name and fails without spawning. */
  function StartCollector(python: Option<string>, args: string, start: (string, string) -> StartOutcome): (outcome: StartOutcome)
    ensures outcome.Started? ==> python.Some?
    ensures python.None? ==> outcome.InvalidOperation?
  {
    if python.None? then InvalidOperation(NoFileNameMessage) else start(python.value, args)
  }

  /** The processes one SendFile call starts. */
  function SpawnedBy(python: Option<string>, args: string, start: (string, string) -> StartOutcome): (spawned: seq<Command>)
    ensures |spawned| <= 1
    ensures python.None? ==> spawned == []
    ensures spawned != [] <==> StartCollector(python, args, start).Started?
  {
    if StartCollector(python, args, start).Started? then [Command(python.value, args)] else []
  }

  /** The log entries one SendFile call writes: two errors, the command line and the
      exception message, whenever the start failed, whatever the exception. */
  function FailureLog(python: Option<string>, args: string, start: (string, string) -> StartOutcome): (entries: seq<LogEntry>)
    ensures entries == [] <==> StartCollector(python, args, start).Started?
    ensures entries != [] ==> |entries| == 2 && entries[0] == Error("UtilityManager sendFile : " + FormatArg(python) + " " + args)
  {
    match StartCollector(python, args, start)
    case Started => []
    case InvalidOperation(message) =>
      [Error("UtilityManager sendFile : " + FormatArg(python) + " " + args), Error("UtilityManager sendFile : " + message)]
    case Failed(message) =>
      [Error("UtilityManager sendFile : " + FormatArg(python) + " " + args), Error("UtilityManager sendFile : " + message)]
  }

  function PythonStatus(python: Option<string>): (entry: LogEntry) {
    if python.None? then Info("UtilityManager: Python not found.")
    else Info("UtilityManager: Python found at " + python.value)
  }

  function CliStatus(cliExists: bool, cli: string): (entry: LogEntry) {
    if cliExists then Info("UtilityManager: wakatime-cli found at " + cli)
    else Info("UtilityManager: wakatime-cli not found.")
  }

  /** The downloads Initialize requests: the Python installer when no interpreter is
      found, then the collector archive when the script is missing. */
  function InitDownloads(currentDirectory: string, probe: string -> ProbeOutcome, fileExists: string -> bool): (downloads: seq<Download>) {
    (if FirstWorking(Locations, probe).None? then [PythonInstaller] else [])
    + (if fileExists(CliPath(currentDirectory)) then [] else [CliArchive(CliDir(currentDirectory))])
  }

  /** The messages Initialize logs: where the interpreter and the collector were found
      (or that they were not), then an error when the loaded key is null or white space. */
  function InitLog(currentDirectory: string, probe: string -> ProbeOutcome, fileExists: string -> bool,
                   storedKey: Option<string>): (entries: seq<LogEntry>) {
    [PythonStatus(FirstWorking(Locations, probe)), CliStatus(fileExists(CliPath(currentDirectory)), CliPath(currentDirectory))]
    + (if IsNullOrWhiteSpace(storedKey) then [Error("API Key could not be found.")] else [])
  }

  // ------------------------------------------------------------ the manager

  class UtilityManager {
    /** The directory of the extension's assembly (GetCurrentDirectory). */
    const currentDirectory: string
    var apiKey: Option<string>

    /** Keys written to the credential store (ConfigFileHelper.UpdateApiKey). */
    ghost var persistedKeys: seq<string>
    /** Argument strings built by SendFile, one per call. */
    ghost var dispatched: seq<string>
    /** Collector processes started. */
    ghost var started: seq<Command>
    /** Downloads requested from the installer. */
    ghost var downloads: seq<Download>
    ghost var log: seq<LogEntry>

    constructor (currentDirectory: string)
      ensures this.currentDirectory == currentDirectory && apiKey == None
      ensures persistedKeys == [] && dispatched == [] && started == [] && downloads == [] && log == []
    {
      this.currentDirectory := currentDirectory;
      apiKey := None;
      persistedKeys, dispatched, started, downloads, log := [], [], [], [], [];
    }

    /** The ApiKey setter: a null or white-space value is ignored; any other value
        becomes the key and is written to the credential store. */
    method SetApiKey(value: Option<string>)
      modifies this
      ensures IsNullOrWhiteSpace(value) ==> apiKey == old(apiKey) && persistedKeys == old(persistedKeys)
      ensures !IsNullOrWhiteSpace(value) ==> apiKey == value && persistedKeys == old(persistedKeys) + [value.value]
      ensures dispatched == old(dispatched) && started == old(started)
      ensures downloads == old(downloads) && log == old(log)
    {
      if !IsNullOrWhiteSpace(value) {
        apiKey := value;
        persistedKeys := persistedKeys + [value.value];
      }
    }

    /** GetPython: probes the candidates in order and returns the first one accepted.
        `probed` lists the candidates run, which stops at the one returned. */
    method GetPython(probe: string -> ProbeOutcome) returns (python: Option<string>, ghost probed: seq<string>)
      ensures python == FirstWorking(Locations, probe)
      ensures probed <= Locations
      ensures python.None? ==> probed == Locations
      ensures python.Some? ==> probed != [] && probed[|probed| - 1] == python.value
    {
      python, probed := None, [];
      for i := 0 to |Locations|
        invariant probed == Locations[..i]
        invariant FirstWorking(Locations[i..], probe) == FirstWorking(Locations, probe)
      {
        var location := Locations[i];
        probed := probed + [location];
        var outcome := probe(location);
        if ProbeOk(outcome) {
          python := Some(location);
          return;
        }
        assert Locations[i..][1..] == Locations[i + 1..];
      }
    }

    /** IsPythonInstalled: some candidate interpreter is accepted. */
    method IsPythonInstalled(probe: string -> ProbeOutcome) returns (installed: bool)
      ensures installed <==> FirstWorking(Locations, probe).Some?
    {
      var python, _ := GetPython(probe);
      installed := python.Some?;
    }

    /** Initialize, without the installers: logs whether the interpreter and the collector
        were found (requesting the download of what is missing) and loads the key from
        the credential store, logging an error when it is null or white space. */
    method Initialize(probe: string -> ProbeOutcome, fileExists: string -> bool, storedKey: Option<string>)
      modifies this
      ensures apiKey == storedKey
      ensures downloads == old(downloads) + InitDownloads(currentDirectory, probe, fileExists)
      ensures log == old(log) + InitLog(currentDirectory, probe, fileExists, storedKey)
      ensures persistedKeys == old(persistedKeys) && dispatched == old(dispatched) && started == old(started)
    {
      var installed := IsPythonInstalled(probe);
      ghost var pythonStatus := PythonStatus(None);
      if !installed {
        downloads := downloads + [PythonInstaller];
      } else {
        var python, _ := GetPython(probe);
        pythonStatus := PythonStatus(python);
      }
      var cli := CliPath(currentDirectory);
      var cliExists := fileExists(cli);
      if !cliExists {
        downloads := downloads + [CliArchive(CliDir(currentDirectory))];
      }
      ghost var cliStatus := CliStatus(cliExists, cli);
      apiKey := storedKey;
      ghost var keyStatus := if IsNullOrWhiteSpace(apiKey) then [Error("API Key could not be found.")] else [];
      log := log + [pythonStatus, cliStatus] + keyStatus;
    }

    /** SendFile: builds the collector command line and starts the interpreter on it.
        A failed start, whatever the exception, is logged and never escapes. */
    method SendFile(fileName: string, projectName: Option<string>, isWrite: bool, vsVersion: string,
                    probe: string -> ProbeOutcome, start: (string, string) -> StartOutcome)
      modifies this
      ensures var args := Arguments(CliPath(currentDirectory), apiKey, fileName, projectName, isWrite, vsVersion);
              var python := FirstWorking(Locations, probe);
              && dispatched == old(dispatched) + [args]
              && started == old(started) + SpawnedBy(python, args, start)
              && log == old(log) + FailureLog(python, args, start)
      ensures FirstWorking(Locations, probe).None? ==> started == old(started)
      ensures apiKey == old(apiKey) && persistedKeys == old(persistedKeys) && downloads == old(downloads)
    {
      var arguments := Arguments(CliPath(currentDirectory), apiKey, fileName, projectName, isWrite, vsVersion);
      dispatched := dispatched + [arguments];
      var python, _ := GetPython(probe);
      var outcome := StartCollector(python, arguments, start);
      match outcome
      case Started =>
        started := started + [Command(python.value, arguments)];
      case InvalidOperation(message) =>
        log := log + [Error("UtilityManager sendFile : " + FormatArg(python) + " " + arguments),
                      Error("UtilityManager sendFile : " + message)];
      case Failed(message) =>
        log := log + [Error("UtilityManager sendFile : " + FormatArg(python) + " " + arguments),
                      Error("UtilityManager sendFile : " + message)];
    }
  }

  /** The process-wide `UtilityManager.Instance`: created on first use, then shared. */
  class UtilityRegistry {
    const assemblyDirectory: string
    var instance: UtilityManager?

    constructor (assemblyDirectory: string)
      ensures this.assemblyDirectory == assemblyDirectory && instance == null
    {
      this.assemblyDirectory := assemblyDirectory;
      instance := null;
    }

    method Instance() returns (manager: UtilityManager)
      modifies this
      ensures instance == manager
      ensures old(instance) != null ==> manager == old(instance)
      ensures old(instance) == null ==>
        && fresh(manager) && manager.currentDirectory == assemblyDirectory && manager.apiKey == None
        && manager.persistedKeys == [] && manager.dispatched == [] && manager.started == []
        && manager.downloads == [] && manager.log == []
    {
      if instance == null {
        instance := new UtilityManager(assemblyDirectory);
      }
      manager := instance;
    }
  }
}
