/**
 * VsEventLog: the session object that receives the IDE's document-opened,
 * document-saved and window-activated events, throttles them, and hands the ones
 * worth reporting to UtilityManager.SendFile.
 *
 * The IDE automation object (DTE) is seen only through what a handler reads from it
 * when an event arrives (an Ide value); the clock is the `now` parameter, in ticks;
 * the API-key dialog is its result.
 */
module EventLog {
  import opened Wrappers
  import opened DotNet
  import opened Utility

  /** 1970-01-01 00:00:00 in ticks: the initial lastTimeSent. */
  const Epoch: int := 621_355_968_000_000_000

  /** The last heartbeat sent: its file and the time it was sent at. */
  datatype SendState = SendState(lastFileSent: string, lastTimeSent: int)

  /** The state of a new session: no file, sent at the epoch. */
  const NeverSent: SendState := SendState("", Epoch)

  /** The condition of SendFileToWakatime, as written: another file, a save, or a gap
      whose Minutes COMPONENT (not its total minutes) is at least 2. */
  predicate ShouldSend(s: SendState, fileName: string, isWrite: bool, now: int): (send: bool)
    ensures isWrite || fileName != s.lastFileSent ==> send
    ensures send && !isWrite && fileName == s.lastFileSent ==> now - s.lastTimeSent >= 2 * TicksPerMinute
  {
    fileName != s.lastFileSent || isWrite || MinutesComponent(now - s.lastTimeSent) >= 2
  }

  /** The heartbeat policy the throttle stands for: another file, a save, or at least
      two minutes in total since the last heartbeat. */
  predicate ShouldSendByTotal(s: SendState, fileName: string, isWrite: bool, now: int) {
    fileName != s.lastFileSent || isWrite || TotalMinutesAtLeast(now - s.lastTimeSent, 2)
  }

  /** Within an hour of the last heartbeat (and for a clock that went back) the
      throttle as written is the two-minute policy. */
  lemma ThrottleAgreesWithinHour(s: SendState, fileName: string, isWrite: bool, now: int)
    requires now - s.lastTimeSent < TicksPerHour
    ensures ShouldSend(s, fileName, isWrite, now) <==> ShouldSendByTotal(s, fileName, isWrite, now)
  {
    MinutesComponentBelowHour(now - s.lastTimeSent);
  }

  /** Past the first hour the Minutes component wraps: a repeated open or activation
      of the last file sent, in the first two minutes of any later hour, is suppressed
      although more than two minutes have passed. */
  lemma HourlyWrapSuppresses(s: SendState, now: int, hours: nat)
    requires hours >= 1
    requires hours * TicksPerHour <= now - s.lastTimeSent < hours * TicksPerHour + 2 * TicksPerMinute
    ensures !ShouldSend(s, s.lastFileSent, false, now)
    ensures ShouldSendByTotal(s, s.lastFileSent, false, now)
  {
    var withinHour := now - s.lastTimeSent - hours * TicksPerHour;
    MinutesComponentPeriodic(withinHour, hours);
    MinutesComponentBelowHour(withinHour);
  }

  /** After a heartbeat for a file, further opens and activations of that file are
      suppressed until two minutes have passed; a save restarts this window like any
      other heartbeat. */
  lemma SentOpensWindow(fileName: string, sentAt: int, now: int)
    requires now < sentAt + 2 * TicksPerMinute
    ensures !ShouldSend(SendState(fileName, sentAt), fileName, false, now)
  {
    MinutesComponentBelowHour(now - sentAt);
  }

  /** The IDE's solution object, with its FullName (null when not set). */
  datatype Solution = Solution(fullName: Option<string>)

  /** The project name SendFileToWakatime passes on: none without a solution or with a
      null or white-space FullName, otherwise the solution file name without extension. */
  function ProjectName(solution: Option<Solution>): (name: Option<string>)
    ensures name.Some? <==> solution.Some? && !IsNullOrWhiteSpace(solution.value.fullName)
    ensures name.Some? ==> NoSeparator(name.value)
  {
    if solution.Some? && !IsNullOrWhiteSpace(solution.value.fullName)
    then Some(GetFileNameWithoutExtension(solution.value.fullName.value))
    else None
  }

  /** A solution saved as `dir\stem.ext` is reported as project `stem`. */
  lemma ProjectNameOfSolutionFile(dir: string, stem: string, ext: string)
    requires NoSeparator(stem) && NoSeparator(ext)
    requires forall i | 0 <= i < |ext| :: ext[i] != '.'
    ensures ProjectName(Some(Solution(Some(dir + "\\" + stem + "." + ext)))) == Some(stem)
  {
    var path := dir + "\\" + stem + "." + ext;
    assert path[|dir|] == '\\';
    FileNameWithoutExtensionOfFile(dir, stem, ext);
  }

  /** A solution file named only by its extension, `dir\.sln`, gives the empty project
      name, which SendFile treats as blank: its command line carries no `--project`. */
  lemma DotSolutionHasNoProject(dir: string, isWrite: bool)
    ensures ProjectName(Some(Solution(Some(dir + "\\.sln")))) == Some("")
    ensures OptionFlags(ProjectName(Some(Solution(Some(dir + "\\.sln")))), isWrite)
              == if isWrite then WriteOption else ""
  {
    var path := dir + "\\.sln";
    assert path == dir + "\\" + ".sln";
    assert path[|path| - 1] == 'n';
    GetFileNameAfterSeparator(dir, ".sln");
    var name := ".sln";
    assert name[0] == '.' && name[1] == 's' && name[2] == 'l' && name[3] == 'n';
    assert LastIndexOf(name, '.') == Some(0);
  }

  /** The active window of the IDE and the FullName of the document it shows, if any. */
  datatype Window = Window(document: Option<string>)

  /** What a handler reads from the IDE when an event arrives. */
  datatype Ide = Ide(solution: Option<Solution>, version: string, activeWindow: Option<Window>)

  /** The handlers the session adds to the IDE's document and window events. */
  datatype Handler = OnDocumentOpened | OnDocumentSaved | OnWindowActivated

  const AllHandlers: seq<Handler> := [OnDocumentOpened, OnDocumentSaved, OnWindowActivated]

  /** The result of the API-key dialog (System.Windows.Forms.DialogResult). */
  datatype DialogResult = NoResult | Ok | Cancel | Abort | Retry | Ignore | Yes | No

  const NullReferenceMessage: string := "Object reference not set to an instance of an object."

  class VsEventLog {
    const utilityManager: UtilityManager
    /** objDte is set, and with it docEvents and windowEvents. */
    var eventsBound: bool
    /** The handlers this session has added to the IDE's events, in order. */
    var subscriptions: seq<Handler>
    var lastFileSent: string
    var lastTimeSent: int
    /** How many times the API-key dialog was shown. */
    ghost var dialogsShown: nat
    ghost var log: seq<LogEntry>

    /** Handlers are added together with objDte, and only then. */
    ghost predicate SubscribedOnce()
      reads this
    {
      subscriptions == if eventsBound then AllHandlers else []
    }

    /** A constructed session: bound to the IDE, each handler added exactly once. */
    ghost predicate Valid()
      reads this
    {
      eventsBound && subscriptions == AllHandlers
    }

    function State(): (s: SendState)
      reads this
    {
      SendState(lastFileSent, lastTimeSent)
    }

    /** The effect of SendFileToWakatime(fileName, isWrite) at time `now`: when the
        throttle lets the event through, one SendFile call with the derived project
        name and the IDE version, and the state moves to (fileName, now) whatever the
        start did; otherwise nothing changes. */
    twostate predicate Reported(fileName: string, isWrite: bool, now: int, ide: Ide,
                                probe: string -> ProbeOutcome, start: (string, string) -> StartOutcome)
      reads this, utilityManager
    {
      var sent := ShouldSend(old(State()), fileName, isWrite, now);
      var args := Arguments(CliPath(utilityManager.currentDirectory), old(utilityManager.apiKey), fileName,
                            ProjectName(ide.solution), isWrite, ide.version);
      var python := FirstWorking(Locations, probe);
      && State() == (if sent then SendState(fileName, now) else old(State()))
      && utilityManager.dispatched == old(utilityManager.dispatched) + (if sent then [args] else [])
      && utilityManager.started == old(utilityManager.started) + (if sent then SpawnedBy(python, args, start) else [])
      && utilityManager.log == old(utilityManager.log) + (if sent then FailureLog(python, args, start) else [])
      && utilityManager.apiKey == old(utilityManager.apiKey)
      && utilityManager.persistedKeys == old(utilityManager.persistedKeys)
      && utilityManager.downloads == old(utilityManager.downloads)
      && eventsBound == old(eventsBound) && subscriptions == old(subscriptions)
      && dialogsShown == old(dialogsShown) && log == old(log)
    }

    /** The constructor: takes the shared UtilityManager, runs Initialize (which binds
        the events only when a key is present or the dialog was not cancelled), then
        binds the events unconditionally. */
    constructor (registry: UtilityRegistry, probe: string -> ProbeOutcome, fileExists: string -> bool,
                 storedKey: Option<string>, dialog: DialogResult)
      modifies registry, registry.instance
      ensures Valid() && State() == NeverSent
      ensures utilityManager == registry.instance
      ensures old(registry.instance) != null ==>
        && utilityManager == old(registry.instance)
        && utilityManager.dispatched == old(registry.instance.dispatched)
        && utilityManager.started == old(registry.instance.started)
        && utilityManager.persistedKeys == old(registry.instance.persistedKeys)
        && utilityManager.downloads == old(registry.instance.downloads)
                                       + InitDownloads(utilityManager.currentDirectory, probe, fileExists)
        && utilityManager.log == old(registry.instance.log)
                                 + InitLog(utilityManager.currentDirectory, probe, fileExists, storedKey)
      ensures old(registry.instance) == null ==>
        && fresh(utilityManager) && utilityManager.currentDirectory == registry.assemblyDirectory
        && utilityManager.dispatched == [] && utilityManager.started == [] && utilityManager.persistedKeys == []
        && utilityManager.downloads == InitDownloads(utilityManager.currentDirectory, probe, fileExists)
        && utilityManager.log == InitLog(utilityManager.currentDirectory, probe, fileExists, storedKey)
      ensures utilityManager.apiKey == storedKey
      ensures dialogsShown == if IsNullOrWhiteSpace(storedKey) then 1 else 0
      ensures log == []
    {
      var manager := registry.Instance();
      utilityManager := manager;
      eventsBound, subscriptions := false, [];
      lastFileSent, lastTimeSent := NeverSent.lastFileSent, NeverSent.lastTimeSent;
      dialogsShown, log := 0, [];
      new;
      Initialize(probe, fileExists, storedKey, dialog);
      InitializeEvents();
    }

    /** Initialize: initializes the UtilityManager, checks for the API key, and binds the
        events when the check succeeds. */
    method Initialize(probe: string -> ProbeOutcome, fileExists: string -> bool,
                      storedKey: Option<string>, dialog: DialogResult)
      requires SubscribedOnce()
      modifies this, utilityManager
      ensures SubscribedOnce()
      ensures utilityManager.apiKey == storedKey
      ensures utilityManager.downloads == old(utilityManager.downloads)
                                          + InitDownloads(utilityManager.currentDirectory, probe, fileExists)
      ensures utilityManager.log == old(utilityManager.log)
                                    + InitLog(utilityManager.currentDirectory, probe, fileExists, storedKey)
      ensures eventsBound == (old(eventsBound) || !IsNullOrWhiteSpace(storedKey) || dialog != Cancel)
      ensures dialogsShown == old(dialogsShown) + (if IsNullOrWhiteSpace(storedKey) then 1 else 0)
      ensures State() == old(State()) && log == old(log)
      ensures utilityManager.dispatched == old(utilityManager.dispatched)
      ensures utilityManager.started == old(utilityManager.started)
      ensures utilityManager.persistedKeys == old(utilityManager.persistedKeys)
    {
      utilityManager.Initialize(probe, fileExists, storedKey);
      var isApiKeyFound := CheckForApiKey(dialog);
      if isApiKeyFound {
        InitializeEvents();
      }
    }

    /** InitializeEvents: binds objDte and adds the three handlers, only if objDte is
        not yet set, so that a second call adds nothing. */
    method InitializeEvents()
      requires SubscribedOnce()
      modifies this
      ensures Valid()
      ensures old(eventsBound) ==> subscriptions == old(subscriptions)
      ensures State() == old(State()) && dialogsShown == old(dialogsShown) && log == old(log)
    {
      if !eventsBound {
        eventsBound := true;
        subscriptions := subscriptions + [OnDocumentOpened];
        subscriptions := subscriptions + [OnDocumentSaved];
        subscriptions := subscriptions + [OnWindowActivated];
      }
    }

    /** DisplayApiKeyDialog: shows the dialog and binds the events when it returns OK. */
    method DisplayApiKeyDialog(dialog: DialogResult) returns (result: DialogResult)
      requires SubscribedOnce()
      modifies this
      ensures result == dialog
      ensures dialogsShown == old(dialogsShown) + 1
      ensures SubscribedOnce() && eventsBound == (old(eventsBound) || dialog == Ok)
      ensures old(eventsBound) ==> subscriptions == old(subscriptions)
      ensures State() == old(State()) && log == old(log)
    {
      dialogsShown := dialogsShown + 1;
      result := dialog;
      if result == Ok {
        InitializeEvents();
      }
    }

    /** CheckForApiKey: with a key, succeeds without a prompt; without one, prompts and
        fails only when the dialog was cancelled. */
    method CheckForApiKey(dialog: DialogResult) returns (found: bool)
      requires SubscribedOnce()
      modifies this
      ensures found <==> !IsNullOrWhiteSpace(utilityManager.apiKey) || dialog != Cancel
      ensures dialogsShown == old(dialogsShown) + (if IsNullOrWhiteSpace(utilityManager.apiKey) then 1 else 0)
      ensures SubscribedOnce()
      ensures eventsBound == (old(eventsBound) || (IsNullOrWhiteSpace(utilityManager.apiKey) && dialog == Ok))
      ensures State() == old(State()) && log == old(log)
    {
      if IsNullOrWhiteSpace(utilityManager.apiKey) {
        var result := DisplayApiKeyDialog(dialog);
        if result == Cancel {
          return false;
        }
      }
      return true;
    }

    /** SendFileToWakatime: reports the event when the throttle lets it through, then
        records it as the last one sent. */
    method SendFileToWakatime(fileName: string, isWrite: bool, now: int, ide: Ide,
                              probe: string -> ProbeOutcome, start: (string, string) -> StartOutcome)
      requires Valid()
      modifies this, utilityManager
      ensures Valid()
      ensures Reported(fileName, isWrite, now, ide, probe, start)
    {
      var minutesSinceLastSent := now - lastTimeSent;
      if fileName != lastFileSent || isWrite || MinutesComponent(minutesSinceLastSent) >= 2 {
        assert ShouldSend(State(), fileName, isWrite, now);
        var projectName := ProjectName(ide.solution);
        ghost var args := Arguments(CliPath(utilityManager.currentDirectory), utilityManager.apiKey, fileName,
                                    projectName, isWrite, ide.version);
        ghost var python := FirstWorking(Locations, probe);
        utilityManager.SendFile(fileName, projectName, isWrite, ide.version, probe, start);
        assert utilityManager.dispatched == old(utilityManager.dispatched) + [args];
        assert utilityManager.started == old(utilityManager.started) + SpawnedBy(python, args, start);
        assert utilityManager.log == old(utilityManager.log) + FailureLog(python, args, start);
        lastFileSent := fileName;
        lastTimeSent := now;
      } else {
        assert !ShouldSend(State(), fileName, isWrite, now);
      }
    }

    /** Window_Activated: reports the active window's document as a non-save event;
        sends nothing for a window without a document; logs the failure when there is
        no active window. */
    method WindowActivated(now: int, ide: Ide,
                           probe: string -> ProbeOutcome, start: (string, string) -> StartOutcome)
      requires Valid()
      modifies this, utilityManager
      ensures Valid()
      ensures ide.activeWindow.None? ==>
        && unchanged(utilityManager) && State() == old(State())
        && dialogsShown == old(dialogsShown)
        && log == old(log) + [Error("Window_Activated : " + NullReferenceMessage)]
      ensures ide.activeWindow.Some? && ide.activeWindow.value.document.None? ==> unchanged(this, utilityManager)
      ensures ide.activeWindow.Some? && ide.activeWindow.value.document.Some? ==>
        Reported(ide.activeWindow.value.document.value, false, now, ide, probe, start)
    {
      if ide.activeWindow.None? {
        log := log + [Error("Window_Activated : " + NullReferenceMessage)];
        return;
      }
      var document := ide.activeWindow.value.document;
      if document.Some? {
        SendFileToWakatime(document.value, false, now, ide, probe, start);
      }
    }

    /** DocumentEvents_DocumentOpened: reports the document as a non-save event. */
    method DocumentOpened(path: string, now: int, ide: Ide,
                          probe: string -> ProbeOutcome, start: (string, string) -> StartOutcome)
      requires Valid()
      modifies this, utilityManager
      ensures Valid()
      ensures Reported(path, false, now, ide, probe, start)
    {
      SendFileToWakatime(path, false, now, ide, probe, start);
    }

    /** DocumentEvents_DocumentSaved: reports the document as a save, which the throttle
        always lets through. */
    method DocumentSaved(path: string, now: int, ide: Ide,
                         probe: string -> ProbeOutcome, start: (string, string) -> StartOutcome)
      requires Valid()
      modifies this, utilityManager
      ensures Valid()
      ensures Reported(path, true, now, ide, probe, start)
      ensures State() == SendState(path, now)
      ensures |utilityManager.dispatched| == |old(utilityManager.dispatched)| + 1
    {
      SendFileToWakatime(path, true, now, ide, probe, start);
    }
  }
}

/** A session driven through the event sequences of the heartbeat policy: a repeated
    open within two minutes is suppressed, a save always goes out, an open after two
    minutes goes out, and an open of another file goes out. */
module EventLogScenarios {
  import opened Wrappers
  import opened DotNet
  import opened Utility
  import opened EventLog

  method ThrottleScenarios(session: VsEventLog, probe: string -> ProbeOutcome,
                           start: (string, string) -> StartOutcome, ide: Ide, t0: int)
    requires session.Valid() && session.State() == NeverSent
    modifies session, session.utilityManager
    ensures session.Valid()
    ensures |session.utilityManager.dispatched| == |old(session.utilityManager.dispatched)| + 4
    ensures session.State() == SendState("b.py", t0 + 142 * 10_000_000)
  {
    var second := 10_000_000;
    ghost var sent := |session.utilityManager.dispatched|;
    session.DocumentOpened("a.py", t0, ide, probe, start);
    assert |session.utilityManager.dispatched| == sent + 1;
    session.DocumentOpened("a.py", t0 + 10 * second, ide, probe, start);
    SentOpensWindow("a.py", t0, t0 + 10 * second);
    assert |session.utilityManager.dispatched| == sent + 1;
    session.DocumentSaved("a.py", t0 + 20 * second, ide, probe, start);
    session.DocumentOpened("a.py", t0 + 141 * second, ide, probe, start);
    ThrottleAgreesWithinHour(SendState("a.py", t0 + 20 * second), "a.py", false, t0 + 141 * second);
    assert |session.utilityManager.dispatched| == sent + 3;
    session.DocumentOpened("b.py", t0 + 142 * second, ide, probe, start);
  }
}
