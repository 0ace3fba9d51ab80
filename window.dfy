/**
 * The main window's run control: the two path fields, the option
 * checkboxes, the Run and Stop buttons and the single rsync process they
 * start and stop, with the verdict shown when the process finishes.
 */
module SyncWindow {
  import opened SyncArguments

  /** How the rsync process ended, as the process reports it. */
  datatype ExitStatus = NormalExit | CrashExit

  /** The word printed after the exit code when the process finishes. */
  datatype Verdict = Success | Failed

  /** The verdict on a finished rsync run. */
  function VerdictOf(status: ExitStatus, exitCode: int): (v: Verdict)
    ensures v == Success <==> status == NormalExit && exitCode == 0
  {
    if status == NormalExit && exitCode == 0 then Success else Failed
  }

  /**
   * The text of the source field after the Browse dialog returned
   * `directory`: an empty result (the dialog was cancelled) keeps the
   * current text; otherwise the chosen directory with a trailing "/".
   */
  function BrowsedSource(current: string, directory: string): (text: string)
    ensures directory == "" ==> text == current
    ensures directory != "" ==>
      |text| == |directory| + 1 && text[..|directory|] == directory && text[|directory|] == '/'
  {
    if directory == "" then current else directory + "/"
  }

  /**
   * The text of the destination field after the Browse dialog returned
   * `directory`: an empty result keeps the current text; otherwise the
   * directory exactly as chosen.
   */
  function BrowsedDestination(current: string, directory: string): (text: string)
    ensures directory == "" ==> text == current
    ensures directory != "" ==> text == directory
  {
    if directory == "" then current else directory
  }

  /** Run Sync refuses to start when either path field is empty. */
  function Rejects(source: string, destination: string): (r: bool)
    ensures r <==> |source| == 0 || |destination| == 0
  {
    source == "" || destination == ""
  }

  /** After browsing to a directory for both fields, Run Sync is never refused. */
  lemma BrowsedPathsAccepted(source: string, destination: string, srcDir: string, dstDir: string)
    requires srcDir != "" && dstDir != ""
    ensures !Rejects(BrowsedSource(source, srcDir), BrowsedDestination(destination, dstDir))
    ensures BrowsedDestination(destination, dstDir) == dstDir
  {
  }

  /** The state of the rsync process, as the process object reports it. */
  datatype ProcessState = NotRunning | Starting | Running

  class MainWindow {
    /** Text of the source and destination line edits. */
    var sourceText: string
    var destinationText: string
    /** State of the seven option checkboxes. */
    var options: Options
    /** Whether the Run Sync and Stop buttons accept clicks. */
    var runEnabled: bool
    var stopEnabled: bool
    /** The rsync process, and whether it has been sent a kill. */
    var process: ProcessState
    var killSent: bool
    /** The argument vectors handed to rsync so far, oldest first. */
    var launched: seq<seq<string>>

    /**
     * Exactly one of the two buttons is enabled, Stop is enabled whenever
     * a process is starting or running, and a kill is only ever sent to a
     * running process.
     */
    ghost predicate Valid()
      reads this
    {
      runEnabled == !stopEnabled && (process != NotRunning ==> stopEnabled) &&
      (killSent ==> process == Running)
    }

    /**
     * The window can still be used: Stop is enabled exactly while there is
     * a process, so Run is enabled again whenever there is none.
     */
    ghost predicate Responsive()
      reads this
    {
      stopEnabled == (process != NotRunning)
    }

    /** A new window: empty paths, Verbose and Progress checked, Run enabled, Stop disabled. */
    constructor ()
      ensures Valid() && Responsive()
      ensures sourceText == "" && destinationText == "" && options == InitialOptions
      ensures runEnabled && !stopEnabled && process == NotRunning && !killSent && launched == []
    {
      sourceText, destinationText := "", "";
      options := InitialOptions;
      runEnabled := true;
      stopEnabled := false;
      process, killSent := NotRunning, false;
      launched := [];
    }

    /** The source Browse button, given the directory the dialog returned ("" when cancelled). */
    method OnBrowseSource(directory: string)
      modifies this`sourceText
      ensures sourceText == BrowsedSource(old(sourceText), directory)
    {
      if directory != "" {
        sourceText := directory + "/";
      }
    }

    /** The destination Browse button, given the directory the dialog returned ("" when cancelled). */
    method OnBrowseDestination(directory: string)
      modifies this`destinationText
      ensures destinationText == BrowsedDestination(old(destinationText), directory)
    {
      if directory != "" {
        destinationText := directory;
      }
    }

    /**
     * The Run Sync button. With an empty path nothing changes; otherwise
     * Run is disabled, Stop enabled, and rsync is started with the argument
     * vector of the current checkboxes and paths.
     */
    method OnRunSync()
      requires Valid() && runEnabled
      modifies this`runEnabled, this`stopEnabled, this`process, this`killSent, this`launched
      ensures Valid()
      ensures Rejects(sourceText, destinationText) ==> unchanged(this)
      ensures !Rejects(sourceText, destinationText) ==>
        !runEnabled && stopEnabled && process == Starting && !killSent && Responsive() &&
        launched == old(launched) + [ArgumentVector(options, sourceText, destinationText)]
    {
      var source := sourceText;
      var destination := destinationText;
      if source == "" || destination == "" {
        return;
      }
      runEnabled := false;
      stopEnabled := true;
      var arguments := BuildArguments(options, source, destination);
      process, killSent := Starting, false;
      launched := launched + [arguments];
    }

    /** The process has been launched and is now running; no slot reacts. */
    method OnProcessStarted()
      requires Valid() && process == Starting
      modifies this`process
      ensures Valid() && process == Running
      ensures old(Responsive()) ==> Responsive()
    {
      process := Running;
    }

    /**
     * The process could not be launched (rsync is missing, say). No slot
     * is connected to this error and no finished signal follows, so only
     * the process state changes: the buttons stay as the Run slot left
     * them, Run disabled and Stop enabled.
     */
    method OnFailedToStart()
      requires Valid() && process == Starting
      modifies this`process
      ensures Valid() && process == NotRunning
      ensures !runEnabled && stopEnabled && !Responsive()
    {
      process := NotRunning;
    }

    /**
     * A handler for the launch error that does what the finished slot
     * does: Run enabled again, Stop disabled.
     */
    method OnFailedToStartHandled()
      requires Valid() && process == Starting
      modifies this`process, this`runEnabled, this`stopEnabled
      ensures Valid() && Responsive()
      ensures process == NotRunning && runEnabled && !stopEnabled
    {
      process := NotRunning;
      runEnabled := true;
      stopEnabled := false;
    }

    /**
     * The Stop button: kills rsync when it is running, and does nothing
     * otherwise, in particular while it is still starting.
     */
    method OnStopSync() returns (killed: bool)
      requires Valid()
      modifies this`killSent
      ensures Valid()
      ensures killed == (process == Running)
      ensures killSent == (old(killSent) || killed)
    {
      killed := process == Running;
      if killed {
        killSent := true;
      }
    }

    /**
     * rsync has finished with the given status and code: the verdict is
     * reported, Run is enabled again and Stop disabled. Only a process that
     * was launched can finish.
     */
    method OnRsyncFinished(exitCode: int, status: ExitStatus) returns (verdict: Verdict)
      requires process == Running
      modifies this`runEnabled, this`stopEnabled, this`process, this`killSent
      ensures Valid() && Responsive()
      ensures verdict == VerdictOf(status, exitCode)
      ensures runEnabled && !stopEnabled && process == NotRunning && !killSent
    {
      verdict := VerdictOf(status, exitCode);
      process, killSent := NotRunning, false;
      runEnabled := true;
      stopEnabled := false;
    }
  }

  /**
   * A launch that fails leaves the window with Run disabled and no
   * process: Stop no longer does anything, the Run slot cannot be reached
   * and no finished event can come, so nothing enables Run again.
   */
  method FailedLaunchLeavesRunDisabled() returns (w: MainWindow)
    ensures w.Valid() && !w.Responsive()
    ensures !w.runEnabled && w.stopEnabled && w.process == NotRunning
  {
    w := new MainWindow();
    w.OnBrowseSource("/home/user/photos");
    w.OnBrowseDestination("/mnt/backup");
    w.OnRunSync();
    w.OnFailedToStart();
    var killed := w.OnStopSync();
    assert !killed;
  }

  /** With the launch error handled, the same session ends with Run enabled again. */
  method HandledFailedLaunchReenablesRun() returns (w: MainWindow)
    ensures w.Valid() && w.Responsive()
    ensures w.runEnabled && !w.stopEnabled && w.process == NotRunning
  {
    w := new MainWindow();
    w.OnBrowseSource("/home/user/photos");
    w.OnBrowseDestination("/mnt/backup");
    w.OnRunSync();
    w.OnFailedToStartHandled();
  }
}
