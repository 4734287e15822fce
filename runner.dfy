/**
 * RunBase (lib/helpers.py:110-184) and the save filter it uses
 * (lib/helpers.py:44-51): choosing the input file, saving the editor's dirty
 * views below it, assembling the OpenSees command line (serial, or under
 * mpiexec, with the MPICH2 checks on Windows) and starting it through an
 * ExecCommand.
 *
 * Everything the code asks the editor and the operating system is an input:
 * which paths exist, which executables `which` finds, what `cpu_count()`
 * returns, the path functions of `os.path`, and the outputs of the smpd and
 * mpiexec probes.
 */
module Runner {
  import opened Wrappers
  import opened Text
  import opened Settings
  import opened Exec

  /** What a concrete run command supplies: `get_name()`, `is_parallel()`, `get_exe_setting_name()`. */
  datatype Variant = Variant(name: string, parallel: bool, exeSetting: string)

  /** The answers of the editor and the operating system. */
  datatype Host = Host(
    existing: set<string>,            // os.path.exists
    onPath: set<string>,              // which(x) is not None
    cpus: Option<nat>,                // cpu_count(); None when it raises
    normpath: string -> string,       // os.path.normpath
    norm: string -> string,           // norm_path (:44-45)
    basename: string -> string,       // os.path.basename
    dirname: string -> string,        // os.path.dirname
    join: (string, string) -> string) // os.path.join

  // ---------------------------------------------------------------------------
  // Choosing the input file (:129-141)
  // ---------------------------------------------------------------------------

  /**
   * `get_path(paths)`: with no paths the active view's file, with one path that
   * path, with more nothing; and only a path that exists.
   */
  function GetPath(paths: seq<string>, active: Option<string>, existing: set<string>): (r: Option<string>)
    ensures r.Some? ==> r.value in existing
    ensures |paths| == 0 ==> r == (if active.Some? && active.value in existing then active else None)
    ensures |paths| == 1 ==> r == (if paths[0] in existing then Some(paths[0]) else None)
    ensures |paths| > 1 ==> r.None?
  {
    var path := if |paths| < 1 then active else if |paths| == 1 then Some(paths[0]) else None;
    if path.None? || path.value !in existing then None else path
  }

  /** `is_enabled(paths)`: there is an input file to run. */
  predicate IsEnabled(paths: seq<string>, active: Option<string>, existing: set<string>)
  {
    GetPath(paths, active, existing).Some?
  }

  /** `is_visible(paths)`: the same answer as `is_enabled`. */
  predicate IsVisible(paths: seq<string>, active: Option<string>, existing: set<string>)
  {
    IsEnabled(paths, active, existing)
  }

  /**
   * The command is offered exactly when a single existing file is designated:
   * the one path given, or the active view's file when none is given.
   */
  lemma EnabledExactly(paths: seq<string>, active: Option<string>, existing: set<string>)
    ensures IsVisible(paths, active, existing) <==> IsEnabled(paths, active, existing)
    ensures IsEnabled(paths, active, existing) <==>
      (|paths| == 0 && active.Some? && active.value in existing) ||
      (|paths| == 1 && paths[0] in existing)
  {
  }

  // ---------------------------------------------------------------------------
  // Saving the dirty views (:47-51)
  // ---------------------------------------------------------------------------

  /** An open view: the file it shows (if any) and whether it has unsaved changes. */
  datatype View = View(fileName: Option<string>, dirty: bool)

  /**
   * The test `save_all_views` applies to a view: a non-empty file name, unsaved
   * changes, the file exists, and its normalised name starts with the
   * normalised `path` (a plain string prefix).
   */
  predicate ShouldSave(v: View, path: string, host: Host)
  {
    && v.fileName.Some? && v.fileName.value != []
    && v.dirty
    && v.fileName.value in host.existing
    && StartsWith(host.norm(v.fileName.value), host.norm(path))
  }

  /**
   * `save_all_views(window, path)`: the positions of the views it saves, in the
   * order it saves them. Exactly the views passing ShouldSave are saved, each once.
   */
  method SaveAllViews(views: seq<View>, path: string, host: Host) returns (saved: seq<nat>)
    ensures forall j :: 0 <= j < |saved| ==> saved[j] < |views| && ShouldSave(views[saved[j]], path, host)
    ensures forall i :: 0 <= i < |views| && ShouldSave(views[i], path, host) ==> i in saved
    ensures forall j, k :: 0 <= j < k < |saved| ==> saved[j] < saved[k]
  {
    saved := [];
    var i := 0;
    while i < |views|
      invariant 0 <= i <= |views|
      invariant forall j :: 0 <= j < |saved| ==> saved[j] < i && ShouldSave(views[saved[j]], path, host)
      invariant forall m :: 0 <= m < i && ShouldSave(views[m], path, host) ==> m in saved
      invariant forall j, k :: 0 <= j < k < |saved| ==> saved[j] < saved[k]
    {
      var fname := views[i].fileName;
      if fname.Some? && fname.value != [] && views[i].dirty && fname.value in host.existing
        && StartsWith(host.norm(fname.value), host.norm(path))
      {
        saved := saved + [i];
      }
      i := i + 1;
    }
  }

  // ---------------------------------------------------------------------------
  // The processor count (:153-159)
  // ---------------------------------------------------------------------------

  /** The exceptions the `try` block at :154-157 can raise. */
  datatype Raised = SettingsFailed | NotConvertible | NameError

  /** `int(v)` for the setting values `int()` accepts; signs and surrounding blanks are not modelled. */
  function ToInt(v: Value): Option<int>
  {
    match v
    case Int(i) => Some(i)
    case Bool(b) => Some(if b then 1 else 0)
    case Str(s) =>
      if s != [] && forall k :: 0 <= k < |s| ==> '0' <= s[k] <= '9' then Some(DigitsValue(s)) else None
    case _ => None
  }

  /**
   * The `try` block: read and convert `processor_count`, then test it against
   * the bound. The test reads the name `x`, which is bound nowhere, so it raises
   * NameError whatever the setting holds.
   */
  function TryProcessorCount(setting: Result<Value, Error>): Result<int, Raised>
  {
    match setting
    case Err(_) => Err(SettingsFailed)
    case Ok(v) =>
      match ToInt(v)
      case None => Err(NotConvertible)
      case Some(_) => Err(NameError)
  }

  /**
   * The processor count used on the command line: the `except` branch falls
   * back to `cpu_count()`, and as written it is always taken.
   */
  function ProcessorCount(setting: Result<Value, Error>, maxCount: nat): (n: int)
    ensures n == maxCount
  {
    match TryProcessorCount(setting)
    case Ok(count) => count
    case Err(_) => maxCount
  }

  // ---------------------------------------------------------------------------
  // The MPICH2 checks on Windows (:160-179)
  // ---------------------------------------------------------------------------

  /** What `subprocess.check_output` gave: the output, or a CalledProcessError. */
  datatype Probe = Output(text: string) | Failed

  /** The answers to `smpd -status`, the first `mpiexec -validate` and the one after registering. */
  datatype Probes = Probes(status: Probe, validate: Probe, revalidate: Probe)

  datatype Preflight = Ready | SmpdDown | RegistrationFailed

  /** The outcome of the checks and the shell commands issued, in order. */
  datatype Checked = Checked(result: Preflight, issued: seq<string>)

  function Quote(s: string): string
  {
    "\"" + s + "\""
  }

  function StatusCommand(smpd: string): string
  {
    Quote(smpd) + " -status"
  }

  function ValidateCommand(mpi: string): string
  {
    Quote(mpi) + " -validate"
  }

  /** The script that asks for the MPICH2 account in a new console and registers it. */
  function RegisterScript(mpi: string): string
  {
    var messages := [
      "MPICH2 needs a username and password (same account as windows)",
      "Running command:",
      "    " + Quote(mpi) + " -register"
    ];
    "start /wait cmd /c \"echo " + messages[0] + " & echo " + messages[1] + " & echo " + messages[2]
      + " & echo. & " + Quote(mpi) + " -register\""
  }

  predicate Running(p: Probe)
  {
    p.Output? && StartsWith(p.text, "smpd running")
  }

  predicate Valid(p: Probe)
  {
    p.Output? && StartsWith(p.text, "SUCCESS")
  }

  predicate Refused(p: Probe)
  {
    p.Output? && !StartsWith(p.text, "SUCCESS")
  }

  /**
   * The checks: smpd must report that it runs; mpiexec must validate, and when
   * it does not the registration script runs once and validation is retried
   * once. A failing probe (CalledProcessError) counts as smpd not running.
   */
  function WindowsPreflight(mpi: string, smpd: string, probes: Probes): Checked
  {
    var status := StatusCommand(smpd);
    var validate := ValidateCommand(mpi);
    if !Running(probes.status) then Checked(SmpdDown, [status])
    else if probes.validate.Failed? then Checked(SmpdDown, [status, validate])
    else if Valid(probes.validate) then Checked(Ready, [status, validate])
    else
      var retried := [status, validate, RegisterScript(mpi), validate];
      if probes.revalidate.Failed? then Checked(SmpdDown, retried)
      else if Valid(probes.revalidate) then Checked(Ready, retried)
      else Checked(RegistrationFailed, retried)
  }

  /** The registration script starts with `s`, a quoted command with `"`: they are different commands. */
  lemma RegisterDiffers(mpi: string, smpd: string)
    ensures RegisterScript(mpi) != StatusCommand(smpd)
    ensures RegisterScript(mpi) != ValidateCommand(mpi)
  {
    assert RegisterScript(mpi)[0] == 's';
    assert StatusCommand(smpd)[0] == '"';
    assert ValidateCommand(mpi)[0] == '"';
  }

  /**
   * The outcomes of the checks: ready exactly when smpd runs and mpiexec
   * validates, at the first try or after registering; registration fails exactly
   * when both validations answer without SUCCESS; the registration script runs
   * exactly when the first validation answers without SUCCESS, and then only once.
   */
  lemma PreflightOutcomes(mpi: string, smpd: string, probes: Probes)
    ensures var c := WindowsPreflight(mpi, smpd, probes);
      && (c.result == Ready <==>
            Running(probes.status) &&
            (Valid(probes.validate) || (Refused(probes.validate) && Valid(probes.revalidate))))
      && (c.result == RegistrationFailed <==>
            Running(probes.status) && Refused(probes.validate) && Refused(probes.revalidate))
      && (c.result == SmpdDown <==>
            !Running(probes.status) || probes.validate.Failed? ||
            (Refused(probes.validate) && probes.revalidate.Failed?))
      && (RegisterScript(mpi) in c.issued <==> Running(probes.status) && Refused(probes.validate))
      && multiset(c.issued)[RegisterScript(mpi)] <= 1
      && c.issued[0] == StatusCommand(smpd)
  {
    RegisterDiffers(mpi, smpd);
  }

  // ---------------------------------------------------------------------------
  // The command line (:142-184)
  // ---------------------------------------------------------------------------

  /** What `get_cmd` ends with: a command line, a message shown instead, or an exception. */
  datatype CmdOutcome = Line(line: string) | Abort(message: string) | Crash

  /** The outcome and the shell commands the Windows checks issued on the way. */
  datatype CmdPlan = CmdPlan(outcome: CmdOutcome, issued: seq<string>)

  function MissingExecutable(name: string, exe: string): string
  {
    name + " executable " + Quote(exe) + " was not found, make sure it is installed."
  }

  function MissingMpi(name: string, mpi: string): string
  {
    "MPI executable for " + name + " " + Quote(mpi) + " was not found, make sure it is installed."
  }

  /** The opening of the message shown when smpd is not running. */
  const SmpdDownLead := "MPICH2 service \"smpd\" is not running, need to run the following from an administrator command prompt:\n\t"

  function SmpdDownMessage(smpd: string): string
  {
    SmpdDownLead + Quote(smpd) + " -start"
  }

  /** The opening of the message shown when the account could not be registered. */
  const RegistrationLead := "MPICH2 account registration unsuccessful, need to run script again or the following from a command prompt:\n\t"

  function RegistrationMessage(mpi: string): string
  {
    RegistrationLead + Quote(mpi) + " -register"
  }

  /** The serial command: the quoted executable and the quoted input file name. */
  function BaseCommand(exe: string, basename: string): string
  {
    Quote(exe) + " " + Quote(basename)
  }

  /** What goes in front of the serial command in parallel mode. */
  function MpiPrefix(mpi: string, args: string, n: int): string
  {
    Quote(mpi) + " " + args + " -np " + IntToString(n) + " "
  }

  /**
   * The three settings `get_cmd` reads: the executable, `mpiexec` and
   * `processor_count`. Each read is independent of the others, so the model
   * reads all three up front; only the first matters in serial mode.
   */
  datatype Readings = Readings(exe: Result<Value, Error>, mpiexec: Result<Value, Error>, count: Result<Value, Error>)

  function ReadSettings(cfg: Config, fuel: nat, v: Variant): Readings
  {
    Readings(Lookup(cfg, v.exeSetting, fuel), Lookup(cfg, "mpiexec", fuel), Lookup(cfg, "processor_count", fuel))
  }

  /**
   * `get_cmd(name, basename, command)`. The settings are read with the nesting
   * bound `fuel`; a settings error, a non-string executable or mpiexec setting
   * (which `which` and `normpath` reject) and a failing `cpu_count()` are
   * exceptions.
   */
  function GetCmd(cfg: Config, fuel: nat, v: Variant, name: string, basename: string, host: Host, probes: Probes)
    : CmdPlan
  {
    Assemble(cfg.platform, ReadSettings(cfg, fuel, v), v.parallel, name, basename, host, probes)
  }

  /** The decisions of `get_cmd` over the settings read. */
  function Assemble(platform: Platform, r: Readings, parallel: bool, name: string, basename: string, host: Host,
                    probes: Probes): CmdPlan
  {
    match r.exe
    case Err(_) => CmdPlan(Crash, [])
    case Ok(exe) =>
      if !exe.Str? then CmdPlan(Crash, [])
      else if exe.s !in host.onPath then CmdPlan(Abort(MissingExecutable(name, exe.s)), [])
      else if !parallel then CmdPlan(Line(BaseCommand(exe.s, basename)), [])
      else ParallelCmd(platform, r, name, BaseCommand(exe.s, basename), host, probes)
  }

  /** The parallel part of `get_cmd` (:148-183), given the serial command `base`. */
  function ParallelCmd(platform: Platform, r: Readings, name: string, base: string, host: Host, probes: Probes)
    : CmdPlan
  {
    match r.mpiexec
    case Err(_) => CmdPlan(Crash, [])
    case Ok(m) =>
      if !m.Str? then CmdPlan(Crash, [])
      else
        var mpi := host.normpath(m.s);
        if mpi !in host.onPath then CmdPlan(Abort(MissingMpi(name, mpi)), [])
        else
          match host.cpus
          case None => CmdPlan(Crash, [])
          case Some(maxCount) =>
            var n := ProcessorCount(r.count, maxCount);
            if platform == Windows then
              var smpd := host.join(host.dirname(mpi), "smpd");
              var c := WindowsPreflight(mpi, smpd, probes);
              match c.result
              case Ready => CmdPlan(Line(MpiPrefix(mpi, "-noprompt", n) + base), c.issued)
              case SmpdDown => CmdPlan(Abort(SmpdDownMessage(smpd)), c.issued)
              case RegistrationFailed => CmdPlan(Abort(RegistrationMessage(mpi)), c.issued)
            else CmdPlan(Line(MpiPrefix(mpi, "", n) + base), [])
  }

  /**
   * The executable setting decides the first step: a missing executable gives
   * its message and issues nothing; a found one in serial mode gives the quoted
   * executable and input file.
   */
  lemma GetCmdSerial(platform: Platform, r: Readings, parallel: bool, name: string, basename: string, host: Host,
                     probes: Probes, exe: string)
    requires r.exe == Ok(Str(exe))
    ensures exe !in host.onPath ==>
      Assemble(platform, r, parallel, name, basename, host, probes) == CmdPlan(Abort(MissingExecutable(name, exe)), [])
    ensures exe in host.onPath && !parallel ==>
      Assemble(platform, r, parallel, name, basename, host, probes) ==
        CmdPlan(Line("\"" + exe + "\" \"" + basename + "\""), [])
  {
    assert BaseCommand(exe, basename) == "\"" + exe + "\" \"" + basename + "\"";
  }

  /**
   * In parallel mode the line is mpiexec with `-np` and the value of
   * `cpu_count()`, whatever `processor_count` holds, followed by the serial
   * command; `-noprompt` is passed on Windows only.
   */
  lemma GetCmdParallel(platform: Platform, r: Readings, name: string, basename: string, host: Host, probes: Probes,
                       exe: string, mpiSetting: string, cpus: nat)
    requires r.exe == Ok(Str(exe)) && exe in host.onPath
    requires r.mpiexec == Ok(Str(mpiSetting)) && host.normpath(mpiSetting) in host.onPath
    requires host.cpus == Some(cpus)
    ensures var p := Assemble(platform, r, true, name, basename, host, probes);
      var mpi := host.normpath(mpiSetting);
      && (platform != Windows ==>
            p == CmdPlan(Line(Quote(mpi) + "  -np " + IntToString(cpus) + " " + BaseCommand(exe, basename)), []))
      && (platform == Windows ==>
            var smpd := host.join(host.dirname(mpi), "smpd");
            var c := WindowsPreflight(mpi, smpd, probes);
            && p.issued == c.issued
            && (c.result == Ready ==>
                  p.outcome == Line(Quote(mpi) + " -noprompt -np " + IntToString(cpus) + " " + BaseCommand(exe, basename)))
            && (c.result == SmpdDown ==> p.outcome == Abort(SmpdDownMessage(smpd)))
            && (c.result == RegistrationFailed ==> p.outcome == Abort(RegistrationMessage(mpi))))
  {
    var mpi := host.normpath(mpiSetting);
    var n := IntToString(cpus);
    var base := BaseCommand(exe, basename);
    assert Assemble(platform, r, true, name, basename, host, probes) == ParallelCmd(platform, r, name, base, host, probes);
    if platform == Windows {
      ParallelCmdWindows(r, name, base, host, probes, mpiSetting, cpus);
      MpiPrefixSpelled(Quote(mpi), "-noprompt", n);
      NoPromptSpelled();
    } else {
      assert ProcessorCount(r.count, cpus) == cpus;
      MpiPrefixSpelled(Quote(mpi), "", n);
      assert " " + "" + " -np " == "  -np ";
    }
  }

  lemma NoPromptSpelled()
    ensures " " + "-noprompt" + " -np " == " -noprompt -np "
  {
  }

  lemma MpiPrefixSpelled(q: string, args: string, n: string)
    ensures q + " " + args + " -np " + n + " " == q + (" " + args + " -np ") + n + " "
  {
  }

  /** On Windows the MPICH2 checks decide between the `-noprompt` line and the two aborts. */
  lemma ParallelCmdWindows(r: Readings, name: string, base: string, host: Host, probes: Probes,
                           mpiSetting: string, cpus: nat)
    requires r.mpiexec == Ok(Str(mpiSetting)) && host.normpath(mpiSetting) in host.onPath
    requires host.cpus == Some(cpus)
    ensures var p := ParallelCmd(Windows, r, name, base, host, probes);
      var mpi := host.normpath(mpiSetting);
      var smpd := host.join(host.dirname(mpi), "smpd");
      var c := WindowsPreflight(mpi, smpd, probes);
      && p.issued == c.issued
      && (c.result == Ready ==> p.outcome == Line(MpiPrefix(mpi, "-noprompt", cpus) + base))
      && (c.result == SmpdDown ==> p.outcome == Abort(SmpdDownMessage(smpd)))
      && (c.result == RegistrationFailed ==> p.outcome == Abort(RegistrationMessage(mpi)))
  {
    var mpi := host.normpath(mpiSetting);
    var smpd := host.join(host.dirname(mpi), "smpd");
    var c := WindowsPreflight(mpi, smpd, probes);
    assert ProcessorCount(r.count, cpus) == cpus;
    assert ParallelCmd(Windows, r, name, base, host, probes) ==
      match c.result
      case Ready => CmdPlan(Line(MpiPrefix(mpi, "-noprompt", cpus) + base), c.issued)
      case SmpdDown => CmdPlan(Abort(SmpdDownMessage(smpd)), c.issued)
      case RegistrationFailed => CmdPlan(Abort(RegistrationMessage(mpi)), c.issued);
  }

  /**
   * In parallel mode an mpiexec that `which` does not find gives its message
   * and issues nothing (:149-152).
   */
  lemma GetCmdMissingMpi(platform: Platform, r: Readings, name: string, basename: string, host: Host, probes: Probes,
                         exe: string, mpiSetting: string)
    requires r.exe == Ok(Str(exe)) && exe in host.onPath
    requires r.mpiexec == Ok(Str(mpiSetting)) && host.normpath(mpiSetting) !in host.onPath
    ensures Assemble(platform, r, true, name, basename, host, probes) ==
      CmdPlan(Abort(MissingMpi(name, host.normpath(mpiSetting))), [])
  {
  }

  /**
   * With mpiexec found, a `cpu_count()` that raises (:153) ends parallel mode
   * in an exception, before any MPICH2 check is issued.
   */
  lemma GetCmdNoCpuCount(platform: Platform, r: Readings, name: string, basename: string, host: Host, probes: Probes,
                         exe: string, mpiSetting: string)
    requires r.exe == Ok(Str(exe)) && exe in host.onPath
    requires r.mpiexec == Ok(Str(mpiSetting)) && host.normpath(mpiSetting) in host.onPath
    requires host.cpus.None?
    ensures Assemble(platform, r, true, name, basename, host, probes) == CmdPlan(Crash, [])
  {
  }

  /** Every command line ends with the serial command on the quoted input file. */
  lemma GetCmdEndsWithInput(platform: Platform, r: Readings, parallel: bool, name: string, basename: string,
                            host: Host, probes: Probes)
    requires Assemble(platform, r, parallel, name, basename, host, probes).outcome.Line?
    ensures EndsWith(Assemble(platform, r, parallel, name, basename, host, probes).outcome.line, " " + Quote(basename))
  {
    var exe := r.exe.value.s;
    var base := BaseCommand(exe, basename);
    assert EndsWith(base, " " + Quote(basename)) by {
      assert base == Quote(exe) + (" " + Quote(basename));
    }
    forall pre: string
      ensures EndsWith(pre + base, " " + Quote(basename))
    {
      assert (pre + base)[|pre + base| - |base|..] == base;
    }
  }

  /** Windows checks run only on Windows and only in parallel mode; elsewhere nothing is issued. */
  lemma GetCmdIssues(platform: Platform, r: Readings, parallel: bool, name: string, basename: string, host: Host,
                     probes: Probes)
    ensures var p := Assemble(platform, r, parallel, name, basename, host, probes);
      (platform != Windows || !parallel) ==> p.issued == []
  {
  }

  // ---------------------------------------------------------------------------
  // Running (:111-128)
  // ---------------------------------------------------------------------------

  /** What `run(paths)` ends with: the process started, a message shown instead, or an exception. */
  datatype RunOutcome = Started | Stopped | Crashed

  /** The display name of the command: `RUN OpenSees <name> for "<input file>"`. */
  function DisplayName(variantName: string, basename: string): string
  {
    "RUN OpenSees " + variantName + " for " + Quote(basename)
  }

  /**
   * What the command did for the outcome of `get_cmd`, starting from an empty
   * log: nothing after an exception; the launch of the command line in
   * `workingDir` and its banner; or the comment command of `run_message`, its
   * banner and the message. `r` is Started or Stopped exactly when every step
   * completed, Crashed when the display name broke a `re` template on the way.
   */
  predicate Reported(log: seq<Event>, outcome: CmdOutcome, platform: Platform, name: Option<string>,
                     workingDir: string, pollAtStart: Option<int>, pollAtMessage: Option<int>, r: RunOutcome)
  {
    match outcome
    case Crash => r == Crashed && log == []
    case Line(line) =>
      var banner := Forward(name, pollAtStart, Banner(name));
      && r != Stopped
      && (r == Started <==> banner.Some?)
      && log == [Launched(line, Some(workingDir))] + (if banner.Some? then [Shown(banner.value)] else [])
    case Abort(message) =>
      var banner := Forward(name, pollAtStart, Banner(name));
      var shown := Forward(name, pollAtMessage, message);
      && r != Started
      && (r == Stopped <==> banner.Some? && shown.Some?)
      && log == [Launched(MessageCommand(platform, name, message), None)]
                + (if banner.Some? then [Shown(banner.value)] else [])
                + (if banner.Some? && shown.Some? then [Shown(shown.value)] else [])
  }

  /** The last steps of `run(paths)` (:120-128): act on the outcome of `get_cmd` through `command`. */
  method Launch(command: ExecCommand, outcome: CmdOutcome, workingDir: string,
                pollAtStart: Option<int>, pollAtMessage: Option<int>) returns (r: RunOutcome)
    requires command.log == [] && command.stdout == null
    modifies command`log
    ensures Reported(command.log, outcome, command.platform, command.displayName, workingDir,
                     pollAtStart, pollAtMessage, r)
  {
    match outcome
    case Crash =>
      r := Crashed;
    case Abort(message) =>
      var raised := command.RunMessage(message, pollAtStart, pollAtMessage);
      r := if raised then Crashed else Stopped;
    case Line(line) =>
      var raised := command.Run(line, Some(workingDir), pollAtStart);
      r := if raised then Crashed else Started;
  }

  /**
   * `run(paths)`. Without an input file `os.path.basename(None)` raises before
   * the invalid-file message at :116-118 can be shown. Otherwise a command named
   * after the input file is created, the dirty views below the file are saved,
   * and the command line is either launched in the file's directory or replaced
   * by a message. `pollAtStart` and `pollAtMessage` are the launched process'
   * `poll()` when its banner and the message are written.
   */
  method Run(cfg: Config, fuel: nat, v: Variant, paths: seq<string>, active: Option<string>, views: seq<View>,
             host: Host, probes: Probes, pollAtStart: Option<int>, pollAtMessage: Option<int>)
    returns (outcome: RunOutcome, saved: seq<nat>, issued: seq<string>, command: ExecCommand?)
    ensures GetPath(paths, active, host.existing).None? ==>
      outcome == Crashed && saved == [] && issued == [] && command == null
    ensures GetPath(paths, active, host.existing).Some? ==>
      var path := GetPath(paths, active, host.existing).value;
      var basename := host.basename(path);
      var plan := GetCmd(cfg, fuel, v, "OpenSees " + v.name, basename, host, probes);
      && command != null && fresh(command) && command.stdout == null
      && command.displayName == Some(DisplayName(v.name, basename))
      && command.platform == cfg.platform
      && (forall j :: 0 <= j < |saved| ==> saved[j] < |views| && ShouldSave(views[saved[j]], path, host))
      && (forall i :: 0 <= i < |views| && ShouldSave(views[i], path, host) ==> i in saved)
      && (forall j, k :: 0 <= j < k < |saved| ==> saved[j] < saved[k])
      && issued == plan.issued
      && Reported(command.log, plan.outcome, cfg.platform, command.displayName, host.dirname(path),
                  pollAtStart, pollAtMessage, outcome)
  {
    var name := "OpenSees " + v.name;
    var path := GetPath(paths, active, host.existing);
    if path.None? {
      return Crashed, [], [], null;
    }
    var basename := host.basename(path.value);
    command := new ExecCommand(cfg.platform, Some(DisplayName(v.name, basename)), One(None), null);
    saved := SaveAllViews(views, path.value, host);
    var plan := GetCmd(cfg, fuel, v, name, basename, host, probes);
    issued := plan.issued;
    outcome := Launch(command, plan.outcome, host.dirname(path.value), pollAtStart, pollAtMessage);
  }
}
