/** The per-package action dispatcher: for every package of the filtered list it
    queries the package's dumpsys record, then (unless it is a dry run or a
    preview) runs the requested action, updates the success/failure counters and
    logs one status line.

    The behaviour of one call is given by specification functions of its inputs:
    `CommandPlan` (the bridge invocations, in order), `ConsoleLines` (what is
    logged) and `Successes`/`Failures` (what the counters gain). `Execute` is
    proved to do exactly that; the lemmas after it state what those functions
    promise. */
module PackageDependentAction {
  import opened Commons
  import opened Text

  /** What the dumpsys parser extracts for a package. The parser itself is not
      part of this model; numbers and times are kept as their printed text. */
  datatype PackageInfo = PackageInfo(
    packageName: string,
    versionName: Option<string>,
    versionCode: string,
    firstInstallTime: string,
    codePath: string,
    pkgHash: string)

  /** The foreign code the dispatcher consults: the device's responses, the
      dumpsys parser (`None` is a null record) and the uninstall-output
      classifier. All three are uninterpreted. */
  datatype Collaborators = Collaborators(
    respond: Argv -> Option<string>,
    parse: (string, Option<string>) -> Option<PackageInfo>,
    wasSuccessfulUninstalled: Option<string> -> bool)

  const NoAppsNotice := "\t No apps found for given filter"

  // ---------------------------------------------------------------------------
  // Command vectors

  function DumpsysCommand(serial: string, pkg: string): Argv
  {
    ["-s", serial, "shell", "dumpsys", "package", pkg]
  }

  predicate IsDumpsysQuery(c: Argv)
  {
    |c| == 6 && c[0] == "-s" && c[2] == "shell" && c[3] == "dumpsys" && c[4] == "package"
  }

  predicate IsUninstallRequest(c: Argv)
  {
    |c| >= 6 && c[0] == "-s" && c[2] == "shell" &&
    ((c[3] == "pm" && c[4] == "uninstall") || (c[3] == "cmd" && c[4] == "package" && c[5] == "uninstall"))
  }

  /** The uninstall vector: addressed to the device, naming the package last,
      and carrying the keep-data flag `-k` among its fixed words exactly when
      data is to be kept. */
  function UninstallCommand(serial: string, pkg: string, keepData: bool): (r: Argv)
    ensures IsUninstallRequest(r) && !IsDumpsysQuery(r)
    ensures r[..3] == ["-s", serial, "shell"] && r[|r| - 1] == pkg
    ensures keepData <==> "-k" in r[3..|r| - 1]
  {
    if !keepData then
      ["-s", serial, "shell", "pm", "uninstall", pkg]
    else
      var r := ["-s", serial, "shell", "cmd", "package", "uninstall", "-k", pkg];
      assert r[3..|r| - 1][3] == "-k";
      r
  }

  function ForceStopCommand(serial: string, pkg: string): Argv
  {
    ["-s", serial, "shell", "am", "force-stop", pkg]
  }

  function ClearCommand(serial: string, pkg: string): Argv
  {
    ["-s", serial, "shell", "pm", "clear", pkg]
  }

  function LaunchCommand(serial: string, pkg: string): Argv
  {
    ["-s", serial, "shell", "monkey", "-p", pkg, "-c", "android.intent.category.LAUNCHER", "1"]
  }

  predicate WakesScreen(mode: Mode)
  {
    mode == StartActivity || mode == ForceStop
  }

  /** The action command run for one package, if any. */
  function ActionCommands(serial: string, args: Arguments, preview: bool, pkg: string): seq<Argv>
  {
    if args.dryRun || preview then []
    else match args.mode
      case Uninstall => [UninstallCommand(serial, pkg, args.keepData)]
      case ForceStop => [ForceStopCommand(serial, pkg)]
      case Clear => [ClearCommand(serial, pkg)]
      case StartActivity => [LaunchCommand(serial, pkg)]
      case Info => []
      case BugReport => []
  }

  /** Everything issued for one package: its dumpsys query, then its action. */
  function PackageCommands(serial: string, args: Arguments, preview: bool, pkg: string): seq<Argv>
  {
    [DumpsysCommand(serial, pkg)] + ActionCommands(serial, args, preview, pkg)
  }

  function PerPackageCommands(serial: string, args: Arguments, preview: bool, pkgs: seq<string>): seq<Argv>
    decreases |pkgs|
  {
    if pkgs == [] then []
    else PerPackageCommands(serial, args, preview, pkgs[..|pkgs| - 1])
         + PackageCommands(serial, args, preview, pkgs[|pkgs| - 1])
  }

  function WakeUpPrefix(serial: string, mode: Mode): seq<Argv>
  {
    if WakesScreen(mode) then [WakeUpCommand(serial)] else []
  }

  /** All bridge invocations of one `Execute`, in order. */
  function CommandPlan(serial: string, args: Arguments, preview: bool, pkgs: seq<string>): seq<Argv>
  {
    WakeUpPrefix(serial, args.mode) + PerPackageCommands(serial, args, preview, pkgs)
  }

  /** The dumpsys queries for `pkgs`, one per package in list order. */
  function DumpsysQueries(serial: string, pkgs: seq<string>): seq<Argv>
  {
    seq(|pkgs|, k requires 0 <= k < |pkgs| => DumpsysCommand(serial, pkgs[k]))
  }

  /** The uninstall requests for `pkgs`, one per package in list order. */
  function UninstallRequests(serial: string, keepData: bool, pkgs: seq<string>): seq<Argv>
  {
    seq(|pkgs|, k requires 0 <= k < |pkgs| => UninstallCommand(serial, pkgs[k], keepData))
  }

  // ---------------------------------------------------------------------------
  // Outcomes and counters

  function InfoOf(c: Collaborators, serial: string, pkg: string): Option<PackageInfo>
  {
    c.parse(pkg, c.respond(DumpsysCommand(serial, pkg)))
  }

  function UninstallOutput(c: Collaborators, serial: string, keepData: bool, pkg: string): Option<string>
  {
    c.respond(UninstallCommand(serial, pkg, keepData))
  }

  predicate Uninstalled(c: Collaborators, serial: string, keepData: bool, pkg: string)
  {
    c.wasSuccessfulUninstalled(UninstallOutput(c, serial, keepData, pkg))
  }

  datatype Tally = Success | Failure | NotCounted

  /** Which counter one package raises. */
  function TallyOf(c: Collaborators, serial: string, args: Arguments, preview: bool, pkg: string): Tally
  {
    if args.dryRun then NotCounted
    else if preview then Success
    else match args.mode
      case Uninstall => if Uninstalled(c, serial, args.keepData, pkg) then Success else Failure
      case ForceStop => Success
      case Clear => Success
      case Info => Success
      case StartActivity => Success
      case BugReport => NotCounted
  }

  function Successes(c: Collaborators, serial: string, args: Arguments, preview: bool, pkgs: seq<string>): nat
    decreases |pkgs|
  {
    if pkgs == [] then 0
    else Successes(c, serial, args, preview, pkgs[..|pkgs| - 1])
         + (if TallyOf(c, serial, args, preview, pkgs[|pkgs| - 1]) == Success then 1 else 0)
  }

  function Failures(c: Collaborators, serial: string, args: Arguments, preview: bool, pkgs: seq<string>): nat
    decreases |pkgs|
  {
    if pkgs == [] then 0
    else Failures(c, serial, args, preview, pkgs[..|pkgs| - 1])
         + (if TallyOf(c, serial, args, preview, pkgs[|pkgs| - 1]) == Failure then 1 else 0)
  }

  /** The packages whose uninstall output the classifier accepts, in list order. */
  function SuccessfulUninstalls(c: Collaborators, serial: string, keepData: bool, pkgs: seq<string>): seq<string>
  {
    Filter((p: string) => Uninstalled(c, serial, keepData, p), pkgs)
  }

  // ---------------------------------------------------------------------------
  // Log lines

  predicate HasVersionName(info: Option<PackageInfo>)
  {
    info.Some? && info.value.versionName.Some? && info.value.versionName.value != ""
  }

  /** The version label after a package name: empty without a version name,
      otherwise the version in parentheses with exactly the one leading 'v' it
      needs (the name's own 'v' is not doubled). */
  function ShortPackageInfo(info: Option<PackageInfo>): (r: string)
    ensures r == "" <==> !HasVersionName(info)
    ensures HasVersionName(info) ==>
      var v := info.value.versionName.value;
      |r| == |v| + (if v[0] == 'v' then 3 else 4)
      && r[..3] == " (v" && r[|r| - 1] == ')'
      && r[|r| - 1 - |v|..|r| - 1] == v
  {
    if HasVersionName(info) then
      var v := info.value.versionName.value;
      " (" + (if v[0] == 'v' then "" else "v") + v + ")"
    else ""
  }

  /** The three-line detail block of the info mode, or the notice that the
      record could not be read. */
  function FullPackageInfo(info: Option<PackageInfo>): (r: string)
    ensures r == "\t\tcould not read package info" <==> info.None?
    ensures info.Some? ==> |r| > 15 && r[..15] == "\t\tversionCode: " && r[|r| - 1] == '\n'
    ensures info.Some? ==> OccursAt(r, info.value.versionCode, 15)
                           && OccursAt(r, info.value.firstInstallTime, |r| - 1 - |info.value.firstInstallTime|)
  {
    if info.Some? then
      var r := "\t\tversionCode: " + info.value.versionCode + " (" + info.value.pkgHash + ")\n"
               + "\t\tpath: " + info.value.codePath + "\n"
               + "\t\tinstallTime: " + info.value.firstInstallTime + "\n";
      assert r[2] == 'v';
      r
    else "\t\tcould not read package info"
  }

  /** The uninstall output as it is logged: trimmed, or empty when there is none. */
  function OutputText(out: Option<string>): string
  {
    if out.Some? then Trim(out.value) else ""
  }

  /** The head of a package's status line: a tab, the name and the version label. */
  function LineHead(c: Collaborators, serial: string, pkg: string): string
  {
    "\t" + pkg + ShortPackageInfo(InfoOf(c, serial, pkg))
  }

  /** The status part that follows the head, per branch. */
  function LineStatus(c: Collaborators, serial: string, args: Arguments, preview: bool, pkg: string): string
  {
    if args.dryRun then "\tskip"
    else if preview then ""
    else match args.mode
      case Uninstall => "\t" + OutputText(UninstallOutput(c, serial, args.keepData, pkg))
      case ForceStop => "\tstopped"
      case Clear => "\tdata cleared"
      case Info => "\n" + FullPackageInfo(InfoOf(c, serial, pkg))
      case StartActivity => "\tstarting app"
      case BugReport => ""
  }

  function LogLine(c: Collaborators, serial: string, args: Arguments, preview: bool, pkg: string): string
  {
    LineHead(c, serial, pkg) + LineStatus(c, serial, args, preview, pkg)
  }

  /** The status lines of `pkgs`, one per package in list order. */
  function PackageLines(c: Collaborators, serial: string, args: Arguments, preview: bool, pkgs: seq<string>): seq<string>
  {
    seq(|pkgs|, k requires 0 <= k < |pkgs| => LogLine(c, serial, args, preview, pkgs[k]))
  }

  /** Everything one `Execute` logs. */
  function ConsoleLines(c: Collaborators, serial: string, args: Arguments, preview: bool, pkgs: seq<string>): seq<string>
  {
    PackageLines(c, serial, args, preview, pkgs) + (if pkgs == [] then [NoAppsNotice] else [])
  }

  // ---------------------------------------------------------------------------
  // The dispatcher

  method GetPackageInfo(host: Host, device: Device, pkg: string, parse: (string, Option<string>) -> Option<PackageInfo>)
    returns (info: Option<PackageInfo>)
    modifies host`issued
    ensures host.issued == old(host.issued) + [DumpsysCommand(device.serial, pkg)]
    ensures info == parse(pkg, host.respond(DumpsysCommand(device.serial, pkg)))
  {
    var out := host.RunAdbCommand(["-s", device.serial, "shell", "dumpsys", "package", pkg]);
    info := parse(pkg, out);
  }

  /** The requested action for one package outside dry runs and previews: runs
      it, counts it and returns the status text for the package's log line. */
  method Act(host: Host, args: Arguments, actionResult: ActionResult, device: Device, pkg: string,
             packageInfo: Option<PackageInfo>,
             ghost c: Collaborators, wasSuccessfulUninstalled: Option<string> -> bool)
    returns (status: string)
    requires !args.dryRun && c.respond == host.respond && c.wasSuccessfulUninstalled == wasSuccessfulUninstalled
    requires packageInfo == InfoOf(c, device.serial, pkg)
    modifies host`issued, actionResult
    ensures host.issued == old(host.issued) + ActionCommands(device.serial, args, false, pkg)
    ensures status == LineStatus(c, device.serial, args, false, pkg)
    ensures actionResult.successCount == old(actionResult.successCount)
              + (if TallyOf(c, device.serial, args, false, pkg) == Success then 1 else 0)
    ensures actionResult.failureCount == old(actionResult.failureCount)
              + (if TallyOf(c, device.serial, args, false, pkg) == Failure then 1 else 0)
  {
    var serial := device.serial;
    status := "";
    if args.mode == Uninstall {
      var out := host.RunAdbCommand(UninstallCommand(serial, pkg, args.keepData));
      status := "\t" + (if out.Some? then Trim(out.value) else "");
      if wasSuccessfulUninstalled(out) {
        actionResult.successCount := actionResult.successCount + 1;
      } else {
        actionResult.failureCount := actionResult.failureCount + 1;
      }
    } else if args.mode == ForceStop {
      var _ := host.RunAdbCommand(["-s", serial, "shell", "am", "force-stop", pkg]);
      status := "\tstopped";
      actionResult.successCount := actionResult.successCount + 1;
    } else if args.mode == Clear {
      var _ := host.RunAdbCommand(["-s", serial, "shell", "pm", "clear", pkg]);
      status := "\tdata cleared";
      actionResult.successCount := actionResult.successCount + 1;
    } else if args.mode == Info {
      status := "\n" + FullPackageInfo(packageInfo);
      actionResult.successCount := actionResult.successCount + 1;
    } else if args.mode == StartActivity {
      status := "\tstarting app";
      var _ := host.RunAdbCommand(["-s", serial, "shell", "monkey", "-p", pkg, "-c", "android.intent.category.LAUNCHER", "1"]);
      actionResult.successCount := actionResult.successCount + 1;
    }
  }

  /** One iteration of the dispatch loop: query, act, count, log. */
  method ProcessPackage(host: Host, args: Arguments, preview: bool, actionResult: ActionResult, device: Device,
                        pkg: string,
                        parse: (string, Option<string>) -> Option<PackageInfo>,
                        wasSuccessfulUninstalled: Option<string> -> bool)
    modifies host, actionResult
    ensures host.issued == old(host.issued) + PackageCommands(device.serial, args, preview, pkg)
    ensures host.console == old(host.console)
              + [LogLine(Collaborators(host.respond, parse, wasSuccessfulUninstalled), device.serial, args, preview, pkg)]
    ensures actionResult.successCount == old(actionResult.successCount)
              + (if TallyOf(Collaborators(host.respond, parse, wasSuccessfulUninstalled), device.serial, args, preview, pkg) == Success then 1 else 0)
    ensures actionResult.failureCount == old(actionResult.failureCount)
              + (if TallyOf(Collaborators(host.respond, parse, wasSuccessfulUninstalled), device.serial, args, preview, pkg) == Failure then 1 else 0)
  {
    ghost var c := Collaborators(host.respond, parse, wasSuccessfulUninstalled);
    var packageInfo := GetPackageInfo(host, device, pkg, parse);
    var line := "\t" + pkg + ShortPackageInfo(packageInfo);
    assert line == LineHead(c, device.serial, pkg);
    if !args.dryRun {
      if !preview {
        var status := Act(host, args, actionResult, device, pkg, packageInfo, c, wasSuccessfulUninstalled);
        line := line + status;
      } else {
        actionResult.successCount := actionResult.successCount + 1;
      }
    } else {
      line := line + "\tskip";
    }
    assert line == LogLine(c, device.serial, args, preview, pkg);
    host.Log(line);
    assert c == Collaborators(host.respond, parse, wasSuccessfulUninstalled);
  }

  /** What one more package adds to each specification function. */
  lemma PrefixStep(c: Collaborators, serial: string, args: Arguments, preview: bool, pkgs: seq<string>, i: nat)
    requires i < |pkgs|
    ensures PerPackageCommands(serial, args, preview, pkgs[..i + 1])
            == PerPackageCommands(serial, args, preview, pkgs[..i]) + PackageCommands(serial, args, preview, pkgs[i])
    ensures PackageLines(c, serial, args, preview, pkgs[..i + 1])
            == PackageLines(c, serial, args, preview, pkgs[..i]) + [LogLine(c, serial, args, preview, pkgs[i])]
    ensures Successes(c, serial, args, preview, pkgs[..i + 1])
            == Successes(c, serial, args, preview, pkgs[..i]) + (if TallyOf(c, serial, args, preview, pkgs[i]) == Success then 1 else 0)
    ensures Failures(c, serial, args, preview, pkgs[..i + 1])
            == Failures(c, serial, args, preview, pkgs[..i]) + (if TallyOf(c, serial, args, preview, pkgs[i]) == Failure then 1 else 0)
  {
    assert pkgs[..i + 1][..i] == pkgs[..i];
    LinesSnoc(c, serial, args, preview, pkgs, i);
  }

  lemma LinesSnoc(c: Collaborators, serial: string, args: Arguments, preview: bool, pkgs: seq<string>, i: nat)
    requires i < |pkgs|
    ensures PackageLines(c, serial, args, preview, pkgs[..i + 1])
            == PackageLines(c, serial, args, preview, pkgs[..i]) + [LogLine(c, serial, args, preview, pkgs[i])]
  {
    var longer := PackageLines(c, serial, args, preview, pkgs[..i + 1]);
    var shorter := PackageLines(c, serial, args, preview, pkgs[..i]);
    forall k | 0 <= k < i
      ensures longer[k] == shorter[k]
    {
      assert pkgs[..i + 1][k] == pkgs[..i][k];
    }
  }

  /** The dispatch loop: the packages in list order, one `ProcessPackage` each. */
  method ProcessAll(host: Host, args: Arguments, preview: bool, actionResult: ActionResult, device: Device,
                    filteredPackages: seq<string>,
                    parse: (string, Option<string>) -> Option<PackageInfo>,
                    wasSuccessfulUninstalled: Option<string> -> bool)
    modifies host, actionResult
    ensures host.issued == old(host.issued) + PerPackageCommands(device.serial, args, preview, filteredPackages)
    ensures host.console == old(host.console)
              + PackageLines(Collaborators(host.respond, parse, wasSuccessfulUninstalled), device.serial, args, preview, filteredPackages)
    ensures actionResult.successCount == old(actionResult.successCount)
              + Successes(Collaborators(host.respond, parse, wasSuccessfulUninstalled), device.serial, args, preview, filteredPackages)
    ensures actionResult.failureCount == old(actionResult.failureCount)
              + Failures(Collaborators(host.respond, parse, wasSuccessfulUninstalled), device.serial, args, preview, filteredPackages)
  {
    ghost var c := Collaborators(host.respond, parse, wasSuccessfulUninstalled);
    var serial := device.serial;
    var i := 0;
    while i < |filteredPackages|
      invariant 0 <= i <= |filteredPackages|
      invariant host.issued == old(host.issued) + PerPackageCommands(serial, args, preview, filteredPackages[..i])
      invariant host.console == old(host.console) + PackageLines(c, serial, args, preview, filteredPackages[..i])
      invariant actionResult.successCount == old(actionResult.successCount) + Successes(c, serial, args, preview, filteredPackages[..i])
      invariant actionResult.failureCount == old(actionResult.failureCount) + Failures(c, serial, args, preview, filteredPackages[..i])
    {
      ProcessPackage(host, args, preview, actionResult, device, filteredPackages[i], parse, wasSuccessfulUninstalled);
      PrefixStep(c, serial, args, preview, filteredPackages, i);
      AppendAssoc(old(host.issued), PerPackageCommands(serial, args, preview, filteredPackages[..i]),
                  PackageCommands(serial, args, preview, filteredPackages[i]));
      AppendAssoc(old(host.console), PackageLines(c, serial, args, preview, filteredPackages[..i]),
                  [LogLine(c, serial, args, preview, filteredPackages[i])]);
      i := i + 1;
    }
    assert filteredPackages[..i] == filteredPackages;
    assert c == Collaborators(host.respond, parse, wasSuccessfulUninstalled);
  }

  /** Runs the requested action for every package of `filteredPackages`. */
  method Execute(host: Host, args: Arguments, preview: bool, actionResult: ActionResult, device: Device,
                 filteredPackages: seq<string>,
                 parse: (string, Option<string>) -> Option<PackageInfo>,
                 wasSuccessfulUninstalled: Option<string> -> bool)
    modifies host, actionResult
    ensures host.issued == old(host.issued) + CommandPlan(device.serial, args, preview, filteredPackages)
    ensures host.console == old(host.console)
              + ConsoleLines(Collaborators(host.respond, parse, wasSuccessfulUninstalled), device.serial, args, preview, filteredPackages)
    ensures actionResult.successCount == old(actionResult.successCount)
              + Successes(Collaborators(host.respond, parse, wasSuccessfulUninstalled), device.serial, args, preview, filteredPackages)
    ensures actionResult.failureCount == old(actionResult.failureCount)
              + Failures(Collaborators(host.respond, parse, wasSuccessfulUninstalled), device.serial, args, preview, filteredPackages)
  {
    if args.mode == StartActivity || args.mode == ForceStop {
      var _ := host.RunAdbCommand(WakeUpCommand(device.serial));
    }
    ghost var woken := host.issued;
    assert woken == old(host.issued) + WakeUpPrefix(device.serial, args.mode);
    ProcessAll(host, args, preview, actionResult, device, filteredPackages, parse, wasSuccessfulUninstalled);
    AppendAssoc(old(host.issued), WakeUpPrefix(device.serial, args.mode), PerPackageCommands(device.serial, args, preview, filteredPackages));
    if |filteredPackages| == 0 {
      host.Log(NoAppsNotice);
    }
  }

  // ---------------------------------------------------------------------------
  // Properties of one `Execute`

  /** The counters together rise by at most one per package. */
  lemma {:induction false} CountersBounded(c: Collaborators, serial: string, args: Arguments, preview: bool, pkgs: seq<string>)
    ensures Successes(c, serial, args, preview, pkgs) + Failures(c, serial, args, preview, pkgs) <= |pkgs|
    decreases |pkgs|
  {
    if pkgs != [] {
      CountersBounded(c, serial, args, preview, pkgs[..|pkgs| - 1]);
    }
  }

  /** A dry run counts nothing. */
  lemma {:induction false} DryRunCountsNothing(c: Collaborators, serial: string, args: Arguments, preview: bool, pkgs: seq<string>)
    requires args.dryRun
    ensures Successes(c, serial, args, preview, pkgs) == 0
    ensures Failures(c, serial, args, preview, pkgs) == 0
    decreases |pkgs|
  {
    if pkgs != [] {
      DryRunCountsNothing(c, serial, args, preview, pkgs[..|pkgs| - 1]);
    }
  }

  /** A preview (not a dry run) counts every package as a success. */
  lemma {:induction false} PreviewCountsEverySuccess(c: Collaborators, serial: string, args: Arguments, pkgs: seq<string>)
    requires !args.dryRun
    ensures Successes(c, serial, args, true, pkgs) == |pkgs|
    ensures Failures(c, serial, args, true, pkgs) == 0
    decreases |pkgs|
  {
    if pkgs != [] {
      PreviewCountsEverySuccess(c, serial, args, pkgs[..|pkgs| - 1]);
    }
  }

  /** Force-stop, clear, info and start-activity count a success for every
      package and never a failure. */
  lemma {:induction false} OtherModesAlwaysSucceed(c: Collaborators, serial: string, args: Arguments, preview: bool, pkgs: seq<string>)
    requires !args.dryRun
    requires args.mode == ForceStop || args.mode == Clear || args.mode == Info || args.mode == StartActivity
    ensures Successes(c, serial, args, preview, pkgs) == |pkgs|
    ensures Failures(c, serial, args, preview, pkgs) == 0
    decreases |pkgs|
  {
    if pkgs != [] {
      OtherModesAlwaysSucceed(c, serial, args, preview, pkgs[..|pkgs| - 1]);
    }
  }

  /** A mode the dispatcher does not handle counts nothing outside previews. */
  lemma {:induction false} UnhandledModeCountsNothing(c: Collaborators, serial: string, args: Arguments, pkgs: seq<string>)
    requires args.mode == BugReport
    ensures Successes(c, serial, args, false, pkgs) == 0
    ensures Failures(c, serial, args, false, pkgs) == 0
    decreases |pkgs|
  {
    if pkgs != [] {
      UnhandledModeCountsNothing(c, serial, args, pkgs[..|pkgs| - 1]);
    }
  }

  /** Uninstalling counts every package exactly once: as a success when the
      classifier accepts the uninstall output, as a failure otherwise. */
  lemma {:induction false} UninstallCounts(c: Collaborators, serial: string, args: Arguments, pkgs: seq<string>)
    requires args.mode == Uninstall && !args.dryRun
    ensures Successes(c, serial, args, false, pkgs) == |SuccessfulUninstalls(c, serial, args.keepData, pkgs)|
    ensures Successes(c, serial, args, false, pkgs) + Failures(c, serial, args, false, pkgs) == |pkgs|
    decreases |pkgs|
  {
    if pkgs != [] {
      var init, last := pkgs[..|pkgs| - 1], pkgs[|pkgs| - 1];
      UninstallCounts(c, serial, args, init);
      assert pkgs == init + [last];
      FilterAppend((p: string) => Uninstalled(c, serial, args.keepData, p), init, [last]);
    }
  }

  /** At most one action command per package: never a dumpsys query, never the
      wake-up event, and an uninstall request exactly in uninstall mode. */
  lemma ActionCommandsKinds(serial: string, args: Arguments, preview: bool, pkg: string)
    ensures var a := ActionCommands(serial, args, preview, pkg);
      a == [] || (|a| == 1 && !IsDumpsysQuery(a[0]) && a[0] != WakeUpCommand(serial)
                  && (IsUninstallRequest(a[0]) <==> args.mode == Uninstall))
  {
  }

  lemma PackageCommandsKinds(serial: string, args: Arguments, preview: bool, pkg: string)
    ensures WakeUpCommand(serial) !in PackageCommands(serial, args, preview, pkg)
    ensures Filter(IsDumpsysQuery, PackageCommands(serial, args, preview, pkg)) == [DumpsysCommand(serial, pkg)]
    ensures Filter(IsUninstallRequest, PackageCommands(serial, args, preview, pkg))
            == (if args.mode == Uninstall && !args.dryRun && !preview then [UninstallCommand(serial, pkg, args.keepData)] else [])
  {
    ActionCommandsKinds(serial, args, preview, pkg);
    PackageQueryKind(serial, args, preview, pkg);
    PackageUninstallKind(serial, args, preview, pkg);
  }

  lemma PackageQueryKind(serial: string, args: Arguments, preview: bool, pkg: string)
    ensures Filter(IsDumpsysQuery, PackageCommands(serial, args, preview, pkg)) == [DumpsysCommand(serial, pkg)]
  {
    var d, a := DumpsysCommand(serial, pkg), ActionCommands(serial, args, preview, pkg);
    ActionCommandsKinds(serial, args, preview, pkg);
    FilterAppend(IsDumpsysQuery, [d], a);
    FilterSingleton(IsDumpsysQuery, d);
    if a != [] {
      FilterSingleton(IsDumpsysQuery, a[0]);
    }
  }

  lemma PackageUninstallKind(serial: string, args: Arguments, preview: bool, pkg: string)
    ensures Filter(IsUninstallRequest, PackageCommands(serial, args, preview, pkg))
            == (if args.mode == Uninstall && !args.dryRun && !preview then [UninstallCommand(serial, pkg, args.keepData)] else [])
  {
    var d, a := DumpsysCommand(serial, pkg), ActionCommands(serial, args, preview, pkg);
    ActionCommandsKinds(serial, args, preview, pkg);
    FilterAppend(IsUninstallRequest, [d], a);
    FilterSingleton(IsUninstallRequest, d);
    if a != [] {
      FilterSingleton(IsUninstallRequest, a[0]);
    }
  }

  lemma {:induction false} NoWakeUpPerPackage(serial: string, args: Arguments, preview: bool, pkgs: seq<string>)
    ensures WakeUpCommand(serial) !in PerPackageCommands(serial, args, preview, pkgs)
    decreases |pkgs|
  {
    if pkgs != [] {
      NoWakeUpPerPackage(serial, args, preview, pkgs[..|pkgs| - 1]);
      PackageCommandsKinds(serial, args, preview, pkgs[|pkgs| - 1]);
    }
  }

  lemma {:induction false} PerPackageQueries(serial: string, args: Arguments, preview: bool, pkgs: seq<string>)
    ensures Filter(IsDumpsysQuery, PerPackageCommands(serial, args, preview, pkgs)) == DumpsysQueries(serial, pkgs)
    decreases |pkgs|
  {
    if pkgs != [] {
      var init, last := pkgs[..|pkgs| - 1], pkgs[|pkgs| - 1];
      PerPackageQueries(serial, args, preview, init);
      PackageCommandsKinds(serial, args, preview, last);
      FilterAppend(IsDumpsysQuery, PerPackageCommands(serial, args, preview, init), PackageCommands(serial, args, preview, last));
      QueriesSnoc(serial, args.keepData, pkgs);
    }
  }

  /** The two reference sequences gain one entry per package. */
  lemma QueriesSnoc(serial: string, keepData: bool, pkgs: seq<string>)
    requires pkgs != []
    ensures DumpsysQueries(serial, pkgs)
            == DumpsysQueries(serial, pkgs[..|pkgs| - 1]) + [DumpsysCommand(serial, pkgs[|pkgs| - 1])]
    ensures UninstallRequests(serial, keepData, pkgs)
            == UninstallRequests(serial, keepData, pkgs[..|pkgs| - 1]) + [UninstallCommand(serial, pkgs[|pkgs| - 1], keepData)]
  {
  }

  lemma {:induction false} PerPackageUninstalls(serial: string, args: Arguments, preview: bool, pkgs: seq<string>)
    ensures Filter(IsUninstallRequest, PerPackageCommands(serial, args, preview, pkgs))
            == (if args.mode == Uninstall && !args.dryRun && !preview then UninstallRequests(serial, args.keepData, pkgs) else [])
    decreases |pkgs|
  {
    if pkgs != [] {
      var init, last := pkgs[..|pkgs| - 1], pkgs[|pkgs| - 1];
      PerPackageUninstalls(serial, args, preview, init);
      PackageCommandsKinds(serial, args, preview, last);
      FilterAppend(IsUninstallRequest, PerPackageCommands(serial, args, preview, init), PackageCommands(serial, args, preview, last));
      QueriesSnoc(serial, args.keepData, pkgs);
    }
  }

  /** The wake-up event is issued if and only if the mode launches or stops
      apps, and then exactly once, before everything else. */
  lemma WakeUpOnceFirst(serial: string, args: Arguments, preview: bool, pkgs: seq<string>)
    ensures WakeUpCommand(serial) in CommandPlan(serial, args, preview, pkgs) <==> WakesScreen(args.mode)
    ensures WakesScreen(args.mode) ==>
              CommandPlan(serial, args, preview, pkgs)[0] == WakeUpCommand(serial)
              && WakeUpCommand(serial) !in CommandPlan(serial, args, preview, pkgs)[1..]
  {
    NoWakeUpPerPackage(serial, args, preview, pkgs);
    var rest := PerPackageCommands(serial, args, preview, pkgs);
    if WakesScreen(args.mode) {
      assert CommandPlan(serial, args, preview, pkgs)[1..] == rest;
    }
  }

  /** Every package gets exactly one dumpsys query, in list order, whatever
      the dry-run and preview settings. */
  lemma DumpsysQueriesInOrder(serial: string, args: Arguments, preview: bool, pkgs: seq<string>)
    ensures Filter(IsDumpsysQuery, CommandPlan(serial, args, preview, pkgs)) == DumpsysQueries(serial, pkgs)
  {
    PerPackageQueries(serial, args, preview, pkgs);
    FilterAppend(IsDumpsysQuery, WakeUpPrefix(serial, args.mode), PerPackageCommands(serial, args, preview, pkgs));
  }

  /** Uninstall requests are issued only when uninstalling for real, and then
      one per package in list order. */
  lemma UninstallRequestsIssued(serial: string, args: Arguments, preview: bool, pkgs: seq<string>)
    ensures Filter(IsUninstallRequest, CommandPlan(serial, args, preview, pkgs))
            == (if args.mode == Uninstall && !args.dryRun && !preview then UninstallRequests(serial, args.keepData, pkgs) else [])
  {
    PerPackageUninstalls(serial, args, preview, pkgs);
    FilterAppend(IsUninstallRequest, WakeUpPrefix(serial, args.mode), PerPackageCommands(serial, args, preview, pkgs));
  }

  /** In a dry run or a preview nothing but the wake-up event and the dumpsys
      queries is issued: no uninstall, force-stop, clear or launch. */
  lemma {:induction false} QueriesOnlyWithoutAction(serial: string, args: Arguments, preview: bool, pkgs: seq<string>)
    requires args.dryRun || preview
    ensures CommandPlan(serial, args, preview, pkgs) == WakeUpPrefix(serial, args.mode) + DumpsysQueries(serial, pkgs)
    decreases |pkgs|
  {
    if pkgs != [] {
      var init := pkgs[..|pkgs| - 1];
      QueriesOnlyWithoutAction(serial, args, preview, init);
      QueriesSnoc(serial, args.keepData, pkgs);
      AppendAssoc(WakeUpPrefix(serial, args.mode), DumpsysQueries(serial, init), [DumpsysCommand(serial, pkgs[|pkgs| - 1])]);
      AppendAssoc(WakeUpPrefix(serial, args.mode), PerPackageCommands(serial, args, preview, init),
                  PackageCommands(serial, args, preview, pkgs[|pkgs| - 1]));
    }
  }

  /** One status line per package, in list order, each starting with a tab
      and the package name; the "no apps found" notice is added exactly when
      the list is empty. */
  lemma ConsoleLinesInOrder(c: Collaborators, serial: string, args: Arguments, preview: bool, pkgs: seq<string>)
    ensures |ConsoleLines(c, serial, args, preview, pkgs)| == |pkgs| + (if pkgs == [] then 1 else 0)
    ensures pkgs == [] ==> ConsoleLines(c, serial, args, preview, pkgs) == [NoAppsNotice]
    ensures forall k :: 0 <= k < |pkgs| ==>
              ConsoleLines(c, serial, args, preview, pkgs)[k] == LogLine(c, serial, args, preview, pkgs[k])
              && ConsoleLines(c, serial, args, preview, pkgs)[k][..|pkgs[k]| + 1] == "\t" + pkgs[k]
  {
    forall k | 0 <= k < |pkgs|
      ensures LogLine(c, serial, args, preview, pkgs[k])[..|pkgs[k]| + 1] == "\t" + pkgs[k]
    {
      LogLineStartsWithName(c, serial, args, preview, pkgs[k]);
    }
  }

  lemma LogLineStartsWithName(c: Collaborators, serial: string, args: Arguments, preview: bool, pkg: string)
    ensures |LogLine(c, serial, args, preview, pkg)| > |pkg|
    ensures LogLine(c, serial, args, preview, pkg)[..|pkg| + 1] == "\t" + pkg
  {
    var info, status := ShortPackageInfo(InfoOf(c, serial, pkg)), LineStatus(c, serial, args, preview, pkg);
    AppendAssoc("\t" + pkg, info, status);
    PrefixOfAppend("\t" + pkg, info + status);
  }

  /** In a dry run every package's line is its head followed by "\tskip". */
  lemma DryRunLinesSkip(c: Collaborators, serial: string, args: Arguments, preview: bool, pkgs: seq<string>)
    requires args.dryRun
    ensures forall k :: 0 <= k < |pkgs| ==>
              k < |ConsoleLines(c, serial, args, preview, pkgs)|
              && ConsoleLines(c, serial, args, preview, pkgs)[k] == LineHead(c, serial, pkgs[k]) + "\tskip"
  {
    ConsoleLinesInOrder(c, serial, args, preview, pkgs);
  }

  /** A version name that already starts with 'v' gets no second one: "1.2"
      and "v1.2" are labelled alike. */
  lemma ShortPackageInfoSingleV(info: PackageInfo, v: string)
    requires v != [] && v[0] != 'v'
    ensures ShortPackageInfo(Some(info.(versionName := Some(v))))
            == ShortPackageInfo(Some(info.(versionName := Some("v" + v))))
  {
  }
}
