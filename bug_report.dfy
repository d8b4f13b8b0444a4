/** The bug-report builder as the plan of bridge commands it runs: optional
    pre-report intents (one `am` command per matched package, with the package
    substituted for a placeholder), then a fixed sequence that wakes the screen,
    captures and pulls a screenshot and a logcat dump, and removes the device-side
    temporary files. Fatal conditions are returned as `Fatal` outcomes.

    File-system effects are not performed: whether the output folder exists or
    can be created and whether the archive exists afterwards are read from
    `Disk`; the zipping itself and the deletion of the local copies are not
    modelled. */
module BugReport {
  import opened Commons
  import opened Text

  const Placeholder := "${package}"
  const ScreenshotTemp := "/sdcard/bugreport_tempfile_screenshot.png"
  const LogcatTemp := "/sdcard/bugreport_tempfile_logcat"

  /** What the file system answers: whether a folder exists, whether creating
      it succeeds, the absolute form of a path, the tool's own location (the
      default output folder), and whether the archive exists after zipping. */
  datatype Disk = Disk(
    folderExists: string -> bool,
    mkdirs: string -> bool,
    absolutePath: string -> string,
    codeSourceDir: string,
    zipCreated: bool)

  datatype Outcome = Completed | Fatal(message: string)

  // ---------------------------------------------------------------------------
  // Artefact names

  /** The part all three artefact names share: device model and timestamp. */
  function Stem(model: string, timestamp: string): string
  {
    model + "-" + timestamp
  }

  function ScreenshotName(model: string, timestamp: string): string
  {
    "screen-" + Stem(model, timestamp) + ".png"
  }

  function LogcatName(model: string, timestamp: string): string
  {
    "logcat-" + Stem(model, timestamp) + ".txt"
  }

  function ZipName(model: string, timestamp: string): string
  {
    "bugreport-" + Stem(model, timestamp) + ".zip"
  }

  /** A file `name` inside folder `dir` (path normalisation is not modelled). */
  function Join(dir: string, name: string): string
  {
    dir + "/" + name
  }

  // ---------------------------------------------------------------------------
  // Output folder

  predicate HasOutputArgument(mainArgument: Option<string>)
  {
    mainArgument.Some? && mainArgument.value != ""
  }

  /** An explicit output folder that is missing and cannot be created. */
  predicate FolderUnavailable(mainArgument: Option<string>, disk: Disk)
  {
    HasOutputArgument(mainArgument) && !disk.folderExists(mainArgument.value) && !disk.mkdirs(mainArgument.value)
  }

  function OutputFolder(mainArgument: Option<string>, disk: Disk): string
  {
    if HasOutputArgument(mainArgument) then mainArgument.value else disk.codeSourceDir
  }

  // ---------------------------------------------------------------------------
  // The command plan

  /** The `am` arguments of the pre-report intent: present only when the
      intent array exists and has at least two elements, and then everything
      after element 0 (the package filter), in order. */
  function IntentArguments(intent: array?<string>): (r: Option<seq<string>>)
    reads intent
    ensures r.Some? <==> intent != null && intent.Length >= 2
    ensures r.Some? ==> |r.value| == intent.Length - 1 && forall k :: 0 <= k < |r.value| ==> r.value[k] == intent[k + 1]
  {
    if intent != null && intent.Length >= 2 then Some(intent[1..]) else None
  }

  /** Every argument with each placeholder replaced by the package name. */
  function Substituted(intentArgs: seq<string>, pkg: string): seq<string>
  {
    seq(|intentArgs|, k requires 0 <= k < |intentArgs| => Replace(intentArgs[k], Placeholder, pkg))
  }

  function IntentCommand(serial: string, intentArgs: seq<string>, pkg: string): Argv
  {
    ["-s", serial, "shell", "am"] + Substituted(intentArgs, pkg)
  }

  /** One intent command per matched package, in order; none without intent arguments. */
  function IntentCommands(serial: string, intentArgs: Option<seq<string>>, matched: seq<string>): seq<Argv>
  {
    if intentArgs.None? then []
    else seq(|matched|, j requires 0 <= j < |matched| => IntentCommand(serial, intentArgs.value, matched[j]))
  }

  /** The fixed capture sequence. */
  function CaptureCommands(serial: string, localScreenshot: string, localLogcat: string): seq<Argv>
  {
    [ WakeUpCommand(serial),
      ["-s", serial, "shell", "screencap", ScreenshotTemp],
      ["-s", serial, "pull", ScreenshotTemp, localScreenshot],
      ["-s", serial, "logcat", "-d", "-f", LogcatTemp],
      ["-s", serial, "pull", LogcatTemp, localLogcat],
      ["-s", serial, "shell", "rm", "-f", ScreenshotTemp],
      ["-s", serial, "shell", "rm", "-f", LogcatTemp] ]
  }

  /** Everything one bug report runs, in order, given the absolute output folder. */
  function ReportPlan(device: Device, intentArgs: Option<seq<string>>, matched: seq<string>,
                      localFolder: string, timestamp: string): seq<Argv>
  {
    IntentCommands(device.serial, intentArgs, matched)
    + CaptureCommands(device.serial,
                      Join(localFolder, ScreenshotName(device.model, timestamp)),
                      Join(localFolder, LogcatName(device.model, timestamp)))
  }

  /** The results recorded for a sequence of invocations. */
  function Executed(respond: Argv -> Option<string>, plan: seq<Argv>): seq<CmdResult>
  {
    seq(|plan|, i requires 0 <= i < |plan| => CmdResult(plan[i], respond(plan[i])))
  }

  // ---------------------------------------------------------------------------
  // The builder

  /** Runs one command and records its result in the caller's history. */
  method Record(host: Host, executedCommands: CommandHistory, argv: Argv)
    modifies host`issued, executedCommands
    ensures host.issued == old(host.issued) + [argv]
    ensures executedCommands.items == old(executedCommands.items) + Executed(host.respond, [argv])
  {
    var out := host.RunAdbCommand(argv);
    executedCommands.Add(CmdResult(argv, out));
  }

  /** A fresh copy of the intent arguments (everything after element 0) with
      the package substituted; the intent array itself is not touched. */
  method SubstituteInCopy(intent: array<string>, pkg: string) returns (copy: array<string>)
    requires intent.Length >= 1
    ensures fresh(copy)
    ensures copy[..] == Substituted(intent[1..], pkg)
  {
    copy := new string[intent.Length - 1](k reads intent requires 0 <= k < intent.Length - 1 => intent[k + 1]);
    var i := 0;
    while i < copy.Length
      invariant 0 <= i <= copy.Length
      invariant forall k :: 0 <= k < i ==> copy[k] == Replace(intent[k + 1], Placeholder, pkg)
      invariant forall k :: i <= k < copy.Length ==> copy[k] == intent[k + 1]
    {
      copy[i] := Replace(copy[i], Placeholder, pkg);
      i := i + 1;
    }
  }

  /** The pre-report intent loop over the matched packages. */
  method RunIntents(host: Host, executedCommands: CommandHistory, device: Device, intent: array<string>, matched: seq<string>)
    requires intent.Length >= 2
    modifies host`issued, executedCommands
    ensures host.issued == old(host.issued) + IntentCommands(device.serial, Some(intent[1..]), matched)
    ensures executedCommands.items == old(executedCommands.items)
              + Executed(host.respond, IntentCommands(device.serial, Some(intent[1..]), matched))
  {
    ghost var intentArgs := Some(intent[1..]);
    var j := 0;
    while j < |matched|
      invariant 0 <= j <= |matched|
      invariant host.issued == old(host.issued) + IntentCommands(device.serial, intentArgs, matched[..j])
      invariant executedCommands.items == old(executedCommands.items)
                  + Executed(host.respond, IntentCommands(device.serial, intentArgs, matched[..j]))
    {
      var copy := SubstituteInCopy(intent, matched[j]);
      var cmd := ["-s", device.serial, "shell", "am"] + copy[..];
      Record(host, executedCommands, cmd);
      IntentCommandsSnoc(device.serial, intentArgs.value, matched, j);
      ExecutedAppend(host.respond, IntentCommands(device.serial, intentArgs, matched[..j]), [cmd]);
      AppendAssoc(old(host.issued), IntentCommands(device.serial, intentArgs, matched[..j]), [cmd]);
      AppendAssoc(old(executedCommands.items), Executed(host.respond, IntentCommands(device.serial, intentArgs, matched[..j])),
                  Executed(host.respond, [cmd]));
      j := j + 1;
    }
    assert matched[..j] == matched;
  }

  /** The capture sequence, run and recorded command by command. */
  method Capture(host: Host, executedCommands: CommandHistory, serial: string, localScreenshot: string, localLogcat: string)
    modifies host`issued, executedCommands
    ensures host.issued == old(host.issued) + CaptureCommands(serial, localScreenshot, localLogcat)
    ensures executedCommands.items == old(executedCommands.items)
              + Executed(host.respond, CaptureCommands(serial, localScreenshot, localLogcat))
  {
    ghost var plan := CaptureCommands(serial, localScreenshot, localLogcat);
    Record(host, executedCommands, WakeUpCommand(serial));
    Record(host, executedCommands, ["-s", serial, "shell", "screencap", ScreenshotTemp]);
    Record(host, executedCommands, ["-s", serial, "pull", ScreenshotTemp, localScreenshot]);
    Record(host, executedCommands, ["-s", serial, "logcat", "-d", "-f", LogcatTemp]);
    Record(host, executedCommands, ["-s", serial, "pull", LogcatTemp, localLogcat]);
    Record(host, executedCommands, ["-s", serial, "shell", "rm", "-f", ScreenshotTemp]);
    Record(host, executedCommands, ["-s", serial, "shell", "rm", "-f", LogcatTemp]);
    assert host.issued == old(host.issued) + plan;
    assert executedCommands.items == old(executedCommands.items) + Executed(host.respond, plan);
  }

  /** The commands of one report: the intents, then the capture sequence with
      the local artefact paths inside `localFolder`. */
  method Report(host: Host, executedCommands: CommandHistory, device: Device, intent: array?<string>,
                matched: seq<string>, localFolder: string, timestamp: string)
    modifies host`issued, executedCommands
    ensures host.issued == old(host.issued) + ReportPlan(device, IntentArguments(intent), matched, localFolder, timestamp)
    ensures executedCommands.items == old(executedCommands.items)
              + Executed(host.respond, ReportPlan(device, IntentArguments(intent), matched, localFolder, timestamp))
  {
    if intent != null && intent.Length >= 2 {
      RunIntents(host, executedCommands, device, intent, matched);
    }
    ghost var intents := IntentCommands(device.serial, IntentArguments(intent), matched);
    assert host.issued == old(host.issued) + intents;
    assert executedCommands.items == old(executedCommands.items) + Executed(host.respond, intents);

    var localScreenshot := Join(localFolder, ScreenshotName(device.model, timestamp));
    var localLogcat := Join(localFolder, LogcatName(device.model, timestamp));
    Capture(host, executedCommands, device.serial, localScreenshot, localLogcat);
    ghost var capture := CaptureCommands(device.serial, localScreenshot, localLogcat);
    AppendAssoc(old(host.issued), intents, capture);
    ExecutedAppend(host.respond, intents, capture);
    AppendAssoc(old(executedCommands.items), Executed(host.respond, intents), Executed(host.respond, capture));
  }

  /** Creates a bug report for `device`. `matched` is what the package matcher
      returns for the intent's filter (element 0); it is used only when the
      intent has arguments. */
  method Create(host: Host, args: Arguments, executedCommands: CommandHistory, device: Device,
                matched: seq<string>, timestamp: string, disk: Disk)
    returns (outcome: Outcome)
    modifies host`issued, executedCommands
    ensures FolderUnavailable(args.mainArgument, disk) ==>
              && outcome == Fatal("could not create directory " + args.mainArgument.value)
              && host.issued == old(host.issued)
              && executedCommands.items == old(executedCommands.items)
    ensures !FolderUnavailable(args.mainArgument, disk) ==>
              var folder := OutputFolder(args.mainArgument, disk);
              var plan := ReportPlan(device, IntentArguments(args.reportFilterIntent), matched, disk.absolutePath(folder), timestamp);
              && host.issued == old(host.issued) + plan
              && executedCommands.items == old(executedCommands.items) + Executed(host.respond, plan)
              && outcome == (if disk.zipCreated then Completed
                             else Fatal("could not create zip file " + Join(folder, ZipName(device.model, timestamp))))
    ensures args.reportFilterIntent != null ==> args.reportFilterIntent[..] == old(args.reportFilterIntent[..])
  {
    var outFolder: string;
    if args.mainArgument.Some? && args.mainArgument.value != "" {
      outFolder := args.mainArgument.value;
      if !disk.folderExists(outFolder) && !disk.mkdirs(outFolder) {
        return Fatal("could not create directory " + args.mainArgument.value);
      }
    } else {
      outFolder := disk.codeSourceDir;
    }
    Report(host, executedCommands, device, args.reportFilterIntent, matched, disk.absolutePath(outFolder), timestamp);
    var zipFile := Join(outFolder, ZipName(device.model, timestamp));
    if !disk.zipCreated {
      return Fatal("could not create zip file " + zipFile);
    }
    return Completed;
  }

  // ---------------------------------------------------------------------------
  // Lemmas

  lemma ExecutedAppend(respond: Argv -> Option<string>, a: seq<Argv>, b: seq<Argv>)
    ensures Executed(respond, a + b) == Executed(respond, a) + Executed(respond, b)
  {
  }

  lemma IntentCommandsSnoc(serial: string, intentArgs: seq<string>, matched: seq<string>, j: nat)
    requires j < |matched|
    ensures IntentCommands(serial, Some(intentArgs), matched[..j + 1])
            == IntentCommands(serial, Some(intentArgs), matched[..j]) + [IntentCommand(serial, intentArgs, matched[j])]
  {
  }

  /** An intent command is the `am` prefix followed by the intent arguments one
      for one: an argument that is exactly the placeholder becomes the package
      name, an argument without the placeholder is passed through as it is, and
      in any other argument the text before the first placeholder is kept, the
      placeholder becomes the package name and the rest is substituted in turn. */
  lemma IntentCommandShape(serial: string, intentArgs: seq<string>, pkg: string)
    ensures var cmd := IntentCommand(serial, intentArgs, pkg);
            && |cmd| == 4 + |intentArgs|
            && cmd[..4] == ["-s", serial, "shell", "am"]
            && (forall k :: 0 <= k < |intentArgs| && intentArgs[k] == Placeholder ==> cmd[4 + k] == pkg)
            && (forall k :: 0 <= k < |intentArgs| && !Contains(intentArgs[k], Placeholder) ==> cmd[4 + k] == intentArgs[k])
            && (forall k, i :: 0 <= k < |intentArgs| && OccursAt(intentArgs[k], Placeholder, i)
                  && (forall j :: 0 <= j < i ==> !OccursAt(intentArgs[k], Placeholder, j))
                  ==> cmd[4 + k] == intentArgs[k][..i] + pkg + Replace(intentArgs[k][i + |Placeholder|..], Placeholder, pkg))
  {
    var cmd := IntentCommand(serial, intentArgs, pkg);
    forall k | 0 <= k < |intentArgs| && intentArgs[k] == Placeholder
      ensures cmd[4 + k] == pkg
    {
      ReplaceWhole(Placeholder, pkg);
    }
    forall k | 0 <= k < |intentArgs| && !Contains(intentArgs[k], Placeholder)
      ensures cmd[4 + k] == intentArgs[k]
    {
      ReplaceWithoutOccurrence(intentArgs[k], Placeholder, pkg);
    }
    forall k, i | 0 <= k < |intentArgs| && OccursAt(intentArgs[k], Placeholder, i)
                  && (forall j :: 0 <= j < i ==> !OccursAt(intentArgs[k], Placeholder, j))
      ensures cmd[4 + k] == intentArgs[k][..i] + pkg + Replace(intentArgs[k][i + |Placeholder|..], Placeholder, pkg)
    {
      ReplaceFirstOccurrence(intentArgs[k], Placeholder, pkg, i);
    }
  }

  /** A placeholder embedded in an argument, such as `${package}/.MainActivity`
      or `package:${package}`, is replaced and the surrounding text kept, as long
      as no `$` precedes it and no second placeholder follows it. */
  lemma IntentArgumentEmbedded(serial: string, intentArgs: seq<string>, pkg: string, k: nat, before: string, after: string)
    requires k < |intentArgs| && intentArgs[k] == before + Placeholder + after
    requires '$' !in before && !Contains(after, Placeholder)
    ensures IntentCommand(serial, intentArgs, pkg)[4 + k] == before + pkg + after
  {
    var arg := intentArgs[k];
    assert OccursAt(arg, Placeholder, |before|) by {
      assert arg[|before|..|before| + |Placeholder|] == Placeholder;
    }
    forall j | 0 <= j < |before|
      ensures !OccursAt(arg, Placeholder, j)
    {
      assert arg[j] == before[j] && before[j] in before;
      assert j + |Placeholder| <= |arg| ==> arg[j..j + |Placeholder|][0] == arg[j];
    }
    ReplaceFirstOccurrence(arg, Placeholder, pkg, |before|);
    assert arg[..|before|] == before;
    assert arg[|before| + |Placeholder|..] == after;
    ReplaceWithoutOccurrence(after, Placeholder, pkg);
  }

  /** The layout of a report: one intent command per matched package (none
      without intent arguments), then exactly the seven capture commands, the
      pulls writing to the two local artefacts. */
  lemma ReportPlanLayout(device: Device, intentArgs: Option<seq<string>>, matched: seq<string>,
                         localFolder: string, timestamp: string)
    ensures var plan := ReportPlan(device, intentArgs, matched, localFolder, timestamp);
            var n := if intentArgs.Some? then |matched| else 0;
            && |plan| == n + 7
            && (forall j :: 0 <= j < n ==> plan[j] == IntentCommand(device.serial, intentArgs.value, matched[j]))
            && plan[n..] == CaptureCommands(device.serial,
                                            Join(localFolder, ScreenshotName(device.model, timestamp)),
                                            Join(localFolder, LogcatName(device.model, timestamp)))
            && plan[n] == WakeUpCommand(device.serial)
            && plan[n + 2][4] == Join(localFolder, ScreenshotName(device.model, timestamp))
            && plan[n + 4][4] == Join(localFolder, LogcatName(device.model, timestamp))
  {
    var plan := ReportPlan(device, intentArgs, matched, localFolder, timestamp);
    var intents := IntentCommands(device.serial, intentArgs, matched);
    assert plan[|intents|..] == CaptureCommands(device.serial,
                                               Join(localFolder, ScreenshotName(device.model, timestamp)),
                                               Join(localFolder, LogcatName(device.model, timestamp)));
  }

  /** Without intent arguments, a report runs only the capture commands. */
  lemma NoIntentsWithoutArguments(intent: array?<string>, device: Device, matched: seq<string>,
                                  localFolder: string, timestamp: string)
    requires intent == null || intent.Length < 2
    ensures ReportPlan(device, IntentArguments(intent), matched, localFolder, timestamp)
            == CaptureCommands(device.serial,
                               Join(localFolder, ScreenshotName(device.model, timestamp)),
                               Join(localFolder, LogcatName(device.model, timestamp)))
  {
  }

  /** The three artefacts of one report never share a name. */
  lemma ArtefactNamesDistinct(model: string, timestamp: string)
    ensures ScreenshotName(model, timestamp) != LogcatName(model, timestamp)
    ensures ScreenshotName(model, timestamp) != ZipName(model, timestamp)
    ensures LogcatName(model, timestamp) != ZipName(model, timestamp)
  {
    assert ScreenshotName(model, timestamp)[0] == 's';
    assert LogcatName(model, timestamp)[0] == 'l';
    assert ZipName(model, timestamp)[0] == 'b';
  }

  lemma AffixCancel(prefix: string, suffix: string, x: string, y: string)
    ensures prefix + x + suffix == prefix + y + suffix <==> x == y
  {
    if prefix + x + suffix == prefix + y + suffix {
      assert |x| == |y|;
      assert x == (prefix + x + suffix)[|prefix|..|prefix| + |x|];
    }
  }

  /** Each artefact name determines the model-and-timestamp stem and is
      determined by it, so two reports' artefacts agree in one name exactly
      when they agree in all three. */
  lemma ArtefactNamesShareStem(model: string, timestamp: string, model': string, timestamp': string)
    ensures ScreenshotName(model, timestamp) == ScreenshotName(model', timestamp')
            <==> Stem(model, timestamp) == Stem(model', timestamp')
    ensures LogcatName(model, timestamp) == LogcatName(model', timestamp')
            <==> Stem(model, timestamp) == Stem(model', timestamp')
    ensures ZipName(model, timestamp) == ZipName(model', timestamp')
            <==> Stem(model, timestamp) == Stem(model', timestamp')
  {
    AffixCancel("screen-", ".png", Stem(model, timestamp), Stem(model', timestamp'));
    AffixCancel("logcat-", ".txt", Stem(model, timestamp), Stem(model', timestamp'));
    AffixCancel("bugreport-", ".zip", Stem(model, timestamp), Stem(model', timestamp'));
  }
}
