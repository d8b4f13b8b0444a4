/** The collaborators that both actions share: the device record, the parsed
    command-line arguments, the command runner (the device bridge seen from the
    tool, plus the console) and the running success/failure counters. */
module Commons {

  datatype Option<+T> = None | Some(value: T)

  /** One argument vector handed to the device-bridge executable. */
  type Argv = seq<string>

  /** A connected device: its serial and its model name. */
  datatype Device = Device(serial: string, model: string)

  /** The commands the tool can run; the package actions handle the first five. */
  datatype Mode = Uninstall | ForceStop | Clear | Info | StartActivity | BugReport

  /** The parsed command line, as far as the two actions read it. The pre-report
      intent is an array, as in the tool: element 0 is a package filter, the rest
      is the `am` command to run for each matched package. */
  datatype Arguments = Arguments(
    mainArgument: Option<string>,
    mode: Mode,
    dryRun: bool,
    keepData: bool,
    reportFilterIntent: array?<string>)

  /** What one bridge invocation gave back, together with the vector that caused it. */
  datatype CmdResult = CmdResult(args: Argv, out: Option<string>)

  /** The screen wake-up key event; both actions send it. */
  function WakeUpCommand(serial: string): (r: Argv)
    ensures |r| == 6 && r[..3] == ["-s", serial, "shell"] && r[3] == "input" && r[5] == "KEYCODE_WAKEUP"
  {
    ["-s", serial, "shell", "input", "keyevent", "KEYCODE_WAKEUP"]
  }

  /** The tool's side of the device bridge. Every invocation is appended to
      `issued`; what the device prints back is the fixed oracle `respond`
      (no output at all is `None`). Console lines are appended to `console`. */
  class Host {
    const respond: Argv -> Option<string>
    var issued: seq<Argv>
    var console: seq<string>

    constructor (respond: Argv -> Option<string>)
      ensures this.respond == respond && issued == [] && console == []
    {
      this.respond := respond;
      issued := [];
      console := [];
    }

    method RunAdbCommand(argv: Argv) returns (out: Option<string>)
      modifies this`issued
      ensures issued == old(issued) + [argv]
      ensures out == respond(argv)
    {
      issued := issued + [argv];
      out := respond(argv);
    }

    method Log(line: string)
      modifies this`console
      ensures console == old(console) + [line]
    {
      console := console + [line];
    }
  }

  /** The two counters one invocation accumulates over all devices. */
  class ActionResult {
    var successCount: nat
    var failureCount: nat

    constructor ()
      ensures successCount == 0 && failureCount == 0
    {
      successCount := 0;
      failureCount := 0;
    }
  }

  /** The caller's list of executed commands (the bug report appends to it). */
  class CommandHistory {
    var items: seq<CmdResult>

    constructor ()
      ensures items == []
    {
      items := [];
    }

    method Add(r: CmdResult)
      modifies this
      ensures items == old(items) + [r]
    {
      items := items + [r];
    }
  }
}
