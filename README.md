# uber-adb-tools: package actions and bug reports

This project models two parts of the command-line tool that drives Android
devices through the `adb` bridge:

- **The per-package action dispatcher.** For an ordered list of filtered package names, it does the following for each package:
  - queries the package's `dumpsys` record;
  - unless it is a dry run or a preview, runs the requested action (uninstall, force-stop, clear data, show info, start the launcher activity);
  - counts successes and failures;
  - logs one status line.

  The screen is woken first when apps are started or stopped. A notice is logged when no package matched.
- **The bug-report builder.** It does the following in order:
  - runs an optional pre-report `am` command for every matched package, with `${package}` replaced by the package name in a copy of the arguments;
  - wakes the screen;
  - captures and pulls a screenshot and a logcat dump;
  - removes the temporary files on the device.

  It fails when the output folder cannot be created or when the archive is missing afterwards.

Modules:

- `Commons` holds what both actions share:
  - the device record and the parsed arguments;
  - the `Host` class, with the bridge and the console: every invocation is appended to `issued`, and what the device prints is the fixed function `respond`;
  - the success/failure counters (`ActionResult`);
  - the caller's list of executed commands (`CommandHistory`).
- `Text` models Java's `String.trim` and `String.replace`, plus a sequence filter.
- `PackageDependentAction` holds the dispatcher. `Execute` is proved to issue exactly `CommandPlan(...)`, to log exactly `ConsoleLines(...)`, and to raise the counters by `Successes(...)` and `Failures(...)`. The lemmas then state what those functions promise.
- `BugReport` holds the builder. `Create` is proved to issue and record exactly `ReportPlan(...)`, or to fail before issuing anything. The lemmas describe the plan's layout and the artefact names.

## Model

| member | source | states |
|---|---|---|
| Commons.WakeUpCommand | src/main/java/at/favre/tools/uberadb/actions/PackageDependentAction.java:41 | the wake-up vector has six elements, is addressed to the device's shell, runs `input` and ends in `KEYCODE_WAKEUP` (the same vector opens the bug report, BugReport.java:57) |
| PackageDependentAction.UninstallCommand | src/main/java/at/favre/tools/uberadb/actions/PackageDependentAction.java:110-116 | the uninstall vector is addressed to the device, names the package last and is never a dumpsys query; it carries `-k` exactly when data is kept |
| PackageDependentAction.GetPackageInfo | src/main/java/at/favre/tools/uberadb/actions/PackageDependentAction.java:118-120 | issues exactly the `dumpsys package <pkg>` vector and returns the parser's reading of that vector's output |
| PackageDependentAction.ShortPackageInfo | src/main/java/at/favre/tools/uberadb/actions/PackageDependentAction.java:91-96 | the label is empty exactly when there is no record or no non-empty version name; otherwise it is ` (`, one `v` unless the name already starts with `v`, the name, then `)` |
| PackageDependentAction.ShortPackageInfoSingleV | src/main/java/at/favre/tools/uberadb/actions/PackageDependentAction.java:93 | a version name with and without a leading `v` give the same label, so the `v` is never doubled |
| PackageDependentAction.FullPackageInfo | src/main/java/at/favre/tools/uberadb/actions/PackageDependentAction.java:98-108 | the info block is the "could not read package info" notice if and only if there is no record; for a record it starts with the `versionCode: ` label followed by the version code, ends with the install time and a newline |
| PackageDependentAction.Act | src/main/java/at/favre/tools/uberadb/actions/PackageDependentAction.java:49-72 | outside dry runs and previews, issues the mode's action command (if any), returns the mode's status text and raises the counter the mode and the uninstall classifier select |
| PackageDependentAction.ProcessPackage | src/main/java/at/favre/tools/uberadb/actions/PackageDependentAction.java:45-79 | one package: the dumpsys query and then its action are issued, exactly its status line is logged, and the counters rise by its tally |
| PackageDependentAction.ProcessAll | src/main/java/at/favre/tools/uberadb/actions/PackageDependentAction.java:44-84 | the packages are processed in list order: the issued vectors, the logged lines and the counters grow by those of every package in turn |
| PackageDependentAction.Execute | src/main/java/at/favre/tools/uberadb/actions/PackageDependentAction.java:37-89 | a whole call issues exactly the command plan, logs exactly the console lines, and raises each counter by its specified amount, with nothing else changed |
| PackageDependentAction.CountersBounded | src/main/java/at/favre/tools/uberadb/actions/PackageDependentAction.java:47-78 | the two counters together rise by at most the number of packages; they never fall |
| PackageDependentAction.DryRunCountsNothing | src/main/java/at/favre/tools/uberadb/actions/PackageDependentAction.java:76-77 | a dry run leaves both counters unchanged |
| PackageDependentAction.PreviewCountsEverySuccess | src/main/java/at/favre/tools/uberadb/actions/PackageDependentAction.java:73-75 | a preview that is not a dry run raises the success counter by exactly the number of packages and the failure counter by nothing |
| PackageDependentAction.OtherModesAlwaysSucceed | src/main/java/at/favre/tools/uberadb/actions/PackageDependentAction.java:57-72 | force-stop, clear, info and start-activity raise the success counter by every package and never raise the failure counter |
| PackageDependentAction.UnhandledModeCountsNothing | src/main/java/at/favre/tools/uberadb/actions/PackageDependentAction.java:49-72 | a mode none of the branches handles changes neither counter outside previews |
| PackageDependentAction.UninstallCounts | src/main/java/at/favre/tools/uberadb/actions/PackageDependentAction.java:49-56 | a real uninstall counts every package exactly once; the successes are exactly the packages whose uninstall output the classifier accepts |
| PackageDependentAction.ActionCommandsKinds | src/main/java/at/favre/tools/uberadb/actions/PackageDependentAction.java:47-78 | each package gets at most one action command; it is never a dumpsys query or the wake-up event, and it is an uninstall request exactly in uninstall mode |
| PackageDependentAction.PackageCommandsKinds | src/main/java/at/favre/tools/uberadb/actions/PackageDependentAction.java:44-78 | per package: no wake-up event, exactly one dumpsys query for that package, and one uninstall request exactly when uninstalling for real |
| PackageDependentAction.NoWakeUpPerPackage | src/main/java/at/favre/tools/uberadb/actions/PackageDependentAction.java:44-84 | the loop over the packages never issues the wake-up event |
| PackageDependentAction.PerPackageQueries | src/main/java/at/favre/tools/uberadb/actions/PackageDependentAction.java:44-45 | the dumpsys queries of the loop are one per package, in list order |
| PackageDependentAction.PerPackageUninstalls | src/main/java/at/favre/tools/uberadb/actions/PackageDependentAction.java:47-50 | the loop issues one uninstall request per package in list order when uninstalling for real, and none otherwise |
| PackageDependentAction.WakeUpOnceFirst | src/main/java/at/favre/tools/uberadb/actions/PackageDependentAction.java:40-42 | the wake-up event is issued if and only if the mode is start-activity or force-stop, and then as the first command and never again |
| PackageDependentAction.DumpsysQueriesInOrder | src/main/java/at/favre/tools/uberadb/actions/PackageDependentAction.java:44-45 | a call issues exactly one dumpsys query per package, in list order, whatever the dry-run and preview settings |
| PackageDependentAction.UninstallRequestsIssued | src/main/java/at/favre/tools/uberadb/actions/PackageDependentAction.java:47-50 | a call issues uninstall requests only when uninstalling for real, one per package in list order, with the keep-data choice applied |
| PackageDependentAction.QueriesOnlyWithoutAction | src/main/java/at/favre/tools/uberadb/actions/PackageDependentAction.java:47-48 | in a dry run or a preview the only commands are the optional wake-up and the dumpsys queries: no uninstall, force-stop, clear or launch |
| PackageDependentAction.ConsoleLinesInOrder | src/main/java/at/favre/tools/uberadb/actions/PackageDependentAction.java:79-88 | a call logs one line per package, each starting with a tab and the package name, and adds the "no apps found" notice if and only if the list is empty |
| PackageDependentAction.LogLineStartsWithName | src/main/java/at/favre/tools/uberadb/actions/PackageDependentAction.java:46 | a status line begins with a tab and the package name |
| PackageDependentAction.DryRunLinesSkip | src/main/java/at/favre/tools/uberadb/actions/PackageDependentAction.java:76-77 | in a dry run every package's line is its name and version label followed by `\tskip` |
| Text.TrimStripsBlanks | src/main/java/at/favre/tools/uberadb/actions/PackageDependentAction.java:51 | the trimmed output is a slice of the output that neither starts nor ends with a blank, with only blanks outside it |
| Text.ReplaceWithoutOccurrence | src/main/java/at/favre/tools/uberadb/actions/BugReport.java:38 | replacing the placeholder leaves an argument without an occurrence of it unchanged |
| Text.ReplaceFirstOccurrence | src/main/java/at/favre/tools/uberadb/actions/BugReport.java:38 | `replace` copies the string up to the first occurrence of the target, puts the replacement there, and continues replacing in the rest |
| BugReport.IntentArguments | src/main/java/at/favre/tools/uberadb/actions/BugReport.java:31-36 | the intent arguments exist if and only if the intent array is present with at least two elements, and then they are everything after element 0 (the filter), in order |
| BugReport.SubstituteInCopy | src/main/java/at/favre/tools/uberadb/actions/BugReport.java:36-39 | a freshly allocated copy of the arguments after element 0, each with the placeholder replaced by the package name; the intent array is not written |
| BugReport.Record | src/main/java/at/favre/tools/uberadb/actions/BugReport.java:41-42 | one command is issued and its result appended to the executed-commands list |
| BugReport.RunIntents | src/main/java/at/favre/tools/uberadb/actions/BugReport.java:35-47 | for the matched packages in order, issues and records `-s <serial> shell am` followed by the substituted arguments |
| BugReport.Capture | src/main/java/at/favre/tools/uberadb/actions/BugReport.java:57-66 | issues and records exactly the seven capture commands in their fixed order |
| BugReport.Report | src/main/java/at/favre/tools/uberadb/actions/BugReport.java:31-66 | issues and records the intent commands and then the capture commands, with the local artefacts inside the absolute output folder |
| BugReport.Create | src/main/java/at/favre/tools/uberadb/actions/BugReport.java:16-74 | fails with "could not create directory" before issuing anything when a given folder is missing and cannot be made; otherwise extends the issued and the recorded commands by exactly the report plan, and fails with "could not create zip file" and the archive path when the archive is absent; the intent array is unchanged |
| BugReport.IntentCommandShape | src/main/java/at/favre/tools/uberadb/actions/BugReport.java:36-41 | an intent command is the `am` prefix followed by the arguments one for one; an argument that is the placeholder becomes the package name, one without the placeholder passes through unchanged, and in any other the text before the first placeholder is kept, that placeholder becomes the package name and the rest is substituted in turn |
| BugReport.IntentArgumentEmbedded | src/main/java/at/favre/tools/uberadb/actions/BugReport.java:38 | a placeholder embedded in an argument (such as `${package}/.MainActivity` or `package:${package}`) becomes the package name with the surrounding text kept, when no `$` precedes it and no second placeholder follows |
| BugReport.ReportPlanLayout | src/main/java/at/favre/tools/uberadb/actions/BugReport.java:31-66 | a report runs the number of matched packages (or zero without intent arguments) plus seven commands: first the intent commands one per package, then the seven capture commands beginning with the wake-up event, with the two pulls writing the screenshot and logcat artefacts |
| BugReport.NoIntentsWithoutArguments | src/main/java/at/favre/tools/uberadb/actions/BugReport.java:31 | without an intent array of at least two elements, a report runs only the capture commands |
| BugReport.ArtefactNamesDistinct | src/main/java/at/favre/tools/uberadb/actions/BugReport.java:52-54 | the screenshot, logcat and archive names of one report all differ |
| BugReport.ArtefactNamesShareStem | src/main/java/at/favre/tools/uberadb/actions/BugReport.java:52-54 | each artefact name equals another report's name of the same kind if and only if the two model-and-timestamp stems are equal, so the three kinds of name agree on the stem |

## Left out

- Subprocess execution. Running the `adb` executable and the command provider are foreign calls. A run appends its argument vector to `Host.issued` and returns `respond(argv)`, a fixed function of the vector. So two identical vectors give identical output, and timing and failures of the bridge are not modelled.
- The matchers and parsers. Package matching, the dumpsys parser and the uninstall-output classifier are not part of this model:
  - the filtered list and the bug report's matched packages are inputs;
  - the parser and the classifier are uninterpreted function parameters.
- Matched-package order. For the bug report, the order of the matcher's set is taken to be the order of the `matched` sequence.
- Waits. The start-activity delay after each package and the 100 ms pause after each intent are timing only, so they are not modelled.
- File-system work. Folder existence, directory creation and whether the archive exists after zipping are answers read from `Disk`. `Disk` also supplies the absolute path and the tool's own code-source location. The zipping itself and the deletion of the two local copies are not modelled.
- Path joining. Joining a folder and a file name is `folder + "/" + name`, without Java's path normalisation.
- The timestamp. Its date formatting is not modelled; it is a string parameter.
- Bug-report console output. This covers the `logLoud` heading, the per-intent status line, the two progress lines, and the floating-point kilobyte lines. Only the commands are modelled.
- Console suppression. Whether the arguments silence logging is not modelled: the dispatcher's `console` records every line it would log.
- Info-mode numbers. The version code and install time of the info block are kept as text, because the types of the parser's record are not part of this model.
- Counters. `Commons.ActionResult` stores them as unbounded naturals, so Java `int` overflow is not modelled.
- Modes. The tool's argument class is not part of this model. `Mode.BugReport` stands for every mode the dispatcher has no branch for.
- `trim` and `replace`. They follow Java's definitions: `trim` strips characters at or below U+0020, and `replace` substitutes left to right without overlap. The placeholder is never empty, so the empty-target case of `replace` is not modelled.
