# IntelliJ platform glue: stash parsing, console prompts, VCS log UI, compare action, push tag modes, build-task triggers

This project models in Dafny six small pieces of sequential logic from the
IntelliJ platform and its Git and Python plugins, and proves what each of
them promises.

- **Git stash handling** (`GitStash`, from `GitStashUtils.kt`).
  `loadStashStack` turns the lines of `git stash list` into `StashInfo`
  records. It splits each line on `:` at most twice, drops lines with no
  colon, and trims the branch and the message but not the stash reference.
  `unstash` runs the command root after root. For each root it refreshes the
  files and then checks, in a fixed order, for a merge conflict, overwritten
  untracked files, overwritten local changes, and a failed command. The loop
  stops at the first root that fails; a conflict resolved in the merge dialog
  lets it go on.
- **Python console prompts** (`PyConsole`, from `PyConsoleProcessHandler.java`).
  `processPrompts` finds the first of the three prompts that the output
  starts with. It cuts off every leading copy of the ordinary and indent
  prompts, or one copy of the help prompt, and sets the console's prompt to
  the trimmed prompt (for the indent prompt, all of its copies together).
  `notifyTextAvailable` converts line separators first and forwards what is
  left. `getCharset` falls back to the inherited charset.
- **VCS log main UI** (`VcsLogContent`, from `VcsLogContentProvider.java`).
  The provider holds at most one main log UI and at most one waiting
  consumer. "Log created" creates a UI if there is none and hands it to the
  waiting consumer, which then runs exactly once. "Log disposed" and
  `disposeContent` dispose the UI once. `executeOnMainUiCreated` runs its
  consumer now, or stores it in place of any earlier one.
- **Compare revisions from folder history** (`CompareRevisions`, from
  `CompareRevisionsFromFolderHistoryActionProvider.kt`). The action is
  active in the history of a directory. `update` decides visibility,
  enablement, text and description from the available data, whether a key
  press fired the action, the number of selected commits and whether a diff
  handler exists. `actionPerformed` diffs the second selected commit (the
  base) against the first (the target).
- **Push tag modes** (`PushTagMode`, from `GitPushTagMode.kt`). A mode has a
  mutable title and argument. `ALL` is ("All", "--tags"), `FOLLOW` is
  ("Current Branch", "--follow-tags"), and `values` lists them in that
  order. The no-argument constructor copies `ALL`.
- **Before/after build task triggers** (`TaskActivation`, from
  `ExternalSystemTaskActivatorTest.java`). Trigger entries
  `(systemId, phase, projectPath, taskName)` are registered in the
  activator. The test's task manager appends the comma-joined names of every
  task run to a trace, with a comma before them only when the trace is not
  empty. A build runs the before-compile and then the after-compile entries,
  and a rebuild runs only the rebuild phases, each phase in registration
  order.

`Text` holds what the modules share:
- optional values;
- `startsWith`;
- trimming with a chosen notion of blank character.

Kotlin's `trim()` removes `Char.isWhitespace` characters (`IsKotlinWhitespace`).
Java's `String.trim()` removes every character up to U+0020 (`IsJavaTrimmable`).
They are different functions, and each module uses the one its language
calls.

Objects whose fields the source updates in place are classes with
`modifies` clauses:
- the content provider;
- the presentation;
- the console and its process handler;
- the push tag mode;
- the activator registry;
- the trace buffer.

Parsing, the unstash outcome order and the dispatch order are stated as
functions, and the methods are proved equal to them.

## Model

| member | source | states |
|---|---|---|
| Text.Trim | plugins/git4idea/src/git4idea/stash/GitStashUtils.kt:114 | the result is a slice of the input with only blank characters outside it, and it neither starts nor ends with a blank character |
| GitStash.Split | plugins/git4idea/src/git4idea/stash/GitStashUtils.kt:109 | `split(':', limit = 3)` gives 1 to 3 parts, and no part before the last contains the separator |
| GitStash.SplitJoin | plugins/git4idea/src/git4idea/stash/GitStashUtils.kt:109 | putting the separators back between the parts gives the line again, so the message part keeps any further colons |
| GitStash.ParseStashLine | plugins/git4idea/src/git4idea/stash/GitStashUtils.kt:109-118 | a record's stash reference is exactly the untrimmed text before the line's first colon, and the record has no branch exactly when no second colon follows |
| GitStash.ParseStashLineDefined | plugins/git4idea/src/git4idea/stash/GitStashUtils.kt:110-117 | a line gives a record exactly when it contains a colon; a line without one is skipped |
| GitStash.ParseOneColon | plugins/git4idea/src/git4idea/stash/GitStashUtils.kt:113-114 | with one colon the record has the untrimmed head as reference, no branch, and the trimmed rest as message |
| GitStash.ParseTwoColons | plugins/git4idea/src/git4idea/stash/GitStashUtils.kt:116-117 | with two or more colons the branch is the trimmed text between the first two, and the message is the trimmed rest, colons included; the reference stays untrimmed |
| GitStash.ParseStashListLength | plugins/git4idea/src/git4idea/stash/GitStashUtils.kt:107-120 | the number of records equals the number of lines containing a colon |
| GitStash.ParseStashListAppend | plugins/git4idea/src/git4idea/stash/GitStashUtils.kt:107-120 | records follow line order: parsing two blocks of lines gives the records of the first, then those of the second |
| GitStash.LoadStashStack | plugins/git4idea/src/git4idea/stash/GitStashUtils.kt:96-121 | a failed command yields its error and parses no line; otherwise the loop's list equals the parse of every output line in order |
| GitStash.ForEachStash | plugins/git4idea/src/git4idea/stash/GitStashUtils.kt:89-94 | the consumer sees exactly the loaded records, in order, and nothing when loading fails |
| GitStash.CheckRoot | plugins/git4idea/src/git4idea/stash/GitStashUtils.kt:69-84 | the outcome of a root follows the fixed priority: conflict, then untracked files, then local changes, then command failure, then success |
| GitStash.UnstashStep | plugins/git4idea/src/git4idea/stash/GitStashUtils.kt:56-84 | one root runs the command, refreshes, then reacts to the first matching check; the loop goes on only after success or a resolved conflict |
| GitStash.Unstash | plugins/git4idea/src/git4idea/stash/GitStashUtils.kt:50-87 | the loop's effects equal the roots' effects in order, up to and including the first root that stops it |
| GitStash.UnstashStopsAfterReached | plugins/git4idea/src/git4idea/stash/GitStashUtils.kt:55-84 | the effects are exactly the full effects of the reached roots; no later root is touched |
| GitStash.ReachedRootsRefreshed | plugins/git4idea/src/git4idea/stash/GitStashUtils.kt:65-67 | every reached root is refreshed, whatever its outcome |
| GitStash.StopIgnoresLaterRoots | plugins/git4idea/src/git4idea/stash/GitStashUtils.kt:71-83 | after a root that stops the loop, removing all later roots changes nothing |
| GitStash.UnstashRoot | plugins/git4idea/src/git4idea/stash/GitStashUtils.kt:40-42 | the single-root overload equals the list version on that one root |
| PyConsole.FirstPrompt | python/src/com/jetbrains/python/console/PyConsoleProcessHandler.java:46-47 | the chosen prompt is one the text starts with, and no earlier prompt in ORDINARY, INDENT, HELP order matches |
| PyConsole.StartsWithRepeat | python/src/com/jetbrains/python/console/PyConsoleProcessHandler.java:52-54 | the text starts with n copies of a non-empty prompt exactly when n is at most its number of leading copies |
| PyConsole.StripPrompts | python/src/com/jetbrains/python/console/PyConsoleProcessHandler.java:44-74 | no matching prompt leaves the text as is; the help prompt loses one copy; the other prompts lose all n >= 1 leading copies, and the rest no longer starts with the prompt; the result is a suffix of the text; the console prompt is the trimmed prompt, or for the indent prompt the trimmed n copies |
| PyConsole.ConsoleProcessHandler.MultiPrompt | python/src/com/jetbrains/python/console/PyConsoleProcessHandler.java:50-55 | the builder loop ends, and its result is every leading copy of the prompt: the text starts with it but not with one more copy |
| PyConsole.ConsoleProcessHandler.ProcessPrompts | python/src/com/jetbrains/python/console/PyConsoleProcessHandler.java:44-74 | returns the stripped text; without a match the console is untouched; otherwise the console shows the trimmed prompt, and `setPrompt` is called only when that differs from the current prompt |
| PyConsole.ConsoleProcessHandler.GetCharset | python/src/com/jetbrains/python/console/PyConsoleProcessHandler.java:33-36 | the configured charset when there is one, otherwise the inherited one |
| PyConsole.ConsoleProcessHandler.ProcessTwice | python/src/com/jetbrains/python/console/PyConsoleProcessHandler.java:65-69 | processing the same chunk twice returns the same stripped text both times and changes the console as processing it once does: `setPrompt` is called at most once |
| PyConsole.ConsoleProcessHandler.NotifyTextAvailable | python/src/com/jetbrains/python/console/PyConsoleProcessHandler.java:38-42 | line separators are converted before prompts are stripped; what is forwarded is the stripped text with its attributes; the console is left as `processPrompts` leaves it for the converted text |
| PyConsole.ConsoleProcessHandler.constructor | python/src/com/jetbrains/python/console/PyConsoleProcessHandler.java:17-31 | keeps the console and charset, with the prompts in ORDINARY, INDENT, HELP order |
| VcsLogContent.ContentProvider.constructor | platform/vcs-log/impl/src/com/intellij/vcs/log/impl/VcsLogContentProvider.java:51-70 | a UI is created at once exactly when the log manager already exists |
| VcsLogContent.ContentProvider.GetUi | platform/vcs-log/impl/src/com/intellij/vcs/log/impl/VcsLogContentProvider.java:93-96 | the current UI, which is never one that has been disposed |
| VcsLogContent.ContentProvider.AddMainUi | platform/vcs-log/impl/src/com/intellij/vcs/log/impl/VcsLogContentProvider.java:98-110 | with a UI nothing changes; otherwise a new UI is created, the waiting consumer runs with it exactly once, and the consumer is cleared |
| VcsLogContent.ContentProvider.DisposeMainUi | platform/vcs-log/impl/src/com/intellij/vcs/log/impl/VcsLogContentProvider.java:117-129 | clears the waiting consumer and the UI, and disposes the old UI exactly once if there was one |
| VcsLogContent.ContentProvider.ExecuteOnMainUiCreated | platform/vcs-log/impl/src/com/intellij/vcs/log/impl/VcsLogContentProvider.java:137-153 | with a UI the consumer runs now and nothing is stored; without one it replaces any consumer stored before |
| VcsLogContent.ContentProvider.LogCreated | platform/vcs-log/impl/src/com/intellij/vcs/log/impl/VcsLogContentProvider.java:56-59 | the "log created" event behaves as `addMainUi` |
| VcsLogContent.ContentProvider.LogDisposed | platform/vcs-log/impl/src/com/intellij/vcs/log/impl/VcsLogContentProvider.java:61-64 | the "log disposed" event behaves as `disposeMainUi` |
| VcsLogContent.ContentProvider.DisposeContent | platform/vcs-log/impl/src/com/intellij/vcs/log/impl/VcsLogContentProvider.java:155-158 | `disposeContent` behaves as `disposeMainUi` |
| VcsLogContent.OnlyLastDeferredConsumerRuns | platform/vcs-log/impl/src/com/intellij/vcs/log/impl/VcsLogContentProvider.java:137-149 | of two consumers registered before the log exists, only the second runs, once, with the first UI, even after a second "log created" |
| VcsLogContent.ConsumerRunsAtOnceWhenUiExists | platform/vcs-log/impl/src/com/intellij/vcs/log/impl/VcsLogContentProvider.java:67-70 | with a log manager present at construction, a consumer runs at once and none is left waiting |
| VcsLogContent.RecreateAfterDispose | platform/vcs-log/impl/src/com/intellij/vcs/log/impl/VcsLogContentProvider.java:99-128 | a second "log created" keeps the UI; disposing twice disposes it once; the next "log created" makes a fresh UI |
| CompareRevisions.IsActive | platform/vcs-log/impl/src/com/intellij/vcs/log/ui/actions/history/CompareRevisionsFromFolderHistoryActionProvider.kt:28-32 | active exactly when a file-history UI is present and the path is a directory |
| CompareRevisions.UpdatedState | platform/vcs-log/impl/src/com/intellij/vcs/log/ui/actions/history/CompareRevisionsFromFolderHistoryActionProvider.kt:34-60 | missing data makes the action invisible and disabled; text and description are "Compare" for two or more commits and "Show Diff" otherwise; a key event makes it visible and enabled; with two or more commits, visible and enabled both equal whether a diff handler exists; with fewer, it is visible and enabled iff a commit is selected |
| CompareRevisions.UpdateActionText | platform/vcs-log/impl/src/com/intellij/vcs/log/ui/actions/history/CompareRevisionsFromFolderHistoryActionProvider.kt:93-103 | the compare text and description for two or more commits, the diff text and description otherwise; visibility and enablement unchanged |
| CompareRevisions.Update | platform/vcs-log/impl/src/com/intellij/vcs/log/ui/actions/history/CompareRevisionsFromFolderHistoryActionProvider.kt:34-60 | the presentation after the sequence of assignments and early returns is the decision table above |
| CompareRevisions.ActionPerformed | platform/vcs-log/impl/src/com/intellij/vcs/log/ui/actions/history/CompareRevisionsFromFolderHistoryActionProvider.kt:62-85 | a missing project, log, log data or path, or a missing diff handler with two or more commits, fails the required lookup and nothing else happens; otherwise, with two or more commits, a diff of the same path with the second selected commit as base and the first as target, in the base's root; with exactly one, the changes of that commit |
| CompareRevisions.KeyPressEnablesWithoutHandler | platform/vcs-log/impl/src/com/intellij/vcs/log/ui/actions/history/CompareRevisionsFromFolderHistoryActionProvider.kt:48-50 | on a key press with the data present, two or more commits and no diff handler, `update` makes the action visible and enabled, and `actionPerformed` then fails its required lookup of the diff handler |
| CompareRevisions.EnabledWithoutKeyPressSucceeds | platform/vcs-log/impl/src/com/intellij/vcs/log/ui/actions/history/CompareRevisionsFromFolderHistoryActionProvider.kt:34-72 | outside a key press, an action `update` enabled finds all its required data and opens a diff or a changes dialog |
| PushTagMode.GitPushTagMode.constructor | plugins/git4idea/src/git4idea/push/GitPushTagMode.kt:13-17 | stores exactly the given title and argument |
| PushTagMode.GitPushTagMode.CopyOfAll | plugins/git4idea/src/git4idea/push/GitPushTagMode.kt:10-11 | the no-argument constructor copies the title and argument of `ALL` |
| PushTagMode.TagModes.constructor | plugins/git4idea/src/git4idea/push/GitPushTagMode.kt:19-27 | `ALL` is ("All", "--tags"), `FOLLOW` is ("Current Branch", "--follow-tags"), two distinct objects, and `values` is `[ALL, FOLLOW]` |
| PushTagMode.DefaultModeIsAll | plugins/git4idea/src/git4idea/push/GitPushTagMode.kt:11-26 | a default mode has title "All" and argument "--tags"; `values` gives titles "All", "Current Branch" and arguments "--tags", "--follow-tags" in that order |
| TaskActivation.JoinAppend | platform/external-system-impl/testSrc/com/intellij/openapi/externalSystem/service/project/manage/ExternalSystemTaskActivatorTest.java:180 | joining two non-empty lists with "," is joining each and putting a comma between them |
| TaskActivation.AppendedTwice | platform/external-system-impl/testSrc/com/intellij/openapi/externalSystem/service/project/manage/ExternalSystemTaskActivatorTest.java:176-180 | two `executeTasks` calls with non-empty lists leave the trace one call with both lists would, whenever the trace is not empty after the first call |
| TaskActivation.TestTaskManager.ExecuteTasks | platform/external-system-impl/testSrc/com/intellij/openapi/externalSystem/service/project/manage/ExternalSystemTaskActivatorTest.java:170-181 | a comma is appended only when the trace is not empty, then the names joined by "," in list order |
| TaskActivation.TestTaskManager.CancelTask | platform/external-system-impl/testSrc/com/intellij/openapi/externalSystem/service/project/manage/ExternalSystemTaskActivatorTest.java:183-187 | a test task is never cancelled |
| TaskActivation.ResolverCancelTask | platform/external-system-impl/testSrc/com/intellij/openapi/externalSystem/service/project/manage/ExternalSystemTaskActivatorTest.java:161-164 | project resolution is never cancelled |
| TaskActivation.TaskActivator.AddTask | platform/external-system-impl/testSrc/com/intellij/openapi/externalSystem/service/project/manage/ExternalSystemTaskActivatorTest.java:100 | the entry is appended to the registry |
| TaskActivation.AddTaskTrigger | platform/external-system-impl/testSrc/com/intellij/openapi/externalSystem/service/project/manage/ExternalSystemTaskActivatorTest.java:97-101 | registers the entry (test system id, phase, the module's project path, task name) |
| TaskActivation.TasksFor | platform/external-system-impl/testSrc/com/intellij/openapi/externalSystem/service/project/manage/ExternalSystemTaskActivatorTest.java:81-88 | the names selected for a phase come from entries of that phase, and there are none exactly when no entry has that phase |
| TaskActivation.TasksForAppend | platform/external-system-impl/testSrc/com/intellij/openapi/externalSystem/service/project/manage/ExternalSystemTaskActivatorTest.java:81-88 | the names of a phase keep registration order across registrations |
| TaskActivation.DispatchedJoins | platform/external-system-impl/testSrc/com/intellij/openapi/externalSystem/service/project/manage/ExternalSystemTaskActivatorTest.java:89-90 | dispatching phase by phase leaves the trace one run of all their names would, or untouched when there are none |
| TaskActivation.DispatchedFromEmpty | platform/external-system-impl/testSrc/com/intellij/openapi/externalSystem/service/project/manage/ExternalSystemTaskActivatorTest.java:89-90 | from an empty trace, the trace is every phase's names joined by ",", phase after phase, each in registration order |
| TaskActivation.DispatchIgnoresOtherPhases | platform/external-system-impl/testSrc/com/intellij/openapi/externalSystem/service/project/manage/ExternalSystemTaskActivatorTest.java:85-90 | entries of phases that are not dispatched change nothing, wherever they were registered: a build never runs rebuild entries |
| TaskActivation.DispatchedFromEmptyBeside | platform/external-system-impl/testSrc/com/intellij/openapi/externalSystem/service/project/manage/ExternalSystemTaskActivatorTest.java:81-94 | from an empty trace, entries of other phases before or after the dispatched ones leave the trace the dispatched ones give |
| TaskActivation.TaskActivator.RunPhases | platform/external-system-impl/testSrc/com/intellij/openapi/externalSystem/service/project/manage/ExternalSystemTaskActivatorTest.java:89-94 | the phases are dispatched in order and each phase with entries hands its names to `executeTasks` |
| TaskActivation.TaskActivator.Build | platform/external-system-impl/testSrc/com/intellij/openapi/externalSystem/service/project/manage/ExternalSystemTaskActivatorTest.java:103-112 | a build dispatches the before-compile phase, then the after-compile phase |
| TaskActivation.TaskActivator.Rebuild | platform/external-system-impl/testSrc/com/intellij/openapi/externalSystem/service/project/manage/ExternalSystemTaskActivatorTest.java:114-123 | a rebuild dispatches the before-rebuild phase, then the after-rebuild phase |
| TaskActivation.TaskTrace.Clear | platform/external-system-impl/testSrc/com/intellij/openapi/externalSystem/service/project/manage/ExternalSystemTaskActivatorTest.java:92 | `setLength(0)` empties the trace |
| TaskActivation.TestBuildTrace | platform/external-system-impl/testSrc/com/intellij/openapi/externalSystem/service/project/manage/ExternalSystemTaskActivatorTest.java:81-90 | a build over the test's eight entries traces "beforeBuildTask1,beforeBuildTask2,afterBuildTask1,afterBuildTask2" |
| TaskActivation.TestRebuildTrace | platform/external-system-impl/testSrc/com/intellij/openapi/externalSystem/service/project/manage/ExternalSystemTaskActivatorTest.java:85-94 | a rebuild over the same entries traces "beforeReBuildTask1,beforeReBuildTask2,afterReBuildTask1,afterReBuildTask2" |
| TaskActivation.BeforeAfterBuildTasks | platform/external-system-impl/testSrc/com/intellij/openapi/externalSystem/service/project/manage/ExternalSystemTaskActivatorTest.java:78-95 | registering the eight triggers, building, clearing and rebuilding yields exactly the two traces the test asserts |

## Left out

- Running git is not modelled: `Git.runCommand`, the line handlers, and how the three output detectors recognise their messages. Each root's detector flags, command status and merge-dialog answer are an input (`RootRun`), and `git stash list` output is an input (`GitCommandResult`).
- Also not modelled for Git: the VFS refresh, the notifications and the merge dialog. They appear only as recorded effects.
- The charset lookup from git config is not modelled.
- `DvcsUtil.workingTreeChangeStarted` is not modelled.
- The error log of an unparsable stash line is not modelled; the line is simply skipped.
- `StringUtil.convertLineSeparators` is a function parameter of `NotifyTextAvailable`.
- `PyConsoleHighlightingUtil.processOutput` is recorded as the list of forwarded chunks.
- The three prompt constants live in `PyConsoleHighlightingUtil`, which is not part of this model. They are constructor parameters, required to be non-empty, and the reference comparisons with the help and indent prompts become comparisons of prompt positions.
- `LanguageConsoleImpl` is not part of this model. The console is a stored prompt: `setPrompt` stores its argument and `getPrompt` returns the last value stored; `promptChanges` records the `setPrompt` calls.
- `PyConsole.ConsoleProcessHandler.GetCharset`: the inherited `super.getCharset()` is a parameter, because the base process handler is not part of this model.
- The Swing container, `DataManager` registration, message-bus subscription, the `Registry` flag and opening the graph file in an editor are not modelled.
- `getInstance` (extension-point lookup) and `VcsLogVisibilityPredicate` (VCS root discovery) are not modelled.
- `initContent`'s background log creation is not modelled; its completion is the "log created" event.
- UIs are numbered in creation order, and consumers are identified by number.
- `volatile` on `myUi` is not modelled: every mutator asserts the UI thread, so the operations are sequential.
- Asynchronous commit-detail loading, the diff and changes dialogs, usage statistics and the balloon notification of the compare action are not modelled.
- `CompareRevisions.ActionPerformed`: for a single commit it records which commit and path the changes dialog is for, not the change collection. With no selected commit it yields `NoCommitDetails`; the source would hand an empty list to the loader, whose callback requires a first element. A failed required lookup is the outcome `RequiredDataMissing`; the exception it raises in the platform is not modelled.
- `BaseState` persistence behind the `by string()` properties of the push tag mode is not modelled.
- The activator test's semaphore wait, extension masking, project linking, project resolver data and `Registry` key are not modelled.
- `ExternalSystemTaskActivator` itself is not part of this model. Its dispatch is modelled as the test asserts it: phases in order, entries in registration order, and a phase without entries not dispatched. The model filters by phase only; grouping by system id and project path is left out, because the test registers every entry for one system and one path. Failure and abort handling are left out.
- `TaskActivation.DispatchedJoins` requires task names to be non-empty: an empty first name leaves an empty trace, and the next run would then not put a comma before its names.
