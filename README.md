# Silent cleanup on save, modelled in Dafny

A Visual Studio package that runs ReSharper's silent code-cleanup command
whenever a document is saved. The package object keeps two flags driven by
IDE events (a build is running; the solution is closing), caches the cleanup
command found at initialisation, and on every save decides, by a six-way
guard, whether to run the command. When it does, it remembers the active
document, activates the saved one, runs the command by name and re-activates
the remembered one; any exception is caught.

The model has five modules:

- `Wrappers` — `Option`, standing for C# references that may be null.
- `Host` — the IDE objects the package uses: documents (read-only flag, full
  path, optional containing project), commands (a name and a live
  availability flag), event sources (how often each of the package's handlers
  is subscribed), and the IDE object with its active document and a log of
  the calls the package makes into it.
- `SaveFilter` — the guard as pure functions: ASCII lower-casing, the
  extension of a path, the 12-entry allow-list, the miscellaneous-document
  test and the skip predicate. The skip predicate's contract states the six
  conditions one by one; lemmas show the extension test to be a
  case-insensitive suffix test.
- `CommandLookup` — the first command, in the IDE's order, with one of the two
  known names.
- `CleanupPackage` — the `Package` class: initialisation, the build and
  closing handlers, the save handler and `Dispose`.

Host failures are a parameter: `OnDocumentSaved` takes `fault`, the IDE call
that throws (reading the active document, activating the saved document,
running the command, re-activating the remembered one). The contract states
the calls made for every choice, so that a failure cuts the sequence short and
never propagates.

Two behaviours of the code are kept as written:

- When no document was active before the save, the remembered document is
  null. Re-activating it throws, and the exception is caught, so the focus
  stays on the saved document.
- `Dispose` subscribes both build handlers a second time (`+=`) instead of
  detaching them. Initialisation followed by disposal leaves each build handler
  with two more subscriptions than before.

## Model

| member | source | states |
|---|---|---|
| `SaveFilter.ToLower` | ReSharper_SilentCleanupOnSave/ReSharper_SilentCleanupOnSavePackage.cs:170 | lower-casing keeps the length and lower-cases each ASCII letter in place, leaving every other character alone |
| `SaveFilter.LastDot` | ReSharper_SilentCleanupOnSave/ReSharper_SilentCleanupOnSavePackage.cs:170 | the backward scan returns the last '.' not followed by a separator, or None exactly when every '.' has a separator after it |
| `SaveFilter.Extension` | ReSharper_SilentCleanupOnSave/ReSharper_SilentCleanupOnSavePackage.cs:170 | a non-empty extension is a suffix of the path: a '.' and at least one more character, with no '.' or separator after the dot; it is empty exactly when the path ends in '.' or no '.' lies in the file name |
| `SaveFilter.IsMiscDoc` | ReSharper_SilentCleanupOnSave/ReSharper_SilentCleanupOnSavePackage.cs:162 | a document is miscellaneous exactly when it has no containing project or the project is named "Miscellaneous Files" |
| `SaveFilter.AllowedExtensionsAreLowerCaseWords` | ReSharper_SilentCleanupOnSave/ReSharper_SilentCleanupOnSavePackage.cs:48-49 | each of the 12 allowed extensions is a '.' followed by one or more lower-case letters |
| `SaveFilter.ExtensionIsLowerSuffix` | ReSharper_SilentCleanupOnSave/ReSharper_SilentCleanupOnSavePackage.cs:170 | the lower-cased path ends with the lower-cased extension |
| `SaveFilter.LastDotFinds` | ReSharper_SilentCleanupOnSave/ReSharper_SilentCleanupOnSavePackage.cs:170 | the scan stops at a '.' that only ordinary characters follow |
| `SaveFilter.LowerWordSuffixIsExtension` | ReSharper_SilentCleanupOnSave/ReSharper_SilentCleanupOnSavePackage.cs:170 | if the lower-cased path ends with a '.' and lower-case letters, that suffix is the lower-cased extension |
| `SaveFilter.LowerWordSuffixIsName` | ReSharper_SilentCleanupOnSave/ReSharper_SilentCleanupOnSavePackage.cs:170 | if the lower-cased path ends with a '.' and lower-case letters, the path itself ends there with a '.' followed by characters that are neither '.' nor a separator |
| `SaveFilter.DotBeforeNameIsExtension` | ReSharper_SilentCleanupOnSave/ReSharper_SilentCleanupOnSavePackage.cs:170 | a '.' followed by one or more characters, none a '.' or a separator, starts the extension, which runs to the end of the path |
| `SaveFilter.AllowedExtensionIffSuffix` | ReSharper_SilentCleanupOnSave/ReSharper_SilentCleanupOnSavePackage.cs:170 | the lower-cased extension is in the allow-list if and only if the lower-cased path ends with one of the allowed extensions |
| `SaveFilter.IsAllowedExtension` | ReSharper_SilentCleanupOnSave/ReSharper_SilentCleanupOnSavePackage.cs:170 | the extension test of the guard: a path passes exactly when its lower-cased form ends with one of the 12 allowed extensions |
| `SaveFilter.ExtensionTestIgnoresCase` | ReSharper_SilentCleanupOnSave/ReSharper_SilentCleanupOnSavePackage.cs:170 | two paths that differ only in ASCII case pass or fail the extension test together |
| `SaveFilter.ExtensionlessPathRejected` | ReSharper_SilentCleanupOnSave/ReSharper_SilentCleanupOnSavePackage.cs:170 | a path whose file name has no '.', or that ends with '.', never passes the extension test |
| `SaveFilter.SkipsCleanup` | ReSharper_SilentCleanupOnSave/ReSharper_SilentCleanupOnSavePackage.cs:164-171 | the guard: the save is handled (not skipped) if and only if all six hold: solution not closing, no build, command present and available, document writable, document in a real project, lower-cased path ending in an allowed extension |
| `SaveFilter.ClosingOrMissingCommandSkips` | ReSharper_SilentCleanupOnSave/ReSharper_SilentCleanupOnSavePackage.cs:165-167 | while the solution is closing, or when no command was found, every save is skipped |
| `CommandLookup.FindCleanupCommand` | ReSharper_SilentCleanupOnSave/ReSharper_SilentCleanupOnSavePackage.cs:140 | the result is null exactly when no command has a known name; otherwise it is a command with a known name, and no command before it in the IDE's order has one |
| `Host.ActiveAfter` | ReSharper_SilentCleanupOnSave/ReSharper_SilentCleanupOnSavePackage.cs:173-179 | the active document after a run of IDE calls is the one last activated, or the starting one when none was activated |
| `Host.EventSource.Subscribe` | ReSharper_SilentCleanupOnSave/ReSharper_SilentCleanupOnSavePackage.cs:131 | `+=` adds exactly one subscription of the handler |
| `Host.EventSource.Unsubscribe` | ReSharper_SilentCleanupOnSave/ReSharper_SilentCleanupOnSavePackage.cs:88 | `-=` removes one subscription of the handler, and does nothing when it is not subscribed |
| `Host.SubscriptionCount` | ReSharper_SilentCleanupOnSave/ReSharper_SilentCleanupOnSavePackage.cs:86-90 | one `+=` raises the handler's subscription count by one; one `-=` lowers it by one, or leaves it at zero |
| `Host.Ide.Activate` | ReSharper_SilentCleanupOnSave/ReSharper_SilentCleanupOnSavePackage.cs:175 | activating a document makes it the active document and logs the call |
| `Host.Ide.ExecuteCommand` | ReSharper_SilentCleanupOnSave/ReSharper_SilentCleanupOnSavePackage.cs:177 | running a command by name logs one call and leaves the active document alone |
| `CleanupPackage.CleanupCalls` | ReSharper_SilentCleanupOnSave/ReSharper_SilentCleanupOnSavePackage.cs:175-179 | without a failure the sequence makes three calls (two when no document was active): activate the saved document, run the command by name, re-activate the one active before |
| `CleanupPackage.CompletedCalls` | ReSharper_SilentCleanupOnSave/ReSharper_SilentCleanupOnSavePackage.cs:173-182 | the failing step cuts the sequence short and the catch swallows the exception: no call completes exactly when reading the active document or activating the saved one throws, and never more than the full sequence |
| `CleanupPackage.CleanupSequenceFacts` | ReSharper_SilentCleanupOnSave/ReSharper_SilentCleanupOnSavePackage.cs:173-184 | whichever step throws, the command runs at most once, as the second call, and completes exactly when neither it nor a step before it throws; without a failure the focus returns to the document that had it |
| `CleanupPackage.Package.constructor` | ReSharper_SilentCleanupOnSave/ReSharper_SilentCleanupOnSavePackage.cs:68-74 | a new package holds no IDE, no event source and no command, and all three flags are false |
| `CleanupPackage.Package.CommandAvailability` | ReSharper_SilentCleanupOnSave/ReSharper_SilentCleanupOnSavePackage.cs:167 | `_cleanupCommand?.IsAvailable`: None exactly when no command is cached, otherwise the command's current availability |
| `CleanupPackage.Package.CleanupApplies` | ReSharper_SilentCleanupOnSave/ReSharper_SilentCleanupOnSavePackage.cs:164-171 | in the package's current state, the save of a document is handled if and only if the solution is open, no build runs, a command is cached and available, the document is writable, it belongs to a real project, and its lower-cased path ends with an allowed extension |
| `CleanupPackage.Package.Initialize` | ReSharper_SilentCleanupOnSave/ReSharper_SilentCleanupOnSavePackage.cs:128-140 | each handler is subscribed once to its event source, the references are kept, the cached command is the first one with a known name, and the flags are unchanged |
| `CleanupPackage.Package.OnBeforeClosing` | ReSharper_SilentCleanupOnSave/ReSharper_SilentCleanupOnSavePackage.cs:146 | sets the closing flag and changes nothing else; no member of the package ever clears it |
| `CleanupPackage.Package.OnBuildBegin` | ReSharper_SilentCleanupOnSave/ReSharper_SilentCleanupOnSavePackage.cs:154 | sets the building flag, for any scope and action, and changes nothing else |
| `CleanupPackage.Package.OnBuildDone` | ReSharper_SilentCleanupOnSave/ReSharper_SilentCleanupOnSavePackage.cs:156 | clears the building flag, for any scope and action, and changes nothing else |
| `CleanupPackage.Package.OnDocumentSaved` | ReSharper_SilentCleanupOnSave/ReSharper_SilentCleanupOnSavePackage.cs:158-185 | a skipped save changes nothing; a handled save makes exactly the IDE calls of the cleanup sequence up to the failing step, leaves the focus where those calls put it, and remembers the previously active document once it was read; the command completes if and only if the guard passes and neither it nor a step before it throws; no other field changes |
| `CleanupPackage.Package.RunCleanup` | ReSharper_SilentCleanupOnSave/ReSharper_SilentCleanupOnSavePackage.cs:173-184 | records the active document, activates the saved one, runs the command, re-activates the recorded one, stopping silently at the step that throws; the command completes exactly when neither it nor a step before it throws |
| `CleanupPackage.Package.Dispose` | ReSharper_SilentCleanupOnSave/ReSharper_SilentCleanupOnSavePackage.cs:80-107 | only the first call with `disposing` acts: it marks the package disposed, detaches the save and closing handlers, subscribes both build handlers once more, and drops the three references; any other call changes nothing |
| `CleanupPackage.InitializeThenDispose` | ReSharper_SilentCleanupOnSave/ReSharper_SilentCleanupOnSavePackage.cs:92-97 | after initialisation and disposal, the save and closing subscriptions are back to their counts before initialisation, while each build handler has two more subscriptions than before (so on an IDE with none, the save and closing handlers are gone and each build handler is subscribed twice) |

## Left out

- Message boxes and the debug-only popups (`ShowMessageBox`, `ShowDebugMessage`, `ShowDebugError`, `ShowError`): user interface only. The caught exception is dropped, as in a release build.
- The `Application.ThreadException` wiring in the constructor and its handler: process-wide exception plumbing of the host.
- The asynchronous initialisation: the switch to the main thread, the cancellation token and the service lookup of the IDE object. `Initialize` receives the IDE object as a parameter; all handlers are taken to run on one thread, one at a time.
- How the IDE delivers events to subscribed handlers, including that a handler subscribed twice is called twice. The model records the subscriptions; the handlers are called directly.
- `base.Dispose` and the package registration attributes and constants (name, description, version, GUID): framework and metadata.
- What the cleanup command does to the document text: `ExecuteCommand` only logs the call.
- The framework's full extension lookup: the model scans for the last '.' after the last '\\', '/' or ':'. Invalid path characters make the framework throw; the handler's catch then skips the save, which the model does not show. The lower-casing is ASCII only, not culture-sensitive.
- Exceptions raised while the guard itself is evaluated (a null `ProjectItem`, a failing property read of the IDE): they end the handler before any change, the same outcome as a skip, and are not modelled separately. A null document path and a null project name are not represented.
- Documents are values compared by full path and attributes, not IDE objects with identity; the IDE keeps one document per path.
