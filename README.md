# VS Code extension playground — a Dafny model

The playground extension runs a JavaScript file from the workspace as if it were a small
VS Code extension, and the model covers three parts of it:

1. **The executor (`PlaygroundExecutor`).** It does these things:
   - it reads the file;
   - it rewrites the file's module syntax (`import … from …`, `export …`) into `require` calls and
     assignments to `exports`;
   - it runs the result in a fresh scope whose console writes to the extension's output channel;
   - it calls the script's exported `activate` with a context whose `subscriptions` it watches;
   - it tracks every disposable the script creates through the intercepted `vscode` module;
   - on `stop`, it calls the script's `deactivate`, then disposes everything it tracked.
2. **The musical-notes example script.** It has a table of line patterns. A code-lens provider
   turns that table into clickable lenses over the notes of a markdown document, registering the
   table's commands once each.
3. **The menu example script.** It keeps its own registry of commands behind a status bar item and
   a quick-pick menu.

The model has these modules:

- **`Host`** (`host.dfy`): JavaScript values, disposable handles, the outcome of a call, and regular
  expression character classes. It also has the JavaScript string helpers used: `trim`,
  `split`, `indexOf`, `String(n)` and `join`. It holds the "dispose each in turn" loop that both
  examples use.
- **`Transform`** (`transform.dfy`): the six global replacements of `transformESMToCommonJS`. Each
  one is a left-to-right scanner with an anchored matcher per pattern, and text without any form
  comes out untouched. `TransformImportForms` and `TransformExportForms` state what each import and
  export form becomes; `TransformLemmas` states when line counts are kept.
- **`Console`** (`console.dfy`): `stringify` and the five console channels.
- **`Intercept`** (`intercept.dfy`): `require` and the proxy's routing of `commands.registerCommand`
  and `window.on…`. It also covers what a script step makes the executor track.
- **`Executor`** (`executor.dfy`) has two parts:
  - value-level specifications of `stop` and `execute` (`StopSpec`, `ExecuteSpec`);
  - the class `PlaygroundExecutor`, whose methods change its fields and are proved equal to those
    specifications.

  `ExecutorProperties` (`executor_lemmas.dfy`) proves what `stop` and `execute` promise.
- **`NotesLens`**, **`NotesPlayground`** and **`NotesProperties`** cover the musical-notes
  example. They model its patterns, the line extractor, `provideCodeLenses`, `registerCommands`
  and `dispose`. Their lemmas cover:
  - the well-formedness of every lens;
  - the singleNote skip rule;
  - the claim a line extractor makes on its line;
  - the exact registry the table produces.
- **`Menu`** and **`MenuProperties`** cover the menu example: `registerPlaygroundCommand`,
  `updateStatusBar`, `clearAllCommands`, `deactivate` and the menu item list.

The model takes the following as parameters:

- the script's behaviour, as a function from the transformed text to the effects it has and the
  hooks it exports;
- the file read;
- the clock, as the time-stamp string `now`;
- the workspace folders;
- what the real `registerCommand` returns.

In `src/playground.ts`, the `catch` reads `error.stack`, and the `activate` handler reads
`error.message`. Both reads throw when the thrown value is `null` or `undefined`. The model
keeps these reads as written. A nullish value thrown by the script makes `execute`'s promise
reject (`ExecuteRejectedExactly`). A nullish value thrown by `activate` is reported as a
`TypeError` (`ActivateThrowsNull`).

Two details of the code shape what the model states:

- The module-syntax rewrite (`src/playground.ts:99-142`) does not always keep line numbers:
  - `\s+` inside a matched form may span line breaks, and the replacement drops them;
  - `export {a, b}` becomes one assignment per name, joined by `;\n`.

  `TransformKeepsLines` therefore states line preservation under a hypothesis on the text each
  pass sees: every form that pass rewrites lies on one line, and there is no `export {…}` list.
  `RewriteOneLineKeepsLines` gives the same for a single pass.
- In the notes example, lines 286-296 reassign the `instrument` and `tempo` handlers after the
  provider has registered the original handlers. So the registered commands run the original
  handlers (lines 19-35), and that is what `Settings.SetInstrument` and `Settings.SetTempo`
  model.

## Model

| member | source | states |
|---|---|---|
| Console.Prefix | src/playground.ts:148-168 | `console.log` alone adds no tag; every other channel's tag is bracketed and followed by a space |
| Console.Texts | src/playground.ts:150 | each argument is turned into text by `stringify`, in order |
| Console.Stringify | src/playground.ts:261-273 | `stringify` is `String(v)` except that host-realm errors print their stack, or their message when the stack is empty, errors made in the script's context print as `{}`, and objects `JSON.stringify` renders print as that JSON |
| Console.ScriptErrorPrintsEmptyObject | src/playground.ts:256-269 | an error created by the script fails `instanceof Error`, so `console.error` of it prints `[ERROR] {}` |
| Console.ConsoleLine | src/playground.ts:148-168 | every console line starts with its channel tag, and a call without arguments prints the tag alone |
| Console.ParseStringifiedNumber | src/playground.ts:266 | a logged integral number reads back as the same number |
| Console.ConsoleLineReadsBack | src/playground.ts:149-168 | a console line is the channel tag followed by the argument texts joined by spaces; splitting at spaces gives the texts back |
| Console.SplitJoin | src/playground.ts:150 | splitting at `c` undoes joining with `c` when no part contains `c` |
| Console.LogOneString | src/playground.ts:149-152 | `console.log(s)` of one string appends exactly `s` |
| Host.Trim | src/playground.ts:129 | `trim()` gives the substring left after removing white space from both ends: no white space at either end of the result, and only white space outside it |
| Host.SplitOn | src/playground.ts:128 | `split(c)` gives at least one part and no part contains `c` |
| Host.IndexOf | examples/code-lens-note-playing/.vscode-playground.js:50 | `indexOf` gives the first position where the text occurs, or -1 exactly when it occurs nowhere |
| Host.DisposeEach | examples/code-lens-note-playing/.vscode-playground.js:256-258 | the dispose loop's disposed handles and thrown value are those of disposing in turn until the first throw |
| Host.DisposeAll | examples/menu/.vscode-playground.js:166 | disposing in turn reaches a prefix of the handles, all of them when nothing throws, and a throw comes from the last handle reached |
| Host.DisposeAllExactly | examples/menu/.vscode-playground.js:166 | disposing in turn reaches every handle exactly when none throws; otherwise it stops after the first throwing handle and reports what it threw |
| Intercept.Require | src/playground.ts:192-231 | `require` gives the proxy exactly for `vscode` and the named module otherwise |
| Intercept.RouteOf | src/playground.ts:182-227 | the proxy wraps `registerCommand` exactly for `vscode.commands.registerCommand` and wraps a subscription exactly for `vscode.window.on…`; everything else passes through |
| Intercept.Disposer | src/playground.ts:173-179 | `trackDisposable` tracks exactly the value's own handle, and only when the value has a callable `dispose` |
| Intercept.ApiCallTracked | src/playground.ts:182-227 | a call is tracked exactly when it goes through the `vscode` proxy to `commands.registerCommand` or to a `window.on…` member and returns a disposable |
| Intercept.WorkspaceEventsNotTracked | src/playground.ts:195-225 | `workspace` events are not tracked, and no call on a module required under any name other than `vscode` is tracked |
| Intercept.DisposersExactly | src/playground.ts:54-59 | `subscriptions.push` tracks exactly the disposable items |
| Intercept.TrackedTwice | src/playground.ts:54-59 | a `registerCommand` handle that is also pushed onto `subscriptions` is tracked twice, once by each route |
| Intercept.Disposers | src/playground.ts:54-59 | `subscriptions.push` tracks at most one handle per item, and none exactly when no item is disposable |
| Executor.CreatePlaygroundContext | src/playground.ts:244-246 | `__filename` is empty; `__dirname` is the first workspace folder's path, or empty when there is none; the context carries the script's exports and `deactivate` |
| Executor.MessageText | src/playground.ts:75 | reading `error.message` fails exactly on `null` and `undefined`; otherwise it gives the value's own message, or `undefined` when it has none |
| Executor.FailureText | src/playground.ts:91 | reading `error.stack` fails exactly on `null` and `undefined`; otherwise the text is the non-empty stack, or else `error.message \|\| String(error)` |
| Executor.ShownText | src/playground.ts:94 | the shown text is the non-empty message, or else `String(error)` |
| Executor.KeyLines | src/playground.ts:82-84 | one `  - key` line per exported name, in order |
| Executor.Deactivated | src/playground.ts:278-287 | calling `deactivate` keeps what is tracked and adds what it registers; it changes neither the current playground nor what is shown, and disposes nothing |
| Executor.StopSpec | src/playground.ts:275-301 | after `stop` nothing is tracked and there is no current playground; the logged count includes the handles `deactivate` registered |
| Executor.ActivateSpec | src/playground.ts:49-77 | calling `activate` fails exactly when it throws `null` or `undefined`, and then with the `TypeError` of reading `message`; it keeps the current playground and what is shown, and only appends output |
| Executor.Listed | src/playground.ts:80-87 | only the output changes: the export heading, one `  - key` line per exported name in order, then the success line |
| Executor.RunSpec | src/playground.ts:22-87 | a failed read fails with the read's error unchanged; a completed run makes the script's context current; output is only appended |
| Executor.ReportSpec | src/playground.ts:89-96 | the `catch` rejects exactly when the error is `null` or `undefined`; otherwise it shows exactly one error; it keeps what is tracked and current |
| Executor.ExecuteSpec | src/playground.ts:16-20 | the output of every `execute` starts with the stamped "Executing playground" line |
| Executor.Load | src/playground.ts:23-26 | a failed read becomes the error the `try` sees; a successful read runs the behaviour of the transformed text |
| Executor.PlaygroundExecutor.constructor | src/playground.ts:8-14 | starts with no output, no current playground and nothing tracked |
| Executor.PlaygroundExecutor.ConsoleWrite | src/playground.ts:148-168 | appends the channel's console line and changes nothing else |
| Executor.PlaygroundExecutor.TrackDisposable | src/playground.ts:173-179 | returns its argument and tracks its handle when it is disposable |
| Executor.PlaygroundExecutor.RegisterCommandWrapper | src/playground.ts:183-186 | returns what `registerCommand` returned and tracks it when it is disposable |
| Executor.PlaygroundExecutor.EventSubscriptionWrapper | src/playground.ts:213-219 | returns the original's result and tracks it when it is disposable |
| Executor.PlaygroundExecutor.SubscriptionsPush | src/playground.ts:54-59 | tracks the disposable items in order and changes nothing else |
| Executor.PlaygroundExecutor.Perform | src/playground.ts:148-231 | one script step appends its console line and tracks what the proxy tracks |
| Executor.PlaygroundExecutor.PerformAll | src/playground.ts:41-44 | running script code appends all its console lines and tracks all its disposables, in order |
| Executor.PlaygroundExecutor.Deactivate | src/playground.ts:278-287 | calls `deactivate` when the current playground exports it, logging completion or the error, and reports the error to the host console |
| Executor.PlaygroundExecutor.DisposeTracked | src/playground.ts:291-297 | calls `dispose` on every tracked handle in order, logging one host-console message per throw |
| Executor.PlaygroundExecutor.Stop | src/playground.ts:275-301 | the new state is `StopSpec` of the old one |
| Executor.PlaygroundExecutor.ListExports | src/playground.ts:80-87 | appends the export list and the success line |
| Executor.PlaygroundExecutor.Activate | src/playground.ts:49-77 | calls `activate` with the tracking context; a non-nullish throw is logged, and a nullish throw escapes as a `TypeError` |
| Executor.PlaygroundExecutor.Run | src/playground.ts:22-87 | the body of the outer `try`, equal to `RunSpec` |
| Executor.PlaygroundExecutor.Report | src/playground.ts:89-96 | the outer `catch`, equal to `ReportSpec`; it rejects exactly when reading `stack` throws |
| Executor.PlaygroundExecutor.Execute | src/playground.ts:16-97 | the new state and the rejection are those of `ExecuteSpec` |
| ExecutorProperties.DisposeErrorsExactly | src/playground.ts:291-297 | one host-console message per throwing `dispose`, in order, each carrying exactly what that call threw; none exactly when no `dispose` throws |
| ExecutorProperties.DeactivateReports | src/playground.ts:278-287 | without a `deactivate` nothing happens; with one, its start is logged first and its completion last with no host-console error, or on a throw the stamped error line last and exactly one host-console message carrying the thrown value |
| ExecutorProperties.StopDisposesEverything | src/playground.ts:275-301 | `stop` disposes every tracked handle once, in tracking order, including those `deactivate` added, whatever each `dispose` does; nothing stays tracked and there is no current playground |
| ExecutorProperties.StopDisposesRegisteredAndPushedTwice | src/playground.ts:173-186 | a command handle registered and also pushed onto `subscriptions` has its `dispose` called twice by the next `stop`, right after the handles tracked before |
| ExecutorProperties.StopTwice | src/playground.ts:290-300 | a second `stop` only logs that it disposes 0 disposables |
| ExecutorProperties.ActivateKeeps | src/playground.ts:49-77 | calling `activate` adds no `dispose` call, no host message and no shown error, and only extends the output |
| ExecutorProperties.RunKeeps | src/playground.ts:22-87 | the `try` body adds no `dispose` call, no host message and no shown error |
| ExecutorProperties.ExecuteStopsFirst | src/playground.ts:16-20 | `execute` first stops and disposes the previous run, clears the output and starts it with the stamped "Executing playground" line; it shows at most one error |
| ExecutorProperties.RunFailsNullish | src/playground.ts:22-96 | a nullish value reaches the `catch` exactly when the read or the script threw one |
| ExecutorProperties.ExecuteRejectedExactly | src/playground.ts:89-96 | `execute`'s promise rejects exactly when the read or the script throws `null` or `undefined` |
| ExecutorProperties.ScriptFailureKeepsHandles | src/playground.ts:41-46 | a script that throws a non-nullish value leaves what it registered tracked, does not become current, and its error is written, shown and not rejected |
| ExecutorProperties.ReadFailureReported | src/playground.ts:16-96 | a file that cannot be read leaves nothing tracked or current; the output is the start line, the failure line and the error's text, and the error is shown |
| ExecutorProperties.RunSucceeds | src/playground.ts:41-87 | a completing run becomes current, tracks the script's and `activate`'s disposables, and its output ends with the export heading, one line per exported name in order, and the success line |
| ExecutorProperties.ExecuteSucceeds | src/playground.ts:16-87 | after a successful `execute` exactly the new script's disposables are tracked, nothing is shown, and the output ends with the export heading, every exported name in order, and the success line |
| ExecutorProperties.NullMessage | src/playground.ts:75 | reading `message` of `null` throws "Cannot read properties of null (reading 'message')" |
| ExecutorProperties.ActivateThrowsNull | src/playground.ts:72-76 | when `activate` throws `null`, the run fails but is not rejected, the script stays current, and the `TypeError` is shown |
| ExecutorProperties.RunActivateThrowsValue | src/playground.ts:41-87 | running a script whose `activate` throws a non-nullish value completes: the message is logged right before the export list and the success line, the script becomes current, and its and `activate`'s disposables are tracked after the earlier ones |
| ExecutorProperties.ActivateThrowsValue | src/playground.ts:74-87 | any other value thrown by `activate` is logged by its message right before the export list and the success line; the script becomes current with its and `activate`'s disposables tracked |
| ExecutorProperties.NothingLeaks | src/playground.ts:275-301 | whatever an `execute` leaves tracked, the next `stop` disposes |
| Transform.Run | src/playground.ts:105 | a pattern run ends within the text and its groups lie before its end; a literal consumes input |
| Transform.MatchPattern | src/playground.ts:105 | a match covers at least one character, and its groups lie inside it |
| Transform.MatchAt | src/playground.ts:104-139 | whatever a rule's pattern matches at a position is a non-empty span of the text with its groups inside it |
| Transform.Step | src/playground.ts:104 | a global replacement step consumes at least one character and no more than the text |
| Transform.Rewrite | src/playground.ts:104-107 | a global replacement pass whose pattern matches nowhere leaves the text unchanged |
| Transform.Apply | src/playground.ts:101-139 | passes whose patterns match nowhere leave the text unchanged |
| Transform.TransformESMToCommonJS | src/playground.ts:99-142 | code without any import or export form comes out unchanged |
| Transform.AssignEach | src/playground.ts:128-131 | each listed export becomes `exports.x = x` with `x` trimmed |
| TransformLemmas.RewriteKeepsLines | src/playground.ts:104-107 | a pass whose matches keep their own line counts keeps the text's line count |
| TransformLemmas.OneLineMatchKeepsLines | src/playground.ts:104-139 | every rule except `export {…}` replaces a one-line match by one-line text |
| TransformLemmas.RewriteOneLineKeepsLines | src/playground.ts:104-139 | a pass other than `export {…}` whose matches each lie on one line keeps the line count |
| TransformLemmas.TemplateOneLine | src/playground.ts:106-138 | no replacement template contains a line break |
| TransformLemmas.ApplyKeepsLines | src/playground.ts:101-139 | passes whose input texts have every match on one line, and no `export {…}` list, keep the line count |
| TransformLemmas.TransformKeepsLines | src/playground.ts:99-142 | the transform keeps the line count when each pass sees its forms on one line and there is no `export {…}` list |
| TransformImportForms.ImportNamespaceMatchPattern | src/playground.ts:105 | the namespace pattern matches `import * as N from 'M'` with groups N and M |
| TransformImportForms.ImportNamespaceReplacement | src/playground.ts:106 | the namespace template gives `const N = require("M")` from the two captured groups |
| TransformImportForms.ImportNamespaceRewrite | src/playground.ts:104-107 | the namespace pass replaces such a form and continues after it |
| TransformImportForms.ImportNamespaceForm | src/playground.ts:104-107 | `import * as N from 'M'` becomes `const N = require("M")` |
| TransformImportForms.ImportNamedMatchPattern | src/playground.ts:110 | the named pattern matches `import {L} from 'M'` with groups L and M |
| TransformImportForms.ImportNamedReplacement | src/playground.ts:111 | the named template gives `const {L} = require("M")` from the two captured groups |
| TransformImportForms.ImportNamedRewrite | src/playground.ts:109-112 | the named pass replaces such a form and continues after it |
| TransformImportForms.ImportNamedForm | src/playground.ts:109-112 | `import {L} from 'M'` becomes `const {L} = require("M")` |
| TransformImportForms.ImportDefaultMatchPattern | src/playground.ts:115 | the default pattern matches `import N from 'M'` with groups N and M |
| TransformImportForms.ImportDefaultReplacement | src/playground.ts:116 | the default template repeats group 2 in both `require` calls |
| TransformImportForms.ImportDefaultRewrite | src/playground.ts:114-117 | the default pass replaces such a form and continues after it |
| TransformImportForms.ImportDefaultForm | src/playground.ts:114-117 | `import N from 'M'` becomes `const N = require("M").default \|\| require("M")` |
| TransformExportForms.AsyncPatternFails | src/playground.ts:121 | on `export function f`, the `(async\s+)?` group cannot be present |
| TransformExportForms.PlainFunctionMatches | src/playground.ts:121 | with the group absent, `export function f` matches with an empty group 1 and group 2 `f` |
| TransformExportForms.ExportFunctionRewrite | src/playground.ts:120-123 | the function pass replaces `export function f` and continues after it |
| TransformExportForms.FunctionReplacement | src/playground.ts:122 | the function template gives `exports.f = ` followed by group 1 and `function` |
| TransformExportForms.ExportAsyncFunctionRewrite | src/playground.ts:120-123 | the function pass replaces `export async function f` and continues after it |
| TransformExportForms.ExportFunctionForm | src/playground.ts:120-123 | `export function f` becomes `exports.f = function` |
| TransformExportForms.AsyncFunctionMatches | src/playground.ts:121 | `export async function f` matches with group 1 `async ` and group 2 `f` |
| TransformExportForms.ExportAsyncFunctionForm | src/playground.ts:120-123 | `export async function f` becomes `exports.f = async function` |
| TransformExportForms.ExportConstMatches | src/playground.ts:137 | the const pattern matches `export const x` with group `x` |
| TransformExportForms.ExportConstReplacement | src/playground.ts:138 | the const template repeats the captured name on both sides |
| TransformExportForms.ExportConstRewrite | src/playground.ts:136-139 | the const pass replaces `export const x` and continues after it |
| TransformExportForms.ExportConstForm | src/playground.ts:136-139 | `export const x` becomes `const x = exports.x` |
| NotesLens.NoteLen | examples/code-lens-note-playing/.vscode-playground.js:40 | a note token is 2 or 3 characters from `A`-`G` to a digit |
| NotesLens.SplitWs | examples/code-lens-note-playing/.vscode-playground.js:174 | `split(/\s+/)` gives parts free of white space; only the first and last may be empty, and the first is not when the text starts with a non-space |
| NotesLens.SplitWsWord | examples/code-lens-note-playing/.vscode-playground.js:174 | a text without white space splits into exactly itself |
| NotesLens.SplitWsCons | examples/code-lens-note-playing/.vscode-playground.js:174 | a word followed by a run of white space is the first part, and the text after the run is split on its own, so the parts are exactly the words between white-space runs |
| NotesLens.NoteExpression | examples/code-lens-note-playing/.vscode-playground.js:42-43 | the leftmost match of the extractor's pattern gives a span inside the line |
| NotesLens.FullLineExtractor | examples/code-lens-note-playing/.vscode-playground.js:41-55 | an extracted expression is trimmed, non-empty and holds a note, and `startIdx` is the first place it occurs on the line |
| NotesLens.NoMarkerNoExpression | examples/code-lens-note-playing/.vscode-playground.js:42 | a line without `-` or `•` has no note expression |
| NotesLens.SettingAt | examples/code-lens-note-playing/.vscode-playground.js:16 | `\bNAME=(\d+)\b` captures one non-empty run of digits |
| NotesLens.MatchAt | examples/code-lens-note-playing/.vscode-playground.js:16-106 | every pattern's match starts at its position and is non-empty; the setting patterns capture digits |
| NotesLens.Search | examples/code-lens-note-playing/.vscode-playground.js:208 | what `exec` finds is a match of the pattern starting at or after `lastIndex` |
| NotesLens.SearchLeftmost | examples/code-lens-note-playing/.vscode-playground.js:208 | that match is the leftmost one: no match starts between `lastIndex` and it |
| NotesLens.SearchNone | examples/code-lens-note-playing/.vscode-playground.js:208 | when `exec` finds nothing, no match starts at or after `lastIndex` |
| NotesLens.Scan | examples/code-lens-note-playing/.vscode-playground.js:201-208 | the `exec` loop visits only real matches of the pattern, each within the line |
| NotesLens.ScanFirst | examples/code-lens-note-playing/.vscode-playground.js:201-208 | the first match the `exec` loop visits is the leftmost one at or after the start, so none starts before it; the loop visits none exactly when no match starts at or after the start |
| NotesLens.ScanInOrder | examples/code-lens-note-playing/.vscode-playground.js:201-208 | the matches the `exec` loop visits are in order and do not overlap |
| NotesLens.ScanSkipsNone | examples/code-lens-note-playing/.vscode-playground.js:201-208 | no match starts between the end of one visited match and the start of the next |
| NotesLens.ScanSkipsNoneAfter | examples/code-lens-note-playing/.vscode-playground.js:201-208 | no match starts at or after the end of the last visited match |
| NotesLens.ScanLenses | examples/code-lens-note-playing/.vscode-playground.js:208-247 | the `exec` loop only appends lenses |
| NotesLens.EntryStep | examples/code-lens-note-playing/.vscode-playground.js:165-249 | an entry only appends lenses; the line is processed afterwards exactly when it already was or the entry extracted an expression; a processed line gets nothing more |
| NotesLens.CodeLenses | examples/code-lens-note-playing/.vscode-playground.js:147-153 | a document that is not markdown has no lenses |
| NotesPlayground.Settings.constructor | examples/code-lens-note-playing/.vscode-playground.js:10-11 | starts with instrument 108 and tempo 120 |
| NotesPlayground.Settings.SetInstrument | examples/code-lens-note-playing/.vscode-playground.js:19-23 | stores and returns `parseInt(matches[1])` and keeps the tempo |
| NotesPlayground.Settings.SetTempo | examples/code-lens-note-playing/.vscode-playground.js:31-35 | stores and returns `parseInt(matches[1])` and keeps the instrument |
| NotesPlayground.CommandIds | examples/code-lens-note-playing/.vscode-playground.js:131 | each command of a list is registered on behalf of its entry |
| NotesPlayground.Values | examples/code-lens-note-playing/.vscode-playground.js:256 | `values()` gives each registered id's disposable, in insertion order |
| NotesPlayground.Register | examples/code-lens-note-playing/.vscode-playground.js:128-144 | registering only appends ids and never replaces an entry already registered |
| NotesPlayground.IsProcessed | examples/code-lens-note-playing/.vscode-playground.js:211-217 | finds a lens exactly when one contains the match start |
| NotesPlayground.PushCommandLenses | examples/code-lens-note-playing/.vscode-playground.js:229-238 | pushes one lens per command whose condition holds, in order |
| NotesPlayground.ScanEntry | examples/code-lens-note-playing/.vscode-playground.js:199-248 | the `exec` loop's lenses are those of `ScanLenses` over `Scan` |
| NotesPlayground.EntryLenses | examples/code-lens-note-playing/.vscode-playground.js:165-249 | one entry on one line gives `EntryStep`'s lenses and `lineProcessed` |
| NotesPlayground.PushExtracted | examples/code-lens-note-playing/.vscode-playground.js:169-190 | an extracted expression gets its commands' lenses |
| NotesPlayground.DocumentLenses | examples/code-lens-note-playing/.vscode-playground.js:156-250 | the loop over the document's lines gives `DocLenses`, line by line from the first |
| NotesPlayground.LineLenses | examples/code-lens-note-playing/.vscode-playground.js:158-249 | the loop over the table on one line gives `EntriesLenses` |
| NotesPlayground.RegisterAppend | examples/code-lens-note-playing/.vscode-playground.js:128-144 | registering two lists one after the other is registering their concatenation |
| NotesPlayground.ConfigurableCodeLensProvider.constructor | examples/code-lens-note-playing/.vscode-playground.js:119-124 | the provider starts with the registry the table produces |
| NotesPlayground.ConfigurableCodeLensProvider.RegisterEach | examples/code-lens-note-playing/.vscode-playground.js:131-136 | registers a command list, skipping ids already present, and returns the ids it registered |
| NotesPlayground.ConfigurableCodeLensProvider.RegisterCommands | examples/code-lens-note-playing/.vscode-playground.js:126-145 | the registry becomes `Register` of the table's commands, and the returned calls are the new ids in order |
| NotesPlayground.ConfigurableCodeLensProvider.ProvideCodeLenses | examples/code-lens-note-playing/.vscode-playground.js:147-253 | the lenses equal `CodeLenses`, and there are none for a non-markdown document |
| NotesPlayground.ConfigurableCodeLensProvider.Dispose | examples/code-lens-note-playing/.vscode-playground.js:255-260 | disposes the registered commands in insertion order, then clears the map; a throw leaves the map as it was |
| NotesProperties.PatternTableOk | examples/code-lens-note-playing/.vscode-playground.js:13-115 | only the setting patterns lead to the setting commands, and "Play Sequence" is always conditional |
| NotesProperties.CommandLensesOk | examples/code-lens-note-playing/.vscode-playground.js:229-238 | the lenses of a command list lie on their line |
| NotesProperties.MatchLensesOk | examples/code-lens-note-playing/.vscode-playground.js:221-246 | a match's lenses lie on the line, and a setting lens carries the digits it parses |
| NotesProperties.ScanLensesOk | examples/code-lens-note-playing/.vscode-playground.js:208-247 | every lens the `exec` loop adds is well formed |
| NotesProperties.ExtractedWithin | examples/code-lens-note-playing/.vscode-playground.js:170-171 | an extracted expression's range lies within its line |
| NotesProperties.EntriesLensesOk | examples/code-lens-note-playing/.vscode-playground.js:165-249 | every lens the table adds on a line is well formed |
| NotesProperties.DocLensesOk | examples/code-lens-note-playing/.vscode-playground.js:158-250 | every lens of the remaining lines is well formed |
| NotesProperties.CodeLensesOk | examples/code-lens-note-playing/.vscode-playground.js:147-253 | every lens lies within a line; "Play Sequence" always has more than one note; a setting lens passes digits |
| NotesProperties.ScanSkipsCovered | examples/code-lens-note-playing/.vscode-playground.js:210-219 | each single-note lens starts outside every lens before it on the line |
| NotesProperties.ProcessedLineStops | examples/code-lens-note-playing/.vscode-playground.js:193-196 | once a line is processed, the remaining entries add nothing |
| NotesProperties.ClaimedLine | examples/code-lens-note-playing/.vscode-playground.js:167-190 | the first extractor entry adds the expression's lenses, and later entries add nothing |
| NotesProperties.ChordLineLenses | examples/code-lens-note-playing/.vscode-playground.js:158-196 | an extracted line gets the setting lenses, then "Play Chord" and (for several notes) "Play Sequence", and nothing from the note patterns |
| NotesProperties.RegisterKeeps | examples/code-lens-note-playing/.vscode-playground.js:132-141 | registering never replaces an entry, and the registered ids are the old ones plus the listed ones |
| NotesProperties.RegisterValid | examples/code-lens-note-playing/.vscode-playground.js:132-141 | the key order lists each key of the map once |
| NotesProperties.RegisterFirstWins | examples/code-lens-note-playing/.vscode-playground.js:132-134 | an id's handler is the one from its first occurrence |
| NotesProperties.TableCommandsValue | examples/code-lens-note-playing/.vscode-playground.js:128-144 | the table's command pairs, in the order they are tried |
| NotesProperties.RegisterTablePairs | examples/code-lens-note-playing/.vscode-playground.js:128-144 | registering those pairs registers four ids |
| NotesProperties.TableRegistration | examples/code-lens-note-playing/.vscode-playground.js:126-145 | the table registers four commands in table order, with "Play Chord" and "Play Sequence" owned by the chord-group entry |
| NotesProperties.ValuesCoverRegistry | examples/code-lens-note-playing/.vscode-playground.js:256-258 | `dispose` reaches every registered command's disposable |
| NotesProperties.ParseDigitsPositive | examples/code-lens-note-playing/.vscode-playground.js:20 | digits without a leading zero parse to a positive number |
| NotesProperties.ParseDigitsShown | examples/code-lens-note-playing/.vscode-playground.js:17 | canonical digits print back as themselves |
| NotesProperties.InstrumentTitleShowsSetting | examples/code-lens-note-playing/.vscode-playground.js:17-21 | after "Set Instrument" runs, the lens title shows the stored value |
| NotesProperties.TempoTitleShowsSetting | examples/code-lens-note-playing/.vscode-playground.js:29-33 | after "Set Tempo" runs, the lens title shows the stored value |
| Menu.Description | examples/menu/.vscode-playground.js:61 | `description \|\| ''` is truthy or the empty string |
| Menu.UpdateStatus | examples/menu/.vscode-playground.js:172-176 | the status text shows the map's size; only the status text and tooltip change |
| Menu.Values | examples/menu/.vscode-playground.js:166 | `forEach` visits each entry's disposable in insertion order |
| Menu.EntryItems | examples/menu/.vscode-playground.js:19-23 | one item per entry, labelled by the title and described by the description |
| Menu.Items | examples/menu/.vscode-playground.js:19-29 | one item per registered command in order, labelled by its title, then the "Register New Command" and "Clear All Commands" items |
| Menu.RegisterSpec | examples/menu/.vscode-playground.js:50-72 | a registration that nothing interrupts stores the title, the description, the returned disposable and the handler under the id; one that throws leaves the registry as it was |
| Menu.ClearSpec | examples/menu/.vscode-playground.js:165-170 | clearing empties the registry when no `dispose` throws and leaves it as it was when one does; it only adds disposals |
| Menu.DeactivateSpec | examples/menu/.vscode-playground.js:178-184 | `deactivate` disposes the status bar item, then empties the registry when no `dispose` throws and leaves it as it was when one does |
| Menu.PlaygroundMenu.constructor | examples/menu/.vscode-playground.js:7-47 | `activate` up to the example registrations yields the initial status bar and two subscriptions |
| Menu.PlaygroundMenu.UpdateStatusBar | examples/menu/.vscode-playground.js:172-176 | the new state is `UpdateStatus` of the old one |
| Menu.PlaygroundMenu.RegisterPlaygroundCommand | examples/menu/.vscode-playground.js:50-72 | the new state and the escaping error are `RegisterSpec`'s; the disposable is returned exactly when nothing throws |
| Menu.PlaygroundMenu.DisposePreviousCommand | examples/menu/.vscode-playground.js:52-55 | disposes an existing entry's disposable, which may throw |
| Menu.PlaygroundMenu.StoreCommand | examples/menu/.vscode-playground.js:59-69 | stores the entry, pushes the subscription, logs, and updates the status bar |
| Menu.PlaygroundMenu.InsertCommand | examples/menu/.vscode-playground.js:59-68 | `Map.set` appends a new key or keeps the place of an existing one |
| Menu.PlaygroundMenu.DisposeCommands | examples/menu/.vscode-playground.js:166 | disposes the entries in order until a `dispose` throws |
| Menu.PlaygroundMenu.ClearAllCommands | examples/menu/.vscode-playground.js:165-170 | the new state and the escaping error are `ClearSpec`'s |
| Menu.PlaygroundMenu.Deactivate | examples/menu/.vscode-playground.js:178-184 | the new state and the escaping error are `DeactivateSpec`'s |
| Menu.PlaygroundMenu.MenuItems | examples/menu/.vscode-playground.js:19-29 | the items equal `Items` of the state |
| MenuProperties.SizeIsKeyCount | examples/menu/.vscode-playground.js:173 | `registeredCommands.size` is the number of ids in the key order |
| MenuProperties.DistinctCount | examples/menu/.vscode-playground.js:173 | a list without duplicates has as many distinct elements as entries |
| MenuProperties.RegisterKeepsWellFormed | examples/menu/.vscode-playground.js:50-72 | registering keeps one entry per id and a key order listing each key once |
| MenuProperties.ReRegisterReplaces | examples/menu/.vscode-playground.js:52-66 | re-registering, when the old `dispose` returns, disposes the old command, keeps the entry's place, stores the new title, handler and disposable, and leaves other entries unchanged |
| MenuProperties.RegisterNewAppends | examples/menu/.vscode-playground.js:58-66 | a new id goes last, nothing is disposed, and other entries are kept |
| MenuProperties.MissingDescriptionIsEmpty | examples/menu/.vscode-playground.js:61 | a missing or falsy description is stored as `''` |
| MenuProperties.RegisterFailureKeepsRegistry | examples/menu/.vscode-playground.js:52-58 | a throwing registration leaves the registry, subscriptions and status bar as they were |
| MenuProperties.RegisterShowsCount | examples/menu/.vscode-playground.js:69 | after a registration the status bar shows the number of registered ids |
| MenuProperties.ClearDisposesAll | examples/menu/.vscode-playground.js:165-170 | clearing disposes every command in order and empties the registry exactly when no `dispose` throws; the status shows 0 |
| MenuProperties.ClearStopsOnThrow | examples/menu/.vscode-playground.js:166 | a throwing `dispose` stops clearing after a prefix of the commands, with the registry and status unchanged |
| MenuProperties.DeactivateDisposesAll | examples/menu/.vscode-playground.js:178-184 | `deactivate` disposes the status bar item, then every command in order, exactly emptying the registry when none throws |
| MenuProperties.MenuListsEveryCommand | examples/menu/.vscode-playground.js:19-29 | the menu lists every command once, in order, then exactly the two utility items |

## Left out

- `vm` sandboxing, the 30-second timeout and `breakOnSigint`: running the script is a parameter
  (`behave`), not modelled JavaScript evaluation.
- The `Proxy` objects themselves are not modelled. Only the routing decision they make
  (`RouteOf`) is. Members other than the wrapped ones pass through and are not observed.
- `new Date().toLocaleTimeString()` is the single parameter `now` per call, so every stamp of
  one `stop` or `execute` carries the same time.
- Asynchronous work after the run (`setTimeout`, `setInterval`, promises the script leaves
  pending) is not modelled. Neither is state the script keeps on `global`, which is the scope
  object itself (line 256).
- The mock context's `extensionPath`, `globalState` and the other pass-through fields are left
  out for the same reason.
- An exported `activate` or `deactivate` that is present but not a function is not modelled:
  a hook is either exported with its behaviour or absent.
- A script that sets `playground.exports` to a falsy value (lines 49 and 80 of
  src/playground.ts skip `activate` and the export listing then) is not modelled: the exports
  are always an object, given by their keys and hooks.
- `Executor.Deactivated`: the template literal `${error}` in the `deactivate` catch (line 284)
  can itself throw, for a thrown object whose `toString` throws; the model always produces the
  text `JsToString` gives.
- Numbers are integral: no floating point, `NaN` or `Infinity`, and `parseInt` is modelled
  only on the digit strings the setting patterns capture.
- `NotesProperties.InstrumentTitleShowsSetting`, `NotesProperties.TempoTitleShowsSetting`: they
  read `parseInt` as exact on every digit string. JavaScript numbers are exact only up to 2^53, so
  for longer digit strings the title the source shows is rounded and differs from the digits.
- `NotesPlayground.Settings.SetInstrument`, `NotesPlayground.Settings.SetTempo`: the stored value
  is the exact integer, with the same 2^53 caveat.
- `JSON.stringify` returning `undefined` (for a function inside an object, say) is not modelled:
  the object's JSON text is a given string or a throw.
- The `message` and `stack` of an `Error`, and the own `message` and `stack` of any other thrown
  object, are plain string fields or absent. Getters that throw and non-string values of those
  properties are not modelled.
- `Console.Stringify`: an error created in the script's context (`hostRealm` false) fails
  `instanceof Error`. Its `JSON.stringify` text is taken to be `{}`, which holds when it has no
  enumerable own property; custom enumerable properties on such an error are not modelled.
- `Executor.TypeErrorReading`: the stack of the `TypeError` is its first line only. The frame
  lines V8 appends are not modelled.
- Only what `dispose` returns or throws is modelled. Any other effect of a `dispose` callback is
  left out.
- Strings are sequences of Dafny `char`, which are Unicode scalar values, while JavaScript
  positions count UTF-16 code units. Lens columns and `indexOf` positions on a line that holds a
  character outside the Basic Multilingual Plane therefore differ from the editor's. There is no
  Unicode normalisation.
- The notes example's `playNotes`, the status bar item, the decorations, `updateDecorations` and
  its event subscriptions (lines 270-350) are left out. They only call into VS Code.
- The notes example's `deactivate` (lines 353-361) is also left out, apart from `dispose`.
- The handler reassignment at lines 286-296 of the notes example takes effect after
  registration and is not modelled.
- The menu's quick-pick flow (`showQuickPick`, lines 31-43), `registerNewCommand` (lines
  139-163) and the input boxes are user-interface flows and are left out. The item list they
  show is modelled (`Menu.Items`).
- The four example registrations in the menu's `activate` (lines 74-136) are not modelled as a
  fold. Each is one `RegisterPlaygroundCommand` call.
- `Menu.PlaygroundMenu.RegisterPlaygroundCommand`: `registerCommand` throwing is modelled only as
  the given `Rejected` result, not as a particular VS Code error.
- `Menu.PlaygroundMenu.constructor`: the status bar item is always present after `activate`, so
  `updateStatusBar` before `activate` (which would throw on `undefined`) is not modelled.
- `NotesPlayground.LineLenses`: the chord-group extractor is computed once per line rather than
  once per entry that has it. The extractor is pure, so the result is the same.
- `Transform.AssignEach`: the `export {a, b}` pass has no whole-form lemma like the other five
  rules. Its contract gives each generated assignment.
