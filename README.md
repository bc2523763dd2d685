# MainManager command dispatch, modelled in Dafny

This project models the command-dispatch core of the TUI console launcher's
`MainManager`: how one typed line is routed. The steps are:

- The line is normalised.
- A line that arrives while a redirection session (a multi-turn `RedirectCommand`)
  holds the slot is captured by that session.
- Any other line is split on the configured multi-command separator. Each
  sub-command is offered to the fixed trigger chain Group, Alias, Tui (structured
  command), App, Shell. The first trigger that claims it wins. A trigger that
  throws has its trace printed and ends that sub-command only.

The model also covers the launch-history formatting of `performLaunch` and the
shell's cd/pwd result listeners that update the current directory.

Files:

- `options.dfy`: `Option`, for Java references that may be null.
- `java_strings.dfy`: the `String` operations the code uses: `indexOf`,
  `contains`, `trim`, `equalsIgnoreCase("su")`, and `split` on a literal
  separator, including the rule that drops trailing empty strings.
- `launch_format.dfy`: the `%a`/`%p`/`%l`/`%n` substitution chain.
- `dispatch.dfy`: the pure specification. Collaborators are one value of
  function-typed fields, and each trigger is a function from the state
  (`Pack`: last command, current directory, cached template, event log) to a
  verdict and a new state. The collaborators that receive `mainPack` (the
  parser, a command's `exec`, a group's `use`) are handed a `PackView` of it:
  the last command and the current directory. `RunChain` is the inner trigger loop,
  `DispatchAll` the outer loop over sub-commands, and `DispatchLine` the whole
  of `onCommand` without a session.
- `dispatch_properties.dfy`: lemmas. First claim wins, a thrown trigger
  isolates only its sub-command, the shell trigger catches everything,
  sub-commands run left to right, splitting facts, and the cd→pwd round trip.
- `main_manager.dfy`: the classes `RedirectCommand` (lists updated in place)
  and `MainManager` (fields updated by methods with loops). Each method is
  proved to produce the state the functions above describe.

Everything the triggers do to the outside world appears as an ordered `Event`
log: output lines, shell submissions, launches, alias executions, group
`use` calls and root requests.

Details of the code the model follows where a reader might expect otherwise:

- A captured redirection input is the normalised line, not a trimmed one.
- The dispatcher splits the normalised line, not the raw one.
- The group trigger cuts at the first space character, not at any whitespace.
- The root request for `su` happens only when `su` is available and a
  rooter is set. The literal `su` is submitted in every case.
- An alias hit is handed to the command executer, not to the parser.
- `onCommand(input, obj)` with a `LaunchInfo` whose label equals the raw
  input launches directly, even while a session is active. If that launch fails
  (no intent), nothing happens and nothing falls back to dispatch.

## Model

| member | source | states |
|---|---|---|
| Manager.MainManager.PrepareRedirection | app/src/main/java/ohi/andre/consolelauncher/MainManager.java:64-70 | the given session takes the slot; the listener, if set, hears of it |
| Manager.MainManager.Cleanup | app/src/main/java/ohi/andre/consolelauncher/MainManager.java:73-84 | an active session has both lists emptied and leaves the slot; with no session nothing changes, so a second call is a no-op |
| Manager.MainManager.SendPermissionNotGrantedWarning | app/src/main/java/ohi/andre/consolelauncher/MainManager.java:209-211 | exactly the effect of cleanup |
| Manager.MainManager.OnCommand | app/src/main/java/ohi/andre/consolelauncher/MainManager.java:164-203 | with a session: the normalised input is appended to afterObjects iff no permission is awaited, the session's reply is the one event added, and nothing else changes (no preview, no split, no trigger); without one: the state is DispatchLine of the old state |
| Manager.MainManager.DispatchSubCommands | app/src/main/java/ohi/andre/consolelauncher/MainManager.java:189-202 | running the sub-commands one after another, each through the whole chain, leaves the state DispatchAll of the old state, proved through the loop invariant over sub-commands |
| Manager.MainManager.OfferToChain | app/src/main/java/ohi/andre/consolelauncher/MainManager.java:189-201 | offering one sub-command to the triggers in order, stopping at the first claim or throw and printing a thrown trace, leaves the state RunChain of the old state, proved through the loop invariants over the chain |
| Manager.MainManager.OnCommandWithObject | app/src/main/java/ohi/andre/consolelauncher/MainManager.java:150-161 | a LaunchInfo whose label equals the input goes straight to performLaunch, bypassing the session; every other object behaves as onCommand(input, null) |
| Manager.MainManager.Fire | app/src/main/java/ohi/andre/consolelauncher/MainManager.java:189-193 | offering a sub-command to one trigger has the effect of that trigger's step |
| Manager.MainManager.RunGroupTrigger | app/src/main/java/ohi/andre/consolelauncher/MainManager.java:315-346 | the search loop over the groups finds the first group with the name; with no space the members are listed and it claims; with a residual the claim is use(residual); no group list or no match does not claim |
| Manager.MainManager.RunAliasTrigger | app/src/main/java/ohi/andre/consolelauncher/MainManager.java:293-313 | claims iff getAlias hits, and then always claims after sending the formatted value and alias name to the executer; a throwing lookup is a thrown verdict |
| Manager.MainManager.RunTuiCommandTrigger | app/src/main/java/ohi/andre/consolelauncher/MainManager.java:407-437 | claims iff the parse yields a command, and only then sets lastCommand to the input and emits the command's output or failure trace |
| Manager.MainManager.RunAppTrigger | app/src/main/java/ohi/andre/consolelauncher/MainManager.java:398-405 | claims iff a shown app has the label and performLaunch returns true |
| Manager.MainManager.RunShellCommandTrigger | app/src/main/java/ohi/andre/consolelauncher/MainManager.java:375-395 | always claims and submits exactly the command ShellSubmission gives |
| Manager.MainManager.PerformLaunch | app/src/main/java/ohi/andre/consolelauncher/MainManager.java:258-286 | no intent: false and no change at all; otherwise the template is cached on first use, the history line is printed when shown, and the app is started |
| Manager.MainManager.OnCommandResult | app/src/main/java/ohi/andre/consolelauncher/MainManager.java:353-373 | the delivered shell result has the effect ShellFeedback describes |
| Dispatch.SplitFirstSpace | app/src/main/java/ohi/andre/consolelauncher/MainManager.java:319-328 | the name has no space; with no space the name is the whole input and there is no residual; otherwise input == name + " " + residual |
| Dispatch.FindGroup | app/src/main/java/ohi/andre/consolelauncher/MainManager.java:330-341 | the index found is the first group whose name equals the given one; none means no group has it |
| Dispatch.TriggerStep | app/src/main/java/ohi/andre/consolelauncher/MainManager.java:93-99 | for every trigger: only a claiming Tui trigger writes lastCommand (to the input); no trigger writes the current directory; only the App trigger can write the cached template; events are only appended; the shell trigger always claims |
| Dispatch.LaunchStep | app/src/main/java/ohi/andre/consolelauncher/MainManager.java:258-286 | launched iff the intent exists; failure leaves the state untouched; success appends the history line (when shown, from the cached or configured template) and then the launch |
| Dispatch.ShellSubmission | app/src/main/java/ohi/andre/consolelauncher/MainManager.java:381-389 | exactly one shell submission, last; the literal "su" when the trimmed input equals "su" ignoring case, preceded by a root request iff su is available and a rooter is set; otherwise the input itself, tagged CD_CODE with the cd listener iff it contains "cd ", and untagged with no listener when it does not |
| Dispatch.GroupStep | app/src/main/java/ohi/andre/consolelauncher/MainManager.java:315-346 | only the log changes, by at most one event; with no group list or no group of that name it passes and nothing changes; for the first group of that name: with no residual it claims after printing the listing of its members' labels, otherwise it records the use of the residual and the verdict is what use returns (true claims, false passes, a throw throws) |
| Dispatch.AliasStep | app/src/main/java/ohi/andre/consolelauncher/MainManager.java:293-313 | claims iff the lookup hits, and then adds exactly the executer call with the formatted value and the alias name; a miss or a throwing lookup changes nothing |
| Dispatch.CommandOutput | app/src/main/java/ohi/andre/consolelauncher/MainManager.java:422-430 | at most one output line: the command's output, or the trace of its failure; nothing when the command returns null |
| Dispatch.TuiStep | app/src/main/java/ohi/andre/consolelauncher/MainManager.java:407-437 | claims iff the parse yields a command, and only then records the input as the last command and adds exactly the output of that command's exec (run with the input as last command), its trace, or nothing; otherwise nothing changes |
| Dispatch.AppStep | app/src/main/java/ohi/andre/consolelauncher/MainManager.java:398-405 | never throws; with no shown app of that label it passes and nothing changes; otherwise the effect is performLaunch of the app found, claiming iff it launched |
| Dispatch.ShellStep | app/src/main/java/ohi/andre/consolelauncher/MainManager.java:375-395 | always claims, and adds exactly the shell submission to the log |
| Dispatch.RunChain | app/src/main/java/ohi/andre/consolelauncher/MainManager.java:189-201 | the deciding trigger is one of the chain; a failure ends the log with its printed trace; the last command becomes the input iff the Tui trigger handled it; the directory is untouched and events are only appended |
| Dispatch.DispatchAll | app/src/main/java/ohi/andre/consolelauncher/MainManager.java:189-202 | over all sub-commands: the directory is untouched, events are only appended, and the last command is the old one or one of the sub-commands |
| Dispatch.DispatchLine | app/src/main/java/ohi/andre/consolelauncher/MainManager.java:164-203 | without a session: the alias preview, when shown, is the first event added; events are only appended; the directory is untouched; the last command is the old one or one of the sub-commands of the normalised line |
| Dispatch.Captured | app/src/main/java/ohi/andre/consolelauncher/MainManager.java:169-171 | the normalised input joins afterObjects exactly when no permission is awaited; the rest of the session view is kept |
| Dispatch.ShellFeedback | app/src/main/java/ohi/andre/consolelauncher/MainManager.java:353-373 | the cd listener submits "pwd" with PWD_CODE exactly on CD_CODE; the current directory becomes the reported path only for PWD_CODE with exactly one output line naming an existing path |
| DispatchProperties.VerdictIgnoresState | app/src/main/java/ohi/andre/consolelauncher/MainManager.java:290 | two states with the same last command and current directory get the same verdict from every trigger: the verdict reads only what the collaborators handed mainPack can see |
| DispatchProperties.ClaimRules | app/src/main/java/ohi/andre/consolelauncher/MainManager.java:293-437 | each trigger's claim rule from its collaborators: group found and (no residual or use returns true), throwing iff use throws; alias iff the lookup hits; Tui iff the parse yields a command; App iff a shown app has the label and an intent; Shell always |
| DispatchProperties.FirstNonPass | app/src/main/java/ohi/andre/consolelauncher/MainManager.java:189-201 | the index of the first trigger in the chain whose verdict is not "pass"; all before it pass |
| DispatchProperties.FirstDecisiveTriggerWins | app/src/main/java/ohi/andre/consolelauncher/MainManager.java:189-201 | the chain ends at the first trigger that does not pass: handled by it if it claimed, failed in it if it threw; if all pass the sub-command is unclaimed |
| DispatchProperties.LaterTriggersUntouched | app/src/main/java/ohi/andre/consolelauncher/MainManager.java:189-201 | EndsAtDecisive: the state after the chain is that of offering the triggers up to the decisive one, plus the printed trace when it threw; later triggers have no effect |
| DispatchProperties.ShellInChainClaims | app/src/main/java/ohi/andre/consolelauncher/MainManager.java:189-201 | a chain that contains the shell trigger never leaves its input unclaimed |
| DispatchProperties.ShellCatchesEverything | app/src/main/java/ohi/andre/consolelauncher/MainManager.java:93-99 | with the shipped order no sub-command is unclaimed, and a group claim shadows every later trigger (a group beats an alias of the same name) |
| DispatchProperties.DispatchAllAppend | app/src/main/java/ohi/andre/consolelauncher/MainManager.java:189-202 | sub-commands are dispatched left to right, each once, and no outcome of one (a throw included) stops the next |
| DispatchProperties.DispatchAllSnoc | app/src/main/java/ohi/andre/consolelauncher/MainManager.java:189-202 | the last sub-command is one more chain run on the state the earlier ones left |
| DispatchProperties.SingleSubCommand | app/src/main/java/ohi/andre/consolelauncher/MainManager.java:182-187 | with an empty or absent separator the normalised input is the one sub-command |
| DispatchProperties.CdIsTagged | app/src/main/java/ohi/andre/consolelauncher/MainManager.java:385-386 | "cd <dir>" is submitted tagged CD_CODE with the cd listener |
| DispatchProperties.CdThenPwd | app/src/main/java/ohi/andre/consolelauncher/MainManager.java:353-389 | cd submission, then pwd on its result, then the directory moves to the reported path iff it exists |
| JavaStrings.IndexOf | app/src/main/java/ohi/andre/consolelauncher/MainManager.java:319 | the index returned is where the pattern first occurs; none means it never occurs |
| JavaStrings.Contains | app/src/main/java/ohi/andre/consolelauncher/MainManager.java:385 | true iff the pattern occurs somewhere |
| JavaStrings.Trim | app/src/main/java/ohi/andre/consolelauncher/MainManager.java:381 | the result is the slice of the input between a run of characters at or below U+0020 at each end, and itself starts and ends above U+0020; a blank-free string is unchanged |
| JavaStrings.TrimExample | app/src/main/java/ohi/andre/consolelauncher/MainManager.java:381 | any result the trim contract admits for " su " is "su" |
| JavaStrings.EqualsIgnoreCaseSu | app/src/main/java/ohi/andre/consolelauncher/MainManager.java:381 | true exactly for the six two-character strings su, sU, Su, SU, ſu, ſU |
| JavaStrings.Pieces | app/src/main/java/ohi/andre/consolelauncher/MainManager.java:184 | there is always at least one piece; PiecesCutLeftmost, JoinPieces and PiecesAreSeparatorFree say what the pieces are |
| JavaStrings.PiecesCutLeftmost | app/src/main/java/ohi/andre/consolelauncher/MainManager.java:184 | without an occurrence the one piece is the text; otherwise the first piece runs up to the leftmost occurrence of the separator (none starts earlier), and the rest are the pieces of the text after it |
| JavaStrings.DropTrailingEmpty | app/src/main/java/ohi/andre/consolelauncher/MainManager.java:184 | the result is a prefix whose dropped part is all empty strings and whose last element is non-empty |
| JavaStrings.JoinPieces | app/src/main/java/ohi/andre/consolelauncher/MainManager.java:184 | joining the split pieces with the separator gives back the input |
| JavaStrings.PiecesAreSeparatorFree | app/src/main/java/ohi/andre/consolelauncher/MainManager.java:184 | no split piece holds the separator |
| JavaStrings.Split | app/src/main/java/ohi/andre/consolelauncher/MainManager.java:184 | the input alone when the separator does not occur; otherwise a prefix of the pieces whose dropped tail is all empty strings and whose last element is non-empty |
| JavaStrings.SplitIsSeparatorFree | app/src/main/java/ohi/andre/consolelauncher/MainManager.java:184 | no element of a split holds the separator |
| Dispatch.SubCommands | app/src/main/java/ohi/andre/consolelauncher/MainManager.java:182-187 | an empty or absent separator gives the normalised input as the one sub-command; otherwise the sub-commands are exactly the split of the input on the separator, none holding it |
| LaunchFormat.ReplaceAllKeepsSettled | app/src/main/java/ohi/andre/consolelauncher/MainManager.java:272-275 | a replaceAll finds nothing to replace in text with no placeholder for its letter |
| LaunchFormat.FormatLaunchPlain | app/src/main/java/ohi/andre/consolelauncher/MainManager.java:271-275 | a template without % is printed unchanged |
| LaunchFormat.ReplaceAllAtPlaceholder | app/src/main/java/ohi/andre/consolelauncher/MainManager.java:272-275 | for all texts: after a stretch with no placeholder, the first %x (x the letter in either ASCII case) is replaced by the value inserted literally, and the scan goes on after it without rescanning the value |
| LaunchFormat.ReplaceAllResolves | app/src/main/java/ohi/andre/consolelauncher/MainManager.java:253-256 | a case-insensitive literal replacement by %-free text in text with no "%%" removes every placeholder of its letter and creates none |
| LaunchFormat.FormatLaunchResolves | app/src/main/java/ohi/andre/consolelauncher/MainManager.java:253-275 | with no "%%" in the template and no % in the class name, package name and label, the history text keeps none of %a %p %l %n |
| LaunchFormat.SubstitutionIsSequential | app/src/main/java/ohi/andre/consolelauncher/MainManager.java:271-275 | one worked example of the four passes running in sequence: %A matches like %a, and a %p inside the class name is then replaced by the package name |

## Left out

- Background threads (`StoppableThread`): the work of the Tui and Shell triggers runs synchronously, at once, and its events are appended in place. Interleaving and the racy directory update are not modelled.
- Android and process layer: `Context`, `Intent` and `startActivity` become a `StartActivity` event. `SpannableString`/`ForegroundColorSpan` colouring and `TimeManager.replace` on the history line are left out: the event carries the plain formatted text. The `Shell.Interactive` process becomes `ShellCommand` events. `Shell.SU.available()` and the presence of a rooter are given booleans.
- Constructor wiring: the preference manager, contact, music and RSS managers, the HTTP client and the shell holder. The configuration values (alias preview and its colour, history visibility, separator, history template) are a `Config` value. The template is read once, on first use, as the code does; the history colours are not modelled.
- Collaborator internals are function-typed fields of `Collaborators` with no further meaning: `removeUnncesarySpaces`, `getAlias`, `format`, `formatLabel`, `CommandTuils.parse`, `Command.exec`, app lookup, `getIntent`, `printApps`, `File.exists` and `getStackTrace` (a thrown exception is its trace text).
- `CommandTuils.parse`, `Command.exec` and `Group.use` receive the pack, and the model lets them read only its last command and current directory (a `PackView`). The managers and other fields inside `mainPack` are not modelled, so whatever these collaborators read from them is folded into the collaborator function itself. `exec` reads the view as it is after the last command is recorded. Whether a parse claims therefore depends on the state only through those two fields.
- `Command.exec` and `CommandTuils.parse` are modelled without effects on `mainPack` or on the dispatcher. In the code, a command reaches the pack, and through it the redirection slot and the public `currentDirectory`. A session that a command opens appears in the model only as a separate `PrepareRedirection` call. So these contracts hold because the model gives those collaborators no effects: `OnCommand` keeps the slot; `RunChain`, `DispatchAll` and `DispatchLine` leave the directory untouched; `DispatchAll` and `DispatchLine` say the last command is the old one or one of the sub-commands.
- `AppUtils.labelList(members, false)` is not part of this model; `Labels` takes it to return the members' public labels in order.
- The pwd listener stores the reported line itself as the current directory. The code stores `new File(line)`, which normalises the path (a trailing separator, for example); that normalisation and `File` identity are not modelled.
- Strings are sequences of Unicode scalar values, not Java's UTF-16 code units: a supplementary character counts as one `char`, and unpaired surrogates cannot occur. Length, index and `trim` agree with Java on text without supplementary characters.
- Exceptions are modelled only where the collaborator may throw: `getAlias`, `parse`, `Group.use` and `Command.exec`. Runtime exceptions from the other collaborator calls are not.
- `executer.exec` of an alias value is recorded as an `AliasExec` event. Its re-entry into the dispatcher belongs to code that is not part of this model.
- What `Group.use` does besides its result is not modelled: the call is recorded as a `GroupUse` event.
- `String.split` regex semantics: the separator is read literally. Java's drop of trailing empty strings, and its "no match gives the whole input" rule, are modelled.
- Case rules: `Pattern.CASE_INSENSITIVE` is modelled as ASCII-only, as Java does without `UNICODE_CASE`. `equalsIgnoreCase("su")` also accepts U+017F for the first letter. `Tuils.NEWLINE` is taken to be "\n".
- Lifecycle and setter plumbing: `dispose`, `destroy` (shell kill and close), `onLongBack`, `setHintable`, `setRooter`, `setRedirectionListener`. Whether a redirection listener is set is a given boolean.
- `hintable.updateHint()` after a directory change, and `Tuils.log` of background failures, are not modelled.
- `onRedirect` is a function of the session's two lists. Any state the real session changes from inside it (for example by calling `cleanup`) is not modelled.
