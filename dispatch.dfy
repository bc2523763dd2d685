/**
 * The command-dispatch pipeline of MainManager as functions over a value of the
 * state it touches. The collaborators (alias table, group registry, command
 * parser, application registry, shell, file system, output sink) are given as
 * a value of `Collaborators`; what the triggers do to the outside world is an
 * ordered list of `Event`s.
 */
module Dispatch {
  import opened Options
  import opened JavaStrings
  import opened LaunchFormat

  /** `commandCode` tags of the shell trigger's submissions. */
  const CD_CODE: int := 10
  const PWD_CODE: int := 11

  /** A collaborator call's result: its value, or the stack-trace text of the exception it raised. */
  datatype Fallible<T> = Returned(value: T) | Raised(trace: string)

  /** An application as the registry describes it (`AppsManager.LaunchInfo`). */
  datatype LaunchInfo = LaunchInfo(packageName: string, activityName: string, publicLabel: string)

  /** The launch target the registry resolves a `LaunchInfo` to: its component's names. */
  datatype Intent = Intent(className: string, packageName: string)

  /** An alias hit from `AliasManager.getAlias`: the alias's value, its name, and the text after it. */
  datatype AliasHit = AliasHit(value: string, name: string, residual: string)

  /** A command the structured-command parser built; its meaning lies with the `exec` collaborator. */
  datatype Command = Command(name: string, args: seq<string>)

  /** An application group: its name, its members, and its handler for text typed after the name. */
  datatype Group = Group(name: string, members: seq<LaunchInfo>, use: (PackView, string) -> Fallible<bool>)

  /** Which result listener a shell submission carries. */
  datatype Listener = NoListener | CdResult | PwdResult

  /** What the dispatcher does to the outside world, in order. */
  datatype Event =
    | Output(text: string)                                  // out.onOutput(text)
    | ColoredOutput(color: int, text: string)               // out.onOutput(color, text)
    | LaunchHistory(text: string)                           // the styled launch-history line
    | StartActivity(intent: Intent)                         // the launch itself
    | AliasExec(input: string, alias: string)               // executer.exec(value, name)
    | GroupUse(group: string, residual: string)             // g.use(mainPack, residual) was called
    | ShellCommand(command: string, code: Option<int>, listener: Listener)  // interactive.addCommand
    | RootRequest                                           // rooter.onRoot()
    | RedirectionRequest                                    // redirectionListener.onRedirectionRequest
    | RedirectionEnd                                        // redirectionListener.onRedirectionEnd

  /** The configuration values the dispatcher reads. */
  datatype Config = Config(
    showAliasValue: bool,
    showAppHistory: bool,
    aliasContentColor: int,
    separator: string,
    launchFormat: string)

  /** The collaborators, each as the function it computes. */
  datatype Collaborators = Collaborators(
    removeSpaces: string -> string,                  // Tuils.removeUnncesarySpaces
    formatLabel: (string, string) -> string,         // AliasManager.formatLabel(alias, input)
    groups: Option<seq<Group>>,                      // AppsManager.groups, possibly null
    printApps: seq<string> -> string,                // AppUtils.printApps of a label list
    getAlias: string -> Fallible<Option<AliasHit>>,  // AliasManager.getAlias(input, true)
    formatAlias: (string, string) -> string,         // AliasManager.format(value, residual)
    parse: (string, PackView) -> Fallible<Option<Command>>,  // CommandTuils.parse(input, pack, false)
    exec: (Command, PackView) -> Fallible<Option<string>>,   // Command.exec(resources, pack), in the background task
    findLaunchInfo: string -> Option<LaunchInfo>,    // findLaunchInfoWithLabel(input, SHOWN_APPS)
    getIntent: LaunchInfo -> Option<Intent>,         // AppsManager.getIntent
    suAvailable: bool,                               // Shell.SU.available()
    rooterSet: bool,                                 // mainPack.rooter != null
    redirectionListenerSet: bool,                    // redirectionListener != null
    fileExists: string -> bool)                      // new File(path).exists()

  /**
   * The state the pipeline reads and writes: MainPack's `lastCommand` and
   * `currentDirectory`, the cached launch template, and the events so far.
   */
  datatype Pack = Pack(
    lastCommand: Option<string>,
    currentDirectory: Option<string>,
    appFormat: Option<string>,
    log: seq<Event>)

  /**
   * What a collaborator handed `mainPack` can read of the dispatcher's state:
   * the last command and the current directory (the event log and the cached
   * launch template are the dispatcher's own).
   */
  datatype PackView = PackView(lastCommand: Option<string>, currentDirectory: Option<string>)

  function Visible(p: Pack): PackView {
    PackView(p.lastCommand, p.currentDirectory)
  }

  /** The five triggers, in the order `MainManager.triggers` lists them. */
  datatype Trigger = GroupTrigger | AliasTrigger | TuiCommandTrigger | AppTrigger | ShellCommandTrigger

  const Chain: seq<Trigger> := [GroupTrigger, AliasTrigger, TuiCommandTrigger, AppTrigger, ShellCommandTrigger]

  /** What one trigger answered: it claimed the input, it did not, or it threw. */
  datatype Verdict = Claimed | Passed | Threw(trace: string)

  datatype Step = Step(verdict: Verdict, pack: Pack)

  /** Which trigger ended the chain for a sub-command, if any. */
  datatype Outcome = HandledBy(trigger: Trigger) | FailedIn(trigger: Trigger, trace: string) | Unclaimed

  datatype ChainResult = ChainResult(outcome: Outcome, pack: Pack)

  datatype LaunchResult = LaunchResult(launched: bool, pack: Pack)

  /** The part of a redirection session the dispatcher reads and writes. */
  datatype SessionView = SessionView(beforeObjects: seq<string>, afterObjects: seq<string>, waitingPermission: bool)

  function Emit(p: Pack, e: Event): (r: Pack)
    ensures r.log == p.log + [e]
  {
    p.(log := p.log + [e])
  }

  // ---------------------------------------------------------------- GroupTrigger

  datatype Head = Head(name: string, residual: Option<string>)

  /** The group trigger's cut at the first space: the name, and the text after the space if there is one. */
  function SplitFirstSpace(input: string): (h: Head)
    ensures forall k :: 0 <= k < |h.name| ==> h.name[k] != ' '
    ensures h.residual.None? ==> h.name == input
    ensures h.residual.Some? ==> input == h.name + " " + h.residual.value
  {
    SingleCharOccurrences(input, ' ');
    match IndexOf(input, " ")
    case None => Head(input, None)
    case Some(i) =>
      CutAround(input, " ", i);
      Head(input[..i], Some(input[i + 1..]))
  }

  /** The index of the first group at or after `from` named exactly `name`. */
  function FindGroupFrom(groups: seq<Group>, name: string, from: nat): (r: Option<nat>)
    decreases |groups| - from
    ensures r.Some? ==> from <= r.value < |groups| && groups[r.value].name == name
    ensures forall j :: from <= j < |groups| && (r.None? || j < r.value) ==> groups[j].name != name
  {
    if from >= |groups| then None
    else if groups[from].name == name then Some(from)
    else FindGroupFrom(groups, name, from + 1)
  }

  function FindGroup(groups: seq<Group>, name: string): (r: Option<nat>)
    ensures r.Some? ==> r.value < |groups| && groups[r.value].name == name
    ensures forall j :: 0 <= j < |groups| && (r.None? || j < r.value) ==> groups[j].name != name
  {
    FindGroupFrom(groups, name, 0)
  }

  /** `AppUtils.labelList(members, false)`: the members' public labels, in order. */
  function Labels(members: seq<LaunchInfo>): (r: seq<string>)
    ensures |r| == |members| && forall k :: 0 <= k < |r| ==> r[k] == members[k].publicLabel
  {
    seq(|members|, k requires 0 <= k < |members| => members[k].publicLabel)
  }

  /**
   * `GroupTrigger.trigger`. Without a group list or a group of that name it
   * passes and changes nothing; otherwise it prints the group's apps or hands
   * the residual to the group's `use`, adding at most that one event.
   */
  function GroupStep(env: Collaborators, input: string, p: Pack): (r: Step)
    ensures r.pack.lastCommand == p.lastCommand && r.pack.currentDirectory == p.currentDirectory && r.pack.appFormat == p.appFormat
    ensures |p.log| <= |r.pack.log| <= |p.log| + 1 && r.pack.log[..|p.log|] == p.log
    ensures env.groups.None? || FindGroup(env.groups.value, SplitFirstSpace(input).name).None? ==> r == Step(Passed, p)
    ensures env.groups.Some? && FindGroup(env.groups.value, SplitFirstSpace(input).name).Some? ==>
      var h := SplitFirstSpace(input);
      var g := env.groups.value[FindGroup(env.groups.value, h.name).value];
      if h.residual.None? then r == Step(Claimed, Emit(p, Output(env.printApps(Labels(g.members)))))
      else
        r.pack == Emit(p, GroupUse(g.name, h.residual.value)) &&
        r.verdict == match g.use(Visible(p), h.residual.value)
                     case Returned(b) => (if b then Claimed else Passed)
                     case Raised(e) => Threw(e)
  {
    var h := SplitFirstSpace(input);
    if env.groups.None? then Step(Passed, p)
    else
      var groups := env.groups.value;
      match FindGroup(groups, h.name)
      case None => Step(Passed, p)
      case Some(k) =>
        var g := groups[k];
        match h.residual
        case None => Step(Claimed, Emit(p, Output(env.printApps(Labels(g.members)))))
        case Some(rest) =>
          var used := Emit(p, GroupUse(g.name, rest));
          match g.use(Visible(p), rest)
          case Returned(b) => Step(if b then Claimed else Passed, used)
          case Raised(e) => Step(Threw(e), used)
  }

  // ---------------------------------------------------------------- AliasTrigger

  /**
   * `AliasTrigger.trigger`: a hit is claimed after the formatted value is handed
   * to the executer; a miss passes and a failed lookup throws, both changing nothing.
   */
  function AliasStep(env: Collaborators, input: string, p: Pack): (r: Step)
    ensures r.verdict != Claimed ==> r.pack == p
    ensures r.verdict == Claimed <==> env.getAlias(input).Returned? && env.getAlias(input).value.Some?
    ensures r.verdict == Claimed ==>
      var hit := env.getAlias(input).value.value;
      r.pack == Emit(p, AliasExec(env.formatAlias(hit.value, hit.residual), hit.name))
  {
    match env.getAlias(input)
    case Raised(e) => Step(Threw(e), p)
    case Returned(None) => Step(Passed, p)
    case Returned(Some(hit)) =>
      Step(Claimed, Emit(p, AliasExec(env.formatAlias(hit.value, hit.residual), hit.name)))
  }

  // ---------------------------------------------------------------- TuiCommandTrigger

  /** What the command's background task prints: its output if any, or the trace of its failure. */
  function CommandOutput(res: Fallible<Option<string>>): (r: seq<Event>)
    ensures |r| <= 1 && (r == [] <==> res == Returned(None))
    ensures r != [] ==> r[0] == Output(if res.Raised? then res.trace else res.value.value)
  {
    match res
    case Returned(Some(text)) => [Output(text)]
    case Returned(None) => []
    case Raised(e) => [Output(e)]
  }

  /**
   * `TuiCommandTrigger.trigger`: a parsed command is claimed, becomes the last
   * command, and its output or failure trace is printed; otherwise nothing changes.
   */
  function TuiStep(env: Collaborators, input: string, p: Pack): (r: Step)
    ensures r.verdict != Claimed ==> r.pack == p
    ensures r.verdict == Claimed <==> env.parse(input, Visible(p)).Returned? && env.parse(input, Visible(p)).value.Some?
    ensures r.verdict == Claimed ==>
      r.pack.lastCommand == Some(input) && r.pack.currentDirectory == p.currentDirectory && r.pack.appFormat == p.appFormat &&
      |p.log| <= |r.pack.log| <= |p.log| + 1 && r.pack.log[..|p.log|] == p.log
    ensures r.verdict == Claimed ==>
      r.pack.log == p.log + CommandOutput(env.exec(env.parse(input, Visible(p)).value.value, PackView(Some(input), p.currentDirectory)))
  {
    match env.parse(input, Visible(p))
    case Raised(e) => Step(Threw(e), p)
    case Returned(None) => Step(Passed, p)
    case Returned(Some(c)) =>
      var recorded := p.(lastCommand := Some(input));
      Step(Claimed, recorded.(log := p.log + CommandOutput(env.exec(c, Visible(recorded)))))
  }

  // ---------------------------------------------------------------- performLaunch and AppTrigger

  /** `performLaunch(info)`: nothing at all without an intent; otherwise the history line (if shown) and the launch. */
  function LaunchStep(env: Collaborators, cfg: Config, info: LaunchInfo, p: Pack): (r: LaunchResult)
    ensures r.launched <==> env.getIntent(info).Some?
    ensures !r.launched ==> r.pack == p
    ensures r.launched ==>
      var it := env.getIntent(info).value;
      var template := p.appFormat.GetOr(cfg.launchFormat);
      r.pack.lastCommand == p.lastCommand && r.pack.currentDirectory == p.currentDirectory &&
      r.pack.appFormat == (if cfg.showAppHistory then Some(template) else p.appFormat) &&
      r.pack.log == p.log
        + (if cfg.showAppHistory then [LaunchHistory(FormatLaunch(template, it.className, it.packageName, info.publicLabel))] else [])
        + [StartActivity(it)]
  {
    match env.getIntent(info)
    case None => LaunchResult(false, p)
    case Some(it) =>
      var shown :=
        if cfg.showAppHistory then
          var template := if p.appFormat.None? then cfg.launchFormat else p.appFormat.value;
          var text := FormatLaunch(template, it.className, it.packageName, info.publicLabel);
          Emit(p.(appFormat := Some(template)), LaunchHistory(text))
        else p;
      LaunchResult(true, Emit(shown, StartActivity(it)))
  }

  /**
   * `AppTrigger.trigger`: never throws; it passes with nothing changed unless a
   * shown app has the label and launches, and a launch ends with the activity start.
   */
  function AppStep(env: Collaborators, cfg: Config, input: string, p: Pack): (r: Step)
    ensures !r.verdict.Threw?
    ensures r.verdict == Passed ==> r.pack == p
    ensures r.verdict == Claimed ==>
      r.pack.lastCommand == p.lastCommand && r.pack.currentDirectory == p.currentDirectory &&
      |p.log| < |r.pack.log| && r.pack.log[..|p.log|] == p.log && r.pack.log[|r.pack.log| - 1].StartActivity?
    ensures env.findLaunchInfo(input).None? ==> r == Step(Passed, p)
    ensures env.findLaunchInfo(input).Some? ==>
      var launch := LaunchStep(env, cfg, env.findLaunchInfo(input).value, p);
      r == Step(if launch.launched then Claimed else Passed, launch.pack)
  {
    match env.findLaunchInfo(input)
    case None => Step(Passed, p)
    case Some(info) =>
      var r := LaunchStep(env, cfg, info, p);
      Step(if r.launched then Claimed else Passed, r.pack)
  }

  // ---------------------------------------------------------------- ShellCommandTrigger

  /**
   * What the shell trigger's task submits: exactly one shell command, as the last
   * event, possibly preceded by a root request. The literal "su" for input that
   * trims to "su" in any case; the input tagged CD_CODE with the cd listener when
   * it contains "cd "; the input verbatim otherwise.
   */
  function ShellSubmission(env: Collaborators, input: string): (r: seq<Event>)
    ensures |r| >= 1 && r[|r| - 1].ShellCommand?
    ensures forall k :: 0 <= k < |r| - 1 ==> r[k] == RootRequest
    ensures |r| == 2 <==> EqualsIgnoreCaseSu(Trim(input)) && env.suAvailable && env.rooterSet
    ensures EqualsIgnoreCaseSu(Trim(input)) ==> r[|r| - 1] == ShellCommand("su", None, NoListener)
    ensures !EqualsIgnoreCaseSu(Trim(input)) ==> |r| == 1 && r[0].command == input
    ensures r[|r| - 1].code == Some(CD_CODE) <==> !EqualsIgnoreCaseSu(Trim(input)) && Contains(input, "cd ")
    ensures r[|r| - 1].listener == CdResult <==> r[|r| - 1].code == Some(CD_CODE)
    ensures !EqualsIgnoreCaseSu(Trim(input)) && !Contains(input, "cd ") ==> r == [ShellCommand(input, None, NoListener)]
  {
    if EqualsIgnoreCaseSu(Trim(input)) then
      (if env.suAvailable && env.rooterSet then [RootRequest] else []) + [ShellCommand("su", None, NoListener)]
    else if Contains(input, "cd ") then
      [ShellCommand(input, Some(CD_CODE), CdResult)]
    else
      [ShellCommand(input, None, NoListener)]
  }

  /** `ShellCommandTrigger.trigger`: always claims; only the shell submission is added. */
  function ShellStep(env: Collaborators, input: string, p: Pack): (r: Step)
    ensures r.verdict == Claimed
    ensures r.pack.lastCommand == p.lastCommand && r.pack.currentDirectory == p.currentDirectory && r.pack.appFormat == p.appFormat
    ensures r.pack.log == p.log + ShellSubmission(env, input)
  {
    Step(Claimed, p.(log := p.log + ShellSubmission(env, input)))
  }

  // ---------------------------------------------------------------- the chain

  /**
   * One trigger offered one sub-command. Only the parser trigger writes
   * `lastCommand`, and only when it claims; none writes the current directory;
   * every trigger only appends events; the shell trigger always claims.
   */
  function TriggerStep(env: Collaborators, cfg: Config, t: Trigger, input: string, p: Pack): (r: Step)
    ensures r.pack.currentDirectory == p.currentDirectory
    ensures r.pack.lastCommand == if t == TuiCommandTrigger && r.verdict == Claimed then Some(input) else p.lastCommand
    ensures t != AppTrigger ==> r.pack.appFormat == p.appFormat
    ensures |p.log| <= |r.pack.log| && r.pack.log[..|p.log|] == p.log
    ensures t == ShellCommandTrigger ==> r.verdict == Claimed
  {
    match t
    case GroupTrigger => GroupStep(env, input, p)
    case AliasTrigger => AliasStep(env, input, p)
    case TuiCommandTrigger => TuiStep(env, input, p)
    case AppTrigger => AppStep(env, cfg, input, p)
    case ShellCommandTrigger => ShellStep(env, input, p)
  }

  /**
   * The inner loop of `onCommand`: offer `input` to each trigger in turn, stop at
   * the first that claims; when one throws, print its trace and stop.
   */
  function RunChain(env: Collaborators, cfg: Config, chain: seq<Trigger>, input: string, p: Pack): (r: ChainResult)
    decreases |chain|
    ensures r.outcome.HandledBy? || r.outcome.FailedIn? ==> r.outcome.trigger in chain
    ensures r.outcome.FailedIn? ==> r.pack.log != [] && r.pack.log[|r.pack.log| - 1] == Output(r.outcome.trace)
    ensures r.pack.lastCommand == if r.outcome == HandledBy(TuiCommandTrigger) then Some(input) else p.lastCommand
    ensures r.pack.currentDirectory == p.currentDirectory
    ensures |p.log| <= |r.pack.log| && r.pack.log[..|p.log|] == p.log
  {
    if chain == [] then ChainResult(Unclaimed, p)
    else
      var st := TriggerStep(env, cfg, chain[0], input, p);
      match st.verdict
      case Claimed => ChainResult(HandledBy(chain[0]), st.pack)
      case Threw(e) => ChainResult(FailedIn(chain[0], e), Emit(st.pack, Output(e)))
      case Passed => RunChain(env, cfg, chain[1..], input, st.pack)
  }

  /** The outer loop of `onCommand`: each sub-command in turn, whatever the previous one's outcome. */
  function DispatchAll(env: Collaborators, cfg: Config, cmds: seq<string>, p: Pack): (r: Pack)
    decreases |cmds|
    ensures r.currentDirectory == p.currentDirectory
    ensures |p.log| <= |r.log| && r.log[..|p.log|] == p.log
    ensures r.lastCommand == p.lastCommand || exists k :: 0 <= k < |cmds| && r.lastCommand == Some(cmds[k])
  {
    if cmds == [] then p
    else DispatchAll(env, cfg, cmds[1..], RunChain(env, cfg, Chain, cmds[0], p).pack)
  }

  /** The sub-commands of a normalised input: split on the separator unless it is empty. */
  function SubCommands(separator: string, input: string): (r: seq<string>)
    ensures |separator| == 0 || !Contains(input, separator) ==> r == [input]
    ensures |separator| > 0 ==> forall k :: 0 <= k < |r| ==> !Contains(r[k], separator)
    ensures |separator| > 0 ==> r == Split(input, separator)
  {
    if |separator| > 0 then
      SplitIsSeparatorFree(input, separator);
      Split(input, separator)
    else [input]
  }

  /** `onCommand(input, alias)` with no redirection session. */
  function DispatchLine(env: Collaborators, cfg: Config, input: string, alias: Option<string>, p: Pack): (r: Pack)
    ensures r.currentDirectory == p.currentDirectory
    ensures |p.log| <= |r.log| && r.log[..|p.log|] == p.log
    ensures alias.Some? && cfg.showAliasValue ==>
      |r.log| > |p.log| && r.log[|p.log|] == ColoredOutput(cfg.aliasContentColor, env.formatLabel(alias.value, env.removeSpaces(input)))
    ensures var cmds := SubCommands(cfg.separator, env.removeSpaces(input));
      r.lastCommand == p.lastCommand || exists k :: 0 <= k < |cmds| && r.lastCommand == Some(cmds[k])
  {
    var norm := env.removeSpaces(input);
    var previewed :=
      if alias.Some? && cfg.showAliasValue then Emit(p, ColoredOutput(cfg.aliasContentColor, env.formatLabel(alias.value, norm)))
      else p;
    var r := DispatchAll(env, cfg, SubCommands(cfg.separator, norm), previewed);
    LogExtends(p.log, previewed.log, r.log);
    r
  }

  /** A log that extends one extending `a` extends `a`, and keeps every event of the middle one. */
  lemma LogExtends(a: seq<Event>, b: seq<Event>, c: seq<Event>)
    requires |a| <= |b| && b[..|a|] == a
    requires |b| <= |c| && c[..|b|] == b
    ensures |a| <= |c| && c[..|a|] == a
    ensures forall k :: 0 <= k < |b| ==> c[k] == b[k]
  {
    forall k | 0 <= k < |b| ensures c[k] == b[k] {
      assert c[k] == c[..|b|][k];
    }
  }

  /** What an active redirection session records of an input: it is captured unless a permission is awaited. */
  function Captured(v: SessionView, norm: string): (r: SessionView)
    ensures r.beforeObjects == v.beforeObjects && r.waitingPermission == v.waitingPermission
    ensures r.afterObjects == if v.waitingPermission then v.afterObjects else v.afterObjects + [norm]
  {
    if v.waitingPermission then v else v.(afterObjects := v.afterObjects + [norm])
  }

  // ---------------------------------------------------------------- shell result listeners

  /**
   * A shell result delivered to the listener of its submission. The cd listener
   * asks for "pwd" with PWD_CODE whenever the code is CD_CODE; the pwd listener
   * moves the current directory to the reported path when the code is PWD_CODE,
   * the output is exactly one line and that path exists; nothing else changes.
   */
  function ShellFeedback(env: Collaborators, listener: Listener, commandCode: int, output: seq<string>, p: Pack): (r: Pack)
    ensures r.lastCommand == p.lastCommand && r.appFormat == p.appFormat
    ensures r.log == p.log + if listener == CdResult && commandCode == CD_CODE then [ShellCommand("pwd", Some(PWD_CODE), PwdResult)] else []
    ensures r.currentDirectory ==
      if listener == PwdResult && commandCode == PWD_CODE && |output| == 1 && env.fileExists(output[0])
      then Some(output[0]) else p.currentDirectory
  {
    match listener
    case NoListener => p
    case CdResult =>
      if commandCode == CD_CODE then Emit(p, ShellCommand("pwd", Some(PWD_CODE), PwdResult)) else p
    case PwdResult =>
      if commandCode == PWD_CODE && |output| == 1 && env.fileExists(output[0])
      then p.(currentDirectory := Some(output[0])) else p
  }
}
