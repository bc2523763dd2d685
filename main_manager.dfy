/**
 * MainManager as a class: the redirection slot, the two `onCommand` entry
 * points with their loops over sub-commands and triggers, the five triggers,
 * `performLaunch` with its cached template, and the shell result listeners.
 * Each method is proved to leave the state the functions of `Dispatch` describe.
 */
module Manager {
  import opened Options
  import opened JavaStrings
  import opened Dispatch

  /** A multi-turn session (`RedirectCommand`); its input lists are updated in place. */
  class RedirectCommand {
    var beforeObjects: seq<string>
    var afterObjects: seq<string>
    var waitingPermission: bool
    /** `onRedirect`: the session's reply, from what it has captured so far. */
    const onRedirect: (seq<string>, seq<string>) -> string

    constructor (before: seq<string>, waiting: bool, onRedirect: (seq<string>, seq<string>) -> string)
      ensures beforeObjects == before && afterObjects == [] && waitingPermission == waiting
      ensures this.onRedirect == onRedirect
    {
      beforeObjects := before;
      afterObjects := [];
      waitingPermission := waiting;
      this.onRedirect := onRedirect;
    }

    function View(): SessionView
      reads this
    {
      SessionView(beforeObjects, afterObjects, waitingPermission)
    }
  }

  /** What `onCommand(String, Object)` is handed besides the text. */
  datatype Selection = NoObject | LaunchInfoObject(info: LaunchInfo) | OtherObject

  class MainManager {
    const env: Collaborators
    const config: Config

    var redirect: RedirectCommand?
    var lastCommand: Option<string>
    var currentDirectory: Option<string>
    var appFormat: Option<string>
    /** Everything sent to the output sink, the shell, the executer and the launcher, in order. */
    var log: seq<Event>

    function Snapshot(): Pack
      reads this
    {
      Pack(lastCommand, currentDirectory, appFormat, log)
    }

    constructor (env: Collaborators, config: Config, initialDirectory: Option<string>)
      ensures this.env == env && this.config == config
      ensures redirect == null && lastCommand == None && currentDirectory == initialDirectory
      ensures appFormat == None && log == []
    {
      this.env := env;
      this.config := config;
      redirect := null;
      lastCommand := None;
      currentDirectory := initialDirectory;
      appFormat := None;
      log := [];
    }

    // ------------------------------------------------------------ the Redirectator

    /** `prepareRedirection`: the session takes the slot (replacing any other) and the listener hears of it. */
    method PrepareRedirection(cmd: RedirectCommand)
      modifies this
      ensures redirect == cmd
      ensures Snapshot() == old(Snapshot()).(log := old(log) + if env.redirectionListenerSet then [RedirectionRequest] else [])
    {
      redirect := cmd;
      if env.redirectionListenerSet {
        log := log + [RedirectionRequest];
      }
    }

    /**
     * `cleanup`: an active session has both input lists emptied and leaves the
     * slot; with no session nothing changes, so a second call does nothing.
     */
    method Cleanup()
      modifies this, redirect
      ensures redirect == null
      ensures old(redirect) != null ==>
        old(redirect).beforeObjects == [] && old(redirect).afterObjects == [] &&
        old(redirect).waitingPermission == old(redirect.waitingPermission) &&
        Snapshot() == old(Snapshot()).(log := old(log) + if env.redirectionListenerSet then [RedirectionEnd] else [])
      ensures old(redirect) == null ==> Snapshot() == old(Snapshot())
    {
      if redirect != null {
        redirect.beforeObjects := [];
        redirect.afterObjects := [];
        if env.redirectionListenerSet {
          log := log + [RedirectionEnd];
        }
        redirect := null;
      }
    }

    /** `sendPermissionNotGrantedWarning` is `cleanup`. */
    method SendPermissionNotGrantedWarning()
      modifies this, redirect
      ensures redirect == null
      ensures old(redirect) != null ==>
        old(redirect).beforeObjects == [] && old(redirect).afterObjects == [] &&
        old(redirect).waitingPermission == old(redirect.waitingPermission) &&
        Snapshot() == old(Snapshot()).(log := old(log) + if env.redirectionListenerSet then [RedirectionEnd] else [])
      ensures old(redirect) == null ==> Snapshot() == old(Snapshot())
    {
      Cleanup();
    }

    // ------------------------------------------------------------ the dispatcher

    /**
     * `onCommand(input, alias)`. With a session in the slot, the normalised input
     * is captured unless a permission is awaited, the session's reply is printed,
     * and nothing else happens: no preview, no splitting, no trigger. Otherwise
     * the state becomes `DispatchLine` of the old state.
     */
    method OnCommand(input: string, alias: Option<string>)
      modifies this, redirect
      ensures redirect == old(redirect)
      ensures old(redirect) != null ==>
        redirect.View() == Captured(old(redirect.View()), env.removeSpaces(input)) &&
        Snapshot() == Emit(old(Snapshot()), Output(redirect.onRedirect(redirect.beforeObjects, redirect.afterObjects)))
      ensures old(redirect) == null ==> Snapshot() == DispatchLine(env, config, input, alias, old(Snapshot()))
    {
      var norm := env.removeSpaces(input);
      if redirect != null {
        if !redirect.waitingPermission {
          redirect.afterObjects := redirect.afterObjects + [norm];
        }
        var output := redirect.onRedirect(redirect.beforeObjects, redirect.afterObjects);
        log := log + [Output(output)];
        return;
      }
      if alias.Some? && config.showAliasValue {
        log := log + [ColoredOutput(config.aliasContentColor, env.formatLabel(alias.value, norm))];
      }
      DispatchSubCommands(SubCommands(config.separator, norm));
    }

    /** The outer loop of `onCommand`: every sub-command in turn, whatever the outcome of the one before. */
    method DispatchSubCommands(cmds: seq<string>)
      requires redirect == null
      modifies this
      ensures redirect == null
      ensures Snapshot() == DispatchAll(env, config, cmds, old(Snapshot()))
    {
      ghost var start := Snapshot();
      var k := 0;
      while k < |cmds|
        invariant 0 <= k <= |cmds|
        invariant redirect == null
        invariant DispatchAll(env, config, cmds, start) == DispatchAll(env, config, cmds[k..], Snapshot())
      {
        assert cmds[k..][1..] == cmds[k + 1..];
        OfferToChain(cmds[k]);
        k := k + 1;
      }
    }

    /**
     * The inner loop of `onCommand`: `cmd` is offered to the triggers in order
     * until one claims it or throws; a thrown trace is printed.
     */
    method OfferToChain(cmd: string)
      requires redirect == null
      modifies this
      ensures redirect == null
      ensures Snapshot() == RunChain(env, config, Chain, cmd, old(Snapshot())).pack
    {
      ghost var before := Snapshot();
      var j := 0;
      var done := false;
      while !done && j < |Chain|
        invariant 0 <= j <= |Chain|
        invariant redirect == null
        invariant !done ==> RunChain(env, config, Chain, cmd, before).pack == RunChain(env, config, Chain[j..], cmd, Snapshot()).pack
        invariant done ==> RunChain(env, config, Chain, cmd, before).pack == Snapshot()
      {
        assert Chain[j..][0] == Chain[j] && Chain[j..][1..] == Chain[j + 1..];
        var verdict := Fire(Chain[j], cmd);
        match verdict {
          case Threw(trace) =>
            log := log + [Output(trace)];
            done := true;
          case Claimed =>
            done := true;
          case Passed =>
            j := j + 1;
        }
      }
    }

    /**
     * `onCommand(input, obj)`: a `LaunchInfo` whose public label is exactly the
     * (raw) input is launched directly, session or no session, and the result of
     * the launch is dropped; anything else is `onCommand(input, null)`.
     */
    method OnCommandWithObject(input: string, obj: Selection)
      modifies this, redirect
      ensures redirect == old(redirect)
      ensures obj.LaunchInfoObject? && obj.info.publicLabel == input ==>
        (redirect != null ==> redirect.View() == old(redirect.View())) &&
        Snapshot() == LaunchStep(env, config, obj.info, old(Snapshot())).pack
      ensures !(obj.LaunchInfoObject? && obj.info.publicLabel == input) ==>
        (old(redirect) != null ==>
          redirect.View() == Captured(old(redirect.View()), env.removeSpaces(input)) &&
          Snapshot() == Emit(old(Snapshot()), Output(redirect.onRedirect(redirect.beforeObjects, redirect.afterObjects)))) &&
        (old(redirect) == null ==> Snapshot() == DispatchLine(env, config, input, None, old(Snapshot())))
    {
      if !obj.LaunchInfoObject? {
        OnCommand(input, None);
        return;
      }
      if obj.info.publicLabel == input {
        var _ := PerformLaunch(obj.info);
      } else {
        OnCommand(input, None);
      }
    }

    /** Offers `input` to trigger `t`. */
    method Fire(t: Trigger, input: string) returns (v: Verdict)
      modifies this
      ensures redirect == old(redirect)
      ensures Step(v, Snapshot()) == TriggerStep(env, config, t, input, old(Snapshot()))
    {
      match t {
        case GroupTrigger => v := RunGroupTrigger(input);
        case AliasTrigger => v := RunAliasTrigger(input);
        case TuiCommandTrigger => v := RunTuiCommandTrigger(input);
        case AppTrigger => v := RunAppTrigger(input);
        case ShellCommandTrigger => v := RunShellCommandTrigger(input);
      }
    }

    // ------------------------------------------------------------ the triggers

    /** `GroupTrigger.trigger`: the first group with the name before the first space decides. */
    method RunGroupTrigger(input: string) returns (v: Verdict)
      modifies this
      ensures redirect == old(redirect)
      ensures Step(v, Snapshot()) == GroupStep(env, input, old(Snapshot()))
    {
      var h := SplitFirstSpace(input);
      if env.groups.None? {
        return Passed;
      }
      var groups := env.groups.value;
      var i := 0;
      while i < |groups|
        invariant 0 <= i <= |groups|
        invariant forall j :: 0 <= j < i ==> groups[j].name != h.name
      {
        var g := groups[i];
        if g.name == h.name {
          if h.residual.None? {
            log := log + [Output(env.printApps(Labels(g.members)))];
            return Claimed;
          }
          var rest := h.residual.value;
          log := log + [GroupUse(g.name, rest)];
          var used := g.use(PackView(lastCommand, currentDirectory), rest);
          match used {
            case Returned(b) => v := if b then Claimed else Passed;
            case Raised(e) => v := Threw(e);
          }
          return;
        }
        i := i + 1;
      }
      return Passed;
    }

    /** `AliasTrigger.trigger`: any alias hit is claimed, whatever the executer then does with it. */
    method RunAliasTrigger(input: string) returns (v: Verdict)
      modifies this
      ensures redirect == old(redirect)
      ensures Step(v, Snapshot()) == AliasStep(env, input, old(Snapshot()))
    {
      var alias := env.getAlias(input);
      if alias.Raised? {
        return Threw(alias.trace);
      }
      if alias.value.None? {
        return Passed;
      }
      var hit := alias.value.value;
      var value := env.formatAlias(hit.value, hit.residual);
      log := log + [AliasExec(value, hit.name)];
      return Claimed;
    }

    /**
     * `TuiCommandTrigger.trigger`: a parsed command is claimed and recorded as
     * the last command; its background task's output is appended at once.
     */
    method RunTuiCommandTrigger(input: string) returns (v: Verdict)
      modifies this
      ensures redirect == old(redirect)
      ensures Step(v, Snapshot()) == TuiStep(env, input, old(Snapshot()))
    {
      var parsed := env.parse(input, PackView(lastCommand, currentDirectory));
      if parsed.Raised? {
        return Threw(parsed.trace);
      }
      if parsed.value.None? {
        return Passed;
      }
      lastCommand := Some(input);
      var result := env.exec(parsed.value.value, PackView(lastCommand, currentDirectory));
      match result {
        case Returned(Some(text)) => log := log + [Output(text)];
        case Returned(None) =>
        case Raised(e) => log := log + [Output(e)];
      }
      return Claimed;
    }

    /** `AppTrigger.trigger`: claimed when the label names a shown app and the launch goes ahead. */
    method RunAppTrigger(input: string) returns (v: Verdict)
      modifies this
      ensures redirect == old(redirect)
      ensures Step(v, Snapshot()) == AppStep(env, config, input, old(Snapshot()))
    {
      var info := env.findLaunchInfo(input);
      if info.None? {
        return Passed;
      }
      var launched := PerformLaunch(info.value);
      v := if launched then Claimed else Passed;
    }

    /** `ShellCommandTrigger.trigger`: claims always; its task submits the command at once. */
    method RunShellCommandTrigger(input: string) returns (v: Verdict)
      modifies this
      ensures redirect == old(redirect)
      ensures Step(v, Snapshot()) == ShellStep(env, input, old(Snapshot()))
    {
      if EqualsIgnoreCaseSu(Trim(input)) {
        if env.suAvailable && env.rooterSet {
          log := log + [RootRequest];
        }
        log := log + [ShellCommand("su", None, NoListener)];
      } else if Contains(input, "cd ") {
        log := log + [ShellCommand(input, Some(CD_CODE), CdResult)];
      } else {
        log := log + [ShellCommand(input, None, NoListener)];
      }
      return Claimed;
    }

    /**
     * `performLaunch`: without an intent nothing happens and the answer is false;
     * otherwise the template is read once and cached, the history line is printed
     * when history is shown, and the app is started.
     */
    method PerformLaunch(info: LaunchInfo) returns (launched: bool)
      modifies this
      ensures redirect == old(redirect)
      ensures LaunchResult(launched, Snapshot()) == LaunchStep(env, config, info, old(Snapshot()))
    {
      var intent := env.getIntent(info);
      if intent.None? {
        return false;
      }
      var it := intent.value;
      if config.showAppHistory {
        if appFormat.None? {
          appFormat := Some(config.launchFormat);
        }
        var text := LaunchFormat.FormatLaunch(appFormat.value, it.className, it.packageName, info.publicLabel);
        log := log + [LaunchHistory(text)];
      }
      log := log + [StartActivity(it)];
      return true;
    }

    // ------------------------------------------------------------ shell result listeners

    /** `onCommandResult` of the listener a submission carried; see `ShellFeedback`. */
    method OnCommandResult(listener: Listener, commandCode: int, exitCode: int, output: seq<string>)
      modifies this
      ensures redirect == old(redirect)
      ensures Snapshot() == ShellFeedback(env, listener, commandCode, output, old(Snapshot()))
    {
      match listener {
        case NoListener =>
        case CdResult =>
          if commandCode == CD_CODE {
            log := log + [ShellCommand("pwd", Some(PWD_CODE), PwdResult)];
          }
        case PwdResult =>
          if commandCode == PWD_CODE && |output| == 1 {
            var path := output[0];
            if env.fileExists(path) {
              currentDirectory := Some(path);
            }
          }
      }
    }
  }
}
