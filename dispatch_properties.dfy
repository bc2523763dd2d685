/** What the dispatch pipeline guarantees, proved about the functions of `Dispatch`. */
module DispatchProperties {
  import opened Options
  import opened JavaStrings
  import opened Dispatch

  /**
   * A trigger's verdict depends on the state only through what the collaborators
   * can read of it: two states that agree on the last command and the current
   * directory get the same verdict, whatever their logs and cached template.
   */
  lemma VerdictIgnoresState(env: Collaborators, cfg: Config, t: Trigger, input: string, p1: Pack, p2: Pack)
    requires Visible(p1) == Visible(p2)
    ensures TriggerStep(env, cfg, t, input, p1).verdict == TriggerStep(env, cfg, t, input, p2).verdict
  {
  }

  /**
   * The claim rule of each trigger, in terms of its collaborators. Group: a group
   * named by the text before the first space exists, and there is no residual or
   * its `use` of the residual returns true (it throws when `use` throws). Alias:
   * the lookup hits. Tui: the parse yields a command. App: a shown app has the
   * label and resolves to an intent. Shell: always.
   */
  lemma ClaimRules(env: Collaborators, cfg: Config, input: string, p: Pack)
    ensures var h := SplitFirstSpace(input);
      var found := if env.groups.Some? then FindGroup(env.groups.value, h.name) else None;
      (TriggerStep(env, cfg, GroupTrigger, input, p).verdict == Claimed <==>
        found.Some? && (h.residual.None? || env.groups.value[found.value].use(Visible(p), h.residual.value) == Returned(true))) &&
      (TriggerStep(env, cfg, GroupTrigger, input, p).verdict.Threw? <==>
        found.Some? && h.residual.Some? && env.groups.value[found.value].use(Visible(p), h.residual.value).Raised?)
    ensures TriggerStep(env, cfg, AliasTrigger, input, p).verdict == Claimed <==> env.getAlias(input).Returned? && env.getAlias(input).value.Some?
    ensures TriggerStep(env, cfg, AliasTrigger, input, p).verdict.Threw? <==> env.getAlias(input).Raised?
    ensures TriggerStep(env, cfg, TuiCommandTrigger, input, p).verdict == Claimed <==> env.parse(input, Visible(p)).Returned? && env.parse(input, Visible(p)).value.Some?
    ensures TriggerStep(env, cfg, TuiCommandTrigger, input, p).verdict.Threw? <==> env.parse(input, Visible(p)).Raised?
    ensures TriggerStep(env, cfg, AppTrigger, input, p).verdict == Claimed <==>
      env.findLaunchInfo(input).Some? && env.getIntent(env.findLaunchInfo(input).value).Some?
    ensures !TriggerStep(env, cfg, AppTrigger, input, p).verdict.Threw?
    ensures TriggerStep(env, cfg, ShellCommandTrigger, input, p).verdict == Claimed
  {
  }

  /** The verdict each trigger of `chain` gives on `input`. */
  function Verdicts(env: Collaborators, cfg: Config, chain: seq<Trigger>, input: string, p: Pack): seq<Verdict> {
    seq(|chain|, j requires 0 <= j < |chain| => TriggerStep(env, cfg, chain[j], input, p).verdict)
  }

  /** The index of the first verdict that is not a pass; every verdict before it passes. */
  function FirstNonPass(vs: seq<Verdict>): (i: nat)
    ensures i <= |vs|
    ensures forall j :: 0 <= j < i ==> vs[j] == Passed
    ensures i < |vs| ==> vs[i] != Passed
  {
    if vs == [] || vs[0] != Passed then 0 else 1 + FirstNonPass(vs[1..])
  }

  lemma VerdictsIgnoreState(env: Collaborators, cfg: Config, chain: seq<Trigger>, input: string, p1: Pack, p2: Pack)
    requires Visible(p1) == Visible(p2)
    ensures Verdicts(env, cfg, chain, input, p1) == Verdicts(env, cfg, chain, input, p2)
  {
    forall j | 0 <= j < |chain|
      ensures Verdicts(env, cfg, chain, input, p1)[j] == Verdicts(env, cfg, chain, input, p2)[j]
    {
      VerdictIgnoresState(env, cfg, chain[j], input, p1, p2);
    }
  }

  /** Every trigger of `chain` applied in turn, none skipped. */
  function OfferAll(env: Collaborators, cfg: Config, chain: seq<Trigger>, input: string, p: Pack): Pack
    decreases |chain|
  {
    if chain == [] then p else OfferAll(env, cfg, chain[1..], input, TriggerStep(env, cfg, chain[0], input, p).pack)
  }

  /** Passing the first trigger moves the first decisive index one along the chain. */
  lemma FirstNonPassAfterPass(env: Collaborators, cfg: Config, chain: seq<Trigger>, input: string, p: Pack, q: Pack)
    requires chain != [] && TriggerStep(env, cfg, chain[0], input, p).verdict == Passed
    requires Visible(q) == Visible(p)
    ensures FirstNonPass(Verdicts(env, cfg, chain, input, p)) == 1 + FirstNonPass(Verdicts(env, cfg, chain[1..], input, q))
  {
    var vs := Verdicts(env, cfg, chain, input, p);
    VerdictsIgnoreState(env, cfg, chain[1..], input, q, p);
    assert vs[1..] == Verdicts(env, cfg, chain[1..], input, p);
  }

  /**
   * First claim wins: the chain ends at the first trigger that does not pass,
   * handled by it if it claimed and failed in it if it threw. When every
   * trigger passes, the sub-command is left unclaimed.
   */
  lemma {:induction false} FirstDecisiveTriggerWins(env: Collaborators, cfg: Config, chain: seq<Trigger>, input: string, p: Pack)
    decreases |chain|
    ensures var i := FirstNonPass(Verdicts(env, cfg, chain, input, p));
            var r := RunChain(env, cfg, chain, input, p).outcome;
            if i == |chain| then r == Unclaimed
            else match TriggerStep(env, cfg, chain[i], input, p).verdict
              case Claimed => r == HandledBy(chain[i])
              case Threw(e) => r == FailedIn(chain[i], e)
              case Passed => false
  {
    if chain != [] {
      var st := TriggerStep(env, cfg, chain[0], input, p);
      if st.verdict == Passed {
        var rest := chain[1..];
        FirstDecisiveTriggerWins(env, cfg, rest, input, st.pack);
        FirstNonPassAfterPass(env, cfg, chain, input, p, st.pack);
        var i := FirstNonPass(Verdicts(env, cfg, rest, input, st.pack));
        if i < |rest| {
          VerdictIgnoresState(env, cfg, rest[i], input, st.pack, p);
        }
      }
    }
  }

  /**
   * The state after the chain is that of offering the triggers up to and
   * including the decisive one (with the trace printed when it threw), or all
   * of them if none decides.
   */
  ghost predicate EndsAtDecisive(env: Collaborators, cfg: Config, chain: seq<Trigger>, input: string, p: Pack) {
    var i := FirstNonPass(Verdicts(env, cfg, chain, input, p));
    var r := RunChain(env, cfg, chain, input, p).pack;
    if i == |chain| then r == OfferAll(env, cfg, chain, input, p)
    else
      var done := OfferAll(env, cfg, chain[..i + 1], input, p);
      r == if TriggerStep(env, cfg, chain[i], input, p).verdict.Threw?
           then Emit(done, Output(TriggerStep(env, cfg, chain[i], input, p).verdict.trace)) else done
  }

  /** The triggers after the decisive one have no effect on the state. */
  lemma {:induction false} LaterTriggersUntouched(env: Collaborators, cfg: Config, chain: seq<Trigger>, input: string, p: Pack)
    decreases |chain|
    ensures EndsAtDecisive(env, cfg, chain, input, p)
  {
    if chain != [] {
      var st := TriggerStep(env, cfg, chain[0], input, p);
      if st.verdict == Passed {
        LaterTriggersUntouched(env, cfg, chain[1..], input, st.pack);
        PassedHead(env, cfg, chain, input, p);
      } else {
        DecisiveHead(env, cfg, chain, input, p);
      }
    }
  }

  /** A first trigger that passes hands the chain on to the rest, on the state it leaves. */
  lemma PassedHead(env: Collaborators, cfg: Config, chain: seq<Trigger>, input: string, p: Pack)
    requires chain != [] && TriggerStep(env, cfg, chain[0], input, p).verdict == Passed
    requires EndsAtDecisive(env, cfg, chain[1..], input, TriggerStep(env, cfg, chain[0], input, p).pack)
    ensures EndsAtDecisive(env, cfg, chain, input, p)
  {
    var st := TriggerStep(env, cfg, chain[0], input, p);
    var rest := chain[1..];
    FirstNonPassAfterPass(env, cfg, chain, input, p, st.pack);
    var i := FirstNonPass(Verdicts(env, cfg, rest, input, st.pack));
    if i < |rest| {
      VerdictIgnoresState(env, cfg, rest[i], input, st.pack, p);
      OfferAllHead(env, cfg, chain, input, p, i + 2);
    }
  }

  /** A first trigger that does not pass decides the chain on its own. */
  lemma DecisiveHead(env: Collaborators, cfg: Config, chain: seq<Trigger>, input: string, p: Pack)
    requires chain != [] && TriggerStep(env, cfg, chain[0], input, p).verdict != Passed
    ensures EndsAtDecisive(env, cfg, chain, input, p)
  {
    OfferAllHead(env, cfg, chain, input, p, 1);
  }

  /** Offering a prefix of `chain` is offering its first trigger, then the rest of the prefix. */
  lemma OfferAllHead(env: Collaborators, cfg: Config, chain: seq<Trigger>, input: string, p: Pack, n: nat)
    requires 1 <= n <= |chain|
    ensures OfferAll(env, cfg, chain[..n], input, p) ==
      OfferAll(env, cfg, chain[1..][..n - 1], input, TriggerStep(env, cfg, chain[0], input, p).pack)
  {
    assert chain[..n][0] == chain[0] && chain[..n][1..] == chain[1..][..n - 1];
  }

  /**
   * With the shipped chain nothing is left unclaimed: the shell trigger, last in
   * line, claims whatever reaches it. A claim by an earlier trigger shadows all
   * later ones, so a group name beats an alias of the same name.
   */
  lemma ShellCatchesEverything(env: Collaborators, cfg: Config, input: string, p: Pack)
    ensures RunChain(env, cfg, Chain, input, p).outcome != Unclaimed
    ensures TriggerStep(env, cfg, GroupTrigger, input, p).verdict == Claimed ==>
      RunChain(env, cfg, Chain, input, p) == ChainResult(HandledBy(GroupTrigger), TriggerStep(env, cfg, GroupTrigger, input, p).pack)
  {
    ShellInChainClaims(env, cfg, Chain, input, p);
    assert Chain[0] == GroupTrigger;
  }

  /** A chain holding the shell trigger never leaves its input unclaimed. */
  lemma {:induction false} ShellInChainClaims(env: Collaborators, cfg: Config, chain: seq<Trigger>, input: string, p: Pack)
    requires ShellCommandTrigger in chain
    decreases |chain|
    ensures RunChain(env, cfg, chain, input, p).outcome != Unclaimed
  {
    var st := TriggerStep(env, cfg, chain[0], input, p);
    if chain[0] != ShellCommandTrigger && st.verdict == Passed {
      assert ShellCommandTrigger in chain[1..];
      ShellInChainClaims(env, cfg, chain[1..], input, st.pack);
    }
  }

  /**
   * Sub-commands are dispatched left to right, each exactly once, and one's
   * outcome (claimed, thrown, unclaimed) never stops the next: dispatching a
   * concatenation is dispatching its halves in turn.
   */
  lemma {:induction false} DispatchAllAppend(env: Collaborators, cfg: Config, a: seq<string>, b: seq<string>, p: Pack)
    decreases |a|
    ensures DispatchAll(env, cfg, a + b, p) == DispatchAll(env, cfg, b, DispatchAll(env, cfg, a, p))
  {
    if a == [] {
      assert a + b == b;
    } else {
      assert (a + b)[0] == a[0] && (a + b)[1..] == a[1..] + b;
      DispatchAllAppend(env, cfg, a[1..], b, RunChain(env, cfg, Chain, a[0], p).pack);
    }
  }

  /** One sub-command more is one more run of the chain, on the state the others left. */
  lemma DispatchAllSnoc(env: Collaborators, cfg: Config, a: seq<string>, c: string, p: Pack)
    ensures DispatchAll(env, cfg, a + [c], p) == RunChain(env, cfg, Chain, c, DispatchAll(env, cfg, a, p)).pack
  {
    DispatchAllAppend(env, cfg, a, [c], p);
  }

  /**
   * With an empty separator, or one that does not occur, the normalised input is
   * the only sub-command, so dispatching is running the chain once on it.
   */
  lemma SingleSubCommand(env: Collaborators, cfg: Config, input: string, alias: Option<string>, p: Pack)
    requires |cfg.separator| == 0 || !Contains(env.removeSpaces(input), cfg.separator)
    requires alias.None? || !cfg.showAliasValue
    ensures DispatchLine(env, cfg, input, alias, p) == RunChain(env, cfg, Chain, env.removeSpaces(input), p).pack
  {
    var norm := env.removeSpaces(input);
    assert SubCommands(cfg.separator, norm) == [norm];
    assert DispatchAll(env, cfg, [norm], p) == DispatchAll(env, cfg, [], RunChain(env, cfg, Chain, norm, p).pack);
  }

  /** `cd <dir>` goes to the shell tagged CD_CODE with the cd listener; it is never taken for "su". */
  lemma CdIsTagged(env: Collaborators, dir: string)
    ensures ShellSubmission(env, "cd " + dir) == [ShellCommand("cd " + dir, Some(CD_CODE), CdResult)]
  {
  }

  /**
   * The cd round trip: the cd submission's result triggers a "pwd" submission,
   * and that one's single-line result moves the current directory to the
   * reported path exactly when the path exists.
   */
  lemma CdThenPwd(env: Collaborators, dir: string, path: string, p: Pack)
    ensures var submitted := ShellStep(env, "cd " + dir, p).pack;
      var asked := ShellFeedback(env, CdResult, CD_CODE, [], submitted);
      var moved := ShellFeedback(env, PwdResult, PWD_CODE, [path], asked);
      submitted.log == p.log + [ShellCommand("cd " + dir, Some(CD_CODE), CdResult)] &&
      asked.log == submitted.log + [ShellCommand("pwd", Some(PWD_CODE), PwdResult)] &&
      moved.currentDirectory == (if env.fileExists(path) then Some(path) else p.currentDirectory)
  {
    CdIsTagged(env, dir);
  }
}
