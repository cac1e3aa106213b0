/** The AIOpsLab orchestrator: it loads a problem (injecting its fault and
    arming an exit hook that recovers it), relays the agent's actions to the
    environment, grades `submit(...)` calls stage by stage, and on the way out
    recovers the fault and reports the framework overhead. */
module Orchestration {
  import opened Common
  import opened Values

  /** The evaluation stage; the source keeps it as a string, and `Done` stands
      for the value "done" its main loop tests for. */
  datatype Stage = Detection | Localization | Mitigation | Done

  /** The position of a stage along detection -> localization -> mitigation -> done. */
  function Rank(s: Stage): nat {
    match s
    case Detection => 0
    case Localization => 1
    case Mitigation => 2
    case Done => 3
  }

  type Results = map<string, Value>

  datatype Role = Assistant | Env

  /** One entry of the session history, `{"role": ..., "content": ...}`. */
  datatype Entry = Entry(role: Role, content: string)

  /** What the response parser makes of an agent's action. */
  datatype Parsed = Call(apiName: string, args: seq<Value>) | ParseError(message: string)

  /** An oracle's `eval(solution, trace, duration)`; `Err` is an exception it raises. */
  type Oracle = (Value, seq<Entry>, int) -> Result<Results, string>

  datatype ProblemOracles = ProblemOracles(detection: Oracle, localization: Oracle, mitigation: Oracle)

  /** The state of a `Session`: the problem it runs, its history, the last
      solution and the accumulated results. */
  datatype Session = Session(
    problemId: string,
    problem: Option<ProblemOracles>,
    history: seq<Entry>,
    solution: Value,
    results: Results)

  /** What `ask_env` returns: a message for the agent, the
      `SubmissionStatus.VALID_SUBMISSION` marker, or `None`. */
  datatype EnvReply = Text(text: string) | ValidSubmission | NoReply

  /** One step of the agent: the action it returns, with the session duration
      at the time it is graded, or the exception `get_action` raises. */
  datatype Turn = Act(action: string, duration: int) | AgentRaises(error: string)

  /** What `ask_env` leaves behind with a session open: its reply, the stage
      and the session. */
  datatype EnvOutcome = EnvOutcome(reply: Result<EnvReply, string>, stage: Stage, session: Session)

  /** Where a script of turns leaves the session loop: the stage and session,
      the exception that ended it (`None` when the script ran out) and whether
      the break test fired. */
  datatype Played = Played(stage: Stage, session: Session, failure: Option<string>, finished: bool)

  datatype Report = Report(history: seq<Entry>, finalState: string, results: Results, overhead: int)

  datatype InitReply = InitReply(status: string, instructions: string, apis: map<string, string>)

  const Loaded: InitReply := InitReply("Problem loaded.", "Use submit(...) when ready.",
                                       map["submit(...)" := "Submit your solution"])
  const OnlySubmitMessage: string := "[\U{274C}] Only `submit(...)` is supported in this interface."
  const NoSessionError: string := "AttributeError: 'NoneType' object has no attribute"
  const AgentStopped: string := "the agent produced no further action"
  const RecoveryFailed: string := "fault recovery failed"

  /** The oracle results report success when their "success" entry is truthy. */
  predicate Succeeded(results: Results) {
    "success" in results && Truthy(results["success"])
  }

  /** The stage after a valid submission graded with `results` in stage `s`. */
  function NextStage(s: Stage, results: Results): (t: Stage)
    ensures Rank(t) >= Rank(s)
    ensures s != Done ==> t != Done
    ensures s == Detection ==> (t == Localization <==> Succeeded(results))
    ensures t == Localization ==> s == Detection
    ensures s != Detection ==> t == (if s == Done then Done else Mitigation)
  {
    match s
    case Detection => if Succeeded(results) then Localization else Mitigation
    case Localization => Mitigation
    case Mitigation => Mitigation
    case Done => Done
  }

  /** The stage after a series of graded submissions. */
  function Advance(s: Stage, graded: seq<Results>): Stage
    decreases |graded|
  {
    if |graded| == 0 then s else Advance(NextStage(s, graded[0]), graded[1..])
  }

  /** However many submissions are graded, a run that did not start in "done" never reaches it. */
  lemma {:induction false} AdvanceNeverDone(s: Stage, graded: seq<Results>)
    requires s != Done
    ensures Advance(s, graded) != Done
    decreases |graded|
  {
    if |graded| > 0 {
      AdvanceNeverDone(NextStage(s, graded[0]), graded[1..]);
    }
  }

  /** Stages only move forward. */
  lemma {:induction false} AdvanceMonotone(s: Stage, graded: seq<Results>)
    ensures Rank(Advance(s, graded)) >= Rank(s)
    decreases |graded|
  {
    if |graded| > 0 {
      AdvanceMonotone(NextStage(s, graded[0]), graded[1..]);
    }
  }

  /** Two graded submissions always bring a run that started before "done" to mitigation, where it stays. */
  lemma {:induction false} AdvanceReachesMitigation(s: Stage, graded: seq<Results>)
    requires s != Done && |graded| >= 2
    ensures Advance(s, graded) == Mitigation
    decreases |graded|
  {
    var t := NextStage(s, graded[0]);
    if |graded| == 2 {
      assert Advance(t, graded[1..]) == Advance(NextStage(t, graded[1]), graded[2..]);
    } else {
      AdvanceReachesMitigation(t, graded[1..]);
    }
  }

  /** The oracle that grades a submission in stage `s`. */
  function OracleFor(p: ProblemOracles, s: Stage): Oracle {
    match s
    case Detection => p.detection
    case Localization => p.localization
    case _ => p.mitigation
  }

  /** The name a stage's results are stored under. */
  function ResultName(s: Stage): string {
    match s
    case Detection => "Detection Results"
    case Localization => "Localization Results"
    case _ => "Mitigation Results"
  }

  /** The solution a `submit(...)` call carries: its first argument, or None. */
  function SolutionOf(args: seq<Value>): Value {
    if |args| > 0 then args[0] else VNone
  }

  /** The timing keys the report looks for, in order. */
  const TimeKeys: seq<string> := ["TTD", "TTL", "TTA", "TTM"]

  /** The position of `next((k for k in keys if k in results), None)`:
      the first key the results carry, or `|keys|` when they carry none. */
  function FirstPresent(keys: seq<string>, results: Results): (i: nat)
    ensures i <= |keys|
    ensures forall j :: 0 <= j < i ==> keys[j] !in results
    ensures i < |keys| ==> keys[i] in results
  {
    if |keys| == 0 || keys[0] in results then 0 else 1 + FirstPresent(keys[1..], results)
  }

  /** Python's numeric view of a value in `elapsed - value`; other values raise TypeError. */
  function AsNumber(v: Value): Option<int> {
    match v
    case VInt(n) => Some(n)
    case VBool(b) => Some(if b then 1 else 0)
    case _ => None
  }

  /** `TimeKeys[i]` is the first timing key the results carry. */
  predicate FirstTimeKey(results: Results, i: int) {
    0 <= i < |TimeKeys| && TimeKeys[i] in results && forall j :: 0 <= j < i ==> TimeKeys[j] !in results
  }

  /** The framework overhead: the elapsed time minus the first timing key the
      results carry, or the whole elapsed time when they carry none. */
  function Overhead(elapsed: int, results: Results): (r: Result<int, string>)
    ensures (forall i :: 0 <= i < |TimeKeys| ==> TimeKeys[i] !in results) ==> r == Ok(elapsed)
    ensures forall i :: FirstTimeKey(results, i) && AsNumber(results[TimeKeys[i]]).Some? ==>
              r == Ok(elapsed - AsNumber(results[TimeKeys[i]]).value)
    ensures r.Err? <==> exists i :: FirstTimeKey(results, i) && AsNumber(results[TimeKeys[i]]).None?
  {
    var i := FirstPresent(TimeKeys, results);
    if i == |TimeKeys| then Ok(elapsed)
    else
      match AsNumber(results[TimeKeys[i]])
      case Some(n) => Ok(elapsed - n)
      case None => Err("TypeError: unsupported operand type(s) for -")
  }

  class Orchestrator {
    /** The response parser; a `ParseError` is the exception `parse` raises. */
    const parse: string -> Parsed
    /** The problem registry's `get_problem_instance`. */
    const registry: string -> Result<ProblemOracles, string>
    /** `Session.add_result(name, results)` as a function of the old results. */
    const addResult: (Results, string, Results) -> Results

    var stage: Stage
    var session: Option<Session>
    var executionStart: Option<int>
    /** How many `exit_cleanup_fault` hooks are registered with `atexit`. */
    var exitHooks: nat
    /** How many times the problem's fault was injected and recovered. */
    var injected: nat
    var recovered: nat

    constructor (parse: string -> Parsed, registry: string -> Result<ProblemOracles, string>,
                 addResult: (Results, string, Results) -> Results)
      ensures this.parse == parse && this.registry == registry && this.addResult == addResult
      ensures stage == Detection && session.None? && executionStart.None?
      ensures exitHooks == 0 && injected == 0 && recovered == 0
    {
      this.parse := parse;
      this.registry := registry;
      this.addResult := addResult;
      stage := Detection;
      session := None;
      executionStart := None;
      exitHooks := 0;
      injected := 0;
      recovered := 0;
    }

    /** `init_problem`: opens a fresh session for the problem, injects its
        fault and arms the exit hook in one step; the stage is left as it was. */
    method InitProblem(pid: string, now: int, injectOk: bool) returns (r: Result<InitReply, string>)
      modifies this
      ensures stage == old(stage) && recovered == old(recovered) && executionStart == Some(now)
      ensures registry(pid).Err? ==> r == Err(registry(pid).error)
      ensures registry(pid).Err? ==> session == Some(Session(pid, None, [], VNone, map[]))
      ensures registry(pid).Ok? ==> session == Some(Session(pid, Some(registry(pid).value), [], VNone, map[]))
      ensures registry(pid).Ok? && injectOk ==> r == Ok(Loaded)
      ensures registry(pid).Ok? && !injectOk ==> r.Err?
      ensures injected == old(injected) + (if r.Ok? then 1 else 0)
      ensures exitHooks == old(exitHooks) + (if r.Ok? then 1 else 0)
    {
      executionStart := Some(now);
      var found := registry(pid);
      if found.Err? {
        session := Some(Session(pid, None, [], VNone, map[]));
        return Err(found.error);
      }
      session := Some(Session(pid, Some(found.value), [], VNone, map[]));
      if !injectOk {
        return Err("fault injection failed");
      }
      injected := injected + 1;
      exitHooks := exitHooks + 1;
      r := Ok(Loaded);
    }

    /** `ask_agent`: records the agent's action in the session history. */
    method AskAgent(action: string) returns (r: Result<string, string>)
      modifies this
      ensures stage == old(stage) && exitHooks == old(exitHooks)
      ensures injected == old(injected) && recovered == old(recovered) && executionStart == old(executionStart)
      ensures old(session).None? ==> r == Err(NoSessionError) && session == old(session)
      ensures old(session).Some? ==> r == Ok(action)
      ensures old(session).Some? ==> session == Some(old(session).value.(history := old(session).value.history + [Entry(Assistant, action)]))
    {
      if session.None? {
        return Err(NoSessionError);
      }
      var s := session.value;
      session := Some(s.(history := s.history + [Entry(Assistant, action)]));
      r := Ok(action);
    }

    /** The effect of `ask_env` on an open session in stage `st`. A parse
        error is recorded in the history and answered; a call other than
        `submit` is refused; a submission sets the solution and, before
        "done", is graded by the stage's oracle, its results stored and the
        stage moved on. */
    function EnvStep(st: Stage, s: Session, input: string, duration: int): (e: EnvOutcome)
      ensures e.session.problem == s.problem && e.session.problemId == s.problemId
      ensures Rank(e.stage) >= Rank(st) && (st != Done ==> e.stage != Done)
      ensures e.stage != st ==> e.reply == Ok(ValidSubmission)
      ensures |e.session.history| >= |s.history| && e.session.history[..|s.history|] == s.history
      ensures e.reply == Ok(ValidSubmission) ==> st != Done && s.problem.Some? && parse(input).Call?
    {
      match parse(input)
      case ParseError(m) =>
        EnvOutcome(Ok(Text(m)), st, s.(history := s.history + [Entry(Env, m)]))
      case Call(api, args) =>
        var s1 := s.(solution := SolutionOf(args));
        if api != "submit" then EnvOutcome(Ok(Text(OnlySubmitMessage)), st, s)
        else if st == Done then EnvOutcome(Ok(NoReply), st, s1)
        else if s1.problem.None? then EnvOutcome(Err(NoSessionError), st, s1)
        else
          var graded := OracleFor(s1.problem.value, st)(s1.solution, s1.history, duration);
          if graded.Err? then EnvOutcome(Err(graded.error), st, s1)
          else EnvOutcome(Ok(ValidSubmission), NextStage(st, graded.value),
                          s1.(results := addResult(s1.results, ResultName(st), graded.value)))
    }

    /** The session loop of `start_problem` over a script of turns: each
        action is recorded by `ask_agent` and answered by `ask_env`, until the
        agent or the environment raises, the script runs out, or a valid
        submission leaves the stage at "done". */
    function Play(st: Stage, s: Session, turns: seq<Turn>): (p: Played)
      ensures p.session.problem == s.problem && p.session.problemId == s.problemId
      ensures Rank(p.stage) >= Rank(st)
      ensures |p.session.history| >= |s.history| && p.session.history[..|s.history|] == s.history
      ensures p.finished ==> p.stage == Done && p.failure.None?
      decreases |turns|
    {
      if |turns| == 0 then Played(st, s, None, false)
      else
        match turns[0]
        case AgentRaises(e) => Played(st, s, Some(e), false)
        case Act(action, duration) =>
          var asked := s.(history := s.history + [Entry(Assistant, action)]);
          var e := EnvStep(st, asked, action, duration);
          if e.reply.Err? then Played(e.stage, e.session, Some(e.reply.error), false)
          else if e.reply.value == ValidSubmission && e.stage == Done then Played(e.stage, e.session, None, true)
          else Play(e.stage, e.session, turns[1..])
    }

    /** Since no graded submission reaches "done", a loop started before
        "done" never breaks: it ends only through an exception or the end of
        the script. */
    lemma {:induction false} PlayNeverFinishes(st: Stage, s: Session, turns: seq<Turn>)
      requires st != Done
      ensures Play(st, s, turns).stage != Done && !Play(st, s, turns).finished
      decreases |turns|
    {
      if |turns| > 0 && turns[0].Act? {
        var asked := s.(history := s.history + [Entry(Assistant, turns[0].action)]);
        var e := EnvStep(st, asked, turns[0].action, turns[0].duration);
        if e.reply.Ok? {
          PlayNeverFinishes(e.stage, e.session, turns[1..]);
        }
      }
    }

    /** `ask_env`: answers a parse error with its message, refuses any call
        but `submit`, and grades a submission with the oracle of the current
        stage, moving the stage on. */
    method AskEnv(input: string, duration: int) returns (r: Result<EnvReply, string>)
      modifies this
      ensures exitHooks == old(exitHooks) && injected == old(injected) && recovered == old(recovered)
      ensures executionStart == old(executionStart)
      ensures Rank(stage) >= Rank(old(stage))
      ensures stage != old(stage) ==> r == Ok(ValidSubmission)
      ensures r == Ok(ValidSubmission) ==> old(stage) != Done && stage != Done
      ensures old(stage) != Done ==> stage != Done
      ensures r == Ok(ValidSubmission) ==> parse(input).Call? && old(HasProblem())
      ensures r == Ok(ValidSubmission) ==>
                var prev := old(session).value;
                var graded := OracleFor(prev.problem.value, old(stage))(SolutionOf(parse(input).args), prev.history, duration);
                graded.Ok?
                && stage == NextStage(old(stage), graded.value)
                && session == Some(prev.(solution := SolutionOf(parse(input).args),
                                         results := addResult(prev.results, ResultName(old(stage)), graded.value)))
      ensures parse(input).Call? && parse(input).apiName == "submit" && old(session).Some? ==>
                session.Some? && session.value.solution == SolutionOf(parse(input).args)
      ensures parse(input).ParseError? && old(session).None? ==> r == Err(NoSessionError) && session == old(session)
      ensures parse(input).ParseError? && old(session).Some? ==> r == Ok(Text(parse(input).message))
      ensures parse(input).ParseError? && old(session).Some? ==>
                session == Some(old(session).value.(history := old(session).value.history + [Entry(Env, parse(input).message)]))
      ensures parse(input).Call? && parse(input).apiName != "submit" ==> r == Ok(Text(OnlySubmitMessage))
      ensures parse(input).Call? && parse(input).apiName != "submit" ==> session == old(session)
      ensures old(session).Some? ==> session.Some?
      ensures old(session).Some? ==> session.value.problem == old(session).value.problem
      ensures old(session).Some? ==> session.value.problemId == old(session).value.problemId
      ensures old(session).Some? && parse(input).Call? ==> session.value.history == old(session).value.history
      ensures old(session).None? ==> r.Err? || r == Ok(Text(OnlySubmitMessage))
      ensures old(stage) == Done && parse(input).Call? && parse(input).apiName == "submit" && old(session).Some? ==> r == Ok(NoReply)
      ensures parse(input).Call? && parse(input).apiName == "submit" && old(session).None? ==>
                r == Err(NoSessionError) && session == old(session) && stage == old(stage)
      ensures parse(input).Call? && parse(input).apiName == "submit" && old(stage) != Done && old(session).Some? && !old(HasProblem()) ==>
                r == Err(NoSessionError) && stage == old(stage)
      ensures parse(input).Call? && parse(input).apiName == "submit" && old(stage) != Done && old(HasProblem()) ==>
                var prev := old(session).value;
                var solution := SolutionOf(parse(input).args);
                var graded := OracleFor(prev.problem.value, old(stage))(solution, prev.history, duration);
                (graded.Ok? ==>
                   r == Ok(ValidSubmission) && stage == NextStage(old(stage), graded.value)
                   && session == Some(prev.(solution := solution,
                                            results := addResult(prev.results, ResultName(old(stage)), graded.value))))
                && (graded.Err? ==>
                   r == Err(graded.error) && stage == old(stage) && session == Some(prev.(solution := solution)))
      ensures old(session).Some? ==> EnvStep(old(stage), old(session).value, input, duration) == EnvOutcome(r, stage, session.value)
    {
      var parsed := parse(input);
      if parsed.ParseError? {
        if session.None? {
          return Err(NoSessionError);
        }
        var s := session.value;
        session := Some(s.(history := s.history + [Entry(Env, parsed.message)]));
        return Ok(Text(parsed.message));
      }
      if parsed.apiName != "submit" {
        return Ok(Text(OnlySubmitMessage));
      }
      var solution := SolutionOf(parsed.args);
      if session.None? {
        return Err(NoSessionError);
      }
      var s := session.value.(solution := solution);
      session := Some(s);
      if stage == Done {
        return Ok(NoReply);
      }
      if s.problem.None? {
        return Err(NoSessionError);
      }
      var graded := OracleFor(s.problem.value, stage)(solution, s.history, duration);
      if graded.Err? {
        return Err(graded.error);
      }
      session := Some(s.(results := addResult(s.results, ResultName(stage), graded.value)));
      stage := NextStage(stage, graded.value);
      r := Ok(ValidSubmission);
    }

    /** The session is open and carries a problem to recover. */
    predicate HasProblem()
      reads this
    {
      session.Some? && session.value.problem.Some?
    }

    /** The fault recovery of `start_problem`'s critical sections: recovers the
        problem's fault and unregisters every exit hook, unless recovery raises. */
    method RecoverInRun(recoverOk: bool) returns (r: Result<(), string>)
      modifies this`recovered, this`exitHooks
      ensures r.Ok? <==> HasProblem() && recoverOk
      ensures r.Ok? ==> recovered == old(recovered) + 1 && exitHooks == 0
      ensures r.Err? ==> recovered == old(recovered) && exitHooks == old(exitHooks)
      ensures r.Err? ==> r.error == if HasProblem() then RecoveryFailed else NoSessionError
    {
      if session.None? || session.value.problem.None? {
        return Err(NoSessionError);
      }
      if !recoverOk {
        return Err(RecoveryFailed);
      }
      recovered := recovered + 1;
      exitHooks := 0;
      r := Ok(());
    }

    /** `start_problem`: alternates agent and environment until a valid
        submission leaves the stage at "done"; an exception from either side
        recovers the fault and is raised again. On the normal path the session
        is persisted first, then the fault is recovered and the report built. */
    method StartProblem(turns: seq<Turn>, persistOk: bool, recoverOk: bool, endTime: int)
      returns (r: Result<Report, string>)
      modifies this
      ensures old(session).None? ==> r == Err("AssertionError") && session == old(session)
      ensures old(session).None? ==> recovered == old(recovered) && exitHooks == old(exitHooks)
      ensures injected == old(injected) && executionStart == old(executionStart)
      ensures Rank(stage) >= Rank(old(stage))
      ensures old(session).Some? ==> session.Some? && session.value.problem == old(session).value.problem
      ensures old(session).Some? ==> |session.value.history| >= |old(session).value.history|
      ensures old(session).Some? ==> session.value.history[..|old(session).value.history|] == old(session).value.history
      ensures old(HasProblem()) && recoverOk && (r.Ok? || persistOk) ==> recovered == old(recovered) + 1 && exitHooks == 0
      ensures recovered == old(recovered) || (recovered == old(recovered) + 1 && exitHooks == 0)
      ensures recovered == old(recovered) ==> exitHooks == old(exitHooks)
      ensures old(HasProblem()) && old(stage) != Done ==>
        r.Err? && (recoverOk ==> recovered == old(recovered) + 1 && exitHooks == 0)
      ensures r.Ok? ==> r.value.finalState == "done" && stage == Done
      ensures r.Ok? ==> r.value.history == session.value.history && r.value.results == session.value.results
      ensures r.Ok? ==> executionStart.Some? && Overhead(endTime - executionStart.value, r.value.results) == Ok(r.value.overhead)
      ensures old(session).Some? ==>
                var p := Play(old(stage), old(session).value, turns);
                stage == p.stage && session == Some(p.session)
                && (!p.finished ==>
                      r == Err(if !old(HasProblem()) then NoSessionError
                               else if !recoverOk then RecoveryFailed
                               else p.failure.GetOr(AgentStopped)))
                && (p.finished && !persistOk ==> r == Err("session persistence failed"))
                && (p.finished && persistOk && old(HasProblem()) && recoverOk && executionStart.Some?
                    && Overhead(endTime - executionStart.value, p.session.results).Ok? ==>
                      r == Ok(Report(p.session.history, "done", p.session.results,
                                     Overhead(endTime - executionStart.value, p.session.results).value)))
    {
      if session.None? {
        return Err("AssertionError");
      }
      ghost var before := session.value;
      var i := 0;
      var failure: Option<string> := None;
      var finished := false;
      while i < |turns| && !finished && failure.None?
        invariant 0 <= i <= |turns|
        invariant session.Some? && session.value.problem == before.problem
        invariant |session.value.history| >= |before.history|
        invariant session.value.history[..|before.history|] == before.history
        invariant exitHooks == old(exitHooks) && injected == old(injected) && recovered == old(recovered)
        invariant executionStart == old(executionStart)
        invariant Rank(stage) >= Rank(old(stage))
        invariant finished ==> stage == Done
        invariant old(stage) != Done ==> stage != Done && !finished
        invariant Play(old(stage), before, turns)
                  == if finished || failure.Some? then Played(stage, session.value, failure, finished)
                     else Play(stage, session.value, turns[i..])
      {
        assert turns[i..][0] == turns[i] && turns[i..][1..] == turns[i + 1..];
        match turns[i] {
          case AgentRaises(e) =>
            failure := Some(e);
          case Act(action, duration) =>
            var _ := AskAgent(action);
            var reply := AskEnv(action, duration);
            if reply.Err? {
              failure := Some(reply.error);
            } else if reply.value == ValidSubmission && stage == Done {
              finished := true;
            }
        }
        i := i + 1;
      }
      if !finished {
        var recovery := RecoverInRun(recoverOk);
        if recovery.Err? {
          return Err(recovery.error);
        }
        return Err(failure.GetOr(AgentStopped));
      }
      if !persistOk {
        return Err("session persistence failed");
      }
      var recovery := RecoverInRun(recoverOk);
      if recovery.Err? {
        return Err(recovery.error);
      }
      if executionStart.None? {
        return Err("TypeError: unsupported operand type(s) for -");
      }
      var results := session.value.results;
      var overhead := Overhead(endTime - executionStart.value, results);
      if overhead.Err? {
        return Err(overhead.error);
      }
      r := Ok(Report(session.value.history, "done", results, overhead.value));
    }

    /** Interpreter exit: every registered `exit_cleanup_fault` hook recovers
        the fault of the problem it was registered with, whatever the session
        holds now; `atexit` runs the remaining hooks when one raises. */
    method ExitCleanup(recoverOk: bool) returns (r: Result<(), string>)
      modifies this`recovered, this`exitHooks
      ensures exitHooks == 0
      ensures recovered == old(recovered) + (if recoverOk then old(exitHooks) else 0)
      ensures r.Err? <==> old(exitHooks) > 0 && !recoverOk
    {
      var n := exitHooks;
      exitHooks := 0;
      if n == 0 {
        return Ok(());
      }
      if !recoverOk {
        return Err(RecoveryFailed);
      }
      recovered := recovered + n;
      r := Ok(());
    }

    /** One problem from loading to interpreter exit. `recoverOk` says
        whether the recovery inside the run succeeds, `exitRecoverOk` whether
        the one at exit does. The fault is never recovered more often than it
        was injected; the exit hook retries a recovery the run did not do, so
        with the exit recovery working, or the run's recovery working and the
        machine not already done, the two counts agree whichever way the run
        ends. */
    method RunProblem(pid: string, now: int, injectOk: bool, turns: seq<Turn>,
                      persistOk: bool, recoverOk: bool, exitRecoverOk: bool, endTime: int)
      returns (r: Result<Report, string>)
      modifies this
      requires exitHooks == 0
      ensures recovered - old(recovered) <= injected - old(injected) <= 1
      ensures exitRecoverOk ==> recovered - old(recovered) == injected - old(injected)
      ensures recoverOk && old(stage) != Done ==> recovered - old(recovered) == injected - old(injected)
      ensures exitHooks == 0
    {
      var loaded := InitProblem(pid, now, injectOk);
      if loaded.Err? {
        var _ := ExitCleanup(exitRecoverOk);
        return Err(loaded.error);
      }
      r := StartProblem(turns, persistOk, recoverOk, endTime);
      var _ := ExitCleanup(exitRecoverOk);
    }
  }
}
