/** The developer command line: a prompt loop that picks a problem, an
    optional dialogue that configures transient issues, and the shell/submit
    loop that runs until the conductor reports that grading is done. */
module SreCli {
  import opened Common
  import opened Strings

  const OptionsText: string :=
    "\n- Use `start <problem_id>` to begin a new problem.\n"
    + "- Use `deploy <app_name>` / `undeploy <app_name>` to manage standalone apps.\n"
    + "- Use `list` to see deployed apps.\n"
    + "- Use `options` to re-print this list.\n"
    + "- Use `exit` to quit.\n"
  const InvalidText: string := "[red]Invalid command. Type `options` to see choices."
  const UnknownPrefix: string := "[red]Unknown problem id: "
  const NoAppsText: string := "No apps deployed"
  /** `sys.exit(0)`, also what an end of input or an interrupt at a prompt leads to. */
  const Exit0: string := "SystemExit: 0"
  /** `cmd[0]` of an empty split. */
  const IndexErrorText: string := "IndexError: list index out of range"

  /* ---------------------------------------------------------------- */
  /* select_mode                                                       */
  /* ---------------------------------------------------------------- */

  /** What one line typed at the mode prompt means. */
  datatype Command =
    | ExitCmd
    | OptionsCmd
    | ListCmd
    | StartCmd(pid: string)
    | UnknownPid(pid: string)
    | InvalidCmd
    | EmptyInput

  /** One line of `select_mode`: the input is stripped and split at the first
      run of whitespace; the first word is compared case-insensitively, the
      problem id case-sensitively. A blank line leaves nothing to index. */
  function Classify(inp: string, pids: seq<string>): (c: Command)
    ensures c == EmptyInput <==> AllSpace(inp)
    ensures c.StartCmd? ==> c.pid in pids
    ensures c.UnknownPid? ==> c.pid !in pids
  {
    StripBlank(inp);
    SplitOnceShape(Strip(inp));
    var cmd := SplitOnce(Strip(inp));
    if |cmd| == 0 then EmptyInput
    else
      var head := Lower(cmd[0]);
      if head == "exit" then ExitCmd
      else if head == "options" then OptionsCmd
      else if head == "list" then ListCmd
      else if head == "start" && |cmd| == 2 then
        if cmd[1] in pids then StartCmd(cmd[1]) else UnknownPid(cmd[1])
      else InvalidCmd
  }

  /** The length of the leading word of `w + t` is that of `w` when `t` is
      empty or starts with whitespace. */
  lemma {:induction false} WordLenOf(w: string, t: string)
    requires NoSpace(w) && (t == [] || IsSpace(t[0]))
    ensures WordLen(w + t) == |w|
  {
    if w == [] {
      assert w + t == t;
    } else {
      assert (w + t)[1..] == w[1..] + t;
      WordLenOf(w[1..], t);
    }
  }

  /** `split(maxsplit=1)` of a word, whitespace and a rest that starts with
      anything but whitespace is the word and the rest. */
  lemma SplitOnceOf(w: string, sp: string, rest: string)
    requires IsWord(w) && AllSpace(sp) && |sp| > 0
    requires |rest| > 0 && !IsSpace(rest[0])
    ensures SplitOnce(w + sp + rest) == [w, rest]
  {
    var m := w + sp + rest;
    TrimLeftOf([], m);
    assert [] + m == m;
    WordLenOf(w, sp + rest);
    assert m == w + (sp + rest);
    assert m[..|w|] == w;
    assert m[|w|..] == sp + rest;
    TrimLeftOf(sp, rest);
  }

  /** `split(maxsplit=1)` of a single word is that word. */
  lemma SplitOnceWord(w: string)
    requires IsWord(w)
    ensures SplitOnce(w) == [w]
  {
    TrimLeftOf([], w);
    assert [] + w == w;
    WordLenOf(w, []);
    assert w + [] == w;
    assert w[..|w|] == w && w[|w|..] == [];
  }

  /** A line made of a command word, whitespace and an argument that neither
      starts nor ends with whitespace, surrounded by any whitespace: `exit`,
      `options` and `list` in any case ignore the argument, `start` in any
      case selects it when it is a known problem id and reports it as
      unknown otherwise, and any other word is invalid. The completer's
      entries `start <pid>` are such lines. */
  lemma ClassifyCommand(a: string, k: string, sp: string, arg: string, b: string, pids: seq<string>)
    requires AllSpace(a) && AllSpace(b) && AllSpace(sp) && |sp| > 0 && IsWord(k)
    requires |arg| > 0 && !IsSpace(arg[0]) && !IsSpace(arg[|arg| - 1])
    ensures Lower(k) == "exit" ==> Classify(a + k + sp + arg + b, pids) == ExitCmd
    ensures Lower(k) == "options" ==> Classify(a + k + sp + arg + b, pids) == OptionsCmd
    ensures Lower(k) == "list" ==> Classify(a + k + sp + arg + b, pids) == ListCmd
    ensures Lower(k) == "start" ==>
              Classify(a + k + sp + arg + b, pids) == if arg in pids then StartCmd(arg) else UnknownPid(arg)
    ensures Lower(k) !in {"exit", "options", "list", "start"} ==> Classify(a + k + sp + arg + b, pids) == InvalidCmd
  {
    var m := k + sp + arg;
    assert a + k + sp + arg + b == a + m + b;
    assert m[0] == k[0] && m[|m| - 1] == arg[|arg| - 1];
    StripOf(a, m, b);
    SplitOnceOf(k, sp, arg);
  }

  /** A single word surrounded by whitespace: `exit`, `options` and `list` in
      any case are those commands; `start` with no problem id and any other
      word are invalid. */
  lemma ClassifyWord(a: string, k: string, b: string, pids: seq<string>)
    requires AllSpace(a) && AllSpace(b) && IsWord(k)
    ensures Lower(k) == "exit" ==> Classify(a + k + b, pids) == ExitCmd
    ensures Lower(k) == "options" ==> Classify(a + k + b, pids) == OptionsCmd
    ensures Lower(k) == "list" ==> Classify(a + k + b, pids) == ListCmd
    ensures Lower(k) !in {"exit", "options", "list"} ==> Classify(a + k + b, pids) == InvalidCmd
  {
    StripOf(a, k, b);
    SplitOnceWord(k);
  }

  /** The commands at which `select_mode` stops prompting. */
  predicate Stops(c: Command) {
    c.ExitCmd? || c.StartCmd? || c.EmptyInput?
  }

  /** What each of some lines means. */
  function ClassifyAll(lines: seq<string>, pids: seq<string>): (cmds: seq<Command>)
    ensures |cmds| == |lines| && forall k :: 0 <= k < |lines| ==> cmds[k] == Classify(lines[k], pids)
  {
    seq(|lines|, k requires 0 <= k < |lines| => Classify(lines[k], pids))
  }

  /** The position of the first command at which `select_mode` stops, or `|cmds|`. */
  function FirstStop(cmds: seq<Command>): (n: nat)
    ensures n <= |cmds|
    ensures forall j :: 0 <= j < n ==> !Stops(cmds[j])
    ensures n < |cmds| ==> Stops(cmds[n])
  {
    if |cmds| == 0 || Stops(cmds[0]) then 0
    else 1 + FirstStop(cmds[1..])
  }

  /** The scan that finds a stopping command finds the first one. */
  lemma {:induction false} FirstStopAt(cmds: seq<Command>, i: nat)
    requires i <= |cmds|
    requires forall j :: 0 <= j < i ==> !Stops(cmds[j])
    requires i < |cmds| ==> Stops(cmds[i])
    ensures FirstStop(cmds) == i
    decreases i
  {
    if i > 0 {
      assert !Stops(cmds[0]);
      forall j | 0 <= j < i - 1
        ensures !Stops(cmds[1..][j])
      {
        assert cmds[1..][j] == cmds[j + 1];
      }
      FirstStopAt(cmds[1..], i - 1);
    }
  }

  /** The deployed-apps panel: one app per line, or a notice when there is none. */
  function AppsPanel(apps: seq<string>): (text: string)
    ensures apps == [] ==> text == NoAppsText
    ensures apps != [] ==> text == Join(apps, '\n')
  {
    if apps == [] then NoAppsText else Join(apps, '\n')
  }

  /** What a line that does not stop the prompt prints. */
  function Echo(c: Command, apps: seq<string>): (out: seq<string>)
    ensures !Stops(c) ==> |out| == 1
    ensures Stops(c) ==> out == []
  {
    match c
    case OptionsCmd => [OptionsText]
    case ListCmd => [AppsPanel(apps)]
    case UnknownPid(p) => [UnknownPrefix + p]
    case InvalidCmd => [InvalidText]
    case _ => []
  }

  /** Everything printed for a sequence of commands, in order. */
  function Echoes(cmds: seq<Command>, apps: seq<string>): seq<string>
  {
    if |cmds| == 0 then [] else Echo(cmds[0], apps) + Echoes(cmds[1..], apps)
  }

  /** Commands before the stopping one each print exactly one message. */
  lemma {:induction false} EchoesOnePerLine(cmds: seq<Command>, apps: seq<string>)
    requires forall j :: 0 <= j < |cmds| ==> !Stops(cmds[j])
    ensures |Echoes(cmds, apps)| == |cmds|
  {
    if |cmds| > 0 {
      forall j | 0 <= j < |cmds| - 1
        ensures !Stops(cmds[1..][j])
      {
        assert cmds[1..][j] == cmds[j + 1];
      }
      EchoesOnePerLine(cmds[1..], apps);
    }
  }

  /** How `select_mode` ends. */
  datatype Selection = Selected(pid: string) | Exited(code: int) | Raised(error: string)

  /** The end a stopping command leads to. */
  function SelectionOf(c: Command): (s: Selection)
    requires Stops(c)
    ensures s.Selected? <==> c.StartCmd?
    ensures c.StartCmd? ==> s == Selected(c.pid)
    ensures c.ExitCmd? ==> s == Exited(0)
    ensures c.EmptyInput? ==> s == Raised(IndexErrorText)
  {
    match c
    case StartCmd(p) => Selected(p)
    case ExitCmd => Exited(0)
    case EmptyInput => Raised(IndexErrorText)
  }

  /** What `select_mode` does with some commands: how it ends, how many
      lines it reads and what it prints on the way. Running out of lines is
      the end of input, which exits with status 0. */
  datatype Prompted = Prompted(sel: Selection, used: nat, printed: seq<string>)

  function Prompting(cmds: seq<Command>, apps: seq<string>): Prompted
  {
    if |cmds| == 0 then Prompted(Exited(0), 0, [])
    else if Stops(cmds[0]) then Prompted(SelectionOf(cmds[0]), 1, [])
    else
      var rest := Prompting(cmds[1..], apps);
      Prompted(rest.sel, rest.used + 1, Echo(cmds[0], apps) + rest.printed)
  }

  /** The prompt stops at the first stopping command, having printed the
      messages of the commands before it; without one it reads every line. */
  lemma {:induction false} PromptingStopsFirst(cmds: seq<Command>, apps: seq<string>)
    ensures var p, n := Prompting(cmds, apps), FirstStop(cmds);
      && (n == |cmds| ==> p.sel == Exited(0) && p.used == n)
      && (n < |cmds| ==> p.sel == SelectionOf(cmds[n]) && p.used == n + 1)
      && p.printed == Echoes(cmds[..n], apps)
  {
    if |cmds| == 0 {
    } else if Stops(cmds[0]) {
      assert cmds[..0] == [];
    } else {
      PromptingStopsFirst(cmds[1..], apps);
      assert cmds[..FirstStop(cmds)][1..] == cmds[1..][..FirstStop(cmds[1..])];
    }
  }

  /** A selected problem is a known one. */
  lemma {:induction false} PromptingSelectsKnown(lines: seq<string>, pids: seq<string>, apps: seq<string>)
    ensures var p := Prompting(ClassifyAll(lines, pids), apps);
      p.sel.Selected? ==> p.sel.pid in pids
  {
    var cmds := ClassifyAll(lines, pids);
    PromptingStopsFirst(cmds, apps);
  }

  /** One line of the prompt, at position `i`. */
  lemma PromptingStep(cmds: seq<Command>, i: nat, apps: seq<string>)
    requires i < |cmds|
    ensures var p := Prompting(cmds[i..], apps);
      && (Stops(cmds[i]) ==> p == Prompted(SelectionOf(cmds[i]), 1, []))
      && (!Stops(cmds[i]) ==> var rest := Prompting(cmds[i + 1..], apps);
                              p == Prompted(rest.sel, rest.used + 1, Echo(cmds[i], apps) + rest.printed))
  {
    assert cmds[i..][0] == cmds[i];
    assert cmds[i..][1..] == cmds[i + 1..];
  }

  /* ---------------------------------------------------------------- */
  /* interactive_loop                                                  */
  /* ---------------------------------------------------------------- */

  /** `f"```\n{text}\n```"`: a submission is sent inside a code fence. */
  function Wrap(text: string): string {
    "```\n" + text + "\n```"
  }

  /** The text inside a code fence. */
  function Unwrap(w: string): string
    requires |w| >= 8
  {
    w[4..|w| - 4]
  }

  /** The fence is eight characters, opens with a fence line and closes with
      one, and adds nothing that cannot be taken off again. */
  lemma UnwrapWrap(text: string)
    ensures |Wrap(text)| == |text| + 8
    ensures Wrap(text)[..4] == "```\n" && Wrap(text)[|text| + 4..] == "\n```"
    ensures Unwrap(Wrap(text)) == text
  {
    assert Wrap(text)[4..|text| + 4] == text;
  }

  /** A stripped line that is sent for grading rather than run in the shell. */
  predicate IsSubmission(text: string) {
    StartsWith(text, "submit(")
  }

  /** `inp.strip()` of each of some lines. */
  function StripAll(lines: seq<string>): (texts: seq<string>)
    ensures |texts| == |lines| && forall k :: 0 <= k < |lines| ==> texts[k] == Strip(lines[k])
  {
    seq(|lines|, k requires 0 <= k < |lines| => Strip(lines[k]))
  }

  /** Pieces without whitespace are left as they are. */
  lemma StripAllNoSpace(pieces: seq<string>)
    requires forall k :: 0 <= k < |pieces| ==> NoSpace(pieces[k])
    ensures StripAll(pieces) == pieces
  {
    forall k | 0 <= k < |pieces| ensures StripAll(pieces)[k] == pieces[k] {
      StripNoSpace(pieces[k]);
    }
  }

  /** The conductor's answer to one submission: its response (or the
      exception it raised) and whether the submission stage is now "done". */
  datatype Reply = Reply(response: Result<string, string>, done: bool)

  /** What the loop did: the texts it printed, the submissions it sent, the
      number of lines it read and whether the stage reached "done". */
  datatype Transcript = Transcript(printed: seq<string>, sent: seq<string>, used: nat, finished: bool)

  /** What the shell prints for one command. */
  function ShellOutput(reply: Result<string, string>): string {
    match reply
    case Ok(out) => out
    case Err(e) => "[\U{274C}] Shell error: " + e
  }

  /** What the loop shows after one submission. */
  function GradingOutput(reply: Result<string, string>): string {
    match reply
    case Ok(out) => out
    case Err(e) => "[\U{274C}] Grading error: " + e
  }

  /** The text printed before the prompt: the previous output, when non-empty. */
  function Shown(env: string): seq<string> {
    if env != "" then [env] else []
  }

  /** What one stripped line leads to: the output shown before the next
      prompt, the submission sent (if any) and whether the stage is now "done". */
  datatype Step = Step(out: string, sent: seq<string>, done: bool)

  /** The submission a stripped line sends: the line in a code fence, or none. */
  function SentBy(text: string): seq<string> {
    if IsSubmission(text) then [Wrap(text)] else []
  }

  /** One turn of the loop on the i-th stripped line. A shell command never
      ends the loop; a submission ends it when the conductor says so. */
  function StepOf(text: string, i: nat, shell: (nat, string) -> Result<string, string>,
                  submit: (nat, string) -> Reply): (st: Step)
    ensures st.sent == SentBy(text)
    ensures st.done <==> IsSubmission(text) && submit(i, Wrap(text)).done
  {
    if !IsSubmission(text) then Step(ShellOutput(shell(i, text)), [], false)
    else
      var reply := submit(i, Wrap(text));
      Step(GradingOutput(reply.response), [Wrap(text)], reply.done)
  }

  /** The loop from the i-th of the stripped lines `texts` on, with `env` the
      output still to be printed. `shell(i, text)` is what running the i-th
      line gives, `submit(i, w)` what the conductor answers to the i-th line;
      running out of lines is the end of input, which exits. */
  function Session(texts: seq<string>, i: nat, env: string,
                   shell: (nat, string) -> Result<string, string>,
                   submit: (nat, string) -> Reply): Transcript
    requires i <= |texts|
    decreases |texts| - i
  {
    if i == |texts| then Transcript([], [], 0, false)
    else
      var st := StepOf(texts[i], i, shell, submit);
      if st.done then Transcript(Shown(env), st.sent, 1, true)
      else
        var rest := Session(texts, i + 1, st.out, shell, submit);
        Transcript(Shown(env) + rest.printed, st.sent + rest.sent, rest.used + 1, rest.finished)
  }

  /** The fenced submissions among the `n` stripped lines from the i-th on, in order. */
  function SubmissionsFrom(texts: seq<string>, i: nat, n: nat): seq<string>
    requires i + n <= |texts|
    decreases n
  {
    if n == 0 then [] else SentBy(texts[i]) + SubmissionsFrom(texts, i + 1, n - 1)
  }

  /** The loop sends exactly the submissions among the lines it reads, each in
      a code fence, and reads no line past the end. */
  lemma {:induction false} SessionSends(texts: seq<string>, i: nat, env: string,
                                        shell: (nat, string) -> Result<string, string>,
                                        submit: (nat, string) -> Reply)
    requires i <= |texts|
    ensures var t := Session(texts, i, env, shell, submit);
      i + t.used <= |texts| && t.sent == SubmissionsFrom(texts, i, t.used)
    decreases |texts| - i
  {
    if i < |texts| {
      var st := StepOf(texts[i], i, shell, submit);
      SessionStep(texts, i, env, shell, submit);
      if st.done {
        assert SubmissionsFrom(texts, i, 1) == SentBy(texts[i]) + SubmissionsFrom(texts, i + 1, 0);
      } else {
        var rest := Session(texts, i + 1, st.out, shell, submit);
        SessionSends(texts, i + 1, st.out, shell, submit);
        assert SubmissionsFrom(texts, i, rest.used + 1) == SentBy(texts[i]) + SubmissionsFrom(texts, i + 1, rest.used);
      }
    }
  }

  /** The first step of a session, as far as what it sends and reads. */
  lemma SessionStep(texts: seq<string>, i: nat, env: string,
                    shell: (nat, string) -> Result<string, string>, submit: (nat, string) -> Reply)
    requires i < |texts|
    ensures var st := StepOf(texts[i], i, shell, submit);
      var t := Session(texts, i, env, shell, submit);
      var rest := Session(texts, i + 1, st.out, shell, submit);
      && (st.done ==> t.sent == SentBy(texts[i]) && t.used == 1)
      && (!st.done ==> t.sent == SentBy(texts[i]) + rest.sent && t.used == rest.used + 1)
  {
  }

  /** The k-th stripped line is a submission after which the stage is "done". */
  predicate DoneAt(texts: seq<string>, k: nat, submit: (nat, string) -> Reply)
    requires k < |texts|
  {
    IsSubmission(texts[k]) && submit(k, Wrap(texts[k])).done
  }

  /** The loop ends either at a submission after which the stage is "done"
      (the last line it read) or, having read every line, at the end of input. */
  lemma {:induction false} SessionEnds(texts: seq<string>, i: nat, env: string,
                                       shell: (nat, string) -> Result<string, string>,
                                       submit: (nat, string) -> Reply)
    requires i <= |texts|
    ensures var t := Session(texts, i, env, shell, submit);
      && i + t.used <= |texts|
      && (!t.finished ==> i + t.used == |texts|)
      && (t.finished ==> t.used >= 1 && DoneAt(texts, i + t.used - 1, submit))
    decreases |texts| - i
  {
    if i < |texts| {
      var st := StepOf(texts[i], i, shell, submit);
      if !st.done {
        var t := Session(texts, i, env, shell, submit);
        var rest := Session(texts, i + 1, st.out, shell, submit);
        SessionEnds(texts, i + 1, st.out, shell, submit);
        assert t.used == rest.used + 1 && t.finished == rest.finished;
      }
    }
  }

  /* ---------------------------------------------------------------- */
  /* _prompt_with_default and main                                     */
  /* ---------------------------------------------------------------- */

  /** `result.strip() or default`. */
  function PromptWithDefault(raw: string, default: string): (r: string)
    ensures Strip(raw) != "" ==> r == Strip(raw)
    ensures Strip(raw) == "" ==> r == default
  {
    if Strip(raw) != "" then Strip(raw) else default
  }

  /** Answering a prompt with what it returned returns the same, when the
      default is already stripped. */
  lemma PromptWithDefaultIdem(raw: string, default: string)
    requires Strip(default) == default
    ensures PromptWithDefault(PromptWithDefault(raw, default), default) == PromptWithDefault(raw, default)
  {
    StripIdem(raw);
  }

  /** `configure.lower() in ['y', 'yes']` with the default "n". */
  predicate WantsConfigure(raw: string) {
    var answer := Lower(PromptWithDefault(raw, "n"));
    answer == "y" || answer == "yes"
  }

  /** Transient issues are configured exactly when the stripped answer is
      "y" or "yes" in any case; a blank answer declines. */
  lemma WantsConfigureIff(raw: string)
    ensures WantsConfigure(raw) <==> (Lower(Strip(raw)) == "y" || Lower(Strip(raw)) == "yes")
  {
    if Strip(raw) == "" {
      assert Lower("n") == "n";
      assert Lower(Strip(raw)) == "";
    }
  }

  /* ---------------------------------------------------------------- */
  /* configure_transient_issues                                        */
  /* ---------------------------------------------------------------- */

  datatype FaultType = FailStop | FailSlow

  datatype PodScope = TargetService | TargetNamespace | NonTargetService | AllPods | NonTargetNamespace

  /** The problems whose faulty service is global. */
  const GlobalFaultyServicePids: seq<string> := ["rpc_retry_storm"]

  const ScopeError: string := "ValueError: target_service scope is not allowed for problems with global faulty services."

  /** The answers the fault type and scope prompts default to. */
  const DefaultFaultTypes: string := "fail-stop" + "," + "fail-slow"
  const DefaultScopes: string := "target_namespace"

  function FaultTypeName(f: FaultType): string {
    match f
    case FailStop => "fail-stop"
    case FailSlow => "fail-slow"
  }

  function ScopeName(s: PodScope): string {
    match s
    case TargetService => "target_service"
    case TargetNamespace => "target_namespace"
    case NonTargetService => "non_target_service"
    case AllPods => "all_pods"
    case NonTargetNamespace => "non_target_namespace"
  }

  /** The fault type a stripped piece names, if any. */
  function FaultTypeOf(piece: string): (r: Option<FaultType>)
    ensures r.Some? ==> FaultTypeName(r.value) == piece
  {
    if piece == "fail-stop" then Some(FailStop)
    else if piece == "fail-slow" then Some(FailSlow)
    else None
  }

  /** `scope_map`: the scope a stripped piece names, if any. */
  function ScopeOf(piece: string): (r: Option<PodScope>)
    ensures r.Some? ==> ScopeName(r.value) == piece
  {
    if piece == "target_service" then Some(TargetService)
    else if piece == "target_namespace" then Some(TargetNamespace)
    else if piece == "non_target_service" then Some(NonTargetService)
    else if piece == "all_pods" then Some(AllPods)
    else if piece == "non_target_namespace" then Some(NonTargetNamespace)
    else None
  }

  /** Every fault type's name is read back as that fault type. */
  lemma FaultTypeOfName(f: FaultType)
    ensures FaultTypeOf(FaultTypeName(f)) == Some(f)
  {
  }

  /** Every scope's name is read back as that scope. */
  lemma ScopeOfName(s: PodScope)
    ensures ScopeOf(ScopeName(s)) == Some(s)
  {
  }

  function OptionList<T>(o: Option<T>): seq<T> {
    if o.Some? then [o.value] else []
  }

  /** The fault types named by the stripped pieces, in order; pieces that
      name none are dropped. */
  function FaultTypesOf(names: seq<string>): seq<FaultType> {
    if |names| == 0 then []
    else FaultTypesOf(names[..|names| - 1]) + OptionList(FaultTypeOf(names[|names| - 1]))
  }

  /** Whether a problem's faulty service is global. */
  predicate GlobalFaulty(problemId: Option<string>) {
    problemId.Some? && problemId.value in GlobalFaultyServicePids
  }

  /** The scopes named by the stripped pieces, in order, dropping unknown
      names; `target_service` raises ValueError when the problem's faulty
      service is global. */
  function ScopesOf(names: seq<string>, faulty: bool): Result<seq<PodScope>, string> {
    if |names| == 0 then Ok([])
    else
      var init := ScopesOf(names[..|names| - 1], faulty);
      var scope := names[|names| - 1];
      if init.Err? then init
      else if scope == "target_service" && faulty then Err(ScopeError)
      else Ok(init.value + OptionList(ScopeOf(scope)))
  }

  /** Parsing the scopes fails exactly when the faulty service is global and
      some piece names `target_service`, and then with the ValueError. */
  lemma {:induction false} ScopesErrIff(names: seq<string>, faulty: bool)
    ensures ScopesOf(names, faulty).Err? <==> faulty && "target_service" in names
    ensures ScopesOf(names, faulty).Err? ==> ScopesOf(names, faulty).error == ScopeError
  {
    if |names| > 0 {
      var init := names[..|names| - 1];
      ScopesErrIff(init, faulty);
      assert names == init + [names[|names| - 1]];
    }
  }

  /** An error on a prefix of the pieces is an error on all of them. */
  lemma ScopesErrPersists(names: seq<string>, i: nat, faulty: bool)
    requires i <= |names| && ScopesOf(names[..i], faulty).Err?
    ensures ScopesOf(names, faulty) == Err(ScopeError)
  {
    ScopesErrIff(names[..i], faulty);
    var k :| 0 <= k < i && names[..i][k] == "target_service";
    assert names[k] == "target_service";
    ScopesErrIff(names, faulty);
  }

  function FaultTypeNames(fs: seq<FaultType>): (names: seq<string>)
    ensures |names| == |fs| && forall k :: 0 <= k < |fs| ==> names[k] == FaultTypeName(fs[k])
  {
    seq(|fs|, k requires 0 <= k < |fs| => FaultTypeName(fs[k]))
  }

  function ScopeNames(ss: seq<PodScope>): (names: seq<string>)
    ensures |names| == |ss| && forall k :: 0 <= k < |ss| ==> names[k] == ScopeName(ss[k])
  {
    seq(|ss|, k requires 0 <= k < |ss| => ScopeName(ss[k]))
  }

  lemma FaultTypeNameShape(f: FaultType)
    ensures NoSpace(FaultTypeName(f)) && ',' !in FaultTypeName(f)
  {
  }

  lemma ScopeNameShape(s: PodScope)
    ensures NoSpace(ScopeName(s)) && ',' !in ScopeName(s)
  {
  }

  /** The names of some fault types are parsed back into those fault types. */
  lemma {:induction false} FaultTypesOfNames(fs: seq<FaultType>)
    ensures FaultTypesOf(FaultTypeNames(fs)) == fs
  {
    if |fs| > 0 {
      var names := FaultTypeNames(fs);
      var init, last := fs[..|fs| - 1], fs[|fs| - 1];
      assert fs == init + [last];
      assert names[..|names| - 1] == FaultTypeNames(init);
      FaultTypesOfNames(init);
      FaultTypeOfName(last);
    }
  }

  /** Typing some fault types, comma-separated, gives back those fault types. */
  lemma FaultTypesRoundTrip(fs: seq<FaultType>)
    requires |fs| >= 1
    ensures FaultTypesOf(StripAll(Split(Join(FaultTypeNames(fs), ','), ','))) == fs
  {
    var names := FaultTypeNames(fs);
    forall k | 0 <= k < |names| ensures NoSpace(names[k]) && ',' !in names[k] {
      FaultTypeNameShape(fs[k]);
    }
    SplitJoin(names, ',');
    StripAllNoSpace(names);
    FaultTypesOfNames(fs);
  }

  /** The names of some scopes are parsed back into those scopes, unless one
      of them is `target_service` and the faulty service is global. */
  lemma {:induction false} ScopesOfNames(ss: seq<PodScope>, faulty: bool)
    requires !(faulty && TargetService in ss)
    ensures ScopesOf(ScopeNames(ss), faulty) == Ok(ss)
  {
    if |ss| > 0 {
      var names := ScopeNames(ss);
      var init, last := ss[..|ss| - 1], ss[|ss| - 1];
      assert ss == init + [last];
      assert names[..|names| - 1] == ScopeNames(init);
      ScopesOfNames(init, faulty);
      ScopeOfName(last);
    }
  }

  /** Typing some scopes, comma-separated, gives back those scopes. */
  lemma ScopesRoundTrip(ss: seq<PodScope>, faulty: bool)
    requires |ss| >= 1 && !(faulty && TargetService in ss)
    ensures ScopesOf(StripAll(Split(Join(ScopeNames(ss), ','), ',')), faulty) == Ok(ss)
  {
    var names := ScopeNames(ss);
    forall k | 0 <= k < |names| ensures NoSpace(names[k]) && ',' !in names[k] {
      ScopeNameShape(ss[k]);
    }
    SplitJoin(names, ',');
    StripAllNoSpace(names);
    ScopesOfNames(ss, faulty);
  }

  /** The configuration handed to the conductor. */
  datatype TransientConfig = TransientConfig(switch: bool, minDuration: int, maxDuration: int,
                                             faultTypes: seq<FaultType>, scopes: seq<PodScope>,
                                             intervalMin: int, intervalMax: int)

  /** `int(s)`, or the ValueError it raises. */
  function IntOf(s: string): (r: Result<int, string>)
    ensures r.Ok? <==> ParseInt(s).Some?
    ensures r.Ok? ==> r.value == ParseInt(s).value
  {
    match ParseInt(s)
    case Some(n) => Ok(n)
    case None => Err("ValueError: invalid literal for int() with base 10: '" + s + "'")
  }

  /** The whole dialogue on the six raw answers, in prompt order: minimum and
      maximum duration, fault types, scopes, minimum and maximum interval.
      Too few answers is the end of input at the next prompt. */
  function ConfigOf(answers: seq<string>, faulty: bool): Result<TransientConfig, string> {
    if |answers| < 2 then Err(Exit0)
    else
      var minDuration := IntOf(PromptWithDefault(answers[0], "40"));
      var maxDuration := IntOf(PromptWithDefault(answers[1], "60"));
      if minDuration.Err? then Err(minDuration.error)
      else if maxDuration.Err? then Err(maxDuration.error)
      else if |answers| < 3 then Err(Exit0)
      else
        var faultTypes := FaultTypesOf(StripAll(Split(PromptWithDefault(answers[2], DefaultFaultTypes), ',')));
        if |answers| < 4 then Err(Exit0)
        else
          var scopes := ScopesOf(StripAll(Split(PromptWithDefault(answers[3], DefaultScopes), ',')), faulty);
          if scopes.Err? then Err(scopes.error)
          else if |answers| < 6 then Err(Exit0)
          else
            var intervalMin := IntOf(PromptWithDefault(answers[4], "20"));
            var intervalMax := IntOf(PromptWithDefault(answers[5], "30"));
            if intervalMin.Err? then Err(intervalMin.error)
            else if intervalMax.Err? then Err(intervalMax.error)
            else Ok(TransientConfig(true, minDuration.value, maxDuration.value, faultTypes, scopes.value,
                                    intervalMin.value, intervalMax.value))
  }

  /** Six answers that each parse give the configuration made of them. */
  lemma ConfigOfAnswers(answers: seq<string>, faulty: bool, minDuration: int, maxDuration: int,
                        faultTypes: seq<FaultType>, scopes: seq<PodScope>, intervalMin: int, intervalMax: int)
    requires |answers| >= 6
    requires IntOf(PromptWithDefault(answers[0], "40")) == Ok(minDuration)
    requires IntOf(PromptWithDefault(answers[1], "60")) == Ok(maxDuration)
    requires FaultTypesOf(StripAll(Split(PromptWithDefault(answers[2], DefaultFaultTypes), ','))) == faultTypes
    requires ScopesOf(StripAll(Split(PromptWithDefault(answers[3], DefaultScopes), ',')), faulty) == Ok(scopes)
    requires IntOf(PromptWithDefault(answers[4], "20")) == Ok(intervalMin)
    requires IntOf(PromptWithDefault(answers[5], "30")) == Ok(intervalMax)
    ensures ConfigOf(answers, faulty)
         == Ok(TransientConfig(true, minDuration, maxDuration, faultTypes, scopes, intervalMin, intervalMax))
  {
  }

  /** An empty answer takes the prompt's default. */
  lemma EmptyAnswer(default: string)
    ensures PromptWithDefault("", default) == default
  {
    assert TrimLeft("") == "";
  }

  /** An empty answer to a number prompt gives the default number. */
  lemma EmptyNumberAnswer(n: int)
    ensures IntOf(PromptWithDefault("", IntToString(n))) == Ok(n)
  {
    EmptyAnswer(IntToString(n));
    ParseIntOfIntToString(n);
  }

  /** An empty answer to the fault type prompt gives fail-stop and fail-slow. */
  lemma EmptyFaultTypesAnswer()
    ensures FaultTypesOf(StripAll(Split(PromptWithDefault("", DefaultFaultTypes), ','))) == [FailStop, FailSlow]
  {
    EmptyAnswer(DefaultFaultTypes);
    FaultTypesRoundTrip([FailStop, FailSlow]);
    var names := FaultTypeNames([FailStop, FailSlow]);
    assert names == ["fail-stop", "fail-slow"];
    assert Join(names, ',') == DefaultFaultTypes;
  }

  /** An empty answer to the scope prompt gives the target namespace. */
  lemma EmptyScopesAnswer(faulty: bool)
    ensures ScopesOf(StripAll(Split(PromptWithDefault("", DefaultScopes), ',')), faulty) == Ok([TargetNamespace])
  {
    EmptyAnswer(DefaultScopes);
    ScopesRoundTrip([TargetNamespace], faulty);
    assert Join(ScopeNames([TargetNamespace]), ',') == DefaultScopes;
  }

  /** Accepting every default gives durations 40 to 60, both fault types, the
      target namespace and intervals 20 to 30, whatever the problem. */
  lemma ConfigDefaults(faulty: bool)
    ensures ConfigOf(["", "", "", "", "", ""], faulty)
         == Ok(TransientConfig(true, 40, 60, [FailStop, FailSlow], [TargetNamespace], 20, 30))
  {
    var answers := ["", "", "", "", "", ""];
    assert answers[0] == answers[1] == answers[2] == answers[3] == answers[4] == answers[5] == "";
    assert IntToString(40) == "40" && IntToString(60) == "60";
    assert IntToString(20) == "20" && IntToString(30) == "30";
    EmptyNumberAnswer(40);
    EmptyNumberAnswer(60);
    EmptyNumberAnswer(20);
    EmptyNumberAnswer(30);
    EmptyFaultTypesAnswer();
    EmptyScopesAnswer(faulty);
    ConfigOfAnswers(answers, faulty, 40, 60, [FailStop, FailSlow], [TargetNamespace], 20, 30);
  }

  /** For a problem whose faulty service is global, the answer "target_service"
      to the scope prompt ends the configuration with the scope error. */
  lemma ConfigRefusesTargetService(answers: seq<string>)
    requires |answers| >= 4 && Strip(answers[3]) == "target_service"
    requires IntOf(PromptWithDefault(answers[0], "40")).Ok? && IntOf(PromptWithDefault(answers[1], "60")).Ok?
    ensures ConfigOf(answers, true) == Err(ScopeError)
  {
    assert PromptWithDefault(answers[3], DefaultScopes) == "target_service";
    TargetServiceAnswer();
    ScopesErrIff(["target_service"], true);
    ConfigOfScopesErr(answers, true, ScopeError);
  }

  /** The answer "target_service" is that one scope name. */
  lemma TargetServiceAnswer()
    ensures StripAll(Split("target_service", ',')) == ["target_service"]
  {
    SingleNameAnswer("target_service");
  }

  /** An answer that is one name, without whitespace or commas, is that name. */
  lemma SingleNameAnswer(name: string)
    requires NoSpace(name) && ',' !in name
    ensures StripAll(Split(name, ',')) == [name]
  {
    assert Join([name], ',') == name;
    SplitJoin([name], ',');
    StripNoSpace(name);
  }

  /** Scopes that are refused end the configuration with the scope error,
      whatever the interval answers are. */
  lemma ConfigOfScopesErr(answers: seq<string>, faulty: bool, e: string)
    requires |answers| >= 4
    requires IntOf(PromptWithDefault(answers[0], "40")).Ok? && IntOf(PromptWithDefault(answers[1], "60")).Ok?
    requires ScopesOf(StripAll(Split(PromptWithDefault(answers[3], DefaultScopes), ',')), faulty) == Err(e)
    ensures ConfigOf(answers, faulty) == Err(e)
  {
  }

  /* ---------------------------------------------------------------- */
  /* HumanAgent                                                        */
  /* ---------------------------------------------------------------- */

  /** One step of a session that does not finish: what was printed and
      sent before it carries over to the rest of the session. */
  lemma SessionContinues(texts: seq<string>, i: nat, env: string, printed: seq<string>, sent: seq<string>,
                         shell: (nat, string) -> Result<string, string>, submit: (nat, string) -> Reply)
    requires i < |texts| && !StepOf(texts[i], i, shell, submit).done
    ensures var st := StepOf(texts[i], i, shell, submit);
      var t := Session(texts, i, env, shell, submit);
      var rest := Session(texts, i + 1, st.out, shell, submit);
      && printed + t.printed == (printed + Shown(env)) + rest.printed
      && sent + t.sent == (sent + st.sent) + rest.sent
      && t.used == rest.used + 1 && t.finished == rest.finished
  {
    var st := StepOf(texts[i], i, shell, submit);
    var rest := Session(texts, i + 1, st.out, shell, submit);
    assert printed + (Shown(env) + rest.printed) == (printed + Shown(env)) + rest.printed;
    assert sent + (st.sent + rest.sent) == (sent + st.sent) + rest.sent;
  }

  /** A step that finishes the session: what it shows and sends ends the transcript. */
  lemma SessionStops(texts: seq<string>, i: nat, env: string, printed: seq<string>, sent: seq<string>,
                     shell: (nat, string) -> Result<string, string>, submit: (nat, string) -> Reply)
    requires i < |texts| && StepOf(texts[i], i, shell, submit).done
    ensures var t := Session(texts, i, env, shell, submit);
      && printed + t.printed == printed + Shown(env)
      && sent + t.sent == sent + [Wrap(texts[i])]
      && t.used == 1 && t.finished
  {
  }

  /** The loop of `select_mode`, over what each typed line means: it
      prompts until `exit`, a start of a known problem or a blank line;
      running out of lines is the end of input. */
  method PromptLoop(cmds: seq<Command>, apps: seq<string>) returns (p: Prompted)
    ensures p == Prompting(cmds, apps)
  {
    var printed: seq<string> := [];
    var i := 0;
    while i < |cmds|
      invariant 0 <= i <= |cmds|
      invariant var rest := Prompting(cmds[i..], apps);
        Prompting(cmds, apps) == Prompted(rest.sel, i + rest.used, printed + rest.printed)
    {
      var c := cmds[i];
      PromptingStep(cmds, i, apps);
      if Stops(c) {
        assert printed + [] == printed;
        return Prompted(SelectionOf(c), i + 1, printed);
      }
      ghost var rest := Prompting(cmds[i + 1..], apps);
      assert printed + (Echo(c, apps) + rest.printed) == (printed + Echo(c, apps)) + rest.printed;
      printed := printed + Echo(c, apps);
      i := i + 1;
    }
    assert cmds[i..] == [] && printed + [] == printed;
    p := Prompted(Exited(0), i, printed);
  }

  /** The loop over the stripped comma-separated fault types: the pieces
      that name a fault type, in order; the others are skipped. */
  method FaultTypesIn(names: seq<string>) returns (fts: seq<FaultType>)
    ensures fts == FaultTypesOf(names)
  {
    fts := [];
    for i := 0 to |names|
      invariant fts == FaultTypesOf(names[..i])
    {
      assert names[..i + 1][..i] == names[..i];
      var ft := names[i];
      fts := fts + OptionList(FaultTypeOf(ft));
    }
    assert names[..|names|] == names;
  }

  /** The loop over the stripped comma-separated scopes: `target_service` for
      a problem whose faulty service is global raises the scope error, the
      pieces that name a scope are kept in order and the others are skipped. */
  method ScopesIn(names: seq<string>, faulty: bool) returns (r: Result<seq<PodScope>, string>)
    ensures r == ScopesOf(names, faulty)
  {
    var scopes: seq<PodScope> := [];
    var i := 0;
    while i < |names|
      invariant 0 <= i <= |names|
      invariant ScopesOf(names[..i], faulty) == Ok(scopes)
    {
      assert names[..i + 1][..i] == names[..i];
      var scope := names[i];
      if scope == "target_service" && faulty {
        ScopesErrPersists(names, i + 1, faulty);
        return Err(ScopeError);
      }
      assert ScopesOf(names[..i + 1], faulty) == Ok(scopes + OptionList(ScopeOf(scope)));
      scopes := scopes + OptionList(ScopeOf(scope));
      i := i + 1;
    }
    assert names[..i] == names;
    r := Ok(scopes);
  }

  /** The loop of `interactive_loop` over the stripped lines: every line but
      a submission runs in the shell; a submission is sent in a code fence,
      and the loop ends when the submission stage is "done" or the lines run
      out. The previous output is shown before each prompt. */
  method Converse(texts: seq<string>, shell: (nat, string) -> Result<string, string>,
                  submit: (nat, string) -> Reply) returns (t: Transcript)
    ensures t == Session(texts, 0, "", shell, submit)
  {
    var env := "";
    var printed: seq<string> := [];
    var sent: seq<string> := [];
    var i := 0;
    while i < |texts|
      invariant 0 <= i <= |texts|
      invariant var rest := Session(texts, i, env, shell, submit);
        Session(texts, 0, "", shell, submit)
        == Transcript(printed + rest.printed, sent + rest.sent, i + rest.used, rest.finished)
    {
      var shownNow := Shown(env);
      var text := texts[i];
      ghost var st := StepOf(text, i, shell, submit);
      ghost var sent0 := sent;
      ghost var env0 := env;
      if !IsSubmission(text) {
        env := ShellOutput(shell(i, text));
      } else {
        var wrapped := Wrap(text);
        var reply := submit(i, wrapped);
        if reply.done {
          SessionStops(texts, i, env, printed, sent, shell, submit);
          return Transcript(printed + shownNow, sent + [wrapped], i + 1, true);
        }
        sent := sent + [wrapped];
        env := GradingOutput(reply.response);
      }
      assert env == st.out && !st.done && sent == sent0 + st.sent;
      SessionContinues(texts, i, env0, printed, sent0, shell, submit);
      printed := printed + shownNow;
      i := i + 1;
    }
    assert printed + [] == printed && sent + [] == sent;
    t := Transcript(printed, sent, i, false);
  }

  class HumanAgent {
    /** The problem ids the conductor knows. */
    const pids: seq<string>
    /** The conductor's `problem_id`. */
    var problemId: Option<string>
    var sessionPurpose: Option<string>
    /** What the console has shown, in order. */
    var shown: seq<string>

    constructor(pids: seq<string>)
      ensures this.pids == pids && problemId == None && sessionPurpose == None && shown == []
    {
      this.pids := pids;
      problemId := None;
      sessionPurpose := None;
      shown := [];
    }

    /** `select_mode` over the lines typed at the prompt; `apps` are the
        deployed apps. What the prompt prints is shown, and a started problem
        becomes the conductor's problem with the session purpose "problem". */
    method SelectMode(lines: seq<string>, apps: seq<string>) returns (r: Selection, used: nat)
      modifies this
      ensures var p := Prompting(ClassifyAll(lines, pids), apps);
        r == p.sel && used == p.used && shown == old(shown) + p.printed
      ensures r.Selected? ==> problemId == Some(r.pid) && sessionPurpose == Some("problem")
      ensures !r.Selected? ==> problemId == old(problemId) && sessionPurpose == old(sessionPurpose)
    {
      var p := PromptLoop(ClassifyAll(lines, pids), apps);
      shown := shown + p.printed;
      r, used := p.sel, p.used;
      if r.Selected? {
        problemId := Some(r.pid);
        sessionPurpose := Some("problem");
      }
    }

    /** `interactive_loop` over the lines typed at the prompt, each stripped. */
    method InteractiveLoop(lines: seq<string>, shell: (nat, string) -> Result<string, string>,
                           submit: (nat, string) -> Reply) returns (t: Transcript)
      ensures t == Session(StripAll(lines), 0, "", shell, submit)
    {
      t := Converse(StripAll(lines), shell, submit);
    }

    /** `configure_transient_issues` on the raw answers to its six prompts;
        the result is the configuration passed to the conductor. */
    method ConfigureTransientIssues(answers: seq<string>) returns (r: Result<TransientConfig, string>)
      ensures r == ConfigOf(answers, GlobalFaulty(problemId))
    {
      if |answers| < 2 {
        return Err(Exit0);
      }
      var minDuration := IntOf(PromptWithDefault(answers[0], "40"));
      var maxDuration := IntOf(PromptWithDefault(answers[1], "60"));
      if minDuration.Err? {
        return Err(minDuration.error);
      }
      if maxDuration.Err? {
        return Err(maxDuration.error);
      }
      if |answers| < 3 {
        return Err(Exit0);
      }
      var faultTypes := FaultTypesIn(StripAll(Split(PromptWithDefault(answers[2], DefaultFaultTypes), ',')));
      if |answers| < 4 {
        return Err(Exit0);
      }
      var faulty := problemId.Some? && problemId.value in GlobalFaultyServicePids;
      var scopes := ScopesIn(StripAll(Split(PromptWithDefault(answers[3], DefaultScopes), ',')), faulty);
      if scopes.Err? {
        return Err(scopes.error);
      }
      if |answers| < 6 {
        return Err(Exit0);
      }
      var intervalMin := IntOf(PromptWithDefault(answers[4], "20"));
      var intervalMax := IntOf(PromptWithDefault(answers[5], "30"));
      if intervalMin.Err? {
        return Err(intervalMin.error);
      }
      if intervalMax.Err? {
        return Err(intervalMax.error);
      }
      r := Ok(TransientConfig(true, minDuration.value, maxDuration.value, faultTypes, scopes.value,
                              intervalMin.value, intervalMax.value));
    }
  }
}
