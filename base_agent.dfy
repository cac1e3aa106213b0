/** The Stratus base agent's round bookkeeping: a hook after every tool call
    counts the rounds and tells the agent how many remain, and a router ends
    the conversation once the rounds are used up or an answer was submitted. */
module StratusBaseAgent {
  import opened Common
  import opened Values
  import opened Strings

  /** Where `post_tool_route` sends the graph next. */
  datatype Route = End | ToAgent

  /** The update `post_tool_hook` returns: new messages and the round count. */
  datatype HookUpdate = HookUpdate(messages: seq<Message>, numRounds: int)

  /** The graph state `run` starts from. */
  datatype AgentState = AgentState(
    messages: seq<Message>, workdir: string, currFile: string, currLine: int,
    numRounds: int, submitted: bool, ans: map<string, Value>)

  const SubmissionDetected: string := "Submission has been detected. Will be routed to END."
  const ForcedEnd: string := "You have reached to the limit of max number of rounds. Will be forced to end."
  const LastRoundWarning: string :=
    "You have already reached the limit of max number of rounds. "
    + "You should call the submit_tool and submit your answer in the "
    + "tool-call stage of next round. "
    + "If you keep calling other tools, the process will be forced to end "
    + "and you will be considered failing the "
    + "tasks."
  const ExplanationPrompt: string :=
    "You are now in explanation stage; "
    + "please explain why you want to call the tools with the arguments next; "
    + "the tools you mentioned must be available to you at first."
  const ToolCallPrompt: string :=
    "You are now in tool-call stage; please make tool calls consistent with your explanation"
  const NoGraphError: string := "Agent graph is None. Have you built the agent?"
  const NoPromptsError: string := "No prompts used to start the conversation!"

  /** The progress message for `done` rounds out of `maxRound`, with `left` remaining. */
  function RoundsLeft(done: int, left: int): string {
    "You have already ran " + IntToString(done) + " rounds. You can still run "
    + IntToString(left) + " more rounds."
  }

  /** `post_tool_route`: END once the rounds are used up or after a submission. */
  function PostToolRoute(numRounds: int, submitted: bool, maxRound: int): (r: Route)
    ensures r == End <==> numRounds > maxRound || submitted
  {
    if numRounds > maxRound || submitted then End else ToAgent
  }

  /** `post_tool_hook`: one system message, and one more round unless the agent submitted. */
  function PostToolHook(numRounds: int, submitted: bool, maxRound: int): (u: HookUpdate)
    ensures |u.messages| == 1 && u.messages[0].SystemMsg?
    ensures u.numRounds == if submitted then numRounds else numRounds + 1
    ensures submitted ==> u.messages[0].content == SubmissionDetected
    ensures !submitted && u.numRounds > maxRound ==> u.messages[0].content == ForcedEnd
    ensures !submitted && u.numRounds == maxRound ==> u.messages[0].content == LastRoundWarning
    ensures !submitted && u.numRounds < maxRound ==>
              u.messages[0].content == RoundsLeft(u.numRounds, maxRound - u.numRounds)
  {
    if submitted then HookUpdate([SystemMsg(SubmissionDetected)], numRounds)
    else
      var n := numRounds + 1;
      var text := if n > maxRound then ForcedEnd
                  else if n < maxRound then RoundsLeft(n, maxRound - n)
                  else LastRoundWarning;
      HookUpdate([SystemMsg(text)], n)
  }

  /** The number of hook-and-route steps a conversation that never submits
      takes from `numRounds` until the router sends it to END. */
  function HooksUntilEnd(numRounds: int, maxRound: int): nat
    decreases if numRounds <= maxRound then maxRound - numRounds + 1 else 0
  {
    var u := PostToolHook(numRounds, false, maxRound);
    if PostToolRoute(u.numRounds, false, maxRound) == End then 1
    else 1 + HooksUntilEnd(u.numRounds, maxRound)
  }

  /** Without a submission, the conversation ends after the hook that takes
      the count past `maxRound`. */
  lemma {:induction false} HooksUntilEndCount(numRounds: int, maxRound: int)
    ensures HooksUntilEnd(numRounds, maxRound) == if numRounds < maxRound then maxRound - numRounds + 1 else 1
    decreases if numRounds <= maxRound then maxRound - numRounds + 1 else 0
  {
    var u := PostToolHook(numRounds, false, maxRound);
    if PostToolRoute(u.numRounds, false, maxRound) != End {
      HooksUntilEndCount(u.numRounds, maxRound);
    }
  }

  /** From the initial state (no rounds yet), a conversation that never
      submits sees `maxRound + 1` hooks, and at least one. */
  lemma RunWithoutSubmission(maxRound: int)
    ensures HooksUntilEnd(0, maxRound) == if maxRound >= 0 then maxRound + 1 else 1
  {
    HooksUntilEndCount(0, maxRound);
  }

  /** `get_init_prompts`: the system prompt, then the user prompt, each only when non-empty. */
  function InitPrompts(systemPrompt: string, userPrompt: string): (prompts: seq<Message>)
    ensures |prompts| == (if |systemPrompt| > 0 then 1 else 0) + (if |userPrompt| > 0 then 1 else 0)
    ensures |systemPrompt| > 0 ==> prompts[0] == SystemMsg(systemPrompt)
    ensures |userPrompt| > 0 ==> prompts[|prompts| - 1] == HumanMsg(userPrompt)
    ensures forall k :: 0 <= k < |prompts| ==> prompts[k] == SystemMsg(systemPrompt) || prompts[k] == HumanMsg(userPrompt)
  {
    (if |systemPrompt| > 0 then [SystemMsg(systemPrompt)] else [])
    + (if |userPrompt| > 0 then [HumanMsg(userPrompt)] else [])
  }

  /** The checks and initial state of `run`, up to streaming the graph. */
  function RunStart(graphBuilt: bool, prompts: seq<Message>): (r: Result<AgentState, string>)
    ensures !graphBuilt ==> r == Err(NoGraphError)
    ensures graphBuilt && |prompts| == 0 ==> r == Err(NoPromptsError)
    ensures r.Ok? <==> graphBuilt && |prompts| > 0
    ensures r.Ok? ==> r.value.messages == prompts && r.value.numRounds == 0 && !r.value.submitted
    ensures r.Ok? ==> r.value.workdir == "" && r.value.currFile == "" && r.value.currLine == 0 && r.value.ans == map[]
  {
    if !graphBuilt then Err(NoGraphError)
    else if |prompts| == 0 then Err(NoPromptsError)
    else Ok(AgentState(prompts, "", "", 0, 0, false, map[]))
  }

  /** The language model's `inference(messages, tools)`. */
  type Inference = (seq<Message>, seq<string>) -> Message

  class BaseAgent {
    const maxRound: int
    const asyncTools: seq<string>
    const syncTools: seq<string>
    const llm: Inference

    constructor (maxRound: int, asyncTools: seq<string>, syncTools: seq<string>, llm: Inference)
      ensures this.maxRound == maxRound && this.asyncTools == asyncTools
      ensures this.syncTools == syncTools && this.llm == llm
    {
      this.maxRound := maxRound;
      this.asyncTools := asyncTools;
      this.syncTools := syncTools;
      this.llm := llm;
    }

    /** `llm_explanation_step`: appends the explanation instruction to the
        state's own message list, then asks the model. */
    method ExplanationStep(messages: MessageList) returns (update: seq<Message>)
      modifies messages
      ensures messages.items == old(messages.items) + [HumanMsg(ExplanationPrompt)]
      ensures update == [llm(messages.items, asyncTools + syncTools)]
    {
      messages.Append(HumanMsg(ExplanationPrompt));
      update := [llm(messages.items, asyncTools + syncTools)];
    }

    /** `llm_tool_call_step`: the same with the tool-call instruction. */
    method ToolCallStep(messages: MessageList) returns (update: seq<Message>)
      modifies messages
      ensures messages.items == old(messages.items) + [HumanMsg(ToolCallPrompt)]
      ensures update == [llm(messages.items, asyncTools + syncTools)]
    {
      messages.Append(HumanMsg(ToolCallPrompt));
      update := [llm(messages.items, asyncTools + syncTools)];
    }
  }
}
