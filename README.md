# AIOpsLab / SREArena / SREGym core, modelled in Dafny

This project models the decision logic of the AIOpsLab benchmark framework and
its successors SREArena and SREGym. In these frameworks an agent is put in front
of a Kubernetes application with an injected fault. It has to detect the fault,
localise it and mitigate it, and oracles grade each submission.

One Dafny module models one Python file of the core:

- `Orchestration` (aiopslab/orchestrator/orchestrator.py): class: the stage machine, session bookkeeping, the guarded fault lifecycle and the overhead figure.
- `Detection` (aiopslab/orchestrator/oracles/detection.py): class: the exact-match detection oracle writing into the problem's results.
- `PodScheduled` (srearena/conductor/oracles/pod_scheduled_mitigation.py): method: the bounded poll loop.
- `NetworkPolicyDetection` (srearena/conductor/oracles/network_policy_oracle.py): functions plus a method: the deny-all classification and the detect loop.
- `StratusBaseAgent` (clients/langgraph_agent/stratus_agent/base_agent.py): functions for the round hook and router; a class for the message-appending steps.
- `HardwareFaultInjector` (srearena/generators/fault/inject_hw.py): functions for parsing; methods for the inject loop and the per-node recover loop.
- `Wrk2Workload` (aiopslab/generators/workload/wrk2.py): a predicate, the log-summary scan as a method, a class for the configmap flag.
- `LlmBackend` (clients/stratus/llm_backend/get_llm_backend.py): functions for message normalisation and client selection; the retry loop as a method.
- `TrainTicketF1` (srearena/conductor/problems/trainticket_f1_async_message_order.py): class: the result flags and the log-evidence scan.
- `TaintNoToleration` (srearena/conductor/problems/taint_no_toleration.py): worker-node search as a method; a class recording the commands issued.
- `CicdNoise` (sregym/generators/noise/impl/cicd_noise.py): class: the trigger and interval gate on `last_update_time`.
- `FileManip` (clients/langgraph_agent/tools/text_editing/file_manip.py): functions: line clamping and the state update.
- `ProvisionerCli` (provisioner/cli.py): the email and key validators as predicates; a class holding the users and cluster records for register, claim and relinquish.
- `SreCli` (cli.py): command classification and option parsing as functions, with loop methods proved equal to them; a class for the human agent.

Three shared modules model Python built-ins:
- `Common` holds Option and Result.
- `Strings` holds `str.isspace`, `strip`, ASCII `lower`, `split`, `join`, `in` on strings and `int()` on ASCII decimal text.
- `Values` holds a Python value with its truthiness, and the chat message kinds.

Everything the core talks to is a parameter: the cluster, kubectl, the shell, SSH,
the LLM client, the problem registry and the oracles. A function parameter stands
for what that call returns. A `seq` of turns, polls or answers stands for what an
agent, a clock or a user produces one after another. Time is an integer.

The break test of the session loop in `start_problem`
(`aiopslab/orchestrator/orchestrator.py:129-133`) compares the stage with `"done"`,
but no statement in `orchestrator.py` assigns `"done"`: after a mitigation
submission the stage stays at `"mitigation"`. The break test therefore never
fires, and the loop ends only when the agent or the environment raises. The model
proves that no sequence of graded submissions reaches `done`, and that a session
with a problem, started before `done`, always ends in an error (here the agent raising is also what
running out of its script of turns stands for).

## Model

| member | source | states |
|---|---|---|
| Orchestration.NextStage | aiopslab/orchestrator/orchestrator.py:100-115 | The stage never moves back. From detection it goes to localization exactly when the result's `success` is truthy, otherwise to mitigation. Localization and mitigation both lead to mitigation, and no grading stage leads to done. |
| Orchestration.AdvanceNeverDone | aiopslab/orchestrator/orchestrator.py:100-134 | No sequence of graded submissions from a grading stage reaches "done", so the loop's break test cannot fire. |
| Orchestration.AdvanceMonotone | aiopslab/orchestrator/orchestrator.py:100-115 | Over any sequence of submissions the stage only goes forward. |
| Orchestration.AdvanceReachesMitigation | aiopslab/orchestrator/orchestrator.py:100-115 | After any two graded submissions the stage is mitigation, whatever the oracles said. |
| Orchestration.FirstPresent | aiopslab/orchestrator/orchestrator.py:162-164 | Gives the index of the first timing key present in the results: no earlier key is present, and the index is the list length when none is. |
| Orchestration.Overhead | aiopslab/orchestrator/orchestrator.py:160-165 | If none of TTD, TTL, TTA, TTM is present, the overhead is the elapsed time. Otherwise it is the elapsed time minus the first present key's value. It fails exactly when that value is not a number. |
| Orchestration.Orchestrator.constructor | aiopslab/orchestrator/orchestrator.py:22-33 | The stage starts at detection, with no session, no exit hook and nothing injected or recovered. |
| Orchestration.Orchestrator.InitProblem | aiopslab/orchestrator/orchestrator.py:39-75 | Opens a session for the problem. An unknown problem id gives the registry's error and leaves a session without a problem. Each successful injection registers exactly one exit hook. The stage is left as it was. |
| Orchestration.Orchestrator.AskAgent | aiopslab/orchestrator/orchestrator.py:77-80 | Appends exactly one assistant entry holding the action and returns the action. Nothing else changes. |
| Orchestration.Orchestrator.EnvStep | aiopslab/orchestrator/orchestrator.py:82-115 | The effect of `ask_env` on an open session keeps its problem, only appends to the history, moves the stage only forward and never into done, and changes the stage only with the valid-submission marker, which needs a graded problem before done. |
| Orchestration.Orchestrator.Play | aiopslab/orchestrator/orchestrator.py:117-133 | The session loop over a script of turns keeps the problem, only appends to the history and moves the stage only forward; the break fires only in done. |
| Orchestration.Orchestrator.PlayNeverFinishes | aiopslab/orchestrator/orchestrator.py:100-133 | Whatever the turns, a loop started before done never reaches done and never breaks. |
| Orchestration.Orchestrator.AskEnv | aiopslab/orchestrator/orchestrator.py:82-115 | A parse error appends one env entry and returns its text. A non-submit call returns the fixed rejection and changes no grading state. A submission without a session, or before done with a session that has no problem, raises the AttributeError. Before done, a submission with a problem sets the solution to the first argument or None and is graded by the current stage's oracle: a result is stored under the stage's name, the stage advances by NextStage and the reply is the valid-submission marker; an oracle exception is raised with only the solution changed. In done a submission gets no reply. With a session open, the call's effect is EnvStep's. |
| Orchestration.Orchestrator.RecoverInRun | aiopslab/orchestrator/orchestrator.py:135-148 | Recovery followed by unregistering the exit hook. When recovery succeeds it happens once and the hook is cleared; when it fails, neither happens, and the error is the AttributeError without a problem and the recovery's exception otherwise. |
| Orchestration.Orchestrator.StartProblem | aiopslab/orchestrator/orchestrator.py:117-173 | Without a session it fails the assertion and changes nothing. Otherwise the stage and session after the call are those Play gives for the turns. When the loop does not break, the result is the recovery's error when recovery fails, else the exception that ended the loop. When it breaks, a persistence failure is reported before recovery, and with recovery working, a recorded start time and a numeric timing key the report carries the session's history and results and the overhead. Recovery runs at most once, clearing the exit hook when it does; a failed recovery leaves the hooks as they were. Started with a problem before `done`, the session always ends in an error. |
| Orchestration.Orchestrator.ExitCleanup | aiopslab/orchestrator/orchestrator.py:176-178 | Each hook still registered recovers the problem it was registered with, whatever the session now holds, then none remain. The exit fails exactly when some hook is registered and recovery fails. |
| Orchestration.Orchestrator.RunProblem | aiopslab/orchestrator/orchestrator.py:62-178 | Over init, the session loop and interpreter exit, the fault is recovered at most as often as it was injected, at most once, and no exit hook is left registered. The counts agree when the exit recovery works, since the exit hook retries a recovery the run did not do, and when the run's recovery works and the machine was not already done. |
| Detection.StrippedYes | aiopslab/orchestrator/oracles/detection.py:13 | The stripped, lower-cased solution equals "yes" exactly when the text is whitespace, then a case variant of "yes", then whitespace. |
| Detection.StrippedYesIsPadded | aiopslab/orchestrator/oracles/detection.py:13 | One direction of StrippedYes: a text that strips and lower-cases to "yes" is "yes" padded with whitespace. |
| Detection.PaddedYesStrips | aiopslab/orchestrator/oracles/detection.py:13 | The other direction of StrippedYes: any whitespace-padded case variant of "yes" strips and lower-cases to "yes". |
| Detection.Judge | aiopslab/orchestrator/oracles/detection.py:12-24 | A non-string solution is Invalid Format. A string is Correct exactly when it is a padded "yes", and Incorrect otherwise. |
| Detection.DetectionOracle.Evaluate | aiopslab/orchestrator/oracles/detection.py:8-26 | Writes exactly one Detection Accuracy value and the success flag, which is true only for Correct. It returns what the problem's eval returns on the updated results. |
| PodScheduled.Selector | srearena/conductor/oracles/pod_scheduled_mitigation.py:15 | The label selector is "app=" followed by the service name. |
| PodScheduled.PollTime | srearena/conductor/oracles/pod_scheduled_mitigation.py:16-21 | The k-th poll happens no earlier than 4·k seconds after the start. |
| PodScheduled.Evaluate | srearena/conductor/oracles/pod_scheduled_mitigation.py:8-24 | An exception from the pod listing is raised by the last poll and propagates. Otherwise the result map has only the key success. Success holds exactly when the last poll saw a non-empty list with every pod Running, and every earlier poll listed pods that were not all Running. Every poll happens before start + 90, and a failure is returned only once the clock has reached start + 90 with no poll succeeding. At most 90/4 + 1 polls happen. |
| NetworkPolicyDetection.AffectedServices | srearena/conductor/oracles/network_policy_oracle.py:61-68 | The affected services are the policy's `app` label when it has one and nothing otherwise. |
| NetworkPolicyDetection.BlockedIff | srearena/conductor/oracles/network_policy_oracle.py:23-59 | A service is blocked exactly when some deny-all policy is labelled with it. A policy is deny-all when it has Ingress in its types with no ingress rules, or Egress with no egress rules; missing types count as empty. |
| NetworkPolicyDetection.KeepPresent | srearena/conductor/oracles/network_policy_oracle.py:33-36 | The found services are the expected services that are blocked, and no more than the expected ones. |
| NetworkPolicyDetection.MakeOracle | srearena/conductor/oracles/network_policy_oracle.py:8-12 | A missing expected list becomes the empty list. |
| NetworkPolicyDetection.Detect | srearena/conductor/oracles/network_policy_oracle.py:14-47 | A listing error gives `detected: False` with the error. Otherwise the loop collects the blocked services of all policies in listing order, and the details. Detection holds exactly when some expected service is blocked, so an empty expected list never detects. |
| StratusBaseAgent.PostToolRoute | clients/langgraph_agent/stratus_agent/base_agent.py:50-59 | The route is END exactly when the round count exceeds the limit or the agent has submitted. |
| StratusBaseAgent.PostToolHook | clients/langgraph_agent/stratus_agent/base_agent.py:61-87 | Gives exactly one system message. After a submission the count is unchanged and the message reports it. Otherwise the count goes up by one: above the limit the message forces the end, at the limit it warns to submit, and below it reports the rounds left. |
| StratusBaseAgent.HooksUntilEndCount | clients/langgraph_agent/stratus_agent/base_agent.py:50-87 | Without a submission, alternating hook and route ends after `max_round - n + 1` hooks from count n, or after one hook once n has reached the limit. |
| StratusBaseAgent.RunWithoutSubmission | clients/langgraph_agent/stratus_agent/base_agent.py:125-141 | A run that starts at count 0 and never submits ends after `max_round + 1` hooks. |
| StratusBaseAgent.InitPrompts | clients/langgraph_agent/stratus_agent/base_agent.py:112-123 | The list holds the system prompt if it is non-empty, first, and then the user prompt if it is non-empty. Nothing else is in it. |
| StratusBaseAgent.RunStart | clients/langgraph_agent/stratus_agent/base_agent.py:125-141 | Without a graph, or without prompts, the run raises ValueError. Otherwise it starts from the prompts with round count 0, not submitted, and empty tool state. |
| StratusBaseAgent.BaseAgent.constructor | clients/langgraph_agent/stratus_agent/base_agent.py:17-24 | Keeps the round limit, the tools and the LLM. |
| StratusBaseAgent.BaseAgent.ExplanationStep | clients/langgraph_agent/stratus_agent/base_agent.py:28-41 | Appends the explanation prompt to the shared message list in place. It then answers with one LLM reply to the extended list. |
| StratusBaseAgent.BaseAgent.ToolCallStep | clients/langgraph_agent/stratus_agent/base_agent.py:43-48 | Appends the tool-call prompt in place and answers with one LLM reply to the extended list, bound to all tools. |
| HardwareFaultInjector.SplitNsPod | srearena/generators/fault/inject_hw.py:50-56 | Splits at the first "/": the namespace has no "/" and namespace + "/" + pod gives back the reference. A reference without "/" is in namespace default. |
| HardwareFaultInjector.SplitNsPodJoined | srearena/generators/fault/inject_hw.py:50-56 | Splitting a joined namespace and pod gives them back, even when the pod part holds further "/". |
| HardwareFaultInjector.PodNode | srearena/generators/fault/inject_hw.py:58-69 | The node name is the query's output, and an empty output is an error. |
| HardwareFaultInjector.StripScheme | srearena/generators/fault/inject_hw.py:80-81 | Removes everything up to and including the first "://". An ID without one is kept whole. |
| HardwareFaultInjector.StripSchemeOf | srearena/generators/fault/inject_hw.py:79-81 | A runtime prefix without ':' is removed exactly, leaving the bare ID. |
| HardwareFaultInjector.ContainerId | srearena/generators/fault/inject_hw.py:71-82 | Prefers the first container status, falls back to the first init container status, and is an error exactly when both are empty. The scheme is stripped. |
| HardwareFaultInjector.FirstOnNode | srearena/generators/fault/inject_hw.py:90-92 | Gives the first DaemonSet pod that runs on the node with phase Running. |
| HardwareFaultInjector.KhaosPodOnNode | srearena/generators/fault/inject_hw.py:84-93 | Returns the name of a Running Khaos pod on that node, the first one, and raises when there is none or the listing failed. |
| HardwareFaultInjector.HostPid | srearena/generators/fault/inject_hw.py:97-138 | A lookup of the node's Khaos pod that fails gives its error. A PID comes from the jq query's output when that is all digits. Otherwise the sed fallback's all-digit output gives the PID, a failed sed query gives its error, and any other sed output raises RuntimeError. |
| HardwareFaultInjector.HostPidFromDigits | srearena/generators/fault/inject_hw.py:117-138 | Every accepted PID is the value of a query output whose stripped text is all digits. |
| HardwareFaultInjector.RunEachPlanned | srearena/generators/fault/inject_hw.py:28-33 | The loop issues exactly the commands the specification function gives, stopping at the first lookup error or failed command. |
| HardwareFaultInjector.RunPlannedOnePerRef | srearena/generators/fault/inject_hw.py:28-33 | Without an error, exactly one command is issued per reference, in list order, each the one planned for it. |
| HardwareFaultInjector.Inject | srearena/generators/fault/inject_hw.py:23-33 | `inject`: looks up node, container, Khaos pod and PID for each pod reference, stopping at the first failure. |
| HardwareFaultInjector.InjectOnePerRef | srearena/generators/fault/inject_hw.py:23-33 | A fault injection without errors issues one fault exec per pod reference, in list order. |
| HardwareFaultInjector.RunOncePerNode | srearena/generators/fault/inject_hw.py:39-46 | The loop with its `touched` set issues exactly what the per-node specification function gives. |
| HardwareFaultInjector.DedupeDistinct | srearena/generators/fault/inject_hw.py:39-46 | The nodes left after de-duplication are pairwise distinct, and they are exactly the listed nodes not already touched. |
| HardwareFaultInjector.RunPerNodeDistinct | srearena/generators/fault/inject_hw.py:39-46 | When every lookup and command succeeds, exactly one command is issued per distinct node, in first-occurrence order. |
| HardwareFaultInjector.Recover | srearena/generators/fault/inject_hw.py:35-46 | `recover`: recovers each node of the pod references through its Khaos pod, stopping at the first failure. |
| HardwareFaultInjector.RecoverOncePerNode | srearena/generators/fault/inject_hw.py:35-46 | A recovery without errors issues one recover per distinct node, in first-occurrence order, and covers the node of every reference. |
| Wrk2Workload.IsJobCompleted | aiopslab/generators/workload/wrk2.py:38-44 | True exactly when the conditions are present and some condition has type Complete and status True. |
| Wrk2Workload.FirstDecision | aiopslab/generators/workload/wrk2.py:65-83 | Gives the first poll that decides the wait, a completed job or an API error; no earlier poll decides. |
| Wrk2Workload.WaitUntilComplete | aiopslab/generators/workload/wrk2.py:65-83 | The wait stops at the first deciding poll. It reports completion for a completed job and failure for an API error, and gives no answer when the polls run out first. |
| Wrk2Workload.JobLogs | aiopslab/generators/workload/wrk2.py:26-36 | The logs are those of the job's first pod, and a job without pods is an error. |
| Wrk2Workload.FirstNonEmpty | aiopslab/generators/workload/wrk2.py:111-113 | Gives the first non-empty part of a space split; all parts before it are empty. |
| Wrk2Workload.RequestsToken | aiopslab/generators/workload/wrk2.py:110-115 | The number token is non-empty and has no space. A line missing the token, or one whose next token is not "requests", raises IndexError or AssertionError. |
| Wrk2Workload.ScanRequestsLine | aiopslab/generators/workload/wrk2.py:110-115 | The token loop over the split line computes exactly RequestsToken. |
| Wrk2Workload.LastTokenNone | aiopslab/generators/workload/wrk2.py:105-115 | No number is found exactly when no dash line is followed by a requests line. |
| Wrk2Workload.LastTokenIsLast | aiopslab/generators/workload/wrk2.py:108-115 | The token found is that of a matching line with no matching line after it, so a later match overwrites an earlier one. |
| Wrk2Workload.RaiseError | aiopslab/generators/workload/wrk2.py:108-117 | A raising line raises IndexError or AssertionError. |
| Wrk2Workload.FirstRaise | aiopslab/generators/workload/wrk2.py:105-117 | The first line at or after a position whose step raises, with no raising line before it. |
| Wrk2Workload.FirstRaiseAt | aiopslab/generators/workload/wrk2.py:105-117 | A raising line with no raising line before it is the first one. |
| Wrk2Workload.FinalNumber | aiopslab/generators/workload/wrk2.py:105-122 | With no match the number is -1. An integer token gives its value, and any other token gives 0. |
| Wrk2Workload.ScanLine | aiopslab/generators/workload/wrk2.py:108-117 | One step of the log scan raises exactly when the line is a dash line that is last or is followed by a malformed requests line, with that line's RaiseError; otherwise it yields that line's token. |
| Wrk2Workload.ParseSummary | aiopslab/generators/workload/wrk2.py:105-122 | The summary's number is FinalNumber of the last match. ok is false exactly when some line reports Non-2xx or 3xx responses. The parse raises exactly when some line's step raises, with the exception of the first such line. |
| Wrk2Workload.Wrk2Generator.constructor | aiopslab/generators/workload/wrk2.py:15-24 | Keeps the job settings, with no configmap created and nothing created. |
| Wrk2Workload.Wrk2Generator.CreateTask | aiopslab/generators/workload/wrk2.py:46-63 | Creates the configmap only on the first call and the job on every call. Over any number of calls exactly one configmap exists. |
| Wrk2Workload.Wrk2Generator.RetrieveLog | aiopslab/generators/workload/wrk2.py:85-129 | No answer while the polls have not decided. An API error while waiting raises RuntimeError, and a failed log read gives the generator-error text. After a completed wait and a successful read, the result is an entry exactly when no log line raises, holding the time, the logs, and the number and ok flag parsed from the log's lines; otherwise the first raising line's exception escapes. |
| LlmBackend.EnvInt | clients/stratus/llm_backend/get_llm_backend.py:22-23 | An environment setting is parsed as an integer, the default text when unset. It fails exactly when the text is not an integer. |
| LlmBackend.RetryDefaults | clients/stratus/llm_backend/get_llm_backend.py:22-23 | With neither variable set, there are 5 retries and the first delay is 1. |
| LlmBackend.PromptMessages | clients/stratus/llm_backend/get_llm_backend.py:65-90 | A string becomes the system prompt (default "You are a helpful assistant.") then the human message. A list starting with a human message gets the system message in front; any other non-empty list is kept. An empty list or another input type raises. |
| LlmBackend.PromptKeepsMessages | clients/stratus/llm_backend/get_llm_backend.py:77-88 | Normalisation keeps every message of a list prompt, in order, at the end of the result, and never gives an empty list. |
| LlmBackend.SelectClient | clients/stratus/llm_backend/get_llm_backend.py:92-116 | Openai always gives a client, with temperature and top_p exactly when the model is not a reasoning model (o1, o3, gpt-5). Watsonx needs WX_PROJECT_ID. Any other provider raises ValueError. The given tools are bound. |
| LlmBackend.FirstSettled | clients/stratus/llm_backend/get_llm_backend.py:123-152 | Gives the first attempt that is not a rate-limit error, within the retry limit. |
| LlmBackend.Backoff | clients/stratus/llm_backend/get_llm_backend.py:123-145 | The k-th sleep is the initial delay times 2 to the power k. |
| LlmBackend.BackoffDoubles | clients/stratus/llm_backend/get_llm_backend.py:145 | Each sleep is twice the one before. |
| LlmBackend.InvokeWithRetries | clients/stratus/llm_backend/get_llm_backend.py:123-154 | Retries only rate-limit errors, sleeping the doubling delays. It returns the first completion and re-raises any other error at once. After `max_retries` rate limits it raises RuntimeError, never making more than `max_retries` attempts. The result and the attempt count are RetryResult's and RetryAttempts'. |
| LlmBackend.LiteLLMBackend.constructor | clients/stratus/llm_backend/get_llm_backend.py:28-57 | Keeps the configuration. |
| LlmBackend.LiteLLMBackend.Inference | clients/stratus/llm_backend/get_llm_backend.py:59-154 | A list prompt is changed in place into its normalised form. A prompt or provider error raises before any invocation. Otherwise the result is the retry loop's on the normalised messages with the selected client: the first completion, the first non-rate-limit error re-raised, or RuntimeError after `max_retries` rate limits. |
| LlmBackend.LiteLLMBackend.Complete | clients/stratus/llm_backend/get_llm_backend.py:92-154 | Client selection then the retry loop: an unsupported provider makes no attempt; otherwise the result and the attempts are the retry loop's with the selected client, so the first completion is returned, another error re-raised and RuntimeError raised after `max_retries` rate limits. |
| TrainTicketF1.LogKey | srearena/conductor/problems/trainticket_f1_async_message_order.py:153 | A log key is the service name with every "-" replaced by "_", followed by "_logs"; no "-" is left. |
| TrainTicketF1.ServicesHaveFreshKeys | srearena/conductor/problems/trainticket_f1_async_message_order.py:133-153 | The log keys of the scanned services are distinct from each other and from the pre-seeded analysis keys. |
| TrainTicketF1.ScanStepEffect | srearena/conductor/problems/trainticket_f1_async_message_order.py:147-162 | One service stores its log lines only if they were captured and non-empty. It raises each flag only if its marker occurs, and leaves every other key alone. |
| TrainTicketF1.AnalysisKeepsSeeded | srearena/conductor/problems/trainticket_f1_async_message_order.py:133-162 | The scan keeps every pre-seeded key and its value, except the two flags, and adds only log keys. |
| TrainTicketF1.AnalysisStoresKeys | srearena/conductor/problems/trainticket_f1_async_message_order.py:147-153 | A service's log key is present exactly when its log was captured and non-empty. |
| TrainTicketF1.AnalysisStoresLogs | srearena/conductor/problems/trainticket_f1_async_message_order.py:147-153 | Each captured log is stored, as its lines, under the service's key. |
| TrainTicketF1.AnalysisHasFlags | srearena/conductor/problems/trainticket_f1_async_message_order.py:133-159 | Both evidence flags are always present. |
| TrainTicketF1.AnalysisFaultFlag | srearena/conductor/problems/trainticket_f1_async_message_order.py:155-156 | fault_messages_found is true exactly when some captured log contains "F1 FAULT INJECTED". |
| TrainTicketF1.AnalysisDelayFlag | srearena/conductor/problems/trainticket_f1_async_message_order.py:158-159 | delay_evidence is true exactly when some captured log contains "8-second delay" or "8000". |
| TrainTicketF1.TrainTicketF1Problem.constructor | srearena/conductor/problems/trainticket_f1_async_message_order.py:41-47 | All result flags start False and no logs are captured. |
| TrainTicketF1.TrainTicketF1Problem.InjectFault | srearena/conductor/problems/trainticket_f1_async_message_order.py:49-72 | Succeeds and sets fault_injected exactly when the injector returns True. A False return or an exception leaves the results unchanged. |
| TrainTicketF1.TrainTicketF1Problem.RecoverFault | srearena/conductor/problems/trainticket_f1_async_message_order.py:74-97 | Succeeds and sets fault_recovered exactly when the injector's recovery returns True. Anything else leaves the results unchanged. |
| TrainTicketF1.TrainTicketF1Problem.AnalyzeLogs | srearena/conductor/problems/trainticket_f1_async_message_order.py:122-169 | The analysis is the scan over the three services, stored as logs_captured. A failed kubectl gives an empty analysis and stores nothing. |
| TrainTicketF1.TrainTicketF1Problem.GetResults | srearena/conductor/problems/trainticket_f1_async_message_order.py:182-195 | Adds exactly fault_status, health_status and log_analysis, and keeps the seeded keys. log_analysis is the fresh analysis, and logs_captured is overwritten with it when the kubectl client is created. Every other key keeps its value. |
| TaintNoToleration.FirstWorker | srearena/conductor/problems/taint_no_toleration.py:38-42 | Gives the first node whose name contains neither "control-plane" nor "master" as a substring. |
| TaintNoToleration.PickWorkerNode | srearena/conductor/problems/taint_no_toleration.py:36-43 | Returns the first worker node, or the first node when every name looks like a control plane. The result is a worker exactly when some node is. An empty node list raises. |
| TaintNoToleration.InjectCommands | srearena/conductor/problems/taint_no_toleration.py:46-60 | Injection is three commands in order: taint the node, patch in the toleration, delete the service's pods. |
| TaintNoToleration.TaintNoTolerationProblem.constructor | srearena/conductor/problems/taint_no_toleration.py:12-19 | Keeps the namespace and the picked node; nothing issued yet. |
| TaintNoToleration.TaintNoTolerationProblem.InjectFault | srearena/conductor/problems/taint_no_toleration.py:46-60 | Issues exactly the injection commands, in order. |
| TaintNoToleration.TaintNoTolerationProblem.RecoverFault | srearena/conductor/problems/taint_no_toleration.py:63-67 | Issues one toleration recovery for the faulty service on the faulty node. |
| CicdNoise.CicdNoiseGenerator.constructor | sregym/generators/noise/impl/cicd_noise.py:12-19 | The defaults are interval 60, no deployments, namespace "default", and an empty context, with no update yet. |
| CicdNoise.CicdNoiseGenerator.TargetNamespace | sregym/generators/noise/impl/cicd_noise.py:31 | With the empty context the namespace used is always the configured one. |
| CicdNoise.CicdNoiseGenerator.Candidates | sregym/generators/noise/impl/cicd_noise.py:35-42 | Non-empty configured deployments are used as they are. Otherwise the listed ones are used; an empty or failed listing gives none. |
| CicdNoise.CicdNoiseGenerator.Inject | sregym/generators/noise/impl/cicd_noise.py:21-53 | A rollout happens and last_update_time becomes now exactly when the trigger is background, the interval has passed, there is a candidate and the rollout call succeeds. Otherwise nothing changes. Rollouts stay spaced by the interval. A None context raises. |
| CicdNoise.RolloutsSpaced | sregym/generators/noise/impl/cicd_noise.py:26-50 | Any two rollouts j - i apart are at least (j - i) times the interval apart in time. |
| FileManip.ClampLine | clients/langgraph_agent/tools/text_editing/file_manip.py:37-44 | A line above the file's length becomes the length, one below 1 becomes 1, and any other line is kept. |
| FileManip.ClampLineInFile | clients/langgraph_agent/tools/text_editing/file_manip.py:37-44 | In a non-empty file the clamped line is a line of the file, and clamping is idempotent. |
| FileManip.ClampLineEmptyFile | clients/langgraph_agent/tools/text_editing/file_manip.py:37-49 | In an empty file any line number of at least 1 sends the window to line -1. |
| FileManip.OpenFile | clients/langgraph_agent/tools/text_editing/file_manip.py:19-51 | A missing path or a non-integer line exits with status 1. Without a line, the window goes to `first_line - 1`; otherwise it goes to the clamped line minus 1. Warnings are printed exactly when clamping changed the line. |
| FileManip.UpdateFileVars | clients/langgraph_agent/tools/text_editing/file_manip.py:54-70 | open_file appends the message, sets the file and keeps the line. goto_line appends the message, keeps the file and sets the line. A missing argument raises KeyError, and any other message gives no new state. |
| FileManip.OpenThenGoto | clients/langgraph_agent/tools/text_editing/file_manip.py:54-68 | Opening a file and then jumping to a line records both, and both messages in order. |
| ProvisionerCli.BodyOkMatches | provisioner/cli.py:21-24 | The linear email check implies the regex's shape: a local part, "@", a domain, ".", two or more letters. |
| ProvisionerCli.SplitAtBodyOk | provisioner/cli.py:21-24 | Any way of splitting the text the regex allows satisfies the linear check. |
| ProvisionerCli.BodyOkIff | provisioner/cli.py:21-24 | The linear check and the regex's shape agree on every string. |
| ProvisionerCli.NewlineEndNoBody | provisioner/cli.py:21 | No string ending in a newline matches the regex body itself. |
| ProvisionerCli.ValidEmailIffRegex | provisioner/cli.py:21-24 | `is_valid_email` accepts exactly the strings `re.match` accepts: the body, optionally followed by one trailing newline, which `$` admits. |
| ProvisionerCli.EmailAccepted | provisioner/cli.py:21-24 | "a@b.io" is accepted. |
| ProvisionerCli.ValidEmailNewline | provisioner/cli.py:21-24 | A body followed by one newline is accepted exactly when the body is. |
| ProvisionerCli.EmailNewlineAccepted | provisioner/cli.py:21-24 | "a@b.io" followed by a newline is accepted. |
| ProvisionerCli.EmailShortTldRefused | provisioner/cli.py:21-24 | A one-letter top-level domain is refused. |
| ProvisionerCli.ValidKeyNotBlank | provisioner/cli.py:133-136 | A key that register accepts is never blank, so removal never takes the empty-key exit for it. |
| ProvisionerCli.SshKeyExamples | provisioner/cli.py:224-226 | The prefix check accepts "ssh-rsa AAAA" and "ecdsa-sha2-nistp256 AAAA". It refuses "ssh-rsa" without the space and "ssh-ed25519AAAA". |
| ProvisionerCli.FormatSsh | provisioner/cli.py:66-76 | The command is "ssh user@host -p port" from entry[2] and entry[3]. An entry shorter than four raises IndexError. |
| ProvisionerCli.FormatSshIgnoresUser | provisioner/cli.py:66-76 | The login-info user name in entry[1] plays no part: entries with the same host and port give the same command. |
| ProvisionerCli.FormatSshSplits | provisioner/cli.py:66-76 | Without spaces in the pieces, the command splits into exactly "ssh", "user@host", "-p" and the port. |
| ProvisionerCli.FormatAll | provisioner/cli.py:321-323 | One indented command per login entry, in order; any short entry raises IndexError. |
| ProvisionerCli.SshAccessLines | provisioner/cli.py:319-327 | With login info, one command per entry. Otherwise the hostname gives a plain ssh line, and with neither the lines say access could not be determined. |
| ProvisionerCli.ControlLines | provisioner/cli.py:415-422 | Well-formed login entries always give the control lines, at most one per entry. A short entry raises IndexError. |
| ProvisionerCli.ControlEntries | provisioner/cli.py:418-419 | The entries kept are exactly the entries whose client id is "control". |
| ProvisionerCli.ControlLinesFormatsControls | provisioner/cli.py:417-420 | The control lines raise exactly when some entry has no client id or is a short control entry, and otherwise are the indented formatted control entries, in order. |
| ProvisionerCli.RemoveUserSshKey | provisioner/cli.py:128-181 | A blank key returns False before any remote call. Otherwise the stripped key plus a newline is removed, and removal is true exactly when the remote command exits 0. |
| ProvisionerCli.ClaimedCountAppend | provisioner/cli.py:256 | Adding a record raises a user's claimed count by one exactly when that record is claimed by the user. |
| ProvisionerCli.ClaimedCountUpdate | provisioner/cli.py:256 | Replacing one record changes a user's claimed count by what the old and the new record contribute. |
| ProvisionerCli.FirstReady | provisioner/cli.py:262-264 | Gives the first cluster in UNCLAIMED_READY state; none before it is. |
| ProvisionerCli.FindSlice | provisioner/cli.py:500-503 | Gives the first record with the requested experiment name; none before it has it. |
| ProvisionerCli.KeyInstallOfIff | provisioner/cli.py:281-287 | The keys count as installed exactly when there is no login entry, or SSH is ready and every entry has a host whose key installation succeeds. |
| ProvisionerCli.InstallKeys | provisioner/cli.py:281-287 | The key loop stops at the first missing host or failed install, and computes exactly KeyInstallOf. |
| ProvisionerCli.ClaimRecord | provisioner/cli.py:311-318 | A claimed record is held by the user with the key installed. It keeps the cluster's name, hostname and login info. |
| ProvisionerCli.FailedRecord | provisioner/cli.py:425-435 | A failure records the error and becomes TERMINATING when cleanup was requested, ERROR otherwise. |
| ProvisionerCli.ClaimedRecord | provisioner/cli.py:403-414 | A provisioned cluster is CLAIMED with the key installed, its aggregate, hostname, login info and expiry. |
| ProvisionerCli.AfterProvision | provisioner/cli.py:340-435 | The new record is named for the new experiment and claimed by the user. It ends CLAIMED exactly when provisioning succeeded and its control lines could be printed, which is also exactly when the command succeeds. Key failures stop with the pending record; SSH and other failures record the error. |
| ProvisionerCli.AfterProvisioned | provisioner/cli.py:403-435 | After provisioning, a failure to print the control lines turns the claimed record into an error record. |
| ProvisionerCli.AppendKeepsInvariant | provisioner/cli.py:341-349 | Adding a freshly named record, claimed only by a user under the limit, keeps the records uniquely named and every user within the limit. |
| ProvisionerCli.UpdateKeepsInvariant | provisioner/cli.py:311-318 | Updating a record in place under the same guard keeps the invariant. |
| ProvisionerCli.ProvisionerDb.Register | provisioner/cli.py:215-236 | Registers the user exactly when the email is valid, the key has an accepted prefix and the email is new. The email error comes first, then the key error. |
| ProvisionerCli.ProvisionerDb.ClaimRefusal | provisioner/cli.py:247-259 | A claim passes the guards exactly when the email is valid, the user is registered and holds fewer than MAX_CLUSTERS_PER_USER clusters. |
| ProvisionerCli.ProvisionerDb.Claim | provisioner/cli.py:242-435 | A refused claim changes nothing. Otherwise the first ready cluster is claimed, or, when none is ready, a new one is provisioned unless MAX_TOTAL_CLUSTERS is reached. Every path keeps the invariant: names unique, no user over the limit. |
| ProvisionerCli.ProvisionerDb.ClaimAsWritten | provisioner/cli.py:262-276 | As written, claiming a ready cluster that has a hostname always raises UnboundLocalError and changes nothing. |
| ProvisionerCli.ProvisionerDb.ClaimReady | provisioner/cli.py:261-327 | A ready cluster without a hostname is refused. A failed key install leaves the record alone, and otherwise it becomes claimed by the user. |
| ProvisionerCli.ProvisionerDb.ProvisionNew | provisioner/cli.py:329-435 | At MAX_TOTAL_CLUSTERS it refuses; otherwise it appends the record that AfterProvision gives. |
| ProvisionerCli.ProvisionerDb.Relinquish | provisioner/cli.py:487-528 | Succeeds exactly when the email is valid and registered, the cluster exists and is CLAIMED by that user, and key removal succeeds. Success marks the record TERMINATING, unclaimed and without the user key; failure changes nothing. |
| ProvisionerCli.ProvisionerDb.ReleaseClaimed | provisioner/cli.py:509-524 | For a cluster the user holds, SSH readiness and key removal decide the outcome. |
| ProvisionerCli.ProvisionerDb.MarkTerminating | provisioner/cli.py:518-523 | The release update keeps the invariant and changes only that record. |
| SreCli.Classify | cli.py:70-92 | Whitespace-only input is the empty-input case. A start command names a known pid, and an unknown-pid command an unknown one. |
| SreCli.ClassifyWord | cli.py:70-80 | A single word is dispatched on its lower-cased form: exit, options, list, or invalid. |
| SreCli.ClassifyCommand | cli.py:70-92 | A word with an argument is dispatched on the lower-cased word. A start with a known pid, compared case-sensitively, selects it; with an unknown pid it is the unknown-pid case. |
| SreCli.FirstStop | cli.py:66-92 | Gives the first command that ends the selection prompt. |
| SreCli.AppsPanel | cli.py:76-80 | The list command shows the apps one per line, or the no-apps text. |
| SreCli.Echo | cli.py:73-92 | Every command that keeps prompting prints exactly one panel; stopping commands print nothing. |
| SreCli.EchoesOnePerLine | cli.py:66-92 | Commands that keep prompting print one panel each. |
| SreCli.SelectionOf | cli.py:71-91 | Only a start command selects a problem; exit leaves with status 0, and an empty input raises IndexError. |
| SreCli.PromptingStopsFirst | cli.py:66-92 | The prompt stops at the first stopping command with its selection, having printed the panels of the commands before it. Running out of input exits with status 0. |
| SreCli.PromptingSelectsKnown | cli.py:84-91 | A selected problem is always a known pid. |
| SreCli.PromptingStep | cli.py:66-92 | One iteration of the prompt loop: a stopping command ends it, and any other command prints its panel and continues. |
| SreCli.UnwrapWrap | cli.py:114 | A submission is wrapped in "```\n" and "\n```", and the wrapping can be undone. |
| SreCli.StepOf | cli.py:102-120 | Text not starting with "submit(" goes to the shell and is not sent. A submission is sent wrapped, and the loop ends exactly when the conductor says so. |
| SreCli.SessionSends | cli.py:97-120 | The session sends exactly the wrapped submissions among the lines it consumed, in order. |
| SreCli.SessionStep | cli.py:97-120 | One line of the session: it ends the session or passes on to the next with its output. |
| SreCli.SessionEnds | cli.py:97-120 | A session either ends at a submission the conductor accepted as final, or uses up all input. |
| SreCli.SessionContinues | cli.py:97-120 | A line that does not end the session appends its output and its submission and hands over to the rest. |
| SreCli.SessionStops | cli.py:97-120 | A final submission is the last line the session uses, and is sent wrapped. |
| SreCli.PromptWithDefault | cli.py:201-205 | The stripped answer, or the default when the answer is blank. |
| SreCli.PromptWithDefaultIdem | cli.py:205 | Feeding a stripped default's result back changes nothing. |
| SreCli.WantsConfigureIff | cli.py:230-232 | The transient-issue configuration is offered exactly for the answers "y" or "yes", compared after strip and lower. |
| SreCli.FaultTypeOf | cli.py:160-165 | Only "fail-stop" and "fail-slow" are recognised, each as itself. |
| SreCli.FaultTypeOfName | cli.py:160-165 | Every fault type is recognised from its name. |
| SreCli.ScopeOf | cli.py:173-186 | Only the five scope names are recognised, each as itself. |
| SreCli.ScopeOfName | cli.py:173-179 | Every scope is recognised from its name. |
| SreCli.ScopesErrIff | cli.py:180-186 | Parsing the scopes fails, with the fixed ValueError, exactly when the problem's service is global and "target_service" is among the names. |
| SreCli.ScopesErrPersists | cli.py:181-184 | Once a prefix of the names fails, the whole parse fails with the same error. |
| SreCli.FaultTypesOfNames | cli.py:159-166 | The names of any fault-type list parse back to it, so input order is kept. |
| SreCli.FaultTypesRoundTrip | cli.py:158-166 | Joining fault-type names with commas, then splitting, stripping and parsing, gives back the list. |
| SreCli.ScopesOfNames | cli.py:172-187 | The names of any allowed scope list parse back to it. |
| SreCli.ScopesRoundTrip | cli.py:171-187 | Joining allowed scopes with commas, then splitting, stripping and parsing, gives back the list. |
| SreCli.ConfigOfAnswers | cli.py:139-199 | Six answers that each parse give the configuration built from them, enabled. |
| SreCli.EmptyAnswer | cli.py:205 | A blank answer gives the default. |
| SreCli.EmptyNumberAnswer | cli.py:150-153 | A blank numeric answer gives the default number. |
| SreCli.EmptyFaultTypesAnswer | cli.py:158-166 | A blank fault-type answer gives fail-stop and fail-slow. |
| SreCli.EmptyScopesAnswer | cli.py:171-187 | A blank scope answer gives target_namespace, for any problem. |
| SreCli.ConfigDefaults | cli.py:139-199 | Accepting every default gives durations 40 to 60, both fault types, the namespace scope and intervals 20 to 30. |
| SreCli.ConfigRefusesTargetService | cli.py:180-184 | For a global-fault problem the scope answer "target_service" ends the configuration with the scope error. |
| SreCli.ConfigOfScopesErr | cli.py:180-187 | A scope error ends the configuration with that error. |
| SreCli.PromptLoop | cli.py:66-92 | The `while` loop over classified commands computes exactly Prompting. |
| SreCli.FaultTypesIn | cli.py:159-166 | The fault-type loop computes exactly FaultTypesOf: known names kept in input order, others dropped. |
| SreCli.ScopesIn | cli.py:171-187 | The scope loop computes exactly ScopesOf, raising at the first refused target_service. |
| SreCli.Converse | cli.py:96-120 | The interactive `while` loop computes exactly the Session function. |
| SreCli.HumanAgent.constructor | cli.py:47-58 | Starts with no problem selected, no session purpose and nothing shown. |
| SreCli.HumanAgent.SelectMode | cli.py:66-92 | Shows what the prompt prints. A selection sets the conductor's problem id and the purpose "problem"; exit or an error leaves both unchanged. |
| SreCli.HumanAgent.InteractiveLoop | cli.py:94-120 | Strips each input line and runs the session on them. |
| SreCli.HumanAgent.ConfigureTransientIssues | cli.py:139-199 | Parses the six answers, refusing target_service for the global-fault problem. |

## Left out

- Terminal and rendering I/O is not modelled: Rich panels, colours, the prompt_toolkit session and `print`. The results panel and its JSON dump at the end of `interactive_loop` (cli.py:122-124) are left out too.
- Kubernetes, kubectl, helm, OpenEBS, Prometheus, SSH, Cloudlab, subprocess and LLM calls are parameters. Each stands for what the call returns or whether it succeeds, with no model of the systems behind them. The pod listing of the pod-scheduled oracle returns the phases or the ApiException's text.
- The clock, `sleep` and floating point are not modelled. Time is an integer; temperature and top_p are passed through unchanged.
- Concurrency is not modelled: `asyncio.create_task` for the workload, CriticalSection and signal handling. The atexit registry is a counter of registered hooks, and recovery is a counter.
- `lower()` is modelled for ASCII letters only; Unicode case folding is not modelled.
- Digits are ASCII: the non-ASCII decimal digits that `isdigit` and `int()` accept are not modelled (`Strings.IsDigits`, `Strings.ParseInt`).
- main.py, dashboard_app.py and the other wiring files and test scripts are not part of this model.
- Orchestration.Orchestrator.StartProblem: `max_steps` is unused by the source and is not a parameter. The agent's turns are a finite script, and running out of it stands for the agent raising. The Weights & Biases upload, the app cleanup and the OpenEBS teardown are not modelled.
- Orchestration.Orchestrator.RunProblem: whether each recovery succeeds is a parameter; the text of the exception a failed recovery raises is not modelled.
- Orchestration: `Session`, `ResponseParser` and the oracles' `eval` are function-valued parameters. The oracle returns a result map whose optional `success` value is read for its truthiness.
- Detection: the problem's `eval` is a parameter, and `add_result` is a plain map update on the problem's results.
- Detection.IsExactMatch: `is_exact_match` (aiopslab/orchestrator/evaluators/quantitative.py) is not part of this model; it is taken to be string equality, and `Judge`, `StrippedYes` and `DetectionOracle.Evaluate` rest on that.
- NetworkPolicyDetection.KeepPresent: the contract states which services are kept, not that they keep the expected list's order and multiplicity.
- StratusBaseAgent: the LangGraph graph building in `build_agent` (base_agent.py:89-110) is not modelled beyond whether a graph exists.
- HardwareFaultInjector: the jq and sed scripts are not interpreted; their outputs are parameters.
- HardwareFaultInjector: the Khaos DaemonSet listing is a parsed list, and a JSON error is one of its error cases.
- Wrk2Workload.WaitUntilComplete: the polls are a finite sequence, and running out of them stands for a wait that never ends. The text of the API exception is not modelled.
- LlmBackend: `seed`, `api_version`, `reasoning_effort`, the thinking settings, `max_tokens` and `extra_headers` are stored by the source but do not affect `inference`, and are not modelled.
- LlmBackend: messages are a tagged datatype, and tool binding is the list of tool names.
- TrainTicketF1: `start_workload`, `check_fault_status` and `get_health_status` are foreign calls; their results are parameters of `GetResults`.
- TaintNoToleration: the node list is given, and the commands are recorded in order rather than executed.
- ProvisionerCli: `_add_user_ssh_key_to_node` is the parameter `addKey`. The scp and tempfile steps inside it are not modelled.
- ProvisionerCli: experiment renewal is a boolean result, and the Cloudlab provisioning outcome is a datatype of its four endings.
- ProvisionerCli: `list`, `status`, the admin listing and the daemon are not modelled; only register, claim and relinquish are.
- ProvisionerCli: the state manager's `count_total_managed_clusters` and `count_user_claimed_clusters` are not part of this model; they are taken to be the number of records and the number of the user's claimed records (`NewProvisioned`, `ProvisionNew`, `ClaimRefusal`).
- ProvisionerCli.ProvisionerDb.Claim: the new experiment name, generated by the source from the time, must differ from every existing record's name.
- SreCli: lines reach the loops already read. An end of input or an interrupt at a prompt stands for `sys.exit(0)`. The ValueError text of `int()` is simplified.
- SreCli: the conductor's `problem_id` is the HumanAgent's `problemId` field, and the conductor's `submit` is a parameter.

## Findings

| source | as written | input that shows it | evidently intended | confidence | as-written member | corrected member |
|---|---|---|---|---|---|---|
| provisioner/cli.py:276 | The ready-cluster branch of `claim` reads the local `experiment_info`, which only the new-cluster branch assigns, so it raises UnboundLocalError. | A registered user with a valid email, under the per-user limit, and one UNCLAIMED_READY cluster with a control-node hostname. | Use the cluster record's own aggregate name. | not executed | ProvisionerCli.ProvisionerDb.ClaimAsWritten | ProvisionerCli.ProvisionerDb.Claim |
