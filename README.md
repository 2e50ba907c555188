# AoAI multi-agent orchestration — a Dafny model

This project models the core of a pipeline that turns a question about
mathematics into a Manim animation. The pipeline passes work through a
chain of language-model agents:

- **Logician**: produces a JSON breakdown of the reasoning.
- **Director**: produces a JSON scene manifest.
- **Engineer**: produces a Manim Python script.
- **Fixer**: repairs a script that failed to render.
- **Narrator**: produces voice-over text.

Each agent validates the model's answer and retries a bounded number of
times. The orchestrator runs the first three agents in order, saves the
script and, when asked, renders it. Rendering goes through a retry manager
that runs the script in an execution sandbox and hands each failure to the
fixer.

One Dafny module per source file:

| Dafny file | Models | Form |
|---|---|---|
| `Common.dfy` | Python semantics shared by every stage | see list below |
| `JsonSchemas.dfy` | the validators | pure functions over the parsed document |
| `LogicianAgent.dfy`, `DirectorAgent.dfy`, `EngineerAgent.dfy`, `FixerAgent.dfy`, `NarratorAgent.dfy` | the agents | see below |
| `ExecutionSandbox.dfy` | the sandbox | a `Sandbox` class (below) |
| `RetryManager.dfy` | the retry manager | a `Manager` class (below) |
| `Orchestrator.dfy` | the orchestrator | a `Pipeliner` class (below) |

`Common.dfy` covers:

- `in`, `[]` and `len` on parsed JSON, with the exceptions they raise;
- `str.strip`;
- substring search, and the fence search that stands in for the regular expressions;
- `get_prompt`.

Each agent has:

- a recursive specification function (`Attempts`) of its retry policy;
- lemmas about that function;
- a `Process` method with the source's loop, proved equal to the specification function.

The `Sandbox` class holds the temp and outputs directory trees, which
`Execute` and `CleanupTemp` update in place.

The retry manager's `Manager` class drives its sandbox through a loop. That
loop is proved equal to a recursive session function, and the lemmas state
the history and fixer-call properties of that function.

The orchestrator's `Pipeliner` class runs the stages and records the saved
script.

Anything the code does not compute itself is a parameter:

- the language-model provider: a function from call number and prompt to a reply or an exception;
- `json.loads`: a function from text to document or decode error;
- Python's `compile`: a function from text to OK or syntax error;
- the rendered prompt texts;
- the Manim subprocess: how it ends (exit, timeout, missing command, other exception), and the temp directory it leaves behind whenever it started;
- file-system failures.

All `.dfy` files are verified together, with the solver's resource
limit set explicitly:

```
dafny verify --resource-limit 2000000 --verification-time-limit 0 --warn-contradictory-assumptions *.dfy
```

## Model

| member | source | states |
|---|---|---|
| Common.GetPrompt | aoai/utils/prompts.py:113-135 | a prompt is returned exactly for the four agents with a template; any other name raises ValueError "Unknown agent: …" |
| Common.Has | aoai/utils/json_schemas.py:23-26 | `key in d` raises exactly on values that are not dict, list or str; on a dict it is key membership |
| Common.Subscript | aoai/utils/json_schemas.py:29 | `d[key]` returns exactly when `d` is a dict holding `key`, and then returns that field |
| Common.LenOf | aoai/agents/engineer_agent.py:60 | `len(d[key])` returns exactly when the field exists and is a str, list or dict; a dict without the key raises KeyError(key) |
| Common.Strip | aoai/agents/engineer_agent.py:35-45 | the result is no longer than the input, starts and ends with non-whitespace, and is empty exactly when the input is all whitespace |
| Common.StripStripped | aoai/agents/engineer_agent.py:45 | stripping text that has no surrounding whitespace leaves it unchanged (idempotence) |
| Common.StripPadded | aoai/agents/engineer_agent.py:35 | whitespace added on either side of a text does not change its stripped form |
| Common.Decimal | aoai/utils/json_schemas.py:66 | the digits denote the number, with no leading zero (`str` of a non-negative int) |
| Common.IndexOf | aoai/utils/json_schemas.py:96-102 | the position found holds the pattern and no earlier position does; None means the pattern occurs nowhere |
| Common.FencedBlock | aoai/agents/engineer_agent.py:31-42 | a block is found exactly when the opening occurs and a fence follows its first occurrence; the block is the text between them and holds no fence |
| Common.FenceRoundTrip | aoai/agents/engineer_agent.py:31-35 | a fence-free body wrapped in an opening and a closing fence on its own line is found again, with its line break |
| Common.TaggedBlockAfterBlock | aoai/agents/engineer_agent.py:31-35 | a block opened by a tagged fence is found for that tag even when a generic block comes before it |
| JsonSchemas.ValidateLogician | aoai/utils/json_schemas.py:9-38 | accepted exactly when the document has `concept` and a non-empty list `steps`, and then returned unchanged; each failed check gives its own message; a decode error gives "Invalid JSON: …" |
| JsonSchemas.CheckScene | aoai/utils/json_schemas.py:64-75 | a scene passes exactly when it has title, objects and animations, with objects and animations lists; a rejection message starts "Scene i " |
| JsonSchemas.FirstBadScene | aoai/utils/json_schemas.py:64-75 | finds the lowest index of a scene that fails the checks; None exactly when every scene passes |
| JsonSchemas.ValidateDirector | aoai/utils/json_schemas.py:41-80 | accepted exactly when `scenes` is a non-empty list of valid scenes, and then returned unchanged; missing, non-list and empty `scenes` each get their own message |
| JsonSchemas.DirectorReportsFirstBadScene | aoai/utils/json_schemas.py:63-77 | a manifest with bad scenes is rejected with the verdict for the first bad scene |
| JsonSchemas.ValidateEngineer | aoai/utils/json_schemas.py:83-110 | valid exactly when the script is not blank, holds the three markers and compiles; the message is empty exactly when it is valid; each missing piece gives its own message, in the source's order |
| JsonSchemas.ValidateFixer | aoai/utils/json_schemas.py:113-123 | the fixer's output is held to exactly the engineer's checks |
| JsonSchemas.Revalidation | aoai/utils/json_schemas.py:9-123 | an accepted document read back unchanged is accepted again with the same verdict, and a script the engineer checks accept also passes the fixer checks |
| JsonSchemas.ConceptUnchecked | aoai/utils/json_schemas.py:23-35 | the value of `concept` is never checked: even null is accepted |
| JsonSchemas.EmptySceneListsAccepted | aoai/utils/json_schemas.py:64-77 | scenes with empty objects and animations lists are accepted |
| LogicianAgent.Judge | aoai/agents/logician_agent.py:54-86 | an attempt is valid exactly when the reply parses to a reasoning document; a rejected answer is exactly an invalid attempt carrying the validator's message (retried); an exception from the validator or the provider fails the attempt with that exception (re-raised) |
| LogicianAgent.NumberAnswerRaises | aoai/utils/json_schemas.py:23 | an answer that parses to a number makes the `in` check raise TypeError, and the attempt fails with it instead of being retried |
| LogicianAgent.Attempts | aoai/agents/logician_agent.py:49-86 | a run from attempt k sends between 1 and MaxRetry-k+1 prompts, the first being the given prompt |
| LogicianAgent.AttemptsPolicy | aoai/agents/logician_agent.py:49-86 | every attempt before the last was invalid, and every retry prompt is the rebuilt base prompt plus the clarification; the last attempt decides: a valid document is returned, an exception is re-raised, an invalid answer raises only on attempt MaxRetry |
| LogicianAgent.AttemptsRetried | aoai/agents/logician_agent.py:52-82 | every attempt before the last was invalid, and every retry prompt is the rebuilt base prompt plus the clarification |
| LogicianAgent.AttemptsDecided | aoai/agents/logician_agent.py:52-86 | the last attempt decides: a valid document is returned, an exception is re-raised, an invalid answer raises only on attempt MaxRetry |
| LogicianAgent.Logician | aoai/agents/logician_agent.py:27-88 | at most two provider calls, the first with the base prompt; whatever is returned is a valid reasoning document |
| LogicianAgent.Process | aoai/agents/logician_agent.py:46-86 | the retry loop returns exactly the outcome and the prompt sequence of `Logician` |
| LogicianAgent.Attempt | aoai/agents/logician_agent.py:52-86 | one loop pass: the outcome when the stage ends here, or the next prompt, which continues the same run |
| DirectorAgent.Precheck | aoai/agents/director_agent.py:48 | the input summary returns exactly when the reasoning has `concept` and a sized `steps`; a missing key raises KeyError for that key |
| DirectorAgent.ReasoningPassesPrecheck | aoai/agents/director_agent.py:48 | every document the logician accepts passes the summary, which reports the number of steps |
| DirectorAgent.Judge | aoai/agents/director_agent.py:59-93 | an attempt is valid exactly when the reply parses to a valid manifest; a rejected answer is exactly an invalid attempt carrying the validator's message (retried); an exception from the validator or the provider fails the attempt with that exception (re-raised) |
| DirectorAgent.Attempts | aoai/agents/director_agent.py:54-93 | a run from attempt k sends between 1 and MaxRetry-k+1 prompts, the first being the given prompt |
| DirectorAgent.PromptsAccumulate | aoai/agents/director_agent.py:80-82 | the i-th prompt of a run is the first prompt followed by i copies of the reminder, because the reminder is appended each time |
| DirectorAgent.AttemptsPolicy | aoai/agents/director_agent.py:54-93 | every attempt before the last was invalid; the last attempt decides: a valid manifest is returned, an exception is re-raised, an invalid answer raises only on attempt MaxRetry |
| DirectorAgent.Director | aoai/agents/director_agent.py:27-95 | a failed summary raises before any provider call; otherwise at most two calls, the first with the base prompt; whatever is returned is a valid manifest |
| DirectorAgent.Process | aoai/agents/director_agent.py:48-93 | the method returns exactly what `Director` specifies |
| DirectorAgent.RunAttempts | aoai/agents/director_agent.py:54-93 | the retry loop returns exactly the run of attempts that starts at attempt 1 with the base prompt |
| DirectorAgent.Attempt | aoai/agents/director_agent.py:57-93 | one loop pass: the outcome when the stage ends here, or the next prompt, which continues the same run |
| EngineerAgent.ExtractCode | aoai/agents/engineer_agent.py:28-45 | the first block opened by a python fence, stripped, when there is one; otherwise the first generic block, stripped; otherwise the whole reply, stripped; the code has no surrounding whitespace and is shorter than the reply when a block was found |
| EngineerAgent.PythonBlockRoundTrip | aoai/agents/engineer_agent.py:31-35 | fence-free code wrapped in a python fence comes back as the code, stripped |
| EngineerAgent.PlainBlockRoundTrip | aoai/agents/engineer_agent.py:37-42 | fence-free code in a generic fence comes back as the code, stripped; the block is not taken for a python one |
| EngineerAgent.PythonBlockFirst | aoai/agents/engineer_agent.py:30-42 | a python block is returned even when a generic block comes before it |
| EngineerAgent.UnfencedTextIsStripped | aoai/agents/engineer_agent.py:44-45 | a reply without any fence is returned stripped |
| EngineerAgent.JudgeVerdict | aoai/agents/engineer_agent.py:71-92 | an attempt is valid exactly when the extracted code passes the engineer checks; an invalid attempt carries the checks' message; it failed exactly when the provider raised |
| EngineerAgent.Attempts | aoai/agents/engineer_agent.py:66-104 | a run from attempt k sends between 1 and MaxRetry-k+1 prompts, the first being the given prompt |
| EngineerAgent.RepliesValidAreScripts | aoai/agents/engineer_agent.py:84-92 | every attempt judged valid carries a script that passes the engineer checks |
| EngineerAgent.AttemptsReturnScripts | aoai/agents/engineer_agent.py:66-104 | if every valid attempt carries a script that passes the checks, then any script a run returns passes them |
| EngineerAgent.Engineer | aoai/agents/engineer_agent.py:47-106 | a manifest without a sized `scenes` raises before any provider call; otherwise at most two calls, the first with the base prompt; only a script that passes the checks is returned |
| EngineerAgent.EngineerPolicy | aoai/agents/engineer_agent.py:66-104 | a valid first answer is returned at once; otherwise the second prompt gets the CRITICAL note after an invalid answer, or is unchanged after a provider exception; the second answer is returned, raises ValueError, or re-raises |
| EngineerAgent.Process | aoai/agents/engineer_agent.py:60-104 | the method returns exactly what `Engineer` specifies |
| EngineerAgent.RunAttempts | aoai/agents/engineer_agent.py:66-104 | the retry loop returns exactly the run of attempts that starts at attempt 1 with the base prompt |
| EngineerAgent.Attempt | aoai/agents/engineer_agent.py:69-104 | one loop pass: the outcome when the stage ends here, or the next prompt, which continues the same run |
| FixerAgent.ExtractCode | aoai/agents/fixer_agent.py:28-42 | the first python-tagged block, stripped, when there is one; otherwise the first fenced block, stripped; a reply with no fenced block is returned stripped; the code has no surrounding whitespace |
| FixerAgent.ExtractedCodeFenceFree | aoai/agents/fixer_agent.py:31-39 | whenever a fenced block is found, the extracted code holds no fence |
| FixerAgent.TaggedBlockIsFenced | aoai/agents/fixer_agent.py:31-39 | the python-tagged pattern matches only where the plain fence pattern also matches |
| FixerAgent.PythonBlockRoundTrip | aoai/agents/fixer_agent.py:31-39 | fence-free code wrapped in a python fence comes back as the code, stripped |
| FixerAgent.PlainBlockRoundTrip | aoai/agents/fixer_agent.py:31-39 | fence-free code in a generic fence on its own line comes back as the code, stripped; the block is not taken for a python one |
| FixerAgent.PythonBlockFirst | aoai/agents/fixer_agent.py:31-39 | a python block is returned even when a generic block comes before it |
| FixerAgent.Judge | aoai/agents/fixer_agent.py:71-85 | an attempt failed exactly when the provider raised; otherwise it carries the extracted code, and it is valid exactly when that code passes the checks |
| FixerAgent.Attempts | aoai/agents/fixer_agent.py:66-111 | a run from attempt k sends between 1 and MaxRetry-k+1 prompts, the first being the given prompt, and always returns code, never an exception |
| FixerAgent.Fixer | aoai/agents/fixer_agent.py:44-115 | at most two provider calls, the first with the base prompt, and the stage never raises |
| FixerAgent.FixerPolicy | aoai/agents/fixer_agent.py:66-111 | valid code is returned at once, even when unchanged; otherwise the second prompt gets the minimal-changes note after invalid code, or is unchanged after an exception; the second answer's code is returned whether valid or not, and the original script is returned if the second call raises |
| FixerAgent.Process | aoai/agents/fixer_agent.py:63-111 | the retry loop returns exactly what `Fixer` specifies |
| FixerAgent.Attempt | aoai/agents/fixer_agent.py:69-111 | one loop pass: the code the stage returns, or the next prompt, which continues the same run |
| NarratorAgent.Before | aoai/agents/narrator_agent.py:90 | `s.split(sep)[0]` is a prefix of `s` that holds no `sep`, followed by `sep` when `sep` occurs, and is all of `s` otherwise |
| NarratorAgent.After | aoai/agents/narrator_agent.py:90 | the text after the first `sep` is a suffix of `s` preceded by that occurrence |
| NarratorAgent.FencedJson | aoai/agents/narrator_agent.py:89-91 | the text cut out of a ```json fence never holds a fence |
| NarratorAgent.FencedJsonRoundTrip | aoai/agents/narrator_agent.py:89-93 | a fence-free JSON text wrapped in a ```json fence, closed on its own line, is cut out again with its line break |
| NarratorAgent.PreviewFault | aoai/agents/narrator_agent.py:80-81 | printing a narration's preview raises exactly unless the narration is a dict whose text, if present, is a str or list |
| NarratorAgent.FirstPreviewFault | aoai/agents/narrator_agent.py:80-82 | no exception is raised exactly when every narration's preview can be printed |
| NarratorAgent.Judge | aoai/agents/narrator_agent.py:61-98 | a parsed reply is accepted exactly when it has a list of printable narrations; a fenced reply is accepted only if it contains ```json, the fenced text parses, and the result has `narrations`; a missing or non-list `narrations`, a reply with no ```json fence, or a fenced document without `narrations` makes the attempt unusable (fallback on the last attempt); a raising `in` or subscript, a preview that raises, or a fenced text that does not parse fails it with that exception (re-raised); a provider exception is kept |
| NarratorAgent.FencedNarrationsUnchecked | aoai/agents/narrator_agent.py:89-93 | on the fenced path any value under `narrations` is accepted |
| NarratorAgent.Attempts | aoai/agents/narrator_agent.py:58-98 | every attempt sends the same prompt; the fallback is asked for only once all MaxRetry attempts are used |
| NarratorAgent.FallbackEntries | aoai/agents/narrator_agent.py:100-111 | one entry per scene, in order, holding the scene's index and title and duration 3; raises exactly when some scene is not a dict with a title |
| NarratorAgent.Fallback | aoai/agents/narrator_agent.py:100-111 | for a list of scenes, the fallback is an object whose `narrations` is exactly the list of entries, and it raises exactly when the entries do |
| NarratorAgent.FallbackOnePerScene | aoai/agents/narrator_agent.py:102-111 | when every scene has a title, the fallback has exactly one narration per scene: its index, its title and duration 3 |
| NarratorAgent.Narrator | aoai/agents/narrator_agent.py:26-111 | a manifest without a sized `scenes`, or a missing narrator template, raises before any provider call; at most two calls, all with the rendered prompt |
| NarratorAgent.ShownTemplatesAlwaysRaise | aoai/agents/narrator_agent.py:51-55 | with the templates `get_prompt` holds, the stage always raises without calling the provider; with a well-formed manifest the exception is "Unknown agent: narrator" |
| NarratorAgent.NarratorPolicy | aoai/agents/narrator_agent.py:58-111 | with a narrator template: an accepted first answer is returned; otherwise the same prompt is sent again, and the second answer is returned, re-raises, or leads to the fallback |
| NarratorAgent.Process | aoai/agents/narrator_agent.py:48-111 | the method returns exactly what `Narrator` specifies, including the fallback after the loop |
| ExecutionSandbox.Lookup | aoai/pipeline/execution_sandbox.py:184-186 | a name is found exactly when some entry of the listing carries it, and what is found is that entry's node |
| ExecutionSandbox.Put | aoai/pipeline/execution_sandbox.py:50-52 | after writing, the name holds the new node and every other name is unchanged |
| ExecutionSandbox.Remove | aoai/pipeline/execution_sandbox.py:103 | after removal the name is gone and every other name is unchanged |
| ExecutionSandbox.FirstVideoFile | aoai/pipeline/execution_sandbox.py:192-193 | finds the first `*.mp4` name of a folder; None exactly when there is none |
| ExecutionSandbox.FirstQuality | aoai/pipeline/execution_sandbox.py:190-193 | finds the first quality folder holding a video; None exactly when none does |
| ExecutionSandbox.FindVideo | aoai/pipeline/execution_sandbox.py:172-195 | no scene directory means no video; the listing error comes exactly when the scene path is a file; a scene folder with a quality folder holding a video gives a video, the first video of the first such folder; "no video" means no quality folder holds one |
| ExecutionSandbox.ClassifyOutcome | aoai/pipeline/execution_sandbox.py:49-170 | success exactly when the render exited 0 and a video was found; a video path only on success; the subprocess output is passed through on a real exit; the codes -1 to -4 come with an empty stdout and their fixed messages |
| ExecutionSandbox.Run | aoai/pipeline/execution_sandbox.py:28-170 | on success the reported path names a video that is now in the outputs directory; on failure the outputs directory is unchanged |
| ExecutionSandbox.Deletable | aoai/pipeline/execution_sandbox.py:199-209 | counts the leading entries that can be deleted; the next entry, if any, cannot be |
| ExecutionSandbox.Sandbox.constructor | aoai/pipeline/execution_sandbox.py:15-22 | the temp and outputs directories sit below the storage path, and existing contents are kept |
| ExecutionSandbox.Sandbox.Execute | aoai/pipeline/execution_sandbox.py:28-170 | the result and the new directory state are exactly those of `Run` on the old state |
| ExecutionSandbox.Sandbox.CleanupTemp | aoai/pipeline/execution_sandbox.py:197-209 | the temp directory loses its entries up to the first one that cannot be deleted; the outputs directory is unchanged |
| ExecutionSandbox.DeletableIsFirstStop | aoai/pipeline/execution_sandbox.py:202-206 | any position preceded only by deletable entries and followed by an undeletable one, or by the end, is where deletion stops |
| ExecutionSandbox.LooseFilesIgnored | aoai/pipeline/execution_sandbox.py:190-191 | videos lying directly in the scene directory are never found |
| ExecutionSandbox.CleanupEmptiesTemp | aoai/pipeline/execution_sandbox.py:199-206 | when every entry can be deleted the temp directory ends up empty |
| RetryManager.Attempts | aoai/pipeline/retry_manager.py:36-70 | a session renders between 1 and MaxRetries scripts, the first being the initial code, with one result per script |
| RetryManager.History | aoai/pipeline/retry_manager.py:43-47 | one history entry per render |
| RetryManager.FailuresBeforeLast | aoai/pipeline/retry_manager.py:49-68 | every render but the last failed; every fixer call received the script and error output of the render before it; there is one call fewer than renders, or as many |
| RetryManager.FixedCodeIsRenderedNext | aoai/pipeline/retry_manager.py:58-63 | the fixer's code is exactly what the next attempt renders |
| RetryManager.LastAttemptDecides | aoai/pipeline/retry_manager.py:49-70 | a session ends with a success, or with a fixer exception before the last attempt, or with a failure on attempt MaxRetries |
| RetryManager.RetryResultShape | aoai/pipeline/retry_manager.py:36-80 | between 1 and 3 attempts; the history is numbered 1..n; every entry but the last failed; the last entry matches the returned result, which is the last sandbox result unchanged |
| RetryManager.FixerCalls | aoai/pipeline/retry_manager.py:58-68 | the fixer is called at most MaxRetries-1 times, always after a failure |
| RetryManager.ReliableFixerUsesAllAttempts | aoai/pipeline/retry_manager.py:58-70 | with a fixer that never raises, a session succeeds or uses every attempt |
| RetryManager.AgentFixerUsesAllAttempts | aoai/pipeline/retry_manager.py:63 | with the repair stage as the fixer (it never raises), a session succeeds or uses every attempt |
| RetryManager.Manager.constructor | aoai/pipeline/retry_manager.py:13-16 | the manager keeps the fixer and the sandbox it was given |
| RetryManager.Manager.Attempt | aoai/pipeline/retry_manager.py:42-68 | one loop pass: the render and, after a failure before the last attempt, the fixer call; it stops the loop on success, on a raising fixer or on the last failure, and otherwise hands the fixed code to the next pass with the session's remaining attempts |
| RetryManager.Manager.ExecuteWithRetry | aoai/pipeline/retry_manager.py:18-80 | the returned record is the session's last result with its attempt count and history, and the sandbox's directories are left as the session leaves them |
| Orchestrator.Generate | aoai/pipeline/orchestrator.py:91-118 | the reasoning is valid once the logician returns, the manifest once the director returns, and the code passes the engineer checks once the engineer returns |
| Orchestrator.SuccessIffStagesReturn | aoai/pipeline/orchestrator.py:83-208 | a run completes exactly when all three stages return (and a retry manager exists if rendering is asked for); the render's outcome never makes it fail; the script is saved exactly when the engineer returned |
| Orchestrator.FailureReport | aoai/pipeline/orchestrator.py:177-208 | a failed run reports the first stage exception, or the missing retry manager; its log says success false, has no video_path, and records exactly the outputs of the stages that returned |
| Orchestrator.CompletedReport | aoai/pipeline/orchestrator.py:117-175 | a completed run's log records reasoning, manifest and code length and says success true; the video path is the same in the result and the log, and is set only when a render ran and succeeded |
| Orchestrator.LaterStagesNotCalled | aoai/pipeline/orchestrator.py:91-117 | once a stage raises, the providers of the later stages have no influence on the outcome |
| Orchestrator.Pipeliner.constructor | aoai/pipeline/orchestrator.py:20-39 | the outputs directory sits below the storage path, and the narrator and retry manager are kept as given |
| Orchestrator.Pipeliner.RunStages | aoai/pipeline/orchestrator.py:91-118 | the stages run in order, each on the previous one's output, and the `stages` log holds exactly what was recorded before the first exception |
| Orchestrator.Pipeliner.Run | aoai/pipeline/orchestrator.py:55-208 | the result, the saved script and the sandbox's directories are exactly those of the pipeline specification on the stages' outcome |
| Orchestrator.Pipeliner.Conclude | aoai/pipeline/orchestrator.py:120-175 | after the stages: failure reporting, saving, and the optional render through the retry manager, as the pipeline specification says |

## Left out

- The provider clients (`llm/`), `main.py`, `test_narrator.py` and the template texts of `utils/prompts.py`. The rendered prompts and the provider's replies are parameters.
- `save_json_log` and the `save_logs` flag: the logs on disk are not modelled, only the session log dictionary `run` returns.
- The script `save_code` writes (`aoai/utils/file_io.py:30-46`) is the `savedCode` field. A failure to write it is not modelled.
- Time: `start_time`, `end_time` and `duration_seconds` in the session log, and the subprocess timeout itself. A timeout is one of the render outcomes.
- Sampling parameters (temperature, max tokens), and every `print`.
- Floating-point and non-integer JSON numbers. Only the kind of a JSON value matters to the pipeline.
- The exact wording of Python's TypeError and AttributeError messages is approximated.
- The agents' regular expressions are modelled as a first-occurrence search for the opening followed by the next fence. For these fixed patterns that is the leftmost lazy match.
- Python `compile`: only a syntax error is modelled as a failure. Other compile-time exceptions are not.
- The sandbox's `shutil.move`: its failures, and a move onto an existing directory, are not modelled. The move replaces any outputs entry of the same name.
- `glob("*.mp4")`: modelled as a case-sensitive suffix test on the name.
- `Popen` and signals: a negative exit code from a signal is passed through like any other non-zero code. It could collide with the synthetic codes -2 to -4 in the history.
- ExecutionSandbox.Sandbox.CleanupTemp: an entry `rmtree` deletes only in part is modelled as undeletable.
- ExecutionSandbox.Sandbox.CleanupTemp: a directory entry is a file or a folder, so an entry that is neither (a broken symbolic link, a socket, a named pipe) cannot be represented. `cleanup_temp` steps over such an entry and goes on (execution_sandbox.py:203-206); the model cannot express that, since each of its entries is deleted or stops the loop. `Deletable` and `FindVideo` have the same limit.
- The retry manager sees the sandbox through its `Run` function as a `Renderer`, and the fixer as a function. `AgentFixerUsesAllAttempts` connects it to the repair stage.
- The orchestrator's `sandbox` field and its narrator are stored but never used by `run`. So are the logs and temp directories it creates.
- The source's statements after each agent's retry loop (`raise ValueError(...)`, or returning the original script in the fixer) cannot be reached: the last attempt always returns or raises inside the loop. The loops are modelled as loops that return from inside. The narrator's fallback after its loop is reachable and is modelled.
- The `except json.JSONDecodeError` handlers of the logician and director cannot be reached: the validators catch decode errors themselves.
- EngineerAgent.Judge: the provider call, extraction and validation are seen by the engineer's loop through the `Replies` function, so the loop is stated over any step function. `JudgeVerdict` and `RepliesValidAreScripts` tie it back.

## Findings

| source | as written | input that shows it | evidently intended | confidence | as-written member | corrected member |
|---|---|---|---|---|---|---|
| aoai/agents/narrator_agent.py:51-55 | the narrator builds its prompt with `get_prompt('narrator', ...)`, but `get_prompt` (aoai/utils/prompts.py:124-133) holds templates only for logician, director, engineer and fixer, so it always raises ValueError "Unknown agent: narrator" before any provider call | any manifest with a `scenes` list, for example `{"scenes": []}` | a narrator template exists; the stage asks the provider twice and falls back to one narration per scene title | not executed | NarratorAgent.ShownTemplatesAlwaysRaise | NarratorAgent.NarratorPolicy |
