# cmmt, modelled in Dafny

`cmmt` is a small command-line tool (`main.py`). It reads the staged state of
a git working tree, asks a language model to draft a Conventional-Commits
message and, on request, a branch name, and then applies the answer with
`git commit`, `git checkout -b` and `git push`. This project models the core of
that pipeline and proves properties of the model:

- `pytext.dfy`: module `PyText`. The Python string operations the tool relies
  on: `str.strip()` (with Python's `isspace` set), `startswith`, `endswith` and
  `lower()`.
- `json.dfy`: module `Json`. Decoded JSON values, seen as the Python objects
  the tool handles. Python truthiness. The exceptions the modelled code raises
  and does not catch.
- `prompt.dfy`: module `Prompt`. `build_prompt` as a pure function:
  - the fixed texts are gathered in a `Template` value;
  - `BuildPrompt` fills the tool's own template;
  - the lemmas are proved for any template and then read for the tool's.
- `response.dfy`: module `Response`. `parse_response`: the cleaning of the
  answer, then the lookups of `commit_message` and `branch_name`. `json.loads`
  is a parameter (`decode`).
- `git.dfy`: module `Git`. A `GitProcess` class stands for the `git`
  executable behind `subprocess.run(..., check=True)`:
  - it keeps a log of the commands run;
  - whether each command succeeds, what it prints, and whether that output
    decodes as text in the locale's encoding depend only on the commands run
    before it;
  - `Run` stands for the commit, checkout and push, whose output goes to the
    terminal. `Capture` stands for the status and diff queries, whose output
    the tool reads as text.

  It also holds `get_git_status`, `get_git_diff` with its argument-building
  loop, and `execute_git_commands`. The last is an imperative method, proved
  equal to a pure run (`Execute`) of a step list (`Plan`).
- `pipeline.dfy`: module `Pipeline`. `main` after argument parsing:
  - `Main` is a pure function, with `Generate` (prompt, writing and counting
    it, first confirmation, model call) and `Conclude` (parse, second
    confirmation, git commands) for its later stages;
  - `RunPipeline` is the imperative method proved against it, with
    `GeneratePhase` and `ApplyAnswer` for the same stages;
  - the lemmas cover the gates: API key, `git status`, the two confirmations,
    the language-model call and the parse.

A few conventions hold throughout:

- Python `None` and JSON `null` are both `JNull`. `dict.get` returns `None`
  both for a missing key and for a `null` value, and the tool cannot tell the
  two apart. `dict[...]` returns `None` for a `null` value and raises
  `KeyError` for a missing key.
- An empty string stands for a missing or falsy configuration or command-line
  string.

What the code does in its corner cases:

- `parse_response` does not check the decoded answer:
  - a JSON object without `commit_message` raises `KeyError`;
  - JSON that is not an object raises `TypeError`;
  - `main` catches neither;
  - an empty or non-string message is passed on unchecked (`Response.Interpret`).
- `subprocess.run` checks each argument before starting `git`, and nothing
  catches what it raises:
  - a non-string commit message, or a truthy non-string branch name, raises
    `TypeError`;
  - a message, branch name or ignored pattern holding a NUL character raises
    `ValueError`;
  - for the branch name this happens after the commit has been made
    (`Git.NulRaises`, `Git.StringsNeverCrash`).
- `git status` and `git diff` run with `text=True`. Output that does not decode
  in the locale's encoding makes `subprocess.run` raise `UnicodeDecodeError`
  before it looks at the exit status, and nothing catches it. This happens, for
  example, with a staged Latin-1 file in a UTF-8 locale. The run then ends
  before the prompt is built (`Git.GetGitStatus`, `Git.GetGitDiff`,
  `Pipeline.GatesInOrder`).
- The answer is trimmed, then a leading "```json" is removed, then a trailing
  "```", and then it is trimmed again. A bare "```" opening fence is therefore
  kept (`Response.NormalizeKeepsBareFence`).
- The push is `git push -u origin` followed by the branch name, or "main" when
  the branch name is falsy (`Git.PushTargets`).
- `get_git_diff` writes a "--" before every excluded pattern, not once
  (`Git.DiffArgvSeparators`). Git reads every argument after the first "--" as
  a path. This model does not include git's path-matching rules.

## Model

| member | source | states |
|---|---|---|
| PyText.Strip | main.py:155-160 | `strip()` leaves a text with no white space at either end, and no longer than the input |
| PyText.LStripSpec | main.py:155 | the left strip keeps the longest suffix not starting with Python white space; everything dropped is white space |
| PyText.RStripSpec | main.py:155 | the right strip keeps the longest prefix not ending with white space; everything dropped is white space |
| PyText.StripPadded | main.py:155-160 | `strip()` of a stripped text surrounded by white space gives back exactly that text |
| PyText.StripSplit | main.py:155-160 | every text is its `strip()` with white space before and after |
| PyText.Lower | main.py:275 | `lower()` keeps the length and lowers each ASCII capital in place |
| Prompt.OutputFormat | main.py:71-74 | the answer format is `{"commit_message": "..."}`, plus `, "branch_name": "..."` exactly when a branch name is asked for |
| Prompt.SectionsPresent | main.py:76-131 | task, requirements, output format and context are always present. The branch task line and branch specification are present iff `--branch`. The extra-information header is present iff either extra text is non-empty; each extra text is present iff it is non-empty |
| Prompt.SectionsInOrder | main.py:76-131 | sections come in the fixed order: task, branch line, requirements, branch spec, output format, header, configuration's extra, command line's extra, context |
| Prompt.FillIsSections | main.py:76-131 | the prompt is exactly the texts of its sections, concatenated in that order |
| Prompt.BuildPromptIsSections | main.py:70-131 | the tool's prompt is the concatenation of its sections' texts |
| Prompt.FillLayout | main.py:76-131 | the prompt is head, then output-format line, then extra block (header, configuration's line, command line's line), then context block |
| Prompt.TemplateDistinguishable | main.py:76-125 | the texts that can follow one another at the same place differ near their start |
| Prompt.FillBranchTaskLine | main.py:76-81 | for any such template, the branch task line follows the task introduction iff a branch name is asked for |
| Prompt.FillOutputLine | main.py:109-116 | for any template, the output-format line follows the head |
| Prompt.FillBranchSpec | main.py:83-107 | for any such template, the branch specification follows the requirements iff a branch name is asked for |
| Prompt.FillExtraHeader | main.py:118-125 | for any such template, the extra-information header follows the output line iff either extra text is non-empty |
| Prompt.FillContextLast | main.py:125-130 | for any template, the prompt ends with the context block. Nothing before it depends on status or diff |
| Prompt.PromptBranchTaskLine | main.py:76-81 | the tool's prompt has "- A **Branch Name** ..." right after the task lines iff `--branch` |
| Prompt.PromptBranchSpec | main.py:83-107 | "## Branch Name Specification" follows the commit-message requirements iff `--branch` |
| Prompt.PromptOutputFormat | main.py:109-116 | after the head come "# Important", "# Output Format" and the answer format line |
| Prompt.PromptExtraHeader | main.py:118-123 | "# Extra Information" follows the output line iff the command line or the configuration gives extra text |
| Prompt.PromptContextLast | main.py:125-131 | the prompt ends with "# Context", the status, "## Git diff:" and the diff, verbatim. Nothing before that depends on them |
| Response.Normalize | main.py:155-160 | the cleaned answer has no surrounding white space and is no longer than the raw answer |
| Response.Interpret | main.py:162-170 | a decode failure gives (None, None). Non-object JSON raises `TypeError`; an object without `commit_message` raises `KeyError`. Otherwise the message is returned unchecked, and `branch_name` only with `--branch` |
| Response.NormalizeUnfences | main.py:155-160 | a stripped text inside a "```json" ... "```" fence, with any white space around and inside, comes out unchanged |
| Response.NormalizeKeepsPlain | main.py:155-160 | a stripped text that neither starts with "```json" nor ends with "```" is unchanged |
| Response.NormalizeKeepsBareFence | main.py:156-160 | for a bare "```" fence only the closing fence is removed; the opening "```" line stays |
| Response.ParseFencedOrBare | main.py:153-166 | a JSON object answer gives the same message and branch name bare or fenced with "```json" |
| Git.GitProcess.Run | main.py:176-196 | each call is appended to the log; it fails exactly when the oracle says the command fails |
| Git.GitProcess.Capture | main.py:46-51 | each call is appended to the log; output that does not decode raises whatever the exit status, otherwise the exit status and the output come from the oracles |
| Git.GetGitStatus | main.py:44-55 | runs `git status --porcelain --untracked-files=all` once. The result is its output, None when it fails, or `UnicodeDecodeError` exactly when its output does not decode |
| Git.DiffArgv | main.py:60-63 | the diff command is `git diff --staged` then, per pattern in order and without deduplication, "--" and ":(exclude)" + pattern; its length is 3 + 2n |
| Git.DiffCommand | main.py:60-63 | the argument-building loop produces exactly `DiffArgv` |
| Git.DiffArgvSeparators | main.py:62-63 | the command holds one "--" per ignored pattern |
| Git.DiffArgvNul | main.py:60-66 | the diff command holds a NUL character exactly when an ignored pattern does |
| Git.GetGitDiff | main.py:58-67 | a pattern holding a NUL character raises `ValueError` and runs nothing. Otherwise it runs the diff command once; output that does not decode raises `UnicodeDecodeError`, and otherwise the diff is its output, or "" when it fails |
| Git.CommandNul | main.py:176-196 | the commit, checkout and push commands hold a NUL character exactly when their last argument does |
| Git.Plan | main.py:173-196 | commit first. Checkout only when the branch name is truthy. Push last, only with `--push`, to the branch name or "main" |
| Git.Execute | main.py:173-202 | the commands issued are the first steps of the plan, in plan order, and never more than the plan holds |
| Git.ExecuteTrueIff | main.py:173-202 | the result is True exactly when every step of the plan was issued and every command succeeded |
| Git.ExecuteFalseAtFailure | main.py:175-200 | on False, the last command issued failed, every command before it succeeded, and nothing ran after it |
| Git.ExecuteCrashAtBadArgument | main.py:176-196 | on a raise, the run stopped at a step `subprocess.run` refuses, the error is that step's (`TypeError` for a non-string, `ValueError` for a NUL character), and every command before it succeeded |
| Git.ExecuteGitCommands | main.py:173-202 | the git log grows by exactly `Execute`'s commands, and the result is `Execute`'s result |
| Git.CommitFailureStopsAll | main.py:175-180 | a failed commit is the only command run, and the result is False |
| Git.CheckoutFailureKeepsCommit | main.py:183-189 | a failed checkout leaves the commit in place and skips the push; the result is False |
| Git.PushTargets | main.py:192-196 | without a truthy branch name the plan is commit then push to "main"; with one it is commit, checkout, push to that branch |
| Git.StringsNeverCrash | main.py:176-196 | a string message with a string or falsy branch name, none of them holding a NUL character, never raises |
| Git.NulRaises | main.py:176-187 | a NUL character in the message raises `ValueError` before anything runs; one in the branch name raises after a successful commit, before the checkout |
| Pipeline.ModelName | main.py:137 | the default model is used only when the entry is missing; a configured name is sent as it is |
| Pipeline.RequestedMaxTokens | main.py:139 | a missing or zero `max_tokens` sends no limit; any other value is sent unchanged |
| Pipeline.AcceptsOnlyY | main.py:274-276 | a confirmation is accepted exactly for the answers "y" and "Y" |
| Pipeline.Consents | main.py:272-298 | each of the two confirmations (lines 272-276 and 294-298) passes exactly with `--yes` or the answer "y" or "Y" |
| Pipeline.Main | main.py:235-301 | a run that does not reach the executor issues at most `git status` then `git diff`. One that does, and one that calls the model, starts with those two |
| Pipeline.Generate | main.py:254-301 | nothing is issued before the executor; the executor is reached only after the model call, which needs the first confirmation and nothing raised by `-o` or the token count |
| Pipeline.Conclude | main.py:283-301 | nothing is issued unless the answer parses to a message other than None and the second confirmation passes |
| Pipeline.GatesInOrder | main.py:235-298 | the status query raises iff the API key is present and its output does not decode. The diff raises iff API key and `git status` pass and a pattern holds a NUL character or the diff does not decode. Writing and counting the prompt raise iff also `prepare` says so. The model is called iff all of those pass and the first confirmation does. The executor runs iff also the call returns, the parse returns a non-None message and the second confirmation passes |
| Pipeline.CommitNeedsConsent | main.py:272-301 | no command beyond the two queries runs unless `--yes` or both answers are "y"/"Y" |
| Pipeline.RequestCarriesPrompt | main.py:248-279 | the request carries the configured model or the default, the max-tokens value, and the prompt built from the status and the diff text ("" when `git diff` fails) |
| Pipeline.FencedAnswerCommitsBranchesAndPushes | main.py:279-301 | with `--branch --push --yes`, a fenced answer, git succeeding with output that decodes, nothing raised before the model call and no NUL character in the arguments, the tool commits, checks out the branch and pushes it, then returns True |
| Pipeline.UndecodableAnswerStops | main.py:279-286 | an answer that is not JSON ends the run after the two queries with no commit |
| Pipeline.RunPipeline | main.py:235-301 | running `main` against a git process issues exactly `Main`'s commands and ends where `Main` ends |
| Pipeline.GeneratePhase | main.py:254-301 | after the two queries, the git log grows by exactly the commands `Generate` issues, and the run ends where `Generate` ends |
| Pipeline.ApplyAnswer | main.py:284-301 | once the model has answered, the git log grows by exactly the commands `Conclude` issues, and the run ends where `Conclude` ends |
| Pipeline.Cmmt | main.py:235-301 | the same, with the tool's own prompt texts |

## Left out

- `--init` and the YAML configuration file: `load_config` and `save_config`.
  The configuration is an input (`Pipeline.Config`).
- Argument parsing and `--version`. The flags are an input (`Pipeline.Args`).
- All printing.
- `-o/--output` and token counting with `tiktoken` are modelled only by what
  they raise, the parameter `prepare` of `Pipeline.Main`. `open` can raise
  `OSError` and `encode` raises `ValueError` on text it takes for a special
  token; neither is caught. The file's contents and the count are not modelled.
  An unknown model name raises `KeyError`, which is caught, and the run goes on.
- The OpenAI client, `base_url`, and the HTTP call inside `call_openai`. The
  language model is the parameter `complete`, with `None` where the call raises
  (including a missing message content). The model does keep `call_openai`'s
  `strip()` of the answer and its choice of model and `max_tokens`.
- The JSON grammar. `json.loads` is the parameter `decode`. JSON numbers are
  reals; NaN and Infinity are not modelled.
- `COMMIT_TYPES` and `BRANCH_TYPES` are declared in the source but no function
  reads them. The prompt's type lists are literal text and are modelled as
  such. The model does not prove that those lists match the constants.
- `ignore_files` values that are not a list of strings, and configuration
  strings of other types. Python would iterate a string character by character,
  and format other values with `str()`.
- `git` failures other than a non-zero exit status or undecodable output, such
  as a missing `git` executable. The terminal output of `git commit`,
  `git checkout` and `git push` is left out.
- `PyText.Lower`: maps only ASCII capitals and leaves out other Unicode
  lowercase mappings. No other character lowercases to "y", so `Pipeline.Accepts` is
  unaffected.
- Keyboard input: the two `input()` answers are parameters of `Pipeline.Main`.
  The answer to the second question is used only when the run reaches it.
- Pipeline.Main: an `input()` that meets the end of input raises `EOFError`,
  which is not caught. The replies are strings, so the model does not have
  that outcome.
- Pipeline.GatesInOrder: holds for runs where `input()` returns. With end of
  input instead, the run stops with `EOFError` at that confirmation.
- Strings are sequences of Unicode scalar values. A lone surrogate, on which
  `subprocess.run` raises `UnicodeEncodeError`, cannot occur in the model.
