/** `main` without `--init`: the gates between reading the configuration and
    running `git commit`. The configuration file, the command line, the two
    confirmation answers and the language model are inputs; `git` is a
    `GitProcess`. */
module Pipeline {
  import opened PyText
  import opened Json
  import opened Prompt
  import opened Response
  import opened Git

  const DEFAULT_MODEL := "gpt-3.5-turbo"

  /** The configuration entries the run reads. An empty `apiKey` or
      `extraInfo` stands for a missing or falsy entry, `ignoreFiles == []` for a
      missing or empty list. */
  datatype Config = Config(
    apiKey: string,
    model: Option<string>,
    maxTokens: Option<int>,
    ignoreFiles: seq<string>,
    extraInfo: string)

  /** The command-line flags the run reads; `extraInfo == ""` when `-e` is absent. */
  datatype Args = Args(push: bool, yes: bool, branch: bool, extraInfo: string)

  /** What is sent to the language model. */
  datatype Request = Request(model: string, prompt: string, maxTokens: Option<int>)

  /** `config.get("model", DEFAULT_MODEL)`: the default only when the entry is
      missing; a configured name is used as it is, even an empty one. */
  function ModelName(config: Config): (r: string)
    ensures config.model.None? ==> r == DEFAULT_MODEL
    ensures config.model.Some? ==> r == config.model.value
  {
    match config.model
    case None => DEFAULT_MODEL
    case Some(m) => m
  }

  /** `config.get("max_tokens") or None`: a missing or zero `max_tokens` sends
      no limit; any other value is sent as it is. */
  function RequestedMaxTokens(maxTokens: Option<int>): (r: Option<int>)
    ensures r.None? <==> maxTokens.None? || maxTokens.value == 0
    ensures r.Some? ==> r == maxTokens
  {
    if maxTokens.Some? && maxTokens.value != 0 then maxTokens else None
  }

  /** `reply.lower() == "y"`. */
  predicate Accepts(reply: string) {
    Lower(reply) == "y"
  }

  /** Only "y" and "Y" confirm: "yes", " y" and the empty answer do not. */
  lemma AcceptsOnlyY(reply: string)
    ensures Accepts(reply) <==> reply == "y" || reply == "Y"
  {
    if Accepts(reply) {
      assert |reply| == 1 && LowerChar(reply[0]) == 'y';
      assert reply == [reply[0]];
    }
  }

  /** A confirmation passes with `--yes`, or when the user answers "y" or "Y". */
  predicate Consents(yes: bool, reply: string): (r: bool)
    ensures r <==> yes || reply == "y" || reply == "Y"
  {
    AcceptsOnlyY(reply);
    yes || Accepts(reply)
  }

  /** Where a run ends. */
  datatype RunOutcome =
    | NoApiKey                     // no API key in the configuration
    | StatusCrashed(error: PyError) // `get_git_status` raised
    | NotARepository               // `git status` failed
    | DiffCrashed(error: PyError)  // `get_git_diff` raised
    | PrepareCrashed(error: PyError) // writing the prompt (`-o`) or counting its tokens raised
    | DeclinedGenerate             // the first confirmation was refused
    | BackendFailed                // the language model call raised
    | ParseCrashed(error: PyError) // `parse_response` raised
    | Unparsed                     // the answer gave no commit message
    | DeclinedExecute              // the second confirmation was refused
    | Executed(result: ExecResult) // `execute_git_commands` ran

  /** The git commands a run issues, the request it sends (if any), and where it ends. */
  datatype Run = Run(issued: seq<Argv>, request: Option<Request>, outcome: RunOutcome)

  /** The two read-only queries every run that reaches git starts with. */
  function Queries(config: Config): seq<Argv> {
    [STATUS_ARGV, DiffArgv(config.ignoreFiles)]
  }

  /** `main` with the prompt texts `template`, given how `git` behaves after
      `history` (its exit status, its output, and whether that output decodes), the exception (if any) that writing the prompt to the `-o`
      file and counting its tokens raise (`prepare`), the language model
      `complete` (`None` where the call raises) and the JSON decoder. The tool
      itself uses `PROMPT_TEMPLATE`. */
  function Main(
    template: Template, succeeds: (seq<Argv>, Argv) -> bool, output: (seq<Argv>, Argv) -> string,
    decodes: (seq<Argv>, Argv) -> bool, history: seq<Argv>,
    config: Config, args: Args, prepare: string -> Option<PyError>, complete: Request -> Option<string>, decode: string -> Decoded,
    generateReply: string, executeReply: string): (r: Run)
    // A run that does not reach `execute_git_commands` issues at most the two
    // read-only queries, in order; one that does, and any run that calls the
    // language model, starts with both.
    ensures !r.outcome.Executed? ==> |r.issued| <= 2 && r.issued == Queries(config)[..|r.issued|]
    ensures r.outcome.Executed? || r.request.Some? ==> |r.issued| >= 2 && r.issued[..2] == Queries(config)
  {
    var h1 := history + [STATUS_ARGV];
    var diffArgv := DiffArgv(config.ignoreFiles);
    if config.apiKey == "" then Run([], None, NoApiKey)
    else if !decodes(history, STATUS_ARGV) then Run([STATUS_ARGV], None, StatusCrashed(UnicodeDecodeError))
    else if !succeeds(history, STATUS_ARGV) then Run([STATUS_ARGV], None, NotARepository)
    // `subprocess.run` refuses the diff command: see `DiffArgvNul`.
    else if HoldsNul(config.ignoreFiles) then Run([STATUS_ARGV], None, DiffCrashed(ValueError))
    else if !decodes(h1, diffArgv) then Run([STATUS_ARGV, diffArgv], None, DiffCrashed(UnicodeDecodeError))
    else
      var status := output(history, STATUS_ARGV);
      var diff := if succeeds(h1, diffArgv) then output(h1, diffArgv) else "";
      var g := Generate(template, succeeds, h1 + [diffArgv], config, args, status, diff, prepare, complete, decode, generateReply, executeReply);
      Run([STATUS_ARGV, diffArgv] + g.issued, g.request, g.outcome)
  }

  /** The rest of `main` once `git status` gave `status` and `git diff` gave
      `diff`, with `history` the commands issued so far: build the prompt,
      write it and count its tokens, ask the first confirmation, call the
      language model, and conclude. The commands are those issued after `history`. */
  function Generate(
    template: Template, succeeds: (seq<Argv>, Argv) -> bool, history: seq<Argv>, config: Config, args: Args,
    status: string, diff: string, prepare: string -> Option<PyError>, complete: Request -> Option<string>, decode: string -> Decoded,
    generateReply: string, executeReply: string): (r: Run)
    // Nothing is issued before `execute_git_commands` is reached, and it is
    // reached only after the model was called with the first confirmation given.
    ensures !r.outcome.Executed? ==> r.issued == []
    ensures r.outcome.Executed? ==> r.request.Some? && Consents(args.yes, generateReply)
    ensures r.request.Some? ==> Consents(args.yes, generateReply) && prepare(r.request.value.prompt).None?
  {
    var prompt := Fill(template, status, diff, args.branch, args.extraInfo, config.extraInfo);
    if prepare(prompt).Some? then Run([], None, PrepareCrashed(prepare(prompt).value))
    else if !Consents(args.yes, generateReply) then Run([], None, DeclinedGenerate)
    else
      var request := Request(ModelName(config), prompt, RequestedMaxTokens(config.maxTokens));
      var answer := complete(request);
      if answer.None? then Run([], Some(request), BackendFailed)
      else
        var e := Conclude(succeeds, history, args, decode, answer.value, executeReply);
        Run(e.issued, Some(request), e.outcome)
  }

  /** The commands a run issues after the two queries, and where it ends. */
  datatype Ending = Ending(issued: seq<Argv>, outcome: RunOutcome)

  /** The rest of `main` once the language model has answered `answer`, with
      `history` the commands issued so far: parse the answer, ask the second
      confirmation, run the git commands. */
  function Conclude(
    succeeds: (seq<Argv>, Argv) -> bool, history: seq<Argv>, args: Args, decode: string -> Decoded,
    answer: string, executeReply: string): (r: Ending)
    // Nothing is issued unless the answer parses to a message that is not
    // None and the second confirmation is given.
    ensures !r.outcome.Executed? ==> r.issued == []
    ensures r.outcome.Executed? ==>
      && ParseResponse(Strip(answer), args.branch, decode).Returned?
      && ParseResponse(Strip(answer), args.branch, decode).commitMessage != JNull
      && Consents(args.yes, executeReply)
  {
    match ParseResponse(Strip(answer), args.branch, decode)
    case Raised(e) => Ending([], ParseCrashed(e))
    case Returned(message, branchName) =>
      if message == JNull then Ending([], Unparsed)
      else if !Consents(args.yes, executeReply) then Ending([], DeclinedExecute)
      else
        var o := Execute(succeeds, history, Plan(message, branchName, args.push));
        Ending(o.issued, Executed(o.result))
  }

  /** The language model is asked only after the API key, `git status` (which
      exits with status 0 and prints text that decodes), the diff command
      (whose output decodes), the writing and counting of the prompt, and the
      first confirmation; git is told to commit only after a usable answer and the
      second confirmation. With `--yes` neither confirmation is asked for. */
  lemma GatesInOrder(
    template: Template, succeeds: (seq<Argv>, Argv) -> bool, output: (seq<Argv>, Argv) -> string,
    decodes: (seq<Argv>, Argv) -> bool, history: seq<Argv>,
    config: Config, args: Args, prepare: string -> Option<PyError>, complete: Request -> Option<string>, decode: string -> Decoded,
    generateReply: string, executeReply: string)
    ensures var r := Main(template, succeeds, output, decodes, history, config, args, prepare, complete, decode, generateReply, executeReply);
      var h1 := history + [STATUS_ARGV];
      var diffArgv := DiffArgv(config.ignoreFiles);
      var prompt := Fill(template, output(history, STATUS_ARGV),
                         if succeeds(h1, diffArgv) then output(h1, diffArgv) else "",
                         args.branch, args.extraInfo, config.extraInfo);
      var statusPasses := config.apiKey != "" && decodes(history, STATUS_ARGV) && succeeds(history, STATUS_ARGV);
      && (r.outcome.StatusCrashed? <==> config.apiKey != "" && !decodes(history, STATUS_ARGV))
      && (r.outcome.DiffCrashed? <==>
            statusPasses && (HoldsNul(config.ignoreFiles) || !decodes(h1, diffArgv)))
      && (r.outcome.PrepareCrashed? <==>
            statusPasses && !HoldsNul(config.ignoreFiles) && decodes(h1, diffArgv)
            && prepare(prompt).Some?)
      && (r.request.Some? <==>
            && statusPasses && !HoldsNul(config.ignoreFiles) && decodes(h1, diffArgv)
            && prepare(prompt).None? && Consents(args.yes, generateReply))
      && (r.outcome.Executed? <==>
            && r.request.Some?
            && complete(r.request.value).Some?
            && ParseResponse(Strip(complete(r.request.value).value), args.branch, decode).Returned?
            && ParseResponse(Strip(complete(r.request.value).value), args.branch, decode).commitMessage != JNull
            && Consents(args.yes, executeReply))
  {
  }

  /** Nothing is committed unless `--yes` is given or both answers are "y" or "Y". */
  lemma CommitNeedsConsent(
    template: Template, succeeds: (seq<Argv>, Argv) -> bool, output: (seq<Argv>, Argv) -> string,
    decodes: (seq<Argv>, Argv) -> bool, history: seq<Argv>,
    config: Config, args: Args, prepare: string -> Option<PyError>, complete: Request -> Option<string>, decode: string -> Decoded,
    generateReply: string, executeReply: string)
    ensures var r := Main(template, succeeds, output, decodes, history, config, args, prepare, complete, decode, generateReply, executeReply);
      |r.issued| > 2 ==>
        args.yes || ((generateReply == "y" || generateReply == "Y") && (executeReply == "y" || executeReply == "Y"))
  {
    AcceptsOnlyY(generateReply);
    AcceptsOnlyY(executeReply);
  }

  /** The request carries the configured model (or the default), the limit
      `config.get("max_tokens") or None`, and the prompt built from the status
      text and the diff text, which is "" when `git diff` fails. */
  lemma RequestCarriesPrompt(
    template: Template, succeeds: (seq<Argv>, Argv) -> bool, output: (seq<Argv>, Argv) -> string,
    decodes: (seq<Argv>, Argv) -> bool, history: seq<Argv>,
    config: Config, args: Args, prepare: string -> Option<PyError>, complete: Request -> Option<string>, decode: string -> Decoded,
    generateReply: string, executeReply: string)
    ensures var r := Main(template, succeeds, output, decodes, history, config, args, prepare, complete, decode, generateReply, executeReply);
      var h1 := history + [STATUS_ARGV];
      var diffArgv := DiffArgv(config.ignoreFiles);
      r.request.Some? ==>
        && r.request.value.model == ModelName(config)
        && r.request.value.maxTokens == RequestedMaxTokens(config.maxTokens)
        && r.request.value.prompt == Fill(template, output(history, STATUS_ARGV),
             if succeeds(h1, diffArgv) then output(h1, diffArgv) else "",
             args.branch, args.extraInfo, config.extraInfo)
  {
  }

  /** A fenced answer naming a message and a branch, with `--branch --push --yes`,
      every git command succeeding with output that decodes, nothing raised
      before the model call and no NUL character in the arguments: after the
      two queries the tool commits with that message, creates and switches to
      that branch, and pushes it. */
  lemma FencedAnswerCommitsBranchesAndPushes(
    template: Template, succeeds: (seq<Argv>, Argv) -> bool, output: (seq<Argv>, Argv) -> string,
    decodes: (seq<Argv>, Argv) -> bool, history: seq<Argv>,
    config: Config, extraInfo: string, prepare: string -> Option<PyError>, complete: Request -> Option<string>, decode: string -> Decoded,
    text: string, message: string, branch: string, generateReply: string, executeReply: string)
    requires config.apiKey != "" && !HoldsNul(config.ignoreFiles)
    requires forall h, argv :: succeeds(h, argv) && decodes(h, argv)
    requires forall p :: prepare(p).None?
    requires forall q :: complete(q) == Some(JSON_FENCE + "\n" + text + "\n" + FENCE)
    requires IsStripped(text) && text != [] && text[0] == '{' && text[|text| - 1] == '}'
    requires decode(text).Decoded? && decode(text).value.JObject?
    requires "commit_message" in decode(text).value.fields && "branch_name" in decode(text).value.fields
    requires decode(text).value.fields["commit_message"] == JString(message)
    requires decode(text).value.fields["branch_name"] == JString(branch) && branch != ""
    requires '\0' !in message && '\0' !in branch
    ensures var r := Main(template, succeeds, output, decodes, history, config, Args(true, true, true, extraInfo),
                          prepare, complete, decode, generateReply, executeReply);
      && r.issued == Queries(config) + [CommitArgv(message), CheckoutArgv(branch), PushArgv(branch)]
      && r.outcome == Executed(Finished(true))
  {
    var answer := JSON_FENCE + "\n" + text + "\n" + FENCE;
    var args := Args(true, true, true, extraInfo);
    var h2 := history + [STATUS_ARGV] + [DiffArgv(config.ignoreFiles)];
    var issued := [CommitArgv(message), CheckoutArgv(branch), PushArgv(branch)];
    FencedAnswerParses(text, message, branch, decode);
    PlanRunsToTheEnd(succeeds, h2, message, branch);
    assert Conclude(succeeds, h2, args, decode, answer, executeReply) == Ending(issued, Executed(Finished(true)));
  }

  /** The fenced answer, stripped as `call_openai` does, parses to the message
      and the branch name. */
  lemma FencedAnswerParses(text: string, message: string, branch: string, decode: string -> Decoded)
    requires IsStripped(text) && text != [] && text[0] == '{' && text[|text| - 1] == '}'
    requires decode(text).Decoded? && decode(text).value.JObject?
    requires "commit_message" in decode(text).value.fields && "branch_name" in decode(text).value.fields
    requires decode(text).value.fields["commit_message"] == JString(message)
    requires decode(text).value.fields["branch_name"] == JString(branch)
    ensures ParseResponse(Strip(JSON_FENCE + "\n" + text + "\n" + FENCE), true, decode)
            == Returned(JString(message), JString(branch))
  {
    var answer := JSON_FENCE + "\n" + text + "\n" + FENCE;
    assert answer[0] == '`' && answer[|answer| - 1] == '`';
    StripStripped(answer);
    ParseFencedOrBare(text, true, decode);
  }

  /** With every command succeeding, the plan for a string message, a non-empty
      branch name, neither holding a NUL character, and `--push` runs all three
      commands and returns True. */
  lemma PlanRunsToTheEnd(succeeds: (seq<Argv>, Argv) -> bool, h: seq<Argv>, message: string, branch: string)
    requires forall h', argv :: succeeds(h', argv)
    requires branch != "" && '\0' !in message && '\0' !in branch
    ensures Execute(succeeds, h, Plan(JString(message), JString(branch), true))
            == Outcome([CommitArgv(message), CheckoutArgv(branch), PushArgv(branch)], Finished(true))
  {
    var c, k, p := CommitArgv(message), CheckoutArgv(branch), PushArgv(branch);
    CommandNul(message);
    CommandNul(branch);
    var steps := Plan(JString(message), JString(branch), true);
    assert steps == [Issue(c), Issue(k), Issue(p)];
    var h2 := h + [c] + [k];
    assert [Issue(p)][1..] == [];
    assert Execute(succeeds, h2, [Issue(p)]) == Outcome([p], Finished(true));
    assert [Issue(k), Issue(p)][1..] == [Issue(p)];
    assert Execute(succeeds, h + [c], [Issue(k), Issue(p)]) == Outcome([k, p], Finished(true));
    assert steps[1..] == [Issue(k), Issue(p)];
  }

  /** An answer that does not decode as JSON ends the run after the two
      queries, with no commit, whatever the confirmations say. */
  lemma UndecodableAnswerStops(
    template: Template, succeeds: (seq<Argv>, Argv) -> bool, output: (seq<Argv>, Argv) -> string,
    decodes: (seq<Argv>, Argv) -> bool, history: seq<Argv>,
    config: Config, args: Args, prepare: string -> Option<PyError>, complete: Request -> Option<string>, decode: string -> Decoded,
    generateReply: string, executeReply: string)
    requires forall q :: complete(q).Some? && decode(Normalize(Strip(complete(q).value))).DecodeError?
    ensures var r := Main(template, succeeds, output, decodes, history, config, args, prepare, complete, decode, generateReply, executeReply);
      && |r.issued| <= 2
      && (r.request.Some? ==> r.outcome == Unparsed && r.issued == Queries(config))
  {
  }

  /** `main` with the prompt texts `template`, run against a `git` process. */
  method RunPipeline(
    template: Template, git: GitProcess, config: Config, args: Args, prepare: string -> Option<PyError>, complete: Request -> Option<string>, decode: string -> Decoded,
    generateReply: string, executeReply: string)
    returns (outcome: RunOutcome)
    modifies git
    ensures var r := Main(template, git.succeeds, git.output, git.decodes, old(git.log), config, args, prepare, complete, decode, generateReply, executeReply);
      git.log == old(git.log) + r.issued && outcome == r.outcome
  {
    if config.apiKey == "" {
      return NoApiKey;
    }
    var status := GetGitStatus(git);
    if status.StatusRaised? {
      return StatusCrashed(status.error);
    }
    if status.NoStatus? {
      return NotARepository;
    }
    var diff := GetGitDiff(git, config.ignoreFiles);
    if diff.DiffRaised? {
      return DiffCrashed(diff.error);
    }
    ghost var h2 := git.log;
    outcome := GeneratePhase(template, git, config, args, status.text, diff.text, prepare, complete, decode, generateReply, executeReply);
    QueriesThen(old(git.log), STATUS_ARGV, DiffArgv(config.ignoreFiles), git.log[|h2|..]);
  }

  /** The log after the two queries and the later commands, regrouped. */
  lemma QueriesThen(h: seq<Argv>, status: Argv, diff: Argv, rest: seq<Argv>)
    ensures h + [status] + [diff] + rest == h + ([status, diff] + rest)
  {
  }

  /** The rest of `main` after the two queries, run against a `git` process. */
  method GeneratePhase(
    template: Template, git: GitProcess, config: Config, args: Args, status: string, diff: string,
    prepare: string -> Option<PyError>, complete: Request -> Option<string>, decode: string -> Decoded, generateReply: string, executeReply: string)
    returns (outcome: RunOutcome)
    modifies git
    ensures var g := Generate(template, git.succeeds, old(git.log), config, args, status, diff, prepare, complete, decode, generateReply, executeReply);
      git.log == old(git.log) + g.issued && outcome == g.outcome
  {
    var prompt := Fill(template, status, diff, args.branch, args.extraInfo, config.extraInfo);
    var raised := prepare(prompt);
    if raised.Some? {
      return PrepareCrashed(raised.value);
    }
    if !Consents(args.yes, generateReply) {
      return DeclinedGenerate;
    }
    var answer := complete(Request(ModelName(config), prompt, RequestedMaxTokens(config.maxTokens)));
    if answer.None? {
      return BackendFailed;
    }
    outcome := ApplyAnswer(git, args, decode, answer.value, executeReply);
  }

  /** The rest of `main` once the language model has answered, run against a
      `git` process. */
  method ApplyAnswer(git: GitProcess, args: Args, decode: string -> Decoded, answer: string, executeReply: string)
    returns (outcome: RunOutcome)
    modifies git
    ensures var e := Conclude(git.succeeds, old(git.log), args, decode, answer, executeReply);
      git.log == old(git.log) + e.issued && outcome == e.outcome
  {
    var parsed := ParseResponse(Strip(answer), args.branch, decode);
    if parsed.Raised? {
      return ParseCrashed(parsed.error);
    }
    if parsed.commitMessage == JNull {
      return Unparsed;
    }
    if !Consents(args.yes, executeReply) {
      return DeclinedExecute;
    }
    var result := ExecuteGitCommands(git, parsed.commitMessage, parsed.branchName, args.push);
    return Executed(result);
  }

  /** The tool's `main`: the run with its own prompt texts. */
  method Cmmt(
    git: GitProcess, config: Config, args: Args, prepare: string -> Option<PyError>, complete: Request -> Option<string>, decode: string -> Decoded,
    generateReply: string, executeReply: string)
    returns (outcome: RunOutcome)
    modifies git
    ensures var r := Main(PROMPT_TEMPLATE, git.succeeds, git.output, git.decodes, old(git.log), config, args, prepare, complete, decode, generateReply, executeReply);
      git.log == old(git.log) + r.issued && outcome == r.outcome
  {
    outcome := RunPipeline(PROMPT_TEMPLATE, git, config, args, prepare, complete, decode, generateReply, executeReply);
  }
}
