/** The prompt builder: a pure function of the `git status` text, the staged
    diff, the branch flag and the two extra-information strings (the command
    line's and the configuration's; "" stands for an absent or empty value). */
module Prompt {
  import opened PyText

  // The fixed texts, one constant per line of the prompt; a long line is
  // written as a concatenation of shorter literals.
  const TASK_INTRO :=
    "# Task\n"
    + "I will provide you with the output of `git status` and `git diff`. Based on this, generate:\n"
    + "- A **Commit Message** that follows the **Conventional Commits** specification.\n"
  const BRANCH_TASK_LINE := "- A **Branch Name**" + " that follows the specification.\n"

  const COMMIT_TYPE_LINE := "  - Type: " + "feat, fix, docs, style, refactor, " + "perf, test, build, ci, chore, revert" + ".\n"
  const REQUIREMENTS :=
    "# Requirements\n"
    + "## Commit Message Specification\n"
    + "- **Header**: `<type>(<scope>): <short summary>` (no more than 50 characters)\n"
    + COMMIT_TYPE_LINE
    + "  - Scope: Optional, indicates the module (e.g., auth, ui, parser, gradle).\n"
    + "  - Summary: Starts with a verb in present tense, lowercase first letter, no period at the end, describes the changes in detail.\n"
    + "- **Body**: (if necessary) Detailed explanation of the reason and logic for the changes.\n"
    + "- **Footer**: (if necessary) List Breaking Changes or related Issue IDs.\n"
    + "Example:\n"
    + "```\n"
    + "feat(auth): add login with OAuth 2.0\n"
    + "\n"
    + "- Implement OAuth 2.0 login flow using Google and Facebook.\n"
    + "- Update user model to store OAuth tokens.\n"
    + "\n"
    + "BREAKING CHANGE: user passwords are no longer stored in the database.\n"
    + "Closes #123\n"
    + "```\n"

  const BRANCH_TYPE_LINE := "- Types: " + "feat, fix, docs, style, " + "refactor, perf, test, chore" + ".\n"
  const BRANCH_SPEC :=
    "## Branch Name Specification\n"
    + "- Format: `type/short-description` (e.g., feat/login-api, fix/overflow-issue)\n"
    + "- Use lowercase letters, separate words with hyphens `-`.\n"
    + BRANCH_TYPE_LINE

  const OUTPUT_INTRO :=
    "# Important\n"
    + "You must strictly follow the specifications without any deviations.\n"
    + "# Output Format\n"
    + "You can only output content similar to the following: "
  const EXTRA_HEADER := "# Extra Information\n"
  const CONTEXT_HEADER := "# Context\n## Git status:\n"
  const DIFF_HEADER := "\n## Git diff:\n"

  /** The JSON shape the model is told to answer with. */
  function OutputFormat(branch: bool): (r: string)
    ensures !branch ==> r == "{\"commit_message\": \"...\"}"
    ensures branch ==> r == "{\"commit_message\": \"...\", \"branch_name\": \"...\"}"
  {
    var s := "{\"commit_message\": \"...\"";
    var s' := if branch then s + ", \"branch_name\": \"...\"" else s;
    s' + "}"
  }

  predicate HasExtra(argsExtra: string, configExtra: string) {
    argsExtra != "" || configExtra != ""
  }

  /** The fixed texts of the prompt, as one value, so that the lemmas below can
      be proved for any texts and then read for the tool's own. */
  datatype Template = Template(
    taskIntro: string, branchTaskLine: string, requirements: string, branchSpec: string,
    outputIntro: string, extraHeader: string, contextHeader: string, diffHeader: string)

  const PROMPT_TEMPLATE := Template(
    TASK_INTRO, BRANCH_TASK_LINE, REQUIREMENTS, BRANCH_SPEC,
    OUTPUT_INTRO, EXTRA_HEADER, CONTEXT_HEADER, DIFF_HEADER)

  /** `build_prompt`: the prompt the tool sends to the language model. */
  function BuildPrompt(status: string, diff: string, branch: bool, argsExtra: string, configExtra: string): string {
    Fill(PROMPT_TEMPLATE, status, diff, branch, argsExtra, configExtra)
  }

  /** The closing section: the status text and then the diff text, verbatim. */
  function ContextBlock(t: Template, status: string, diff: string): string {
    t.contextHeader + status + t.diffHeader + diff + "\n"
  }

  /** `build_prompt` on the texts `t`, appending to the prompt step by step as the tool does. */
  function Fill(t: Template, status: string, diff: string, branch: bool, argsExtra: string, configExtra: string): string {
    var formatStr := OutputFormat(branch);
    var p1 := t.taskIntro;
    var p2 := if branch then p1 + t.branchTaskLine else p1;
    var p3 := p2 + t.requirements;
    var p4 := if branch then p3 + t.branchSpec else p3;
    var p5 := p4 + (t.outputIntro + formatStr + "\n");
    var p6 := if HasExtra(argsExtra, configExtra) then p5 + t.extraHeader else p5;
    var p7 := if HasExtra(argsExtra, configExtra) && configExtra != "" then p6 + (configExtra + "\n") else p6;
    var p8 := if HasExtra(argsExtra, configExtra) && argsExtra != "" then p7 + (argsExtra + "\n") else p7;
    p8 + ContextBlock(t, status, diff)
  }

  // ---------------------------------------------------------------------------
  // The prompt as an ordered list of sections. Sections states which pieces a
  // prompt holds and in which order; FillIsSections ties it to Fill.

  datatype Section =
    | Task | BranchTask | Requirements | BranchSpec | OutputSpec
    | ExtraHeader | ConfigExtra | ArgsExtra | Context

  function Rank(sec: Section): nat {
    match sec
    case Task => 0
    case BranchTask => 1
    case Requirements => 2
    case BranchSpec => 3
    case OutputSpec => 4
    case ExtraHeader => 5
    case ConfigExtra => 6
    case ArgsExtra => 7
    case Context => 8
  }

  function SectionText(t: Template, sec: Section, status: string, diff: string, branch: bool, argsExtra: string, configExtra: string): string {
    match sec
    case Task => t.taskIntro
    case BranchTask => t.branchTaskLine
    case Requirements => t.requirements
    case BranchSpec => t.branchSpec
    case OutputSpec => OutputLine(t, branch)
    case ExtraHeader => t.extraHeader
    case ConfigExtra => configExtra + "\n"
    case ArgsExtra => argsExtra + "\n"
    case Context => ContextBlock(t, status, diff)
  }

  /** Every section a prompt can hold, in the order the tool writes them. */
  const ORDER: seq<Section> :=
    [Task, BranchTask, Requirements, BranchSpec, OutputSpec, ExtraHeader, ConfigExtra, ArgsExtra, Context]

  /** Whether a prompt holds `sec`: only the flags and the extra information decide. */
  predicate Present(sec: Section, branch: bool, argsExtra: string, configExtra: string) {
    match sec
    case BranchTask => branch
    case BranchSpec => branch
    case ExtraHeader => HasExtra(argsExtra, configExtra)
    case ConfigExtra => HasExtra(argsExtra, configExtra) && configExtra != ""
    case ArgsExtra => HasExtra(argsExtra, configExtra) && argsExtra != ""
    case _ => true
  }

  /** The sections of `secs` that are present, in the same order. */
  function Keep(secs: seq<Section>, branch: bool, argsExtra: string, configExtra: string): seq<Section>
    decreases |secs|
  {
    if secs == [] then []
    else
      var init := Keep(secs[..|secs| - 1], branch, argsExtra, configExtra);
      if Present(secs[|secs| - 1], branch, argsExtra, configExtra) then init + [secs[|secs| - 1]] else init
  }

  /** The sections a prompt holds, in the order it holds them. */
  function Sections(branch: bool, argsExtra: string, configExtra: string): seq<Section> {
    Keep(ORDER, branch, argsExtra, configExtra)
  }

  /** Keep holds exactly the present sections of its input. */
  lemma {:induction false} KeepMember(secs: seq<Section>, sec: Section, branch: bool, argsExtra: string, configExtra: string)
    decreases |secs|
    ensures sec in Keep(secs, branch, argsExtra, configExtra) <==> sec in secs && Present(sec, branch, argsExtra, configExtra)
  {
    if secs != [] {
      var init := secs[..|secs| - 1];
      KeepMember(init, sec, branch, argsExtra, configExtra);
      assert secs == init + [secs[|secs| - 1]];
    }
  }

  /** The task, requirements, output format and context are always present; the
      branch task line and the branch specification exactly when a branch name
      is asked for; the extra-information header exactly when either extra text
      is non-empty, and each extra text exactly when it is non-empty. */
  lemma SectionsPresent(branch: bool, argsExtra: string, configExtra: string)
    ensures var r := Sections(branch, argsExtra, configExtra);
      && Task in r && Requirements in r && OutputSpec in r && Context in r
      && (BranchTask in r <==> branch)
      && (BranchSpec in r <==> branch)
      && (ExtraHeader in r <==> HasExtra(argsExtra, configExtra))
      && (ConfigExtra in r <==> configExtra != "")
      && (ArgsExtra in r <==> argsExtra != "")
  {
    forall sec: Section
      ensures sec in Sections(branch, argsExtra, configExtra) <==> Present(sec, branch, argsExtra, configExtra)
    {
      KeepMember(ORDER, sec, branch, argsExtra, configExtra);
      assert ORDER[Rank(sec)] == sec;
    }
  }

  predicate Increasing(secs: seq<Section>) {
    forall i, j :: 0 <= i < j < |secs| ==> Rank(secs[i]) < Rank(secs[j])
  }

  /** Dropping sections keeps a section list in order, and keeps its first
      element when that one is present. */
  lemma {:induction false} KeepIncreasing(secs: seq<Section>, branch: bool, argsExtra: string, configExtra: string)
    decreases |secs|
    requires Increasing(secs)
    ensures var r := Keep(secs, branch, argsExtra, configExtra);
      Increasing(r) && (secs != [] && Present(secs[0], branch, argsExtra, configExtra) ==> r != [] && r[0] == secs[0])
  {
    if secs != [] {
      var init := secs[..|secs| - 1];
      var last := secs[|secs| - 1];
      var r0 := Keep(init, branch, argsExtra, configExtra);
      assert Increasing(init);
      KeepIncreasing(init, branch, argsExtra, configExtra);
      forall i | 0 <= i < |r0|
        ensures Rank(r0[i]) < Rank(last)
      {
        KeepMember(init, r0[i], branch, argsExtra, configExtra);
        var k :| 0 <= k < |init| && init[k] == r0[i];
      }
    }
  }

  /** Sections always come in the order task, branch task line, requirements,
      branch specification, output format, extra-information header,
      configuration's extra information, command line's extra information,
      context; so the configuration's extra information precedes the command
      line's, and the context is last. */
  lemma SectionsInOrder(branch: bool, argsExtra: string, configExtra: string)
    ensures var r := Sections(branch, argsExtra, configExtra);
      Increasing(r) && r != [] && r[0] == Task && r[|r| - 1] == Context
  {
    assert forall i :: 0 <= i < |ORDER| ==> Rank(ORDER[i]) == i;
    KeepIncreasing(ORDER, branch, argsExtra, configExtra);
  }

  /** The texts of the sections, joined left to right. */
  function Render(t: Template, secs: seq<Section>, status: string, diff: string, branch: bool, argsExtra: string, configExtra: string): string
    decreases |secs|
  {
    if secs == [] then ""
    else Render(t, secs[..|secs| - 1], status, diff, branch, argsExtra, configExtra)
         + SectionText(t, secs[|secs| - 1], status, diff, branch, argsExtra, configExtra)
  }

  /** The texts of the first `n` sections of `order` that are present. */
  function Prefix(t: Template, order: seq<Section>, n: nat, status: string, diff: string, branch: bool, argsExtra: string, configExtra: string): string
    requires n <= |order|
  {
    if n == 0 then ""
    else
      var sec := order[n - 1];
      var before := Prefix(t, order, n - 1, status, diff, branch, argsExtra, configExtra);
      if Present(sec, branch, argsExtra, configExtra)
      then before + SectionText(t, sec, status, diff, branch, argsExtra, configExtra) else before
  }

  /** Prefix renders what Keep keeps of the first `n` sections. */
  lemma {:induction false} PrefixRendersKept(t: Template, order: seq<Section>, n: nat, status: string, diff: string, branch: bool, argsExtra: string, configExtra: string)
    requires n <= |order|
    ensures Prefix(t, order, n, status, diff, branch, argsExtra, configExtra)
         == Render(t, Keep(order[..n], branch, argsExtra, configExtra), status, diff, branch, argsExtra, configExtra)
  {
    if n > 0 {
      PrefixRendersKept(t, order, n - 1, status, diff, branch, argsExtra, configExtra);
      var last := order[n - 1];
      assert order[..n] == order[..n - 1] + [last];
      KeepSnoc(order[..n - 1], last, branch, argsExtra, configExtra);
      RenderSnoc(t, Keep(order[..n - 1], branch, argsExtra, configExtra), last, status, diff, branch, argsExtra, configExtra);
    }
  }

  /** Keeping one more section adds it exactly when it is present. */
  lemma KeepSnoc(secs: seq<Section>, sec: Section, branch: bool, argsExtra: string, configExtra: string)
    ensures var init := Keep(secs, branch, argsExtra, configExtra);
      Keep(secs + [sec], branch, argsExtra, configExtra)
      == if Present(sec, branch, argsExtra, configExtra) then init + [sec] else init
  {
    assert (secs + [sec])[..|secs|] == secs;
  }

  /** Rendering one more section appends its text. */
  lemma RenderSnoc(t: Template, secs: seq<Section>, sec: Section, status: string, diff: string, branch: bool, argsExtra: string, configExtra: string)
    ensures Render(t, secs + [sec], status, diff, branch, argsExtra, configExtra)
         == Render(t, secs, status, diff, branch, argsExtra, configExtra) + SectionText(t, sec, status, diff, branch, argsExtra, configExtra)
  {
    assert (secs + [sec])[..|secs|] == secs;
  }

  /** The prompt is its sections' texts, in the order Sections gives. */
  lemma FillIsSections(t: Template, status: string, diff: string, branch: bool, argsExtra: string, configExtra: string)
    ensures Fill(t, status, diff, branch, argsExtra, configExtra)
         == Render(t, Sections(branch, argsExtra, configExtra), status, diff, branch, argsExtra, configExtra)
  {
    FillIsPrefix(t, ORDER, status, diff, branch, argsExtra, configExtra);
    PrefixRendersKept(t, ORDER, 9, status, diff, branch, argsExtra, configExtra);
    assert ORDER[..9] == ORDER;
  }

  /** `order` lists the sections in the order of ORDER. */
  predicate Canonical(order: seq<Section>) {
    && |order| == 9
    && order[0] == Task && order[1] == BranchTask && order[2] == Requirements
    && order[3] == BranchSpec && order[4] == OutputSpec && order[5] == ExtraHeader
    && order[6] == ConfigExtra && order[7] == ArgsExtra && order[8] == Context
  }

  /** Fill appends the present sections' texts one by one, in the order. */
  lemma FillIsPrefix(t: Template, order: seq<Section>, status: string, diff: string, branch: bool, argsExtra: string, configExtra: string)
    requires Canonical(order)
    ensures Fill(t, status, diff, branch, argsExtra, configExtra) == Prefix(t, order, |order|, status, diff, branch, argsExtra, configExtra)
  {
    FillLayout(t, status, diff, branch, argsExtra, configExtra);
    PrefixHead(t, order, status, diff, branch, argsExtra, configExtra);
    PrefixExtra(t, order, status, diff, branch, argsExtra, configExtra);
    PrefixStep(t, order, 8, Context, true, ContextBlock(t, status, diff), status, diff, branch, argsExtra, configExtra);
  }

  /** The first five sections of the order make the head and the output format line. */
  lemma PrefixHead(t: Template, order: seq<Section>, status: string, diff: string, branch: bool, argsExtra: string, configExtra: string)
    requires Canonical(order)
    ensures Prefix(t, order, 5, status, diff, branch, argsExtra, configExtra) == Head(t, branch) + OutputLine(t, branch)
  {
    if branch {
      PrefixBranchHead(t, order, status, diff, argsExtra, configExtra);
    } else {
      PrefixPlainHead(t, order, status, diff, argsExtra, configExtra);
    }
    PrefixStep(t, order, 4, OutputSpec, true, OutputLine(t, branch), status, diff, branch, argsExtra, configExtra);
  }

  /** With a branch name asked for, the first four sections are all present. */
  lemma PrefixBranchHead(t: Template, order: seq<Section>, status: string, diff: string, argsExtra: string, configExtra: string)
    requires Canonical(order)
    ensures Prefix(t, order, 4, status, diff, true, argsExtra, configExtra) == Head(t, true)
  {
    PrefixStep(t, order, 0, Task, true, t.taskIntro, status, diff, true, argsExtra, configExtra);
    EmptyLeft(t.taskIntro);
    PrefixStep(t, order, 1, BranchTask, true, t.branchTaskLine, status, diff, true, argsExtra, configExtra);
    PrefixStep(t, order, 2, Requirements, true, t.requirements, status, diff, true, argsExtra, configExtra);
    PrefixStep(t, order, 3, BranchSpec, true, t.branchSpec, status, diff, true, argsExtra, configExtra);
  }

  /** Without a branch name, the first four sections are the task and the requirements. */
  lemma PrefixPlainHead(t: Template, order: seq<Section>, status: string, diff: string, argsExtra: string, configExtra: string)
    requires Canonical(order)
    ensures Prefix(t, order, 4, status, diff, false, argsExtra, configExtra) == Head(t, false)
  {
    PrefixStep(t, order, 0, Task, true, t.taskIntro, status, diff, false, argsExtra, configExtra);
    EmptyLeft(t.taskIntro);
    PrefixStep(t, order, 1, BranchTask, false, t.branchTaskLine, status, diff, false, argsExtra, configExtra);
    PrefixStep(t, order, 2, Requirements, true, t.requirements, status, diff, false, argsExtra, configExtra);
    PrefixStep(t, order, 3, BranchSpec, false, t.branchSpec, status, diff, false, argsExtra, configExtra);
  }

  /** The next three sections of the order make the extra-information block. */
  lemma PrefixExtra(t: Template, order: seq<Section>, status: string, diff: string, branch: bool, argsExtra: string, configExtra: string)
    requires Canonical(order)
    ensures Prefix(t, order, 8, status, diff, branch, argsExtra, configExtra)
         == Prefix(t, order, 5, status, diff, branch, argsExtra, configExtra) + ExtraBlock(t, argsExtra, configExtra)
  {
    var p5 := Prefix(t, order, 5, status, diff, branch, argsExtra, configExtra);
    var h, c, a := t.extraHeader, Line(configExtra), Line(argsExtra);
    if HasExtra(argsExtra, configExtra) {
      PrefixStep(t, order, 5, ExtraHeader, true, h, status, diff, branch, argsExtra, configExtra);
      if configExtra != "" {
        PrefixStep(t, order, 6, ConfigExtra, true, c, status, diff, branch, argsExtra, configExtra);
      } else {
        PrefixStep(t, order, 6, ConfigExtra, false, configExtra + "\n", status, diff, branch, argsExtra, configExtra);
        EmptyRight(p5 + h);
      }
      if argsExtra != "" {
        PrefixStep(t, order, 7, ArgsExtra, true, a, status, diff, branch, argsExtra, configExtra);
      } else {
        PrefixStep(t, order, 7, ArgsExtra, false, argsExtra + "\n", status, diff, branch, argsExtra, configExtra);
        EmptyRight(p5 + h + c);
      }
      AppendAssoc(p5 + h, c, a);
      AppendAssoc(p5, h, c + a);
      AppendAssoc(h, c, a);
    } else {
      PrefixStep(t, order, 5, ExtraHeader, false, h, status, diff, branch, argsExtra, configExtra);
      PrefixStep(t, order, 6, ConfigExtra, false, configExtra + "\n", status, diff, branch, argsExtra, configExtra);
      PrefixStep(t, order, 7, ArgsExtra, false, argsExtra + "\n", status, diff, branch, argsExtra, configExtra);
      EmptyRight(p5);
    }
  }

  /** One more section of the order: its text is added when it is present. */
  lemma PrefixStep(t: Template, order: seq<Section>, n: nat, sec: Section, present: bool, text: string,
                   status: string, diff: string, branch: bool, argsExtra: string, configExtra: string)
    requires n < |order| && order[n] == sec
    requires Present(sec, branch, argsExtra, configExtra) == present
    requires SectionText(t, sec, status, diff, branch, argsExtra, configExtra) == text
    ensures var before := Prefix(t, order, n, status, diff, branch, argsExtra, configExtra);
      Prefix(t, order, n + 1, status, diff, branch, argsExtra, configExtra) == if present then before + text else before
  {
  }

  /** The tool's prompt is its sections' texts. */
  lemma BuildPromptIsSections(status: string, diff: string, branch: bool, argsExtra: string, configExtra: string)
    ensures BuildPrompt(status, diff, branch, argsExtra, configExtra)
         == Render(PROMPT_TEMPLATE, Sections(branch, argsExtra, configExtra), status, diff, branch, argsExtra, configExtra)
  {
    FillIsSections(PROMPT_TEMPLATE, status, diff, branch, argsExtra, configExtra);
  }

  // ---------------------------------------------------------------------------
  // The prompt read as text.

  /** The instructions and the answer format line, then `x` and a newline. */
  function OutputLine(t: Template, branch: bool): string {
    t.outputIntro + OutputFormat(branch) + "\n"
  }

  /** Everything before the output format: the task, the requirements and,
      when a branch name is asked for, the lines about branch names. */
  function Head(t: Template, branch: bool): string {
    if branch then t.taskIntro + t.branchTaskLine + t.requirements + t.branchSpec
    else t.taskIntro + t.requirements
  }

  /** A line holding `x`, or nothing when `x` is empty. */
  function Line(x: string): string {
    if x == "" then "" else x + "\n"
  }

  /** The extra-information block: nothing, or its header followed by the
      configuration's text and then the command line's. */
  function ExtraBlock(t: Template, argsExtra: string, configExtra: string): string {
    if HasExtra(argsExtra, configExtra) then t.extraHeader + Line(configExtra) + Line(argsExtra) else ""
  }

  /** The prompt is its head, the output format line, the extra block and the context, in that order. */
  lemma FillLayout(t: Template, status: string, diff: string, branch: bool, argsExtra: string, configExtra: string)
    ensures Fill(t, status, diff, branch, argsExtra, configExtra)
         == Head(t, branch) + OutputLine(t, branch) + ExtraBlock(t, argsExtra, configExtra) + ContextBlock(t, status, diff)
  {
    var p2 := if branch then t.taskIntro + t.branchTaskLine else t.taskIntro;
    var p3 := p2 + t.requirements;
    var p4 := if branch then p3 + t.branchSpec else p3;
    if branch {
      assert p4 == Head(t, branch);
    } else {
      assert p4 == Head(t, branch);
    }
    ExtraSteps(p4 + (t.outputIntro + OutputFormat(branch) + "\n"), t, argsExtra, configExtra);
  }

  /** The three optional extra-information lines, appended one by one, add the extra block. */
  lemma ExtraSteps(p5: string, t: Template, argsExtra: string, configExtra: string)
    ensures var extra := HasExtra(argsExtra, configExtra);
      var p6 := if extra then p5 + t.extraHeader else p5;
      var p7 := if extra && configExtra != "" then p6 + (configExtra + "\n") else p6;
      var p8 := if extra && argsExtra != "" then p7 + (argsExtra + "\n") else p7;
      p8 == p5 + ExtraBlock(t, argsExtra, configExtra)
  {
    var h, c, a := t.extraHeader, Line(configExtra), Line(argsExtra);
    if HasExtra(argsExtra, configExtra) {
      if configExtra == "" {
        assert c == "";
        EmptyRight(p5 + h);
        EmptyRight(h);
      }
      if argsExtra == "" {
        assert a == "";
        EmptyRight(p5 + h + c);
        EmptyRight(h + c);
      }
      AppendAssoc(p5 + h, c, a);
      AppendAssoc(p5, h, c + a);
      AppendAssoc(h, c, a);
    } else {
      EmptyRight(p5);
    }
  }

  /** `a` and `b` both have an `i`-th character, and they differ there. */
  predicate DifferAt(a: string, b: string, i: nat) {
    i < |a| && i < |b| && a[i] != b[i]
  }

  /** The texts that can follow one another at the same place in a prompt differ
      in a character near their start, so the prompt text shows which came. */
  predicate Distinguishable(t: Template) {
    && DifferAt(t.branchTaskLine, t.requirements, 0)
    && DifferAt(t.branchSpec, t.outputIntro, 1)
    && DifferAt(t.extraHeader, t.contextHeader, 2)
  }

  lemma TemplateDistinguishable()
    ensures Distinguishable(PROMPT_TEMPLATE)
  {
  }

  /** A text that starts with `b` at `at` does not start with `a` there when the two differ. */
  lemma NotBoth(s: string, at: nat, a: string, b: string, i: nat)
    requires at <= |s| && StartsWith(s[at..], b) && DifferAt(a, b, i)
    ensures !StartsWith(s[at..], a)
  {
    assert s[at..][i] == b[i];
  }

  /** FillLayout, grouped from the right. */
  lemma FillRight(t: Template, status: string, diff: string, branch: bool, argsExtra: string, configExtra: string)
    ensures Fill(t, status, diff, branch, argsExtra, configExtra)
         == Head(t, branch) + (OutputLine(t, branch) + (ExtraBlock(t, argsExtra, configExtra) + ContextBlock(t, status, diff)))
  {
    FillLayout(t, status, diff, branch, argsExtra, configExtra);
    var h, o, e, c := Head(t, branch), OutputLine(t, branch), ExtraBlock(t, argsExtra, configExtra), ContextBlock(t, status, diff);
    AppendAssoc(h + o, e, c);
    AppendAssoc(h, o, e + c);
  }

  /** The branch task line follows the task introduction exactly when a branch name is asked for. */
  lemma FillBranchTaskLine(t: Template, status: string, diff: string, branch: bool, argsExtra: string, configExtra: string)
    requires DifferAt(t.branchTaskLine, t.requirements, 0)
    ensures var p := Fill(t, status, diff, branch, argsExtra, configExtra);
      StartsWith(p, t.taskIntro) && (StartsWith(p[|t.taskIntro|..], t.branchTaskLine) <==> branch)
  {
    FillRight(t, status, diff, branch, argsExtra, configExtra);
    var p := Fill(t, status, diff, branch, argsExtra, configExtra);
    var rest := OutputLine(t, branch) + (ExtraBlock(t, argsExtra, configExtra) + ContextBlock(t, status, diff));
    if branch {
      var reqs := t.requirements + t.branchSpec;
      AppendAssoc(t.taskIntro + t.branchTaskLine, t.requirements, t.branchSpec);
      AppendAssoc(t.taskIntro, t.branchTaskLine, reqs);
      AppendAssoc(t.taskIntro, t.branchTaskLine + reqs, rest);
      AppendAssoc(t.branchTaskLine, reqs, rest);
      StartsThen(p, t.taskIntro, t.branchTaskLine, reqs + rest);
    } else {
      AppendAssoc(t.taskIntro, t.requirements, rest);
      StartsThen(p, t.taskIntro, t.requirements, rest);
      NotBoth(p, |t.taskIntro|, t.branchTaskLine, t.requirements, 0);
    }
  }

  /** The output format line comes right after the head. */
  lemma FillOutputLine(t: Template, status: string, diff: string, branch: bool, argsExtra: string, configExtra: string)
    ensures var p := Fill(t, status, diff, branch, argsExtra, configExtra);
      var head := Head(t, branch);
      StartsWith(p, head) && StartsWith(p[|head|..], t.outputIntro + OutputFormat(branch) + "\n")
  {
    FillRight(t, status, diff, branch, argsExtra, configExtra);
    var p := Fill(t, status, diff, branch, argsExtra, configExtra);
    StartsThen(p, Head(t, branch), OutputLine(t, branch), ExtraBlock(t, argsExtra, configExtra) + ContextBlock(t, status, diff));
  }

  /** After the requirements, the branch-name specification follows exactly when
      a branch name is asked for (otherwise the output instructions do). */
  lemma FillBranchSpec(t: Template, status: string, diff: string, branch: bool, argsExtra: string, configExtra: string)
    requires DifferAt(t.branchSpec, t.outputIntro, 1)
    ensures var p := Fill(t, status, diff, branch, argsExtra, configExtra);
      var before := if branch then t.taskIntro + t.branchTaskLine + t.requirements else t.taskIntro + t.requirements;
      StartsWith(p, before) && (StartsWith(p[|before|..], t.branchSpec) <==> branch)
  {
    FillRight(t, status, diff, branch, argsExtra, configExtra);
    var p := Fill(t, status, diff, branch, argsExtra, configExtra);
    var after := ExtraBlock(t, argsExtra, configExtra) + ContextBlock(t, status, diff);
    var rest := OutputLine(t, branch) + after;
    if branch {
      var before := t.taskIntro + t.branchTaskLine + t.requirements;
      AppendAssoc(before, t.branchSpec, rest);
      StartsThen(p, before, t.branchSpec, rest);
    } else {
      var before := t.taskIntro + t.requirements;
      var format := OutputFormat(branch) + "\n";
      AppendAssoc(t.outputIntro, OutputFormat(branch), "\n");
      AppendAssoc(t.outputIntro, format, after);
      StartsThen(p, before, t.outputIntro, format + after);
      NotBoth(p, |before|, t.branchSpec, t.outputIntro, 1);
    }
  }

  /** Right after the output format line, the extra-information header follows
      exactly when either extra text is non-empty (otherwise the context does). */
  lemma FillExtraHeader(t: Template, status: string, diff: string, branch: bool, argsExtra: string, configExtra: string)
    requires DifferAt(t.extraHeader, t.contextHeader, 2)
    ensures var p := Fill(t, status, diff, branch, argsExtra, configExtra);
      var before := Head(t, branch) + OutputLine(t, branch);
      StartsWith(p, before) && (StartsWith(p[|before|..], t.extraHeader) <==> HasExtra(argsExtra, configExtra))
  {
    FillLayout(t, status, diff, branch, argsExtra, configExtra);
    var p := Fill(t, status, diff, branch, argsExtra, configExtra);
    var before := Head(t, branch) + OutputLine(t, branch);
    var e := ExtraBlock(t, argsExtra, configExtra);
    var c := ContextBlock(t, status, diff);
    AppendAssoc(before, e, c);
    if HasExtra(argsExtra, configExtra) {
      var lines := Line(configExtra) + Line(argsExtra);
      AppendAssoc(t.extraHeader, Line(configExtra), Line(argsExtra));
      AppendAssoc(t.extraHeader, lines, c);
      StartsThen(p, before, t.extraHeader, lines + c);
    } else {
      assert e + c == c;
      var tail := status + t.diffHeader + diff + "\n";
      assert c == t.contextHeader + tail;
      StartsThen(p, before, t.contextHeader, tail);
      NotBoth(p, |before|, t.extraHeader, t.contextHeader, 2);
    }
  }

  /** The prompt ends with the context block, status and then diff verbatim, and
      nothing before that block depends on the status or the diff. */
  lemma FillContextLast(t: Template, status: string, diff: string, branch: bool, argsExtra: string, configExtra: string)
    ensures var p := Fill(t, status, diff, branch, argsExtra, configExtra);
      var q := Fill(t, "", "", branch, argsExtra, configExtra);
      var c := ContextBlock(t, status, diff);
      && EndsWith(p, c)
      && |ContextBlock(t, "", "")| <= |q|
      && p[..|p| - |c|] == q[..|q| - |ContextBlock(t, "", "")|]
  {
    FillLayout(t, status, diff, branch, argsExtra, configExtra);
    FillLayout(t, "", "", branch, argsExtra, configExtra);
    var pre := Head(t, branch) + OutputLine(t, branch) + ExtraBlock(t, argsExtra, configExtra);
    var p := Fill(t, status, diff, branch, argsExtra, configExtra);
    var q := Fill(t, "", "", branch, argsExtra, configExtra);
    assert p[..|pre|] == pre;
    assert q[..|pre|] == pre;
  }

  // ---------------------------------------------------------------------------
  // The same facts, read for the tool's own texts.

  /** The branch task line follows "# Task" and its two lines exactly when `--branch` is given. */
  lemma PromptBranchTaskLine(status: string, diff: string, branch: bool, argsExtra: string, configExtra: string)
    ensures var p := BuildPrompt(status, diff, branch, argsExtra, configExtra);
      StartsWith(p, TASK_INTRO) && (StartsWith(p[|TASK_INTRO|..], BRANCH_TASK_LINE) <==> branch)
  {
    TemplateDistinguishable();
    FillBranchTaskLine(PROMPT_TEMPLATE, status, diff, branch, argsExtra, configExtra);
  }

  /** "## Branch Name Specification" follows the commit-message requirements exactly when `--branch` is given. */
  lemma PromptBranchSpec(status: string, diff: string, branch: bool, argsExtra: string, configExtra: string)
    ensures var p := BuildPrompt(status, diff, branch, argsExtra, configExtra);
      var before := if branch then TASK_INTRO + BRANCH_TASK_LINE + REQUIREMENTS else TASK_INTRO + REQUIREMENTS;
      StartsWith(p, before) && (StartsWith(p[|before|..], BRANCH_SPEC) <==> branch)
  {
    TemplateDistinguishable();
    FillBranchSpec(PROMPT_TEMPLATE, status, diff, branch, argsExtra, configExtra);
  }

  /** After the head of the prompt comes the output format line, whose JSON shape
      names `branch_name` exactly when `--branch` is given. */
  lemma PromptOutputFormat(status: string, diff: string, branch: bool, argsExtra: string, configExtra: string)
    ensures var p := BuildPrompt(status, diff, branch, argsExtra, configExtra);
      var head := Head(PROMPT_TEMPLATE, branch);
      StartsWith(p, head) && StartsWith(p[|head|..], OUTPUT_INTRO + OutputFormat(branch) + "\n")
  {
    FillOutputLine(PROMPT_TEMPLATE, status, diff, branch, argsExtra, configExtra);
  }

  /** "# Extra Information" follows the output format line exactly when the
      command line or the configuration gives a non-empty extra text. */
  lemma PromptExtraHeader(status: string, diff: string, branch: bool, argsExtra: string, configExtra: string)
    ensures var p := BuildPrompt(status, diff, branch, argsExtra, configExtra);
      var before := Head(PROMPT_TEMPLATE, branch) + OutputLine(PROMPT_TEMPLATE, branch);
      StartsWith(p, before) && (StartsWith(p[|before|..], EXTRA_HEADER) <==> HasExtra(argsExtra, configExtra))
  {
    TemplateDistinguishable();
    FillExtraHeader(PROMPT_TEMPLATE, status, diff, branch, argsExtra, configExtra);
  }

  /** The prompt ends with "# Context", the status, "## Git diff:" and the diff,
      and what comes before depends only on the flag and the extra texts. */
  lemma PromptContextLast(status: string, diff: string, branch: bool, argsExtra: string, configExtra: string)
    ensures var p := BuildPrompt(status, diff, branch, argsExtra, configExtra);
      var q := BuildPrompt("", "", branch, argsExtra, configExtra);
      var c := CONTEXT_HEADER + status + DIFF_HEADER + diff + "\n";
      && EndsWith(p, c)
      && |CONTEXT_HEADER + DIFF_HEADER + "\n"| <= |q|
      && p[..|p| - |c|] == q[..|q| - |CONTEXT_HEADER + DIFF_HEADER + "\n"|]
  {
    FillContextLast(PROMPT_TEMPLATE, status, diff, branch, argsExtra, configExtra);
  }
}
