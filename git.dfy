/** The tool's use of `git`: the status and staged-diff queries, and the
    commit / checkout / push sequence that applies a generated message. */
module Git {
  import opened Json

  datatype Option<T> = None | Some(value: T)

  /** The argument vector of one `git` invocation. */
  type Argv = seq<string>

  /** What `subprocess.run(argv, capture_output=True, text=True, check=True)`
      gives: the exit status and the decoded standard output, or the failure to
      decode standard output or standard error, which `communicate()` raises
      before the exit status is checked. */
  datatype Captured = Exited(ok: bool, text: string) | Undecodable

  /** The `git` executable as the tool sees it through `subprocess.run`: every
      invocation is recorded in `log`. Whether it exits with status 0, what it
      prints, and whether what it prints on both streams decodes as text in the
      locale's encoding depend only on the invocations made before it. */
  class GitProcess {
    var log: seq<Argv>
    const succeeds: (seq<Argv>, Argv) -> bool
    const output: (seq<Argv>, Argv) -> string
    const decodes: (seq<Argv>, Argv) -> bool

    constructor (succeeds: (seq<Argv>, Argv) -> bool, output: (seq<Argv>, Argv) -> string, decodes: (seq<Argv>, Argv) -> bool)
      ensures log == [] && this.succeeds == succeeds && this.output == output && this.decodes == decodes
    {
      log := [];
      this.succeeds := succeeds;
      this.output := output;
      this.decodes := decodes;
    }

    /** `subprocess.run(argv, check=True)`, its output going to the terminal:
        `ok` is false where Python raises `CalledProcessError`. */
    method Run(argv: Argv) returns (ok: bool)
      modifies this
      ensures log == old(log) + [argv]
      ensures ok == succeeds(old(log), argv)
    {
      ok := succeeds(log, argv);
      log := log + [argv];
    }

    /** `subprocess.run(argv, capture_output=True, text=True, check=True)`:
        output that does not decode raises `UnicodeDecodeError` whatever the
        exit status; otherwise `ok` is false where Python raises
        `CalledProcessError`. */
    method Capture(argv: Argv) returns (c: Captured)
      modifies this
      ensures log == old(log) + [argv]
      ensures !decodes(old(log), argv) ==> c == Undecodable
      ensures decodes(old(log), argv) ==> c == Exited(succeeds(old(log), argv), output(old(log), argv))
    {
      c := if decodes(log, argv) then Exited(succeeds(log, argv), output(log, argv)) else Undecodable;
      log := log + [argv];
    }
  }

  /** Whether some argument holds a NUL character. `subprocess.run` refuses such
      a command with `ValueError` ("embedded null byte") before starting `git`. */
  predicate HoldsNul(argv: Argv) {
    exists i :: 0 <= i < |argv| && '\0' in argv[i]
  }

  const STATUS_ARGV: Argv := ["git", "status", "--porcelain", "--untracked-files=all"]
  const DIFF_BASE: Argv := ["git", "diff", "--staged"]

  /** What `get_git_status` gives back: the status text, `None` when `git
      status` fails, or an exception that escapes it. */
  datatype StatusOutcome = Status(text: string) | NoStatus | StatusRaised(error: PyError)

  /** `get_git_status`: the porcelain status, or `None` when `git status` fails.
      Output that does not decode raises `UnicodeDecodeError`, which is not caught. */
  method GetGitStatus(git: GitProcess) returns (status: StatusOutcome)
    modifies git
    ensures git.log == old(git.log) + [STATUS_ARGV]
    ensures status.StatusRaised? <==> !git.decodes(old(git.log), STATUS_ARGV)
    ensures status.StatusRaised? ==> status.error == UnicodeDecodeError
    ensures status.Status? <==> git.decodes(old(git.log), STATUS_ARGV) && git.succeeds(old(git.log), STATUS_ARGV)
    ensures status.Status? ==> status.text == git.output(old(git.log), STATUS_ARGV)
  {
    var c := git.Capture(STATUS_ARGV);
    if c.Undecodable? {
      status := StatusRaised(UnicodeDecodeError);
    } else if c.ok {
      status := Status(c.text);
    } else {
      status := NoStatus;
    }
  }

  /** The `git diff --staged` command with every ignored pattern excluded: the
      base command, then for each pattern, in the configured order and without
      removing repeats, a "--" and an ":(exclude)" path specification. */
  function DiffArgv(ignoreFiles: seq<string>): (r: Argv)
    ensures |r| == |DIFF_BASE| + 2 * |ignoreFiles|
    ensures r[..|DIFF_BASE|] == DIFF_BASE
    ensures forall i :: 0 <= i < |ignoreFiles| ==>
      r[|DIFF_BASE| + 2 * i] == "--" && r[|DIFF_BASE| + 2 * i + 1] == ":(exclude)" + ignoreFiles[i]
  {
    if ignoreFiles == [] then DIFF_BASE
    else
      var front := ignoreFiles[..|ignoreFiles| - 1];
      var r := DiffArgv(front) + ["--", ":(exclude)" + ignoreFiles[|ignoreFiles| - 1]];
      assert forall i :: 0 <= i < |front| ==> ignoreFiles[i] == front[i];
      r
  }

  /** The command `get_git_diff` builds, extending it pattern by pattern. */
  method DiffCommand(ignoreFiles: seq<string>) returns (command: Argv)
    ensures command == DiffArgv(ignoreFiles)
  {
    command := DIFF_BASE;
    for i := 0 to |ignoreFiles|
      invariant command == DiffArgv(ignoreFiles[..i])
    {
      assert ignoreFiles[..i + 1][..i] == ignoreFiles[..i];
      command := command + ["--", ":(exclude)" + ignoreFiles[i]];
    }
    assert ignoreFiles[..|ignoreFiles|] == ignoreFiles;
  }

  /** The diff command holds a NUL character exactly when an ignored pattern does. */
  lemma DiffArgvNul(ignoreFiles: seq<string>)
    ensures HoldsNul(DiffArgv(ignoreFiles)) <==> HoldsNul(ignoreFiles)
  {
    var r := DiffArgv(ignoreFiles);
    if HoldsNul(ignoreFiles) {
      var i :| 0 <= i < |ignoreFiles| && '\0' in ignoreFiles[i];
      assert r[|DIFF_BASE| + 2 * i + 1] == ":(exclude)" + ignoreFiles[i];
    }
    if HoldsNul(r) {
      var j :| 0 <= j < |r| && '\0' in r[j];
      // The fixed words and the "--" separators hold no NUL character.
      var i := (j - |DIFF_BASE|) / 2;
      assert r[j] == ":(exclude)" + ignoreFiles[i];
      assert '\0' in ignoreFiles[i];
    }
  }

  /** What `get_git_diff` gives back: the diff text, or an exception that escapes it. */
  datatype DiffOutcome = Staged(text: string) | DiffRaised(error: PyError)

  /** `get_git_diff`: the staged diff, or "" when `git diff` fails. Neither of
      the two exceptions it can meet is caught: a pattern holding a NUL
      character makes `subprocess.run` raise `ValueError` before `git` runs,
      and output that does not decode raises `UnicodeDecodeError`. */
  method GetGitDiff(git: GitProcess, ignoreFiles: seq<string>) returns (diff: DiffOutcome)
    modifies git
    ensures HoldsNul(ignoreFiles) ==> git.log == old(git.log) && diff == DiffRaised(ValueError)
    ensures !HoldsNul(ignoreFiles) ==> git.log == old(git.log) + [DiffArgv(ignoreFiles)]
    ensures !HoldsNul(ignoreFiles) && !git.decodes(old(git.log), DiffArgv(ignoreFiles)) ==>
      diff == DiffRaised(UnicodeDecodeError)
    ensures !HoldsNul(ignoreFiles) && git.decodes(old(git.log), DiffArgv(ignoreFiles)) ==>
      diff == Staged(if git.succeeds(old(git.log), DiffArgv(ignoreFiles)) then git.output(old(git.log), DiffArgv(ignoreFiles)) else "")
  {
    var command := DiffCommand(ignoreFiles);
    DiffArgvNul(ignoreFiles);
    if HoldsNul(command) {
      return DiffRaised(ValueError);
    }
    var c := git.Capture(command);
    if c.Undecodable? {
      return DiffRaised(UnicodeDecodeError);
    }
    diff := Staged(if c.ok then c.text else "");
  }

  /** How many times `x` occurs in `xs`. */
  function Occurrences(xs: seq<string>, x: string): nat
    decreases |xs|
  {
    if xs == [] then 0 else Occurrences(xs[..|xs| - 1], x) + (if xs[|xs| - 1] == x then 1 else 0)
  }

  lemma {:induction false} OccurrencesAppend(xs: seq<string>, ys: seq<string>, x: string)
    ensures Occurrences(xs + ys, x) == Occurrences(xs, x) + Occurrences(ys, x)
    decreases |ys|
  {
    if ys == [] {
      assert xs + ys == xs;
    } else {
      assert (xs + ys)[..|xs + ys| - 1] == xs + ys[..|ys| - 1];
      OccurrencesAppend(xs, ys[..|ys| - 1], x);
    }
  }

  /** The diff command holds one "--" per ignored pattern: the separator is
      repeated, not written once before all the patterns. */
  lemma {:induction false} DiffArgvSeparators(ignoreFiles: seq<string>)
    ensures Occurrences(DiffArgv(ignoreFiles), "--") == |ignoreFiles|
    decreases |ignoreFiles|
  {
    if ignoreFiles == [] {
      assert DIFF_BASE[..2] == ["git", "diff"] && ["git", "diff"][..1] == ["git"] && ["git"][..0] == [];
      assert Occurrences(["git"], "--") == 0;
      assert Occurrences(["git", "diff"], "--") == 0;
    } else {
      var front := ignoreFiles[..|ignoreFiles| - 1];
      var spec := ":(exclude)" + ignoreFiles[|ignoreFiles| - 1];
      assert spec[..2] == ":(";
      assert spec != "--";
      DiffArgvSeparators(front);
      OccurrencesAppend(DiffArgv(front), ["--", spec], "--");
      assert ["--", spec][..1] == ["--"] && ["--"][..0] == [];
      assert Occurrences(["--"], "--") == 1;
    }
  }

  // ---------------------------------------------------------------------------
  // `execute_git_commands`.

  function CommitArgv(message: string): Argv { ["git", "commit", "-m", message] }
  function CheckoutArgv(name: string): Argv { ["git", "checkout", "-b", name] }
  function PushArgv(target: string): Argv { ["git", "push", "-u", "origin", target] }

  /** The fixed words of the three commands hold no NUL character, so a command
      holds one exactly when its last argument does. */
  lemma CommandNul(arg: string)
    ensures HoldsNul(CommitArgv(arg)) <==> '\0' in arg
    ensures HoldsNul(CheckoutArgv(arg)) <==> '\0' in arg
    ensures HoldsNul(PushArgv(arg)) <==> '\0' in arg
  {
    assert CommitArgv(arg)[3] == arg && CheckoutArgv(arg)[3] == arg && PushArgv(arg)[4] == arg;
  }

  /** One step of the sequence: a command to run, or an argument on which
      `subprocess.run` raises before running anything. */
  datatype Step = Issue(argv: Argv) | BadArgument(error: PyError)

  /** The step for a command whose last argument comes from the answer: an
      argument that is not a string raises `TypeError`, a command holding a NUL
      character raises `ValueError`. */
  function StepWith(arg: JsonValue, argv: string -> Argv): Step {
    if !arg.JString? then BadArgument(TypeError)
    else if HoldsNul(argv(arg.s)) then BadArgument(ValueError)
    else Issue(argv(arg.s))
  }

  /** The push target: the branch name when it is truthy, otherwise "main". */
  function PushTarget(branchName: JsonValue): JsonValue {
    if Truthy(branchName) then branchName else JString("main")
  }

  /** The steps `execute_git_commands` attempts, in order: commit; create and
      switch to the branch when the branch name is truthy; push when asked. */
  function Plan(commitMessage: JsonValue, branchName: JsonValue, push: bool): (r: seq<Step>)
    ensures |r| == 1 + (if Truthy(branchName) then 1 else 0) + (if push then 1 else 0)
    ensures r[0] == StepWith(commitMessage, CommitArgv)
    ensures Truthy(branchName) ==> r[1] == StepWith(branchName, CheckoutArgv)
    ensures push ==> r[|r| - 1] == StepWith(PushTarget(branchName), PushArgv)
  {
    [StepWith(commitMessage, CommitArgv)]
    + (if Truthy(branchName) then [StepWith(branchName, CheckoutArgv)] else [])
    + (if push then [StepWith(PushTarget(branchName), PushArgv)] else [])
  }

  /** How `execute_git_commands` ends: it returns True or False, or raises. */
  datatype ExecResult = Finished(ok: bool) | Crashed(error: PyError)

  datatype Outcome = Outcome(issued: seq<Argv>, result: ExecResult)

  /** Every command in `cmds` succeeds, run after `history` and the commands before it. */
  predicate AllSucceed(succeeds: (seq<Argv>, Argv) -> bool, history: seq<Argv>, cmds: seq<Argv>)
    decreases |cmds|
  {
    cmds == [] || (succeeds(history, cmds[0]) && AllSucceed(succeeds, history + [cmds[0]], cmds[1..]))
  }

  /** Running the steps one by one, stopping at the first failure or bad argument. */
  function Execute(succeeds: (seq<Argv>, Argv) -> bool, history: seq<Argv>, steps: seq<Step>): (o: Outcome)
    decreases |steps|
    // The commands issued are the first steps of the plan, in order.
    ensures |o.issued| <= |steps|
    ensures forall i :: 0 <= i < |o.issued| ==> steps[i] == Issue(o.issued[i])
  {
    if steps == [] then Outcome([], Finished(true))
    else match steps[0]
      case BadArgument(error) => Outcome([], Crashed(error))
      case Issue(argv) =>
        if !succeeds(history, argv) then Outcome([argv], Finished(false))
        else
          var rest := Execute(succeeds, history + [argv], steps[1..]);
          Outcome([argv] + rest.issued, rest.result)
  }

  /** The run returns True exactly when every step ran and every command succeeded. */
  lemma {:induction false} ExecuteTrueIff(succeeds: (seq<Argv>, Argv) -> bool, history: seq<Argv>, steps: seq<Step>)
    decreases |steps|
    ensures var o := Execute(succeeds, history, steps);
      o.result == Finished(true) <==> |o.issued| == |steps| && AllSucceed(succeeds, history, o.issued)
  {
    if steps != [] && steps[0].Issue? && succeeds(history, steps[0].argv) {
      var argv := steps[0].argv;
      ExecuteTrueIff(succeeds, history + [argv], steps[1..]);
      var o := Execute(succeeds, history, steps);
      assert o.issued[1..] == Execute(succeeds, history + [argv], steps[1..]).issued;
    }
  }

  /** When the run returns False, the last command issued failed, every command
      before it succeeded, and nothing ran after it. */
  lemma {:induction false} ExecuteFalseAtFailure(succeeds: (seq<Argv>, Argv) -> bool, history: seq<Argv>, steps: seq<Step>)
    decreases |steps|
    ensures var o := Execute(succeeds, history, steps);
      o.result == Finished(false) ==>
        && o.issued != []
        && AllSucceed(succeeds, history, o.issued[..|o.issued| - 1])
        && !succeeds(history + o.issued[..|o.issued| - 1], o.issued[|o.issued| - 1])
  {
    if steps != [] && steps[0].Issue? {
      var argv := steps[0].argv;
      if !succeeds(history, argv) {
        assert history + [argv][..0] == history;
      } else {
        ExecuteFalseAtFailure(succeeds, history + [argv], steps[1..]);
        var rest := Execute(succeeds, history + [argv], steps[1..]);
        if rest.result == Finished(false) {
          var front := rest.issued[..|rest.issued| - 1];
          ConsFront(history, argv, rest.issued);
          assert ([argv] + front)[1..] == front;
        }
      }
    }
  }

  /** Dropping the last command of `[argv] + xs` drops the last one of `xs`. */
  lemma ConsFront(history: seq<Argv>, argv: Argv, xs: seq<Argv>)
    requires xs != []
    ensures var ys := [argv] + xs;
      && ys[..|ys| - 1] == [argv] + xs[..|xs| - 1]
      && history + ys[..|ys| - 1] == history + [argv] + xs[..|xs| - 1]
  {
    var ys := [argv] + xs;
    assert ys[..|ys| - 1] == [argv] + xs[..|xs| - 1];
  }

  /** A bad argument stops the run where it occurs, after successful commands
      only, with the exception that argument raises. */
  lemma {:induction false} ExecuteCrashAtBadArgument(succeeds: (seq<Argv>, Argv) -> bool, history: seq<Argv>, steps: seq<Step>)
    decreases |steps|
    ensures var o := Execute(succeeds, history, steps);
      o.result.Crashed? ==>
        && |o.issued| < |steps| && steps[|o.issued|] == BadArgument(o.result.error)
        && AllSucceed(succeeds, history, o.issued)
  {
    if steps != [] && steps[0].Issue? && succeeds(history, steps[0].argv) {
      var argv := steps[0].argv;
      ExecuteCrashAtBadArgument(succeeds, history + [argv], steps[1..]);
      var o := Execute(succeeds, history, steps);
      assert o.issued[1..] == Execute(succeeds, history + [argv], steps[1..]).issued;
    }
  }

  /** The run `o` of the remaining steps, after the commands `done` were issued. */
  function After(done: seq<Argv>, o: Outcome): Outcome {
    Outcome(done + o.issued, o.result)
  }

  /** Before any command is issued, the whole run is still ahead. */
  lemma StartRun(succeeds: (seq<Argv>, Argv) -> bool, history: seq<Argv>, steps: seq<Step>)
    ensures history + [] == history
    ensures After([], Execute(succeeds, history + [], steps)) == Execute(succeeds, history, steps)
  {
    assert history + [] == history;
    assert [] + Execute(succeeds, history, steps).issued == Execute(succeeds, history, steps).issued;
  }

  /** A first step that runs and succeeds moves from the steps ahead to the commands done. */
  lemma Advance(succeeds: (seq<Argv>, Argv) -> bool, history: seq<Argv>, done: seq<Argv>, steps: seq<Step>)
    requires steps != [] && steps[0].Issue? && succeeds(history + done, steps[0].argv)
    ensures var argv := steps[0].argv;
      && history + done + [argv] == history + (done + [argv])
      && After(done, Execute(succeeds, history + done, steps))
         == After(done + [argv], Execute(succeeds, history + (done + [argv]), steps[1..]))
  {
    var argv := steps[0].argv;
    var tail := Execute(succeeds, history + done + [argv], steps[1..]);
    assert Execute(succeeds, history + done, steps) == Outcome([argv] + tail.issued, tail.result);
    CommandsAssoc(history, done, [argv]);
    CommandsAssoc(done, [argv], tail.issued);
  }

  /** Concatenating command lists is associative. */
  lemma CommandsAssoc(a: seq<Argv>, b: seq<Argv>, c: seq<Argv>)
    ensures a + b + c == a + (b + c)
  {
  }

  /** A first step that fails ends the run with False after it. */
  lemma StopAtFailure(succeeds: (seq<Argv>, Argv) -> bool, history: seq<Argv>, done: seq<Argv>, steps: seq<Step>)
    requires steps != [] && steps[0].Issue? && !succeeds(history + done, steps[0].argv)
    ensures var argv := steps[0].argv;
      && history + done + [argv] == history + (done + [argv])
      && After(done, Execute(succeeds, history + done, steps)) == Outcome(done + [argv], Finished(false))
  {
    CommandsAssoc(history, done, [steps[0].argv]);
  }

  /** A first step that is a bad argument ends the run before it, with its exception. */
  lemma StopAtBadArgument(succeeds: (seq<Argv>, Argv) -> bool, history: seq<Argv>, done: seq<Argv>, steps: seq<Step>)
    requires steps != [] && steps[0].BadArgument?
    ensures After(done, Execute(succeeds, history + done, steps)) == Outcome(done, Crashed(steps[0].error))
  {
    assert done + [] == done;
  }

  /** With no steps ahead the run returns True. */
  lemma FinishRun(succeeds: (seq<Argv>, Argv) -> bool, history: seq<Argv>, done: seq<Argv>)
    ensures After(done, Execute(succeeds, history + done, [])) == Outcome(done, Finished(true))
  {
    assert done + [] == done;
  }

  /** `execute_git_commands(commit_msg, branch_name, args)`. */
  method ExecuteGitCommands(git: GitProcess, commitMessage: JsonValue, branchName: JsonValue, push: bool)
    returns (result: ExecResult)
    modifies git
    ensures var o := Execute(git.succeeds, old(git.log), Plan(commitMessage, branchName, push));
      git.log == old(git.log) + o.issued && result == o.result
  {
    // The run so far: `done` issued, `ahead` still to go, and together they make the plan's run.
    ghost var h0 := git.log;
    ghost var done: seq<Argv> := [];
    ghost var ahead := Plan(commitMessage, branchName, push);
    StartRun(git.succeeds, h0, ahead);
    if !commitMessage.JString? {
      StopAtBadArgument(git.succeeds, h0, done, ahead);
      return Crashed(TypeError);
    }
    if HoldsNul(CommitArgv(commitMessage.s)) {
      StopAtBadArgument(git.succeeds, h0, done, ahead);
      return Crashed(ValueError);
    }
    var committed := git.Run(CommitArgv(commitMessage.s));
    if !committed {
      StopAtFailure(git.succeeds, h0, done, ahead);
      return Finished(false);
    }
    Advance(git.succeeds, h0, done, ahead);
    done, ahead := done + [CommitArgv(commitMessage.s)], ahead[1..];
    if Truthy(branchName) {
      if !branchName.JString? {
        StopAtBadArgument(git.succeeds, h0, done, ahead);
        return Crashed(TypeError);
      }
      if HoldsNul(CheckoutArgv(branchName.s)) {
        StopAtBadArgument(git.succeeds, h0, done, ahead);
        return Crashed(ValueError);
      }
      var created := git.Run(CheckoutArgv(branchName.s));
      if !created {
        StopAtFailure(git.succeeds, h0, done, ahead);
        return Finished(false);
      }
      Advance(git.succeeds, h0, done, ahead);
      done, ahead := done + [CheckoutArgv(branchName.s)], ahead[1..];
    }
    if push {
      // The branch name has passed the checkout's check, and "main" holds no NUL.
      var target := if Truthy(branchName) then branchName.s else "main";
      CommandNul(target);
      assert ahead == [Issue(PushArgv(target))];
      var pushed := git.Run(PushArgv(target));
      if !pushed {
        StopAtFailure(git.succeeds, h0, done, ahead);
        return Finished(false);
      }
      Advance(git.succeeds, h0, done, ahead);
      done, ahead := done + [PushArgv(target)], ahead[1..];
    }
    assert ahead == [];
    FinishRun(git.succeeds, h0, done);
    return Finished(true);
  }

  /** When the commit fails nothing else runs: no branch, no push, and the result is False. */
  lemma CommitFailureStopsAll(succeeds: (seq<Argv>, Argv) -> bool, history: seq<Argv>, message: string, branchName: JsonValue, push: bool)
    requires '\0' !in message
    requires !succeeds(history, CommitArgv(message))
    ensures Execute(succeeds, history, Plan(JString(message), branchName, push)) == Outcome([CommitArgv(message)], Finished(false))
  {
    CommandNul(message);
  }

  /** When creating the branch fails, the commit stays made (nothing is undone),
      the push is skipped even when asked for, and the result is False. */
  lemma CheckoutFailureKeepsCommit(succeeds: (seq<Argv>, Argv) -> bool, history: seq<Argv>, message: string, branch: string, push: bool)
    requires branch != "" && '\0' !in message && '\0' !in branch
    requires succeeds(history, CommitArgv(message))
    requires !succeeds(history + [CommitArgv(message)], CheckoutArgv(branch))
    ensures Execute(succeeds, history, Plan(JString(message), JString(branch), push))
         == Outcome([CommitArgv(message), CheckoutArgv(branch)], Finished(false))
  {
    CommandNul(message);
    CommandNul(branch);
    var steps := Plan(JString(message), JString(branch), push);
    var h1 := history + [CommitArgv(message)];
    assert steps[1..][0] == Issue(CheckoutArgv(branch));
    assert Execute(succeeds, h1, steps[1..]) == Outcome([CheckoutArgv(branch)], Finished(false));
  }

  /** Without a branch name the push goes to "main"; with one, to that branch. */
  lemma PushTargets(message: string, branchName: JsonValue)
    requires '\0' !in message
    ensures !Truthy(branchName) ==>
      Plan(JString(message), branchName, true) == [Issue(CommitArgv(message)), Issue(PushArgv("main"))]
    ensures branchName.JString? && branchName.s != "" && '\0' !in branchName.s ==>
      Plan(JString(message), branchName, true)
      == [Issue(CommitArgv(message)), Issue(CheckoutArgv(branchName.s)), Issue(PushArgv(branchName.s))]
  {
    CommandNul(message);
    CommandNul("main");
    if branchName.JString? {
      CommandNul(branchName.s);
    }
  }

  /** Answers whose message is a string and whose branch name is a string or
      falsy, none of them holding a NUL character, never make
      `execute_git_commands` raise. */
  lemma StringsNeverCrash(succeeds: (seq<Argv>, Argv) -> bool, history: seq<Argv>, message: string, branchName: JsonValue, push: bool)
    requires '\0' !in message
    requires (branchName.JString? && '\0' !in branchName.s) || !Truthy(branchName)
    ensures Execute(succeeds, history, Plan(JString(message), branchName, push)).result.Finished?
  {
    CommandNul(message);
    CommandNul("main");
    if branchName.JString? {
      CommandNul(branchName.s);
    }
    var steps := Plan(JString(message), branchName, push);
    assert forall i :: 0 <= i < |steps| ==> steps[i].Issue?;
    ExecuteCrashAtBadArgument(succeeds, history, steps);
  }

  /** A NUL character in the message makes the commit raise `ValueError`
      before `git` runs, so nothing is issued; one in the branch name raises
      after the commit, before the branch is created. */
  lemma NulRaises(succeeds: (seq<Argv>, Argv) -> bool, history: seq<Argv>, message: string, branchName: JsonValue, push: bool)
    ensures '\0' in message ==>
      Execute(succeeds, history, Plan(JString(message), branchName, push)) == Outcome([], Crashed(ValueError))
    ensures '\0' !in message && succeeds(history, CommitArgv(message)) && branchName.JString? && '\0' in branchName.s ==>
      Execute(succeeds, history, Plan(JString(message), branchName, push)) == Outcome([CommitArgv(message)], Crashed(ValueError))
  {
    CommandNul(message);
    var steps := Plan(JString(message), branchName, push);
    if branchName.JString? && '\0' in branchName.s {
      CommandNul(branchName.s);
      assert Truthy(branchName);
      assert steps[1] == BadArgument(ValueError);
      if '\0' !in message && succeeds(history, CommitArgv(message)) {
        assert steps[0] == Issue(CommitArgv(message));
        var rest := steps[1..];
        assert rest[0] == BadArgument(ValueError);
        assert Execute(succeeds, history + [CommitArgv(message)], rest) == Outcome([], Crashed(ValueError));
      }
    }
  }
}
