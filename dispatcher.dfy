/** The command dispatcher `process_arglist` (myshell.c:67-119).

    It takes `count` tokens in a NULL-terminated `char **` array, decides
    whether the command runs in the background (last token `&`), finds the
    last `|`, `<` and `>>`, picks one plan by the fixed priority pipe, then
    input redirection, then append redirection, then a plain command, writes
    NULL over the `&` slot and the chosen operator's slot, and launches one or
    two commands with the chosen descriptors.

    `pipe`, `open` and `fork` are not run: what they return is given in an
    `Os` value, and the calls made are recorded, in order, as a trace of
    events. */
module Dispatcher {
  import opened Argv
  import opened Launcher

  const PIPE: Token := "|"
  const INPUT_REDIRECT: Token := "<"
  const APPEND_REDIRECT: Token := ">>"
  const BACKGROUND: Token := "&"

  /** `pipe_fd[0]` and `pipe_fd[1]` as filled in by a successful `pipe`.
      Descriptors are never negative: -1 is how `pipe` and `open` report
      failure, and the model writes that as None. */
  datatype PipeFds = PipeFds(read: nat, write: nat)

  /** The answers of the operating system for one dispatch: the descriptors
      `pipe` and `open` return (None when they return -1), and whether the
      first and the second `fork` succeed. */
  datatype Os = Os(pipe: Option<PipeFds>, open: Option<nat>, firstFork: bool, secondFork: bool)

  /** The calls `process_arglist` makes, with their results. */
  datatype Event =
    | PipeCall(fds: Option<PipeFds>)
    | OpenRead(path: Token, result: Option<nat>)       // open(path, O_RDONLY)
    | OpenAppend(path: Token, result: Option<nat>)     // open(path, O_WRONLY | O_CREAT | O_APPEND, 0666)
    | Launched(launch: Launch)                     // execute_command(...)
    | Close(fd: nat)

  /** The value `process_arglist` returns and the calls it made. */
  datatype Report = Report(status: int, trace: seq<Event>)

  /** The four shapes of a command line; `at` is the operator's index. */
  datatype Plan = Piped(at: nat) | InputRedirect(at: nat) | AppendRedirect(at: nat) | Simple

  /** The array the caller hands over: `count` strings and a NULL after them. */
  predicate WellFormed(s: seq<Slot>, count: nat)
  {
    && count >= 1
    && |s| == count + 1
    && s[count] == None
    && (forall i :: 0 <= i < count ==> s[i].Some?)
  }

  predicate IsBackground(s: seq<Slot>, count: nat)
    requires WellFormed(s, count)
  {
    s[count - 1] == Some(BACKGROUND)
  }

  /** Index of the first NULL once the `&` slot has been cleared. */
  function End(s: seq<Slot>, count: nat): nat
    requires WellFormed(s, count)
  {
    if IsBackground(s, count) then count - 1 else count
  }

  predicate Occurs(s: seq<Slot>, n: nat, tok: Token)
    requires n <= |s|
  {
    exists i :: 0 <= i < n && s[i] == Some(tok)
  }

  /** The index the scan leaves in its variable for `tok` after looking at
      the first `n` slots: the last index holding `tok`, or -1. */
  function LastIndex(s: seq<Slot>, n: nat, tok: Token): (r: int)
    requires n <= |s|
    ensures -1 <= r < n
    ensures r >= 0 ==> s[r] == Some(tok)
    ensures forall j :: r < j < n ==> s[j] != Some(tok)
  {
    if n == 0 then -1
    else if s[n - 1] == Some(tok) then n - 1
    else LastIndex(s, n - 1, tok)
  }

  function OperatorOf(p: Plan): Token
    requires !p.Simple?
  {
    match p
    case Piped(_) => PIPE
    case InputRedirect(_) => INPUT_REDIRECT
    case AppendRedirect(_) => APPEND_REDIRECT
  }

  /** The plan chosen by priority pipe > `<` > `>>` > plain, each at the last
      occurrence of its operator (see `PlanPriority`). */
  function ChoosePlan(s: seq<Slot>, count: nat): (r: Plan)
    requires WellFormed(s, count)
    ensures !r.Simple? ==> r.at < count && s[r.at] == Some(OperatorOf(r))
  {
    var pipeIndex := LastIndex(s, count, PIPE);
    var inputRedirIndex := LastIndex(s, count, INPUT_REDIRECT);
    var appendRedirIndex := LastIndex(s, count, APPEND_REDIRECT);
    if pipeIndex != -1 then Piped(pipeIndex)
    else if inputRedirIndex != -1 then InputRedirect(inputRedirIndex)
    else if appendRedirIndex != -1 then AppendRedirect(appendRedirIndex)
    else Simple
  }

  /** Exactly one plan is chosen: the pipe whenever a `|` occurs, otherwise
      input redirection whenever a `<` occurs, otherwise append redirection
      whenever a `>>` occurs, otherwise a plain command; and the chosen
      operator is its last occurrence. */
  lemma PlanPriority(s: seq<Slot>, count: nat)
    requires WellFormed(s, count)
    ensures var r := ChoosePlan(s, count);
      && (r.Piped? <==> Occurs(s, count, PIPE))
      && (r.InputRedirect? <==> !Occurs(s, count, PIPE) && Occurs(s, count, INPUT_REDIRECT))
      && (r.AppendRedirect? <==>
            !Occurs(s, count, PIPE) && !Occurs(s, count, INPUT_REDIRECT) && Occurs(s, count, APPEND_REDIRECT))
      && (!r.Simple? ==> forall j :: r.at < j < count ==> s[j] != s[r.at])
  {
  }

  /** The slots the dispatcher overwrites with NULL. */
  predicate Nulled(s: seq<Slot>, count: nat, i: int)
    requires WellFormed(s, count)
  {
    || (IsBackground(s, count) && i == count - 1)
    || (var p := ChoosePlan(s, count); !p.Simple? && i == p.at)
  }

  /** The array after the in-place rewrite: only the `&` slot and the chosen
      operator's slot become NULL. */
  function Rewritten(s: seq<Slot>, count: nat): (r: seq<Slot>)
    requires WellFormed(s, count)
    ensures |r| == |s|
    ensures forall i :: 0 <= i < |s| ==> (r[i] != s[i] <==> Nulled(s, count, i))
    ensures forall i :: 0 <= i < |s| && Nulled(s, count, i) ==> r[i] == None
  {
    var cleared := if IsBackground(s, count) then s[count - 1 := None] else s;
    match ChoosePlan(s, count)
    case Simple => cleared
    case Piped(p) => cleared[p := None]
    case InputRedirect(p) => cleared[p := None]
    case AppendRedirect(p) => cleared[p := None]
  }

  /** What the C code needs of its input to stay inside the array and never
      hand NULL to `open`: a redirection operator is followed by a path,
      and that path is not the `&` slot cleared for backgrounding. */
  predicate Dispatchable(s: seq<Slot>, count: nat)
  {
    && WellFormed(s, count)
    && match ChoosePlan(s, count)
       case InputRedirect(at) => at + 1 < End(s, count)
       case AppendRedirect(at) => at + 1 < End(s, count)
       case _ => true
  }

  // PipedReport, InputReport and AppendReport specify the three operator
  // branches as values, so that `Dispatch` and the lemmas about it can use
  // them; RunPiped, RunInputRedirect and RunAppendRedirect below are the
  // same branches as methods over the array, each proved equal to its
  // function. The branches are separate members only to keep each proof of
  // `ProcessArglist` small.

  /** The calls of the pipe plan (myshell.c:85-95) on the rewritten array
      `t`, with the `|` at `p`. */
  function PipedReport(t: seq<Slot>, p: nat, bg: bool, os: Os, leftInBackground: bool): Report
    requires p + 1 < |t| && t[|t| - 1] == None
  {
    match os.pipe
    case None => Report(0, [PipeCall(None)])
    case Some(fds) =>
      Report(1, [PipeCall(os.pipe),
                 Launched(LaunchOf(ArgvFrom(t, 0), leftInBackground, STDIN_FILENO, fds.write, os.firstFork)),
                 Close(fds.write),
                 Launched(LaunchOf(ArgvFrom(t, p + 1), bg, fds.read, STDOUT_FILENO, os.secondFork)),
                 Close(fds.read)])
  }

  /** The calls of the `<` plan (myshell.c:96-104) reading from `path`. */
  function InputReport(t: seq<Slot>, path: Token, bg: bool, os: Os): Report
    requires 0 < |t| && t[|t| - 1] == None
  {
    match os.open
    case None => Report(0, [OpenRead(path, None)])
    case Some(fd) =>
      Report(1, [OpenRead(path, os.open),
                 Launched(LaunchOf(ArgvFrom(t, 0), bg, fd, STDOUT_FILENO, os.firstFork)),
                 Close(fd)])
  }

  /** The calls of the `>>` plan (myshell.c:105-113) appending to `path`. */
  function AppendReport(t: seq<Slot>, path: Token, bg: bool, os: Os): Report
    requires 0 < |t| && t[|t| - 1] == None
  {
    match os.open
    case None => Report(0, [OpenAppend(path, None)])
    case Some(fd) =>
      Report(1, [OpenAppend(path, os.open),
                 Launched(LaunchOf(ArgvFrom(t, 0), bg, STDIN_FILENO, fd, os.firstFork)),
                 Close(fd)])
  }

  /** The result and the calls of `process_arglist`. `leftInBackground` is
      the `in_background` argument of the left pipe stage's launch: the
      code passes 0 (myshell.c:92), so `Dispatch(s, count, os, false)` is the
      code as written. */
  function Dispatch(s: seq<Slot>, count: nat, os: Os, leftInBackground: bool): Report
    requires Dispatchable(s, count)
  {
    var bg := IsBackground(s, count);
    var t := Rewritten(s, count);
    match ChoosePlan(s, count)
    case Piped(p) => PipedReport(t, p, bg, os, leftInBackground)
    case InputRedirect(at) => InputReport(t, s[at + 1].value, bg, os)
    case AppendRedirect(at) => AppendReport(t, s[at + 1].value, bg, os)
    case Simple =>
      Report(1, [Launched(LaunchOf(ArgvFrom(t, 0), bg, STDIN_FILENO, STDOUT_FILENO, os.firstFork))])
  }

  /** The scan of myshell.c:71-79: one pass over the `count` tokens that
      leaves, for each of `|`, `<` and `>>`, the last index holding it, or -1
      when it does not occur. */
  method Scan(args: array<Slot>, count: nat) returns (pipeIndex: int, inputRedirIndex: int, appendRedirIndex: int)
    requires count <= args.Length
    ensures pipeIndex == LastIndex(args[..], count, PIPE)
    ensures inputRedirIndex == LastIndex(args[..], count, INPUT_REDIRECT)
    ensures appendRedirIndex == LastIndex(args[..], count, APPEND_REDIRECT)
  {
    pipeIndex, inputRedirIndex, appendRedirIndex := -1, -1, -1;
    var i := 0;
    while i < count
      invariant 0 <= i <= count
      invariant pipeIndex == LastIndex(args[..], i, PIPE)
      invariant inputRedirIndex == LastIndex(args[..], i, INPUT_REDIRECT)
      invariant appendRedirIndex == LastIndex(args[..], i, APPEND_REDIRECT)
    {
      if args[i] == Some(PIPE) {
        pipeIndex := i;
      } else if args[i] == Some(INPUT_REDIRECT) {
        inputRedirIndex := i;
      } else if args[i] == Some(APPEND_REDIRECT) {
        appendRedirIndex := i;
      }
      i := i + 1;
    }
  }

  /** myshell.c:87-95 on the already rewritten array: create the pipe, run
      the left stage into its write end, close that end, run the right stage
      (from `args + pipeIndex + 1`) from the read end, close the read end. */
  method RunPiped(args: array<Slot>, pipeIndex: nat, inBackground: bool, os: Os) returns (status: int, trace: seq<Event>)
    requires pipeIndex + 1 < args.Length && args[args.Length - 1] == None
    ensures Report(status, trace) == PipedReport(args[..], pipeIndex, inBackground, os, false)
  {
    if os.pipe.None? {
      return 0, [PipeCall(None)];
    }
    var fds := os.pipe.value;
    trace := [PipeCall(os.pipe)];
    var launchStatus, launch := ExecuteCommand(args, 0, false, STDIN_FILENO, fds.write, os.firstFork);
    trace := trace + [Launched(launch), Close(fds.write)];
    launchStatus, launch := ExecuteCommand(args, pipeIndex + 1, inBackground, fds.read, STDOUT_FILENO, os.secondFork);
    trace := trace + [Launched(launch), Close(fds.read)];
    status := 1;
  }

  /** myshell.c:98-104 on the already rewritten array: open `path` read-only,
      run the command reading from it, close it. */
  method RunInputRedirect(args: array<Slot>, path: Token, inBackground: bool, os: Os) returns (status: int, trace: seq<Event>)
    requires 0 < args.Length && args[args.Length - 1] == None
    ensures Report(status, trace) == InputReport(args[..], path, inBackground, os)
  {
    if os.open.None? {
      return 0, [OpenRead(path, None)];
    }
    var inputFd := os.open.value;
    var launchStatus, launch := ExecuteCommand(args, 0, inBackground, inputFd, STDOUT_FILENO, os.firstFork);
    trace := [OpenRead(path, os.open), Launched(launch), Close(inputFd)];
    status := 1;
  }

  /** myshell.c:107-113 on the already rewritten array: open `path` for
      appending, run the command writing to it, close it. */
  method RunAppendRedirect(args: array<Slot>, path: Token, inBackground: bool, os: Os) returns (status: int, trace: seq<Event>)
    requires 0 < args.Length && args[args.Length - 1] == None
    ensures Report(status, trace) == AppendReport(args[..], path, inBackground, os)
  {
    if os.open.None? {
      return 0, [OpenAppend(path, None)];
    }
    var outputFd := os.open.value;
    var launchStatus, launch := ExecuteCommand(args, 0, inBackground, STDIN_FILENO, outputFd, os.firstFork);
    trace := [OpenAppend(path, os.open), Launched(launch), Close(outputFd)];
    status := 1;
  }

  /** `process_arglist(count, args)`: scans, rewrites `args` in place and
      makes the calls of `Dispatch(old(args[..]), count, os, false)`. The
      result of `execute_command` is ignored, as in the C code. */
  method ProcessArglist(count: nat, args: array<Slot>, os: Os) returns (status: int, trace: seq<Event>)
    requires Dispatchable(args[..], count)
    modifies args
    ensures args[..] == Rewritten(old(args[..]), count)
    ensures Report(status, trace) == Dispatch(old(args[..]), count, os, false)
  {
    ghost var s := args[..];
    var inBackground := args[count - 1] == Some(BACKGROUND);
    var pipeIndex, inputRedirIndex, appendRedirIndex := Scan(args, count);

    ghost var plan := ChoosePlan(s, count);
    ghost var cleared := if inBackground then s[count - 1 := None] else s;
    if inBackground {
      args[count - 1] := None;
    }
    assert args[..] == cleared;

    if pipeIndex != -1 {
      assert plan == Piped(pipeIndex);
      args[pipeIndex] := None;
      assert args[..] == cleared[pipeIndex := None] == Rewritten(s, count);
      status, trace := RunPiped(args, pipeIndex, inBackground, os);
    } else if inputRedirIndex != -1 {
      assert plan == InputRedirect(inputRedirIndex);
      args[inputRedirIndex] := None;
      assert args[..] == cleared[inputRedirIndex := None] == Rewritten(s, count);
      status, trace := RunInputRedirect(args, args[inputRedirIndex + 1].value, inBackground, os);
    } else if appendRedirIndex != -1 {
      assert plan == AppendRedirect(appendRedirIndex);
      args[appendRedirIndex] := None;
      assert args[..] == cleared[appendRedirIndex := None] == Rewritten(s, count);
      status, trace := RunAppendRedirect(args, args[appendRedirIndex + 1].value, inBackground, os);
    } else {
      assert plan == Simple;
      assert args[..] == cleared == Rewritten(s, count);
      var launchStatus, launch := ExecuteCommand(args, 0, inBackground, STDIN_FILENO, STDOUT_FILENO, os.firstFork);
      status, trace := 1, [Launched(launch)];
    }
  }
}
