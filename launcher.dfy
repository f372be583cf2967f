/** The process launcher `execute_command` (myshell.c:41-63): fork, wire the
    child's standard streams to the given descriptors, run the program, and
    wait for it unless it runs in the background.

    The operating system is abstracted: whether `fork` succeeds is a
    parameter, and the child's work is recorded as the list of steps it takes
    up to `execvp`. */
module Launcher {
  import opened Argv

  const STDIN_FILENO: nat := 0
  const STDOUT_FILENO: nat := 1

  /** One action of the freshly forked child, in the order it takes them. */
  datatype ChildStep =
    | ResetInterrupt                 // reset_signal_handler: SIGINT back to default
    | Dup2(from: int, onto: int)
    | CloseFd(fd: int)
    | Exec(argv: seq<Token>)         // execvp(argv[0], argv)

  /** What a launch did, as seen from the parent. */
  datatype Outcome =
    | ForkFailed
    | Forked(child: seq<ChildStep>, waited: bool)

  /** One call of `execute_command`: its arguments and what came of it. */
  datatype Launch = Launch(argv: seq<Token>, inputFd: int, outputFd: int, background: bool, outcome: Outcome)

  /** The child's steps: reset SIGINT, move each non-standard descriptor onto
      its standard stream and close the original, then exec. */
  function ChildSetup(argv: seq<Token>, inputFd: int, outputFd: int): seq<ChildStep>
  {
    [ResetInterrupt]
    + (if inputFd != STDIN_FILENO then [Dup2(inputFd, STDIN_FILENO), CloseFd(inputFd)] else [])
    + (if outputFd != STDOUT_FILENO then [Dup2(outputFd, STDOUT_FILENO), CloseFd(outputFd)] else [])
    + [Exec(argv)]
  }

  /** The launch `execute_command` performs, given the outcome of `fork`. */
  function LaunchOf(argv: seq<Token>, inBackground: bool, inputFd: int, outputFd: int, forkOk: bool): Launch
  {
    Launch(argv, inputFd, outputFd, inBackground,
           if forkOk then Forked(ChildSetup(argv, inputFd, outputFd), !inBackground) else ForkFailed)
  }

  /** `execute_command(args + start, in_background, input_fd, output_fd)`.
      Returns 0 when `fork` fails (nothing else happens), 1 otherwise; the
      parent waits exactly when the command is not in the background.
      The last ensures sums up the ones before it as `LaunchOf`, the form in
      which `Dispatcher.Dispatch` records a launch. */
  method ExecuteCommand(args: array<Slot>, start: nat, inBackground: bool, inputFd: int, outputFd: int, forkOk: bool)
    returns (status: int, launch: Launch)
    requires start < args.Length && args[args.Length - 1] == None
    ensures status == (if forkOk then 1 else 0)
    ensures launch.argv == ArgvFrom(args[..], start)
    ensures launch.inputFd == inputFd && launch.outputFd == outputFd && launch.background == inBackground
    ensures launch.outcome.ForkFailed? <==> !forkOk
    ensures launch.outcome.Forked? ==> launch.outcome.waited == !inBackground
    ensures launch.outcome.Forked? ==> launch.outcome.child == ChildSetup(launch.argv, inputFd, outputFd)
    ensures launch == LaunchOf(ArgvFrom(args[..], start), inBackground, inputFd, outputFd, forkOk)
  {
    var argv := ArgvFrom(args[..], start);
    if !forkOk {
      return 0, Launch(argv, inputFd, outputFd, inBackground, ForkFailed);
    }
    var child := [ResetInterrupt];
    if inputFd != STDIN_FILENO {
      child := child + [Dup2(inputFd, STDIN_FILENO), CloseFd(inputFd)];
    }
    if outputFd != STDOUT_FILENO {
      child := child + [Dup2(outputFd, STDOUT_FILENO), CloseFd(outputFd)];
    }
    child := child + [Exec(argv)];
    var waited := false;
    if !inBackground {
      waited := true;
    }
    return 1, Launch(argv, inputFd, outputFd, inBackground, Forked(child, waited));
  }

  /** The child's descriptor table, as a map from descriptor number to the
      open file it refers to, after one step. `dup2` from a closed
      descriptor fails and changes nothing. */
  function Apply<F>(table: map<int, F>, step: ChildStep): map<int, F>
  {
    match step
    case Dup2(from, onto) => if from in table then table[onto := table[from]] else table
    case CloseFd(fd) => table - {fd}
    case _ => table
  }

  /** The descriptor table after a sequence of steps. */
  function Replay<F>(table: map<int, F>, steps: seq<ChildStep>): map<int, F>
    decreases |steps|
  {
    if steps == [] then table else Replay(Apply(table, steps[0]), steps[1..])
  }

  lemma {:induction false} ReplayAppend<F>(table: map<int, F>, a: seq<ChildStep>, b: seq<ChildStep>)
    ensures Replay(table, a + b) == Replay(Replay(table, a), b)
    decreases |a|
  {
    if a != [] {
      assert (a + b)[1..] == a[1..] + b;
      ReplayAppend(Apply(table, a[0]), a[1..], b);
    } else {
      assert a + b == b;
    }
  }

  /** What the child's set-up achieves: by the time it execs, standard input
      refers to the file `inputFd` referred to and standard output to the
      file `outputFd` referred to; the originals are closed and every other
      descriptor is untouched. This needs the two descriptors to be distinct
      and the output not to be standard input, which holds for every call
      `process_arglist` makes when `pipe` and `open` hand out fresh
      descriptors. */
  lemma ChildWiring<F>(table: map<int, F>, argv: seq<Token>, inputFd: int, outputFd: int)
    requires inputFd in table && outputFd in table
    requires inputFd != outputFd && outputFd != STDIN_FILENO
    ensures var t := Replay(table, ChildSetup(argv, inputFd, outputFd));
      && STDIN_FILENO in t && t[STDIN_FILENO] == table[inputFd]
      && STDOUT_FILENO in t && t[STDOUT_FILENO] == table[outputFd]
      && (forall fd :: fd != STDIN_FILENO && fd != STDOUT_FILENO && fd in t ==>
            fd in table && fd != inputFd && fd != outputFd && t[fd] == table[fd])
      && (forall fd :: fd != STDIN_FILENO && fd != STDOUT_FILENO && fd in table && fd != inputFd && fd != outputFd ==>
            fd in t)
  {
    var inSteps := if inputFd != STDIN_FILENO then [Dup2(inputFd, STDIN_FILENO), CloseFd(inputFd)] else [];
    var outSteps := if outputFd != STDOUT_FILENO then [Dup2(outputFd, STDOUT_FILENO), CloseFd(outputFd)] else [];
    var steps := ChildSetup(argv, inputFd, outputFd);
    assert steps == [ResetInterrupt] + inSteps + outSteps + [Exec(argv)];
    ReplayAppend(table, [ResetInterrupt] + inSteps + outSteps, [Exec(argv)]);
    ReplayAppend(table, [ResetInterrupt] + inSteps, outSteps);
    ReplayAppend(table, [ResetInterrupt], inSteps);
    var t0 := Replay(table, [ResetInterrupt]);
    assert t0 == table by {
      assert Replay(table, [ResetInterrupt]) == Replay(Apply(table, ResetInterrupt), []);
    }
    var t1 := Replay(t0, inSteps);
    if inputFd != STDIN_FILENO {
      var dup := table[STDIN_FILENO := table[inputFd]];
      assert inSteps[1..] == [CloseFd(inputFd)];
      assert t1 == Replay(dup, [CloseFd(inputFd)]);
      assert Replay(dup, [CloseFd(inputFd)]) == Replay(dup - {inputFd}, []);
    } else {
      assert t1 == table;
    }
    var t2 := Replay(t1, outSteps);
    if outputFd != STDOUT_FILENO {
      assert outputFd in t1;
      var dup := t1[STDOUT_FILENO := t1[outputFd]];
      assert outSteps[1..] == [CloseFd(outputFd)];
      assert t2 == Replay(dup, [CloseFd(outputFd)]);
      assert Replay(dup, [CloseFd(outputFd)]) == Replay(dup - {outputFd}, []);
    } else {
      assert t2 == t1;
    }
    assert Replay(t2, [Exec(argv)]) == Replay(Apply(t2, Exec(argv)), []);
  }
}
