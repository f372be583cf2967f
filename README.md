# MiniShell command dispatcher, modelled in Dafny

This project models the core of MiniShell, a small Unix shell written in C
(`myshell.c`). The core is `process_arglist`, which takes one tokenized
command line, and its launcher `execute_command`.

`process_arglist` gets `count` tokens in a NULL-terminated `char **` array and
works in four steps:

1. The command runs in the background when its last token is `&`.
2. One scan records the last index of `|`, `<` and `>>`.
3. It picks one plan by fixed priority: pipe, then input redirection, then
   append redirection, then a plain command.
4. It writes NULL over the `&` slot and over the chosen operator's slot.
   This splits the array into one or two argument vectors. It then opens the
   pipe or file it needs, launches one or two commands with the chosen
   descriptors, and closes what it opened.

`execute_command` forks. The child resets SIGINT, moves any non-standard
input or output descriptor onto its standard stream, closes the original and
execs. The parent waits for the child unless the command is in the
background.

Modules:

- `Argv` (`argv.dfy`): argument arrays as slots that hold a string or NULL
  (`Option<string>`), and the argument vector `execvp` reads from `args + start`.
- `Launcher` (`launcher.dfy`): `execute_command` as the method
  `ExecuteCommand`. The child's work is a list of steps (`ChildStep`). A
  descriptor-table semantics (`Apply`, `Replay`) states what those steps achieve.
- `Dispatcher` (`dispatcher.dfy`): `process_arglist` as the method
  `ProcessArglist` over an `array<Option<string>>` of length `count + 1`. It
  has the scan loop (`Scan`) and rewrites the array in place. `Dispatch` is
  the function that specifies its result and its calls.
- `DispatchProperties` (`dispatch_properties.dfy`): lemmas about `Dispatch`.
  They cover the commands launched, descriptor lifetimes, when the dispatcher
  blocks, and sample command lines.

The operating system is not run. What `pipe`, `open` and the two `fork`s
return is passed in as an `Os` value. The calls are recorded in order, as a
trace of `Event`s: `PipeCall`, `OpenRead`, `OpenAppend`, `Launched` and
`Close`. Each `Launched` event carries the argument vector, the two
descriptors, the background flag and the fork outcome. The fork outcome holds
the child's steps and whether the parent waited.

`Dispatch` takes a flag `leftInBackground`: the `in_background` argument used
for the left pipe stage. The code passes 0 (myshell.c:92), and
`ProcessArglist` is proved equal to `Dispatch(..., false)`. Only the
Findings lemma `IntendedOnlyLastStageWaits` uses `true`. The as-written
lemmas `AsWrittenLeftStageWaits` and `LeftStageBlocksDispatcher` and the
sample command lines (`BackgroundListing`, `AppendToFile`, `CountListing`)
use `false`. The general lemmas (`PipedStages`, `InputRedirectStage`,
`AppendRedirectStage`, `SimpleStage`, `DescriptorLifetimes`,
`LaunchesWireCleanly`, `BackgroundExactlyWhenLastIsAmpersand`) take the flag
as a parameter and hold for both values.

Behaviour of `process_arglist` worth knowing:

- On a failed `pipe` or `open` it returns 0 (myshell.c:88-90, 99-101,
  108-110). A failure is a return value of -1; the model writes it as `None`,
  and a descriptor that is returned is a `nat`.
- It does not check that a command is well formed. A redirection operator
  with no path after it would pass NULL to `open` (myshell.c:98, 107).
  `ProcessArglist` therefore requires (`Dispatchable`) that a chosen `<` or
  `>>` is followed by a path that is not the cleared `&`. An empty side of a
  pipe reads no slot out of bounds and just launches an empty argument
  vector, so it is not excluded.
- Operators of different kinds on one line are all accepted. Only the
  highest-priority kind is honoured, at its last occurrence (myshell.c:71-79,
  85-116). The others stay in the argument vectors as literal tokens, are
  dropped when they come after a redirection's path, or are opened as the
  path when one directly follows the chosen `<` (`cat < >>` opens a file
  named `>>` and launches `cat`).
- The left pipe stage is launched with `in_background` 0 (myshell.c:92), so
  the dispatcher waits for it before launching the right stage (see
  Findings).

## Model

| member | source | states |
|---|---|---|
| `Argv.ArgvFromUpTo` | myshell.c:56 | The argument vector handed to `execvp` from `args + start` is exactly the strings from `start` up to the first NULL, in order. |
| `Launcher.ExecuteCommand` | myshell.c:41-63 | Returns 0 with no child and no wait when `fork` fails, otherwise 1. The parent waits exactly when not in the background. The child resets SIGINT, then dups and closes `input_fd` only when it is not standard input and `output_fd` only when it is not standard output, then execs the argument vector read from the array. |
| `Launcher.ChildWiring` | myshell.c:47-55 | After the child's set-up, standard input refers to the file `input_fd` referred to and standard output to that of `output_fd`. Both originals are closed and every other descriptor is untouched. This holds when the two are distinct and the output is not standard input. |
| `Dispatcher.LastIndex` | myshell.c:68-79 | The index the scan leaves for a token is the largest index below `n` holding it, or -1 exactly when it does not occur. |
| `Dispatcher.Scan` | myshell.c:68-79 | The one-pass overwrite loop ends with `pipe_index`, `input_redir_index` and `append_redir_index` each equal to the last index of `\|`, `<`, `>>`, or -1. |
| `Dispatcher.ChoosePlan` | myshell.c:85-116 | A plan other than the plain command names an index below `count` that holds that plan's operator. |
| `Dispatcher.PlanPriority` | myshell.c:85-116 | Exactly one plan is chosen, with priority pipe > `<` > `>>` > plain, each in both directions in terms of which operators occur. No later token holds the chosen operator. |
| `Dispatcher.Rewritten` | myshell.c:81-106 | The in-place rewrite changes a slot exactly when it is the `&` slot of a background command or the chosen operator's slot, and those become NULL. Every other entry is unchanged. |
| `Dispatcher.ProcessArglist` | myshell.c:67-119 | The array afterwards is `Rewritten(old(args))`. The status and the call trace are those of `Dispatch` with the left pipe stage in the foreground, as written. |
| `Dispatcher.RunPiped` | myshell.c:87-95 | On the rewritten array, the pipe branch's status and calls are `PipedReport`: 0 after a failed `pipe`, otherwise the left stage into the write end in the foreground, its close, the right stage from the read end, its close, and 1. |
| `Dispatcher.RunInputRedirect` | myshell.c:98-104 | The `<` branch's status and calls are `InputReport`: 0 after a failed `open`, otherwise one launch reading from the opened descriptor, its close, and 1. |
| `Dispatcher.RunAppendRedirect` | myshell.c:107-113 | The `>>` branch's status and calls are `AppendReport`: 0 after a failed `open`, otherwise one launch writing to the opened descriptor, its close, and 1. |
| `DispatchProperties.PipedStages` | myshell.c:85-95 | Pipe plan: `pipe`, then the left stage on the tokens before the `\|` from stdin to the write end, then Close(write end), then the right stage on the tokens after it from the read end to stdout with the overall background flag, then Close(read end). Returns 1 whatever the forks did. A failed `pipe` returns 0 with no launch. |
| `DispatchProperties.InputRedirectStage` | myshell.c:96-104 | `<` plan: open read-only the token right after the operator. On failure return 0 with no launch. Otherwise one launch of the tokens before `<` with that descriptor as input, then its Close, then 1, even if the fork failed. |
| `DispatchProperties.AppendRedirectStage` | myshell.c:105-113 | `>>` plan: open for append/create the token right after the operator. On failure return 0 with no launch. Otherwise one launch of the tokens before `>>` with that descriptor as output, then its Close, then 1. |
| `DispatchProperties.SimpleStage` | myshell.c:114-118 | Plain plan: one launch of all tokens except a trailing `&`, on stdin/stdout, with the background flag; returns 1. |
| `DispatchProperties.DescriptorLifetimes` | myshell.c:86-113 | Every descriptor obtained from `pipe` or `open` is closed by the end. Each launch gets a standard stream or a descriptor still open at that point. When the right pipe stage launches, only the read end is still held, so the write end is already closed. |
| `DispatchProperties.LaunchesWireCleanly` | myshell.c:92-115 | When `pipe`/`open` return non-standard descriptors, every launch's descriptors are distinct and its output is not stdin, so `ChildWiring` applies to every child. |
| `DispatchProperties.BackgroundExactlyWhenLastIsAmpersand` | myshell.c:69-83 | The last command launched runs in the background exactly when `args[count-1]` is `&`. |
| `DispatchProperties.AsWrittenLeftStageWaits` | myshell.c:92 | As written, when the first fork succeeds the dispatcher waits for the left pipe stage, and only after that launches the right stage. |
| `DispatchProperties.LeftStageBlocksDispatcher` | myshell.c:92-94 | For `yes \| head -1` the dispatcher waits on `yes` before `head` is launched. |
| `DispatchProperties.IntendedOnlyLastStageWaits` | myshell.c:92-94 | With the left stage in the background, the dispatcher waits at most once: on the last command launched, exactly when its fork succeeded and the line does not end in `&`. |
| `DispatchProperties.BackgroundListing` | myshell.c:114-116 | `ls -l &` launches `ls -l` in the background on the standard streams and does not wait. |
| `DispatchProperties.AppendToFile` | myshell.c:105-113 | `cat file.txt >> out.txt` opens `out.txt` for appending and launches `cat file.txt` writing to it. |
| `DispatchProperties.CountListing` | myshell.c:85-95 | `ls \| wc -l` launches `ls` into the pipe's write end and `wc -l` from its read end in the foreground. |

## Left out

- Signal set-up (`setup_signal_handler`, `prepare`, `reset_signal_handler`,
  myshell.c:11-38) is process-wide `sigaction` state. The child's reset is
  recorded only as the step `ResetInterrupt`.
- `finalize` (myshell.c:122-124) only returns 0.
- What `fork`, `execvp`, `waitpid`, `dup2`, `pipe` and `open` do in the
  operating system is left out: process creation, image replacement, data
  through the pipe or file, and `0666`/umask permissions. Their results are
  parameters (`Os`), and the child's work is its list of steps.
- `waitpid` is recorded as "the parent waited". With SIGCHLD ignored, the
  real call blocks until the child exits and then reports ECHILD. That
  difference does not change when the parent blocks.
- Concurrency between the two pipe stages, and between background children
  and the shell, is left out.
- `perror` messages and the child's `exit(1)` after a failed `execvp`
  (myshell.c:57-58) are left out.
- `Dispatcher.Scan`: the scan loop of `process_arglist` is a separate method
  called from `ProcessArglist`. It is the same loop over the same array.
- `Dispatcher.RunPiped`, `Dispatcher.RunInputRedirect`,
  `Dispatcher.RunAppendRedirect`: the three operator branches of
  `process_arglist` are separate methods called from `ProcessArglist` after
  the array is rewritten. They make the same calls in the same order.
- `Launcher.ChildWiring`: needs the two descriptors distinct and the output
  not to be standard input. With other inputs (never produced by
  `process_arglist` when the OS returns fresh descriptors) the C steps wire the
  streams differently.

## Findings

| source | as written | input that shows it | evidently intended | confidence | as-written member | corrected member |
|---|---|---|---|---|---|---|
| myshell.c:92 | The left pipe stage is launched with `in_background` = 0. The parent therefore waits for it to exit before launching the right stage, which is the only reader of the pipe. | `yes \| head -1` (or any left stage writing more than the pipe's buffer): the left stage blocks on a full pipe and the shell hangs. | Launch the left stage without waiting, so the two stages run concurrently and the dispatcher waits only on the last one. | not executed; high | `DispatchProperties.LeftStageBlocksDispatcher` | `DispatchProperties.IntendedOnlyLastStageWaits` |
