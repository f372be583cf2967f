/** What `process_arglist` (myshell.c:67-119) does, stated over the model
    `Dispatcher.Dispatch`: the commands it launches and their descriptors,
    the lifetime of the descriptors it opens, when the dispatcher blocks, and
    a few sample command lines. */
module DispatchProperties {
  import opened Argv
  import opened Launcher
  import opened Dispatcher

  /** The launches of a trace, in order. */
  function Launches(trace: seq<Event>): seq<Launch>
  {
    if trace == [] then []
    else (if trace[0].Launched? then [trace[0].launch] else []) + Launches(trace[1..])
  }

  /** The descriptors the dispatcher holds after one more event. */
  function Track(held: set<int>, e: Event): set<int>
  {
    match e
    case PipeCall(Some(fds)) => held + {fds.read, fds.write}
    case OpenRead(_, Some(fd)) => held + {fd}
    case OpenAppend(_, Some(fd)) => held + {fd}
    case Close(fd) => held - {fd}
    case _ => held
  }

  /** The descriptors obtained from `pipe` or `open` and not closed yet. */
  function Held(trace: seq<Event>): set<int>
  {
    if trace == [] then {} else Track(Held(trace[..|trace| - 1]), trace[|trace| - 1])
  }

  lemma HeldStep(trace: seq<Event>, i: nat)
    requires 0 < i <= |trace|
    ensures Held(trace[..i]) == Track(Held(trace[..i - 1]), trace[i - 1])
  {
    assert trace[..i][..i - 1] == trace[..i - 1];
  }

  lemma LaunchesOf5(a: Event, b: Launch, c: Event, d: Launch, e: Event)
    requires !a.Launched? && !c.Launched? && !e.Launched?
    ensures Launches([a, Launched(b), c, Launched(d), e]) == [b, d]
  {
    assert Launches([e]) == [] by { assert [e][1..] == []; }
    assert Launches([Launched(d), e]) == [d] by { assert [Launched(d), e][1..] == [e]; }
    assert Launches([c, Launched(d), e]) == [d] by { assert [c, Launched(d), e][1..] == [Launched(d), e]; }
    assert Launches([Launched(b), c, Launched(d), e]) == [b, d] by {
      assert [Launched(b), c, Launched(d), e][1..] == [c, Launched(d), e];
    }
    assert [a, Launched(b), c, Launched(d), e][1..] == [Launched(b), c, Launched(d), e];
  }

  lemma LaunchesOf3(a: Event, b: Launch, c: Event)
    requires !a.Launched? && !c.Launched?
    ensures Launches([a, Launched(b), c]) == [b]
  {
    assert Launches([c]) == [] by { assert [c][1..] == []; }
    assert Launches([Launched(b), c]) == [b] by { assert [Launched(b), c][1..] == [c]; }
    assert [a, Launched(b), c][1..] == [Launched(b), c];
  }

  lemma LaunchesOf1(b: Launch)
    ensures Launches([Launched(b)]) == [b]
  {
    assert [Launched(b)][1..] == [];
  }

  /** A token that is not the `&` cleared for backgrounding and not the
      chosen operator reaches the argument vectors unchanged. */
  lemma RewrittenKeeps(s: seq<Slot>, count: nat, i: nat)
    requires WellFormed(s, count) && i < count
    requires !Nulled(s, count, i)
    ensures Rewritten(s, count)[i] == s[i] && s[i].Some?
  {
  }

  /** The argument vector read from the rewritten array at `start` is the
      run of original tokens up to the next cleared slot. */
  lemma StageArgv(s: seq<Slot>, count: nat, start: nat, stop: nat)
    requires WellFormed(s, count) && start <= stop <= count
    requires Rewritten(s, count)[stop] == None
    requires forall i :: start <= i < stop ==> !Nulled(s, count, i)
    ensures ArgvFrom(Rewritten(s, count), start) == Values(s[start..stop])
  {
    var t := Rewritten(s, count);
    forall i | start <= i < stop
      ensures t[i] == s[i] && s[i].Some?
    {
      RewrittenKeeps(s, count, i);
    }
    ArgvFromUpTo(t, start, stop);
    assert t[start..stop] == s[start..stop];
  }

  /** The two argument vectors of the pipe plan. */
  lemma PipedArgvs(s: seq<Slot>, count: nat, p: nat)
    requires WellFormed(s, count) && ChoosePlan(s, count) == Piped(p)
    ensures p + 1 <= End(s, count)
    ensures ArgvFrom(Rewritten(s, count), 0) == Values(s[..p])
    ensures ArgvFrom(Rewritten(s, count), p + 1) == Values(s[p + 1..End(s, count)])
  {
    assert s[p] == Some(PIPE);
    var end := End(s, count);
    assert forall i :: 0 <= i < end ==> (Nulled(s, count, i) <==> i == p);
    StageArgv(s, count, 0, p);
    StageArgv(s, count, p + 1, end);
  }

  /** Pipe plan, as the calls made: `pipe`, then the left stage on the
      tokens before the last `|` from standard input into the write end, then
      the write end closed, then the right stage on the tokens after the `|`
      (up to the end or the cleared `&`) from the read end to standard
      output, in the background exactly when the whole command is, then the
      read end closed; 1 is returned whatever the forks did. If `pipe` fails
      nothing is launched and 0 is returned. Tokens `<` and `>>` on either
      side reach the argument vectors as they are. */
  lemma {:induction false} PipedStages(s: seq<Slot>, count: nat, os: Os, leftInBackground: bool, p: nat)
    requires Dispatchable(s, count) && ChoosePlan(s, count) == Piped(p)
    ensures p + 1 <= End(s, count)
    ensures var r := Dispatch(s, count, os, leftInBackground);
      var ls := Launches(r.trace);
      if os.pipe.None? then r.status == 0 && r.trace == [PipeCall(None)] && ls == []
      else
        var fds := os.pipe.value;
        && r.status == 1 && |ls| == 2
        && ls[0] == LaunchOf(Values(s[..p]), leftInBackground, STDIN_FILENO, fds.write, os.firstFork)
        && ls[1] == LaunchOf(Values(s[p + 1..End(s, count)]), IsBackground(s, count), fds.read, STDOUT_FILENO, os.secondFork)
        && r.trace == [PipeCall(os.pipe), Launched(ls[0]), Close(fds.write), Launched(ls[1]), Close(fds.read)]
  {
    var t := Rewritten(s, count);
    PipedArgvs(s, count, p);
    assert Dispatch(s, count, os, leftInBackground) == PipedReport(t, p, IsBackground(s, count), os, leftInBackground);
    if os.pipe.Some? {
      var fds := os.pipe.value;
      LaunchesOf5(PipeCall(os.pipe),
                  LaunchOf(ArgvFrom(t, 0), leftInBackground, STDIN_FILENO, fds.write, os.firstFork),
                  Close(fds.write),
                  LaunchOf(ArgvFrom(t, p + 1), IsBackground(s, count), fds.read, STDOUT_FILENO, os.secondFork),
                  Close(fds.read));
    }
  }

  /** The argument vector of a redirection plan: the tokens before the
      operator. */
  lemma RedirectArgv(s: seq<Slot>, count: nat, at: nat)
    requires WellFormed(s, count)
    requires ChoosePlan(s, count) == InputRedirect(at) || ChoosePlan(s, count) == AppendRedirect(at)
    ensures ArgvFrom(Rewritten(s, count), 0) == Values(s[..at])
  {
    assert forall i :: 0 <= i < at ==> !Nulled(s, count, i);
    StageArgv(s, count, 0, at);
  }

  /** The argument vector of a plain command: every token but a trailing `&`. */
  lemma SimpleArgv(s: seq<Slot>, count: nat)
    requires WellFormed(s, count) && ChoosePlan(s, count) == Simple
    ensures ArgvFrom(Rewritten(s, count), 0) == Values(s[..End(s, count)])
  {
    assert forall i :: 0 <= i < End(s, count) ==> !Nulled(s, count, i);
    StageArgv(s, count, 0, End(s, count));
  }

  /** Input redirection, as the calls made: `open` of the token right after
      the last `<`, read-only; if it fails, 0 and nothing launched; otherwise
      one launch of the tokens before the `<` reading from that descriptor,
      then the descriptor closed, and 1 whatever the fork did. Tokens after
      the path are not passed on. */
  lemma {:induction false} InputRedirectStage(s: seq<Slot>, count: nat, os: Os, leftInBackground: bool, at: nat)
    requires Dispatchable(s, count) && ChoosePlan(s, count) == InputRedirect(at)
    ensures var r := Dispatch(s, count, os, leftInBackground);
      var ls := Launches(r.trace);
      var path := s[at + 1].value;
      if os.open.None? then r.status == 0 && r.trace == [OpenRead(path, None)] && ls == []
      else
        && r.status == 1 && |ls| == 1
        && ls[0] == LaunchOf(Values(s[..at]), IsBackground(s, count), os.open.value, STDOUT_FILENO, os.firstFork)
        && r.trace == [OpenRead(path, os.open), Launched(ls[0]), Close(os.open.value)]
  {
    var t := Rewritten(s, count);
    RedirectArgv(s, count, at);
    assert Dispatch(s, count, os, leftInBackground) == InputReport(t, s[at + 1].value, IsBackground(s, count), os);
    if os.open.Some? {
      LaunchesOf3(OpenRead(s[at + 1].value, os.open),
                  LaunchOf(ArgvFrom(t, 0), IsBackground(s, count), os.open.value, STDOUT_FILENO, os.firstFork),
                  Close(os.open.value));
    }
  }

  /** Append redirection, as the calls made: `open` of the token right after
      the last `>>` for appending, created if absent; if it fails, 0 and
      nothing launched; otherwise one launch of the tokens before the `>>`
      writing to that descriptor, then the descriptor closed, and 1. Chosen
      only when the command has no `|` and no `<`. */
  lemma {:induction false} AppendRedirectStage(s: seq<Slot>, count: nat, os: Os, leftInBackground: bool, at: nat)
    requires Dispatchable(s, count) && ChoosePlan(s, count) == AppendRedirect(at)
    ensures var r := Dispatch(s, count, os, leftInBackground);
      var ls := Launches(r.trace);
      var path := s[at + 1].value;
      if os.open.None? then r.status == 0 && r.trace == [OpenAppend(path, None)] && ls == []
      else
        && r.status == 1 && |ls| == 1
        && ls[0] == LaunchOf(Values(s[..at]), IsBackground(s, count), STDIN_FILENO, os.open.value, os.firstFork)
        && r.trace == [OpenAppend(path, os.open), Launched(ls[0]), Close(os.open.value)]
  {
    var t := Rewritten(s, count);
    RedirectArgv(s, count, at);
    assert Dispatch(s, count, os, leftInBackground) == AppendReport(t, s[at + 1].value, IsBackground(s, count), os);
    if os.open.Some? {
      LaunchesOf3(OpenAppend(s[at + 1].value, os.open),
                  LaunchOf(ArgvFrom(t, 0), IsBackground(s, count), STDIN_FILENO, os.open.value, os.firstFork),
                  Close(os.open.value));
    }
  }

  /** Plain command: exactly one launch of every token except a trailing `&`,
      on the inherited standard streams, and 1 is returned. */
  lemma {:induction false} SimpleStage(s: seq<Slot>, count: nat, os: Os, leftInBackground: bool)
    requires Dispatchable(s, count) && ChoosePlan(s, count) == Simple
    ensures var r := Dispatch(s, count, os, leftInBackground);
      var ls := Launches(r.trace);
      && r.status == 1 && |ls| == 1
      && ls[0] == LaunchOf(Values(s[..End(s, count)]), IsBackground(s, count), STDIN_FILENO, STDOUT_FILENO, os.firstFork)
      && r.trace == [Launched(ls[0])]
  {
    var t := Rewritten(s, count);
    SimpleArgv(s, count);
    LaunchesOf1(LaunchOf(ArgvFrom(t, 0), IsBackground(s, count), STDIN_FILENO, STDOUT_FILENO, os.firstFork));
  }

  /** Every launch in `tr` is handed, for input and for output, either the
      standard stream or a descriptor the dispatcher holds at that point. */
  predicate LaunchesUseHeld(tr: seq<Event>)
  {
    forall i :: 0 <= i < |tr| && tr[i].Launched? ==>
      && (tr[i].launch.inputFd == STDIN_FILENO || tr[i].launch.inputFd in Held(tr[..i]))
      && (tr[i].launch.outputFd == STDOUT_FILENO || tr[i].launch.outputFd in Held(tr[..i]))
  }

  /** Every descriptor obtained is closed by the end, and no launch is handed
      one that is not held. */
  predicate ReleasesAll(tr: seq<Event>)
  {
    Held(tr) == {} && LaunchesUseHeld(tr)
  }

  /** The pipe plan's calls release both ends, and only the read end is
      held when the right stage is launched. */
  lemma PipedReportReleases(t: seq<Slot>, p: nat, bg: bool, os: Os, leftInBackground: bool)
    requires p + 1 < |t| && t[|t| - 1] == None
    requires os.pipe.Some? ==> os.pipe.value.read != os.pipe.value.write
    ensures var tr := PipedReport(t, p, bg, os, leftInBackground).trace;
      && ReleasesAll(tr)
      && (os.pipe.Some? ==> |tr| == 5 && tr[3].Launched? && Held(tr[..3]) == {os.pipe.value.read})
  {
    var tr := PipedReport(t, p, bg, os, leftInBackground).trace;
    assert tr[..0] == [];
    HeldStep(tr, 1);
    if os.pipe.Some? {
      HeldStep(tr, 2);
      HeldStep(tr, 3);
      HeldStep(tr, 4);
      HeldStep(tr, 5);
      assert tr[..5] == tr;
    } else {
      assert tr[..1] == tr;
    }
  }

  /** The `<` plan's calls release the opened descriptor. */
  lemma InputReportReleases(t: seq<Slot>, path: Token, bg: bool, os: Os)
    requires 0 < |t| && t[|t| - 1] == None
    ensures ReleasesAll(InputReport(t, path, bg, os).trace)
  {
    var tr := InputReport(t, path, bg, os).trace;
    assert tr[..0] == [];
    HeldStep(tr, 1);
    if os.open.Some? {
      HeldStep(tr, 2);
      HeldStep(tr, 3);
      assert tr[..3] == tr;
    } else {
      assert tr[..1] == tr;
    }
  }

  /** The `>>` plan's calls release the opened descriptor. */
  lemma AppendReportReleases(t: seq<Slot>, path: Token, bg: bool, os: Os)
    requires 0 < |t| && t[|t| - 1] == None
    ensures ReleasesAll(AppendReport(t, path, bg, os).trace)
  {
    var tr := AppendReport(t, path, bg, os).trace;
    assert tr[..0] == [];
    HeldStep(tr, 1);
    if os.open.Some? {
      HeldStep(tr, 2);
      HeldStep(tr, 3);
      assert tr[..3] == tr;
    } else {
      assert tr[..1] == tr;
    }
  }

  /** Every descriptor the dispatcher obtains is closed before it returns,
      and every launch is handed either a standard stream or a descriptor
      still open at that moment. In the pipe plan only the read end is still
      held when the right stage is launched: the write end is closed, so that
      stage sees end of input once the left stage is done. (`pipe` returns
      two different descriptors.) */
  lemma {:induction false} DescriptorLifetimes(s: seq<Slot>, count: nat, os: Os, leftInBackground: bool)
    requires Dispatchable(s, count)
    requires os.pipe.Some? ==> os.pipe.value.read != os.pipe.value.write
    ensures var tr := Dispatch(s, count, os, leftInBackground).trace;
      && ReleasesAll(tr)
      && (ChoosePlan(s, count).Piped? && os.pipe.Some? ==>
            |tr| == 5 && tr[3].Launched? && Held(tr[..3]) == {os.pipe.value.read})
  {
    var t := Rewritten(s, count);
    var bg := IsBackground(s, count);
    var r := Dispatch(s, count, os, leftInBackground);
    match ChoosePlan(s, count)
    case Piped(p) =>
      assert r == PipedReport(t, p, bg, os, leftInBackground);
      PipedReportReleases(t, p, bg, os, leftInBackground);
    case InputRedirect(at) =>
      assert r == InputReport(t, s[at + 1].value, bg, os);
      InputReportReleases(t, s[at + 1].value, bg, os);
    case AppendRedirect(at) =>
      assert r == AppendReport(t, s[at + 1].value, bg, os);
      AppendReportReleases(t, s[at + 1].value, bg, os);
    case Simple =>
      assert r.trace == [Launched(LaunchOf(ArgvFrom(t, 0), bg, STDIN_FILENO, STDOUT_FILENO, os.firstFork))];
      assert r.trace[..0] == [];
      HeldStep(r.trace, 1);
      assert r.trace[..1] == r.trace;
  }

  /** As written (myshell.c:92 passes `in_background` = 0 for the left
      stage): once `fork` succeeds, the dispatcher waits for the left stage
      to exit before it even creates the right stage. */
  lemma {:induction false} AsWrittenLeftStageWaits(s: seq<Slot>, count: nat, os: Os, p: nat)
    requires Dispatchable(s, count) && ChoosePlan(s, count) == Piped(p)
    requires os.pipe.Some? && os.firstFork
    ensures var r := Dispatch(s, count, os, false);
      var ls := Launches(r.trace);
      && |ls| == 2 && |r.trace| == 5
      && r.trace[1] == Launched(ls[0]) && r.trace[3] == Launched(ls[1])
      && ls[0].outcome.Forked? && ls[0].outcome.waited
  {
    PipedStages(s, count, os, false, p);
  }

  /** `yes | head -1`: as written the dispatcher blocks on `yes`, which never
      exits, because nothing reads the pipe until `head` is launched, and
      `head` is launched only after `yes` has exited. */
  lemma LeftStageBlocksDispatcher(os: Os)
    requires os.pipe.Some? && os.firstFork
    ensures var s := [Some("yes"), Some("|"), Some("head"), Some("-1"), None];
      && Dispatchable(s, 4)
      && var ls := Launches(Dispatch(s, 4, os, false).trace);
      && |ls| == 2
      && ls[0].argv == ["yes"] && ls[0].outcome.Forked? && ls[0].outcome.waited
      && ls[1].argv == ["head", "-1"]
  {
    var s := [Some("yes"), Some("|"), Some("head"), Some("-1"), None];
    assert s[1] == Some(PIPE);
    var plan := ChoosePlan(s, 4);
    assert plan.Piped? && plan.at == 1;
    assert !IsBackground(s, 4);
    AsWrittenLeftStageWaits(s, 4, os, 1);
    PipedStages(s, 4, os, false, 1);
    assert s[..1] == [Some("yes")];
    assert s[2..4] == [Some("head"), Some("-1")];
  }

  /** With the left stage launched in the background, as intended,
      the dispatcher blocks at most once: on the last command it launches,
      exactly when that fork succeeded and the command line does not end in
      `&`. */
  lemma {:induction false} IntendedOnlyLastStageWaits(s: seq<Slot>, count: nat, os: Os)
    requires Dispatchable(s, count)
    ensures var ls := Launches(Dispatch(s, count, os, true).trace);
      && (forall i :: 0 <= i < |ls| - 1 ==> !(ls[i].outcome.Forked? && ls[i].outcome.waited))
      && (|ls| > 0 ==>
            (ls[|ls| - 1].outcome.Forked? && ls[|ls| - 1].outcome.waited
             <==> !IsBackground(s, count) && (if ChoosePlan(s, count).Piped? then os.secondFork else os.firstFork)))
  {
    match ChoosePlan(s, count)
    case Piped(p) => PipedStages(s, count, os, true, p);
    case InputRedirect(at) => InputRedirectStage(s, count, os, true, at);
    case AppendRedirect(at) => AppendRedirectStage(s, count, os, true, at);
    case Simple => SimpleStage(s, count, os, true);
  }

  /** The descriptors of a launch meet `Launcher.ChildWiring`'s conditions. */
  predicate WiresCleanly(l: Launch)
  {
    l.inputFd != l.outputFd && l.outputFd != STDIN_FILENO
  }

  /** Every launch recorded in a trace wires its streams cleanly. */
  predicate AllWireCleanly(trace: seq<Event>)
  {
    var ls := Launches(trace);
    forall i :: 0 <= i < |ls| ==> WiresCleanly(ls[i])
  }

  lemma PipedReportWires(t: seq<Slot>, p: nat, bg: bool, os: Os, leftInBackground: bool)
    requires p + 1 < |t| && t[|t| - 1] == None
    requires os.pipe.Some? ==> os.pipe.value.read > STDOUT_FILENO && os.pipe.value.write > STDOUT_FILENO
    ensures AllWireCleanly(PipedReport(t, p, bg, os, leftInBackground).trace)
  {
    match os.pipe
    case None =>
      assert [PipeCall(None)][1..] == [];
    case Some(fds) =>
      LaunchesOf5(PipeCall(os.pipe),
                  LaunchOf(ArgvFrom(t, 0), leftInBackground, STDIN_FILENO, fds.write, os.firstFork),
                  Close(fds.write),
                  LaunchOf(ArgvFrom(t, p + 1), bg, fds.read, STDOUT_FILENO, os.secondFork),
                  Close(fds.read));
  }

  lemma InputReportWires(t: seq<Slot>, path: Token, bg: bool, os: Os)
    requires 0 < |t| && t[|t| - 1] == None
    requires os.open.Some? ==> os.open.value > STDOUT_FILENO
    ensures AllWireCleanly(InputReport(t, path, bg, os).trace)
  {
    match os.open
    case None =>
      assert [OpenRead(path, None)][1..] == [];
    case Some(fd) =>
      LaunchesOf3(OpenRead(path, os.open),
                  LaunchOf(ArgvFrom(t, 0), bg, fd, STDOUT_FILENO, os.firstFork),
                  Close(fd));
  }

  lemma AppendReportWires(t: seq<Slot>, path: Token, bg: bool, os: Os)
    requires 0 < |t| && t[|t| - 1] == None
    requires os.open.Some? ==> os.open.value > STDOUT_FILENO
    ensures AllWireCleanly(AppendReport(t, path, bg, os).trace)
  {
    match os.open
    case None =>
      assert [OpenAppend(path, None)][1..] == [];
    case Some(fd) =>
      LaunchesOf3(OpenAppend(path, os.open),
                  LaunchOf(ArgvFrom(t, 0), bg, STDIN_FILENO, fd, os.firstFork),
                  Close(fd));
  }

  /** When `pipe` and `open` hand out descriptors other than the standard
      streams, every launch gets two distinct descriptors and never standard
      input as its output, so `Launcher.ChildWiring` applies to each child. */
  lemma {:induction false} LaunchesWireCleanly(s: seq<Slot>, count: nat, os: Os, leftInBackground: bool)
    requires Dispatchable(s, count)
    requires os.pipe.Some? ==> os.pipe.value.read > STDOUT_FILENO && os.pipe.value.write > STDOUT_FILENO
    requires os.open.Some? ==> os.open.value > STDOUT_FILENO
    ensures var ls := Launches(Dispatch(s, count, os, leftInBackground).trace);
      forall i :: 0 <= i < |ls| ==> WiresCleanly(ls[i])
  {
    var t := Rewritten(s, count);
    var bg := IsBackground(s, count);
    match ChoosePlan(s, count)
    case Piped(p) =>
      PipedReportWires(t, p, bg, os, leftInBackground);
    case InputRedirect(at) =>
      InputReportWires(t, s[at + 1].value, bg, os);
    case AppendRedirect(at) =>
      AppendReportWires(t, s[at + 1].value, bg, os);
    case Simple =>
      LaunchesOf1(LaunchOf(ArgvFrom(t, 0), bg, STDIN_FILENO, STDOUT_FILENO, os.firstFork));
  }

  /** `ls -l &`: a plain command run in the background with `ls -l`; the
      dispatcher does not wait. */
  lemma BackgroundListing(os: Os)
    requires os.firstFork
    ensures var s := [Some("ls"), Some("-l"), Some("&"), None];
      && Dispatchable(s, 3)
      && ChoosePlan(s, 3) == Simple
      && var r := Dispatch(s, 3, os, false);
      && r.status == 1
      && Launches(r.trace) == [Launch(["ls", "-l"], STDIN_FILENO, STDOUT_FILENO, true,
                                      Forked(ChildSetup(["ls", "-l"], STDIN_FILENO, STDOUT_FILENO), false))]
  {
    var s := [Some("ls"), Some("-l"), Some("&"), None];
    assert !Occurs(s, 3, PIPE) && !Occurs(s, 3, INPUT_REDIRECT) && !Occurs(s, 3, APPEND_REDIRECT);
    PlanPriority(s, 3);
    assert IsBackground(s, 3) && End(s, 3) == 2;
    SimpleStage(s, 3, os, false);
    assert s[..2] == [Some("ls"), Some("-l")];
    assert Values(s[..2]) == ["ls", "-l"];
  }

  /** `cat file.txt >> out.txt`: `cat file.txt` with its output appended to
      `out.txt`. */
  lemma AppendToFile(os: Os)
    requires os.open.Some?
    ensures var s := [Some("cat"), Some("file.txt"), Some(">>"), Some("out.txt"), None];
      && Dispatchable(s, 4)
      && var r := Dispatch(s, 4, os, false);
      && r.status == 1
      && r.trace[0] == OpenAppend("out.txt", os.open)
      && var ls := Launches(r.trace);
      && |ls| == 1 && ls[0].argv == ["cat", "file.txt"]
      && ls[0].inputFd == STDIN_FILENO && ls[0].outputFd == os.open.value && !ls[0].background
  {
    var s := [Some("cat"), Some("file.txt"), Some(">>"), Some("out.txt"), None];
    assert s[2] == Some(APPEND_REDIRECT);
    assert !Occurs(s, 4, PIPE) && !Occurs(s, 4, INPUT_REDIRECT);
    PlanPriority(s, 4);
    var plan := ChoosePlan(s, 4);
    assert plan == AppendRedirect(2);
    AppendRedirectStage(s, 4, os, false, 2);
    assert s[..2] == [Some("cat"), Some("file.txt")];
  }

  /** `ls | wc -l`: `ls` writes into the pipe and `wc -l` reads from it. */
  lemma CountListing(os: Os)
    requires os.pipe.Some?
    ensures var s := [Some("ls"), Some("|"), Some("wc"), Some("-l"), None];
      && Dispatchable(s, 4)
      && var r := Dispatch(s, 4, os, false);
      && var ls := Launches(r.trace);
      && r.status == 1 && |ls| == 2
      && ls[0].argv == ["ls"] && ls[0].outputFd == os.pipe.value.write
      && ls[1].argv == ["wc", "-l"] && ls[1].inputFd == os.pipe.value.read && !ls[1].background
  {
    var s := [Some("ls"), Some("|"), Some("wc"), Some("-l"), None];
    assert s[1] == Some(PIPE);
    var plan := ChoosePlan(s, 4);
    assert plan.Piped? && plan.at == 1;
    PipedStages(s, 4, os, false, 1);
    assert s[..1] == [Some("ls")];
    assert s[2..4] == [Some("wc"), Some("-l")];
  }

  /** The command runs in the background exactly when its last token is `&`:
      the last launch carries that flag, whichever plan was chosen. An `&`
      anywhere else is an ordinary argument. */
  lemma {:induction false} BackgroundExactlyWhenLastIsAmpersand(s: seq<Slot>, count: nat, os: Os, leftInBackground: bool)
    requires Dispatchable(s, count)
    ensures var ls := Launches(Dispatch(s, count, os, leftInBackground).trace);
      |ls| > 0 ==> (ls[|ls| - 1].background <==> s[count - 1] == Some("&"))
  {
    match ChoosePlan(s, count)
    case Piped(p) => PipedStages(s, count, os, leftInBackground, p);
    case InputRedirect(at) => InputRedirectStage(s, count, os, leftInBackground, at);
    case AppendRedirect(at) => AppendRedirectStage(s, count, os, leftInBackground, at);
    case Simple => SimpleStage(s, count, os, leftInBackground);
  }
}
