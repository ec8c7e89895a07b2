/** The display loop of `src/time_monitor/cli.py`: the `TimeMonitor` object with
    its `running` flag and curses screen, the calls it makes into curses, and the
    interval check and exit code of the `main` command.

    curses, `time.sleep` and `datetime.now` are outside the model. Every call the
    monitor makes into curses or `time.sleep` is appended to the monitor's
    `trace`; what those calls return (the screen, the key pressed, the terminal
    size, the instant) and where they raise is fixed in advance by a script that
    the caller passes in. */
module Cli {
  import opened Wrappers
  import opened Text
  import opened Clock

  // ===========================================================================
  // format_time

  /** `now.strftime("%Y-%m-%d %H:%M:%S.%f")`, microseconds included. */
  function StrfTime(t: Timestamp): (s: string)
    ensures |s| == 26
  {
    Digits(t.year, 4) + "-" + Digits(t.month, 2) + "-" + Digits(t.day, 2) + " "
    + Digits(t.hour, 2) + ":" + Digits(t.minute, 2) + ":" + Digits(t.second, 2) + "."
    + Digits(t.microsecond, 6)
  }

  /** `format_time`: the strftime text with its last three characters cut off,
      which leaves the milliseconds, truncated rather than rounded. */
  function FormatTime(now: Timestamp): (r: string)
    ensures |r| == TimeWidth
  {
    var full := StrfTime(now);
    full[..|full| - 3]
  }

  /** The layout of the display: fixed separators, and the milliseconds as its last three characters. */
  lemma FormatTimeLayout(now: Timestamp)
    ensures var r := FormatTime(now);
      && r[4] == '-' && r[7] == '-' && r[10] == ' ' && r[13] == ':' && r[16] == ':' && r[19] == '.'
      && r[20..] == Digits(now.microsecond / 1000, 3)
  {
    var full := StrfTime(now);
    MillisecondsOfMicroseconds(now.microsecond);
    assert full[20..26] == Digits(now.microsecond, 6);
    assert FormatTime(now)[20..] == full[20..23] == full[20..26][..3];
  }

  /** Cutting the last three digits off a six-digit microsecond field gives the milliseconds. */
  lemma MillisecondsOfMicroseconds(n: nat)
    ensures Digits(n, 6)[..3] == Digits(n / 1000, 3)
  {
    var d := Digits(n, 6);
    DigitsDropLast(n, 5);
    DigitsDropLast(n / 10, 4);
    DigitsDropLast(n / 100, 3);
    assert n / 10 / 10 == n / 100 && n / 100 / 10 == n / 1000;
    assert d[..3] == d[..5][..4][..3];
  }

  /** The last three characters of the display read back as the whole milliseconds. */
  lemma FormatTimeMilliseconds(now: Timestamp)
    ensures AllDigits(FormatTime(now)[20..])
    ensures DecimalValue(FormatTime(now)[20..]) == now.microsecond / 1000
  {
    FormatTimeLayout(now);
    DigitsRoundTrip(now.microsecond / 1000, 3);
  }

  /** Reading a display string back, as `strptime(s, "%Y-%m-%d %H:%M:%S.%f")`
      does: fixed separators, digit fields, and three fraction digits that
      stand for milliseconds. */
  function ParseTime(s: string): Option<DateTime> {
    if |s| == 23 && s[4] == '-' && s[7] == '-' && s[10] == ' ' && s[13] == ':' && s[16] == ':' && s[19] == '.'
       && AllDigits(s[..4]) && AllDigits(s[5..7]) && AllDigits(s[8..10]) && AllDigits(s[11..13])
       && AllDigits(s[14..16]) && AllDigits(s[17..19]) && AllDigits(s[20..])
    then Some(DateTime(DecimalValue(s[..4]), DecimalValue(s[5..7]), DecimalValue(s[8..10]),
                       DecimalValue(s[11..13]), DecimalValue(s[14..16]), DecimalValue(s[17..19]),
                       DecimalValue(s[20..]) * 1000))
    else None
  }

  /** The displayed time determines the instant up to the millisecond. */
  lemma FormatTimeRoundTrip(t: Timestamp)
    ensures ParseTime(FormatTime(t)) == Some(t.(microsecond := t.microsecond / 1000 * 1000))
  {
    FormatTimeLayout(t);
    FormatTimeFields(t);
    DigitsRoundTrip(t.year, 4);
    DigitsRoundTrip(t.month, 2);
    DigitsRoundTrip(t.day, 2);
    DigitsRoundTrip(t.hour, 2);
    DigitsRoundTrip(t.minute, 2);
    DigitsRoundTrip(t.second, 2);
    DigitsRoundTrip(t.microsecond / 1000, 3);
  }

  lemma FormatTimeFields(t: Timestamp)
    ensures var s := FormatTime(t);
      && s[..4] == Digits(t.year, 4) && s[5..7] == Digits(t.month, 2) && s[8..10] == Digits(t.day, 2)
      && s[11..13] == Digits(t.hour, 2) && s[14..16] == Digits(t.minute, 2)
      && s[17..19] == Digits(t.second, 2)
  {
    var s := FormatTime(t);
    var full := StrfTime(t);
    assert s == full[..23];
    assert full[..4] == Digits(t.year, 4);
    assert full[5..7] == Digits(t.month, 2);
    assert full[8..10] == Digits(t.day, 2);
    assert full[11..13] == Digits(t.hour, 2);
    assert full[14..16] == Digits(t.minute, 2);
    assert full[17..19] == Digits(t.second, 2);
  }

  // ===========================================================================
  // Centring

  /** `max(0, (width - len) // 2)`. Dafny's `/` and Python's `//` agree for a
      positive divisor, so the Euclidean division below is Python's floor division. */
  function Column(width: int, len: int): (x: int)
    ensures x >= 0
    ensures x == 0 <==> width - len < 2
    ensures width >= len ==> 2 * x <= width - len <= 2 * x + 1
  {
    var d := (width - len) / 2;
    if d > 0 then d else 0
  }

  lemma CentringExample()
    ensures Column(80, 23) == 28 && 24 / 2 == 12
  {
  }

  // ===========================================================================
  // What curses and the clock do, as a script

  /** The window `curses.initscr()` returns. */
  datatype Screen = Screen(id: nat)

  /** An exception as `run` sees it: `KeyboardInterrupt`, or any `Exception` with its `str()`. */
  datatype Exc = KeyboardInterrupt | Error(message: string)

  const InitFailedMessage: string := "Failed to initialize curses"

  /** The setup calls `init_curses` makes after `initscr`, in order. */
  datatype SetupStep = AtNoEcho | AtCBreak | AtKeypad | AtNoDelay | AtCursSet

  function SetupIndex(step: SetupStep): (k: nat)
    ensures k < 5
  {
    match step
    case AtNoEcho => 0
    case AtCBreak => 1
    case AtKeypad => 2
    case AtNoDelay => 3
    case AtCursSet => 4
  }

  /** How `init_curses` fares: `initscr` returns a screen and setup completes
      (`interrupted` when a SIGINT or SIGTERM is handled meanwhile), `initscr`
      returns None, `initscr` raises, or a setup call raises. */
  datatype InitScript =
    | InitOk(screen: Screen, interrupted: bool)
    | InitReturnsNone
    | InitRaises(exc: Exc)
    | SetupRaises(screen: Screen, step: SetupStep, exc: Exc)

  /** The calls of one frame that can raise, in order. */
  datatype FrameStep = AtGetCh | AtClear | AtGetMaxYX | AtAddTime | AtAddHint | AtRefresh | AtSleep

  function FrameIndex(step: FrameStep): (k: nat)
    ensures k < 7
  {
    match step
    case AtGetCh => 0
    case AtClear => 1
    case AtGetMaxYX => 2
    case AtAddTime => 3
    case AtAddHint => 4
    case AtRefresh => 5
    case AtSleep => 6
  }

  datatype Fault = Fault(step: FrameStep, exc: Exc)

  /** One pass of the loop as the outside world decides it: the key `getch`
      returns, the instant `datetime.now` returns, the size `getmaxyx` returns,
      the call that raises (if any), and whether a SIGINT or SIGTERM is handled
      while the frame sleeps. */
  datatype Frame = Frame(key: int, now: Timestamp, height: nat, width: nat,
                         fault: Option<Fault>, signalled: bool)

  /** A call into curses or `time.sleep`, or entry into `cleanup_curses`
      (`CleanupStart`, which is not itself a terminal call). */
  datatype Event =
    | InitScr | NoEcho | CBreak | Keypad(on: bool) | NoDelay(on: bool) | CursSet(visibility: int)
    | GetCh | Clear | GetMaxYX | AddStr(y: int, x: int, shown: Label) | Refresh
    | Sleep(seconds: real)
    | CleanupStart | NoCBreak | Echo | EndWin

  const Hint: string := "Press 'q' to quit"

  /** What a call to `addstr` writes: a fixed string, or the display of an
      instant, whose characters `Chars` gives. */
  datatype Label = Literal(s: string) | TimeOf(now: Timestamp)

  function Chars(l: Label): (r: string)
    ensures l.TimeOf? ==> |r| == TimeWidth
  {
    match l
    case Literal(s) => s
    case TimeOf(t) => FormatTime(t)
  }

  /** The length of every string `format_time` returns. */
  const TimeWidth := 23

  predicate IsQuitKey(key: int) { key == 'q' as int || key == 'Q' as int }

  // ===========================================================================
  // The specification of each step, as functions of the script

  const SetupCalls: seq<Event> := [NoEcho, CBreak, Keypad(true), NoDelay(true), CursSet(0)]

  const TeardownCalls: seq<Event> := [NoCBreak, Keypad(false), Echo, EndWin]

  function SetupFault(init: InitScript, step: SetupStep): Option<Exc> {
    if init.SetupRaises? && init.step == step then Some(init.exc) else None
  }

  /** The calls `init_curses` completes. */
  function InitTrace(init: InitScript): seq<Event> {
    match init
    case InitOk(_, _) => [InitScr] + SetupCalls
    case InitReturnsNone => [InitScr]
    case InitRaises(_) => []
    case SetupRaises(_, step, _) => [InitScr] + SetupCalls[..SetupIndex(step)]
  }

  /** What `init_curses` raises, if anything. */
  function InitFailure(init: InitScript): Option<Exc> {
    match init
    case InitOk(_, _) => None
    case InitReturnsNone => Some(Error(InitFailedMessage))
    case InitRaises(e) => Some(e)
    case SetupRaises(_, _, e) => Some(e)
  }

  /** `stdscr` after `init_curses`: whatever `initscr` returned, or unchanged when it raised. */
  function ScreenAfterInit(init: InitScript, before: Option<Screen>): Option<Screen> {
    match init
    case InitOk(s, _) => Some(s)
    case InitReturnsNone => None
    case InitRaises(_) => before
    case SetupRaises(s, _, _) => Some(s)
  }

  /** The calls `cleanup_curses` makes. */
  function CleanupTrace(screen: Option<Screen>): seq<Event> {
    [CleanupStart] + if screen.Some? then TeardownCalls else []
  }

  /** The calls of a frame that renders completely. */
  function FrameCalls(f: Frame, interval: real): (calls: seq<Event>)
    ensures |calls| == 7
  {
    [GetCh, Clear, GetMaxYX, AddStr(f.height / 2, Column(f.width, TimeWidth), TimeOf(f.now)),
     AddStr(f.height - 2, 0, Literal(Hint)), Refresh, Sleep(interval)]
  }

  function FrameFault(f: Frame, step: FrameStep): Option<Exc> {
    if f.fault.Some? && f.fault.value.step == step then Some(f.fault.value.exc) else None
  }

  datatype FrameEnd = Continue | QuitPressed | FrameFailed(exc: Exc)

  datatype FrameRun = FrameRun(trace: seq<Event>, end: FrameEnd)

  /** One pass of the loop body: poll, quit check, then clear, draw, refresh, sleep. */
  function RunFrame(f: Frame, interval: real): FrameRun {
    if f.fault.Some? && f.fault.value.step == AtGetCh then FrameRun([], FrameFailed(f.fault.value.exc))
    else if IsQuitKey(f.key) then FrameRun([GetCh], QuitPressed)
    else if f.fault.Some? then
      FrameRun(FrameCalls(f, interval)[..FrameIndex(f.fault.value.step)], FrameFailed(f.fault.value.exc))
    else FrameRun(FrameCalls(f, interval), Continue)
  }

  /** Why the loop stopped: the quit key, the flag cleared by the signal handler,
      an exception, or the end of the script (the run goes on past what is modelled). */
  datatype LoopExit = Quit | FlagCleared | Failed(exc: Exc) | Exhausted

  datatype LoopRun = LoopRun(trace: seq<Event>, exit: LoopExit)

  /** `while self.running:` from frame i of the script on. */
  function LoopFrom(frames: seq<Frame>, i: nat, interval: real): LoopRun
    decreases |frames| - i
  {
    if i >= |frames| then LoopRun([], Exhausted)
    else
      var r := RunFrame(frames[i], interval);
      match r.end
      case QuitPressed => LoopRun(r.trace, Quit)
      case FrameFailed(e) => LoopRun(r.trace, Failed(e))
      case Continue =>
        if frames[i].signalled then LoopRun(r.trace, FlagCleared)
        else
          var rest := LoopFrom(frames, i + 1, interval);
          LoopRun(r.trace + rest.trace, rest.exit)
  }

  /** How `run` ends: it returns, it raises (with the message), or it is still
      looping when the script runs out. */
  datatype RunResult = Returned | Raised(message: string) | Unfinished

  /** The `except` clauses of `run`: a KeyboardInterrupt is swallowed, anything else re-raised. */
  function Escape(e: Exc): RunResult {
    if e.KeyboardInterrupt? then Returned else Raised(e.message)
  }

  /** The loop of `run` after a successful `init_curses`: not entered at all
      when the flag was cleared during initialisation. */
  function MainLoop(init: InitScript, frames: seq<Frame>, interval: real): LoopRun {
    if init.InitOk? && init.interrupted then LoopRun([], FlagCleared) else LoopFrom(frames, 0, interval)
  }

  /** Everything `run` does to the terminal, given the screen it starts with. */
  function RunTrace(init: InitScript, frames: seq<Frame>, interval: real, before: Option<Screen>): seq<Event> {
    var screen := ScreenAfterInit(init, before);
    if InitFailure(init).Some? then InitTrace(init) + CleanupTrace(screen)
    else
      var loop := MainLoop(init, frames, interval);
      if loop.exit.Exhausted? then InitTrace(init) + loop.trace
      else InitTrace(init) + loop.trace + CleanupTrace(screen)
  }

  function RunOutcome(init: InitScript, frames: seq<Frame>, interval: real): RunResult {
    if InitFailure(init).Some? then Escape(InitFailure(init).value)
    else
      match MainLoop(init, frames, interval).exit
      case Exhausted => Unfinished
      case Failed(e) => Escape(e)
      case Quit => Returned
      case FlagCleared => Returned
  }

  // ===========================================================================
  // TimeMonitor

  class TimeMonitor {
    var updateInterval: real
    var running: bool
    var stdscr: Option<Screen>
    /** Every call this monitor has made into curses and `time.sleep`, in order. */
    var trace: seq<Event>

    constructor (updateInterval: real := 0.05)
      ensures this.updateInterval == updateInterval
      ensures !running && stdscr.None? && trace == []
    {
      this.updateInterval := updateInterval;
      running := false;
      stdscr := None;
      trace := [];
    }

    /** The handler `setup_signal_handlers` installs for SIGINT and SIGTERM:
        it clears the flag and touches nothing else. */
    method HandleSignal()
      modifies this`running
      ensures !running
    {
      running := false;
    }

    /** One call into curses or `time.sleep`: recorded when it returns, not when it raises. */
    method Call(e: Event, raise: Option<Exc>) returns (raised: Option<Exc>)
      modifies this`trace
      ensures raised == raise
      ensures trace == old(trace) + if raise.None? then [e] else []
    {
      raised := raise;
      if raise.None? {
        trace := trace + [e];
      }
    }

    /** `init_curses` */
    method InitCurses(init: InitScript) returns (failure: Option<Exc>)
      modifies this`stdscr, this`trace
      ensures failure == InitFailure(init)
      ensures stdscr == ScreenAfterInit(init, old(stdscr))
      ensures trace == old(trace) + InitTrace(init)
    {
      // initscr raises, returns no window, or returns the screen
      if init.InitRaises? {
        return Some(init.exc);
      }
      trace := trace + [InitScr];
      stdscr := if init.InitReturnsNone? then None else Some(init.screen);
      if stdscr.None? {
        return Some(Error(InitFailedMessage));
      }
      failure := Call(NoEcho, SetupFault(init, AtNoEcho));
      if failure.Some? { return; }
      failure := Call(CBreak, SetupFault(init, AtCBreak));
      if failure.Some? { return; }
      failure := Call(Keypad(true), SetupFault(init, AtKeypad));
      if failure.Some? { return; }
      failure := Call(NoDelay(true), SetupFault(init, AtNoDelay));
      if failure.Some? { return; }
      failure := Call(CursSet(0), SetupFault(init, AtCursSet));
    }

    /** `cleanup_curses`: restore the terminal only when there is a screen;
        `stdscr` itself is left as it is. */
    method CleanupCurses()
      modifies this`trace
      ensures trace == old(trace) + CleanupTrace(stdscr)
    {
      trace := trace + [CleanupStart];
      if stdscr.Some? {
        trace := trace + [NoCBreak];
        trace := trace + [Keypad(false)];
        trace := trace + [Echo];
        trace := trace + [EndWin];
      }
    }

    /** The body of the `while self.running` loop for one frame of the script. */
    method RenderFrame(f: Frame) returns (end: FrameEnd)
      modifies this`trace
      ensures trace == old(trace) + RunFrame(f, updateInterval).trace
      ensures end == RunFrame(f, updateInterval).end
    {
      ghost var calls := FrameCalls(f, updateInterval);
      var raised := Call(GetCh, FrameFault(f, AtGetCh));
      if raised.Some? { return FrameFailed(raised.value); }
      if IsQuitKey(f.key) {
        return QuitPressed;
      }
      CallsSoFar(old(trace), calls, 0);
      raised := Call(Clear, FrameFault(f, AtClear));
      if raised.Some? { return FrameFailed(raised.value); }
      CallsSoFar(old(trace), calls, 1);
      var timeStr := FormatTime(f.now);
      raised := Call(GetMaxYX, FrameFault(f, AtGetMaxYX));
      if raised.Some? { return FrameFailed(raised.value); }
      CallsSoFar(old(trace), calls, 2);
      var y := f.height / 2;
      var x := Column(f.width, |timeStr|);
      raised := Call(AddStr(y, x, TimeOf(f.now)), FrameFault(f, AtAddTime));
      if raised.Some? { return FrameFailed(raised.value); }
      CallsSoFar(old(trace), calls, 3);
      raised := Call(AddStr(f.height - 2, 0, Literal(Hint)), FrameFault(f, AtAddHint));
      if raised.Some? { return FrameFailed(raised.value); }
      CallsSoFar(old(trace), calls, 4);
      raised := Call(Refresh, FrameFault(f, AtRefresh));
      if raised.Some? { return FrameFailed(raised.value); }
      CallsSoFar(old(trace), calls, 5);
      raised := Call(Sleep(updateInterval), FrameFault(f, AtSleep));
      if raised.Some? { return FrameFailed(raised.value); }
      CallsSoFar(old(trace), calls, 6);
      end := Continue;
    }

    /** The `while self.running:` loop of `run`, from the first frame of the
        script. `init_curses` has left a screen, so the loop's check that
        `stdscr` is not None always passes and its `else` branch is not modelled. */
    method Loop(frames: seq<Frame>) returns (exit: LoopExit)
      requires stdscr.Some?
      modifies this`running, this`trace
      ensures old(running) ==> exit == LoopFrom(frames, 0, updateInterval).exit
      ensures old(running) ==> trace == old(trace) + LoopFrom(frames, 0, updateInterval).trace
      ensures !old(running) ==> exit == FlagCleared && trace == old(trace)
      ensures running <==> !exit.FlagCleared?
    {
      ghost var whole := if running then LoopFrom(frames, 0, updateInterval) else LoopRun([], FlagCleared);
      exit := FlagCleared;
      var i := 0;
      while running
        invariant 0 <= i <= |frames|
        invariant exit == FlagCleared
        invariant running ==> trace + LoopFrom(frames, i, updateInterval).trace == old(trace) + whole.trace
        invariant running ==> LoopFrom(frames, i, updateInterval).exit == whole.exit
        invariant !running ==> trace == old(trace) + whole.trace && whole.exit == FlagCleared
        decreases |frames| - i
      {
        if i == |frames| {
          exit := Exhausted;
          break;
        }
        var f := frames[i];
        LoopStep(frames, i, updateInterval);
        ghost var before := trace;
        var end := RenderFrame(f);
        if end.QuitPressed? {
          exit := Quit;
          break;
        }
        if end.FrameFailed? {
          exit := Failed(end.exc);
          break;
        }
        if f.signalled {
          HandleSignal();
        } else {
          ghost var next := LoopFrom(frames, i + 1, updateInterval).trace;
          assert trace + next == before + (RunFrame(f, updateInterval).trace + next);
        }
        i := i + 1;
      }
    }

    /** `run`: set the flag, initialise curses, loop until the quit key, the
        flag or an exception stops it, then clear the flag and clean up, and only
        then re-raise an exception other than KeyboardInterrupt. */
    method Run(init: InitScript, frames: seq<Frame>) returns (result: RunResult)
      modifies this`running, this`stdscr, this`trace
      ensures result == RunOutcome(init, frames, updateInterval)
      ensures trace == old(trace) + RunTrace(init, frames, updateInterval, old(stdscr))
      ensures stdscr == ScreenAfterInit(init, old(stdscr))
      ensures running <==> result.Unfinished?
    {
      running := true;
      // setup_signal_handlers(): installing HandleSignal is outside the model.
      var failure := InitCurses(init);
      if failure.Some? {
        RunWhenInitFails(init, frames, updateInterval, old(stdscr));
        // finally
        running := false;
        CleanupCurses();
        return Escape(failure.value);
      }
      if init.interrupted {
        // SIGINT or SIGTERM handled while init_curses ran
        HandleSignal();
      }
      ghost var base := trace;
      ghost var loop := MainLoop(init, frames, updateInterval);
      ghost var spec := RunTrace(init, frames, updateInterval, old(stdscr));
      RunAfterInit(init, frames, updateInterval, old(stdscr));
      var exit := Loop(frames);
      if exit.Exhausted? {
        AppendAssoc(old(trace), InitTrace(init), loop.trace);
        return Unfinished;
      }
      // finally
      running := false;
      CleanupCurses();
      result := if exit.Failed? then Escape(exit.exc) else Returned;
      ghost var cleanup := CleanupTrace(stdscr);
      assert spec == InitTrace(init) + loop.trace + cleanup;
      assert trace == old(trace) + InitTrace(init) + loop.trace + cleanup;
      AppendAssoc(old(trace), InitTrace(init), loop.trace);
      AppendAssoc(old(trace), InitTrace(init) + loop.trace, cleanup);
    }
  }

  // ===========================================================================
  // Properties of the run

  /** Making the next call of a sequence extends the prefix made so far. */
  lemma CallsSoFar(before: seq<Event>, calls: seq<Event>, n: nat)
    requires n < |calls|
    ensures before + calls[..n] + [calls[n]] == before + calls[..n + 1]
    ensures n == 0 ==> before + [calls[0]] == before + calls[..1]
  {
    assert calls[..n + 1] == calls[..n] + [calls[n]];
  }

  lemma AppendAssoc(a: seq<Event>, b: seq<Event>, c: seq<Event>)
    ensures a + b + c == a + (b + c)
  {
  }

  /** `run` when `init_curses` raises: straight to cleanup. */
  lemma RunWhenInitFails(init: InitScript, frames: seq<Frame>, interval: real, before: Option<Screen>)
    requires InitFailure(init).Some?
    ensures RunTrace(init, frames, interval, before) == InitTrace(init) + CleanupTrace(ScreenAfterInit(init, before))
    ensures RunOutcome(init, frames, interval) == Escape(InitFailure(init).value)
  {
  }

  /** `run` once `init_curses` has succeeded: the loop, then cleanup unless the script ran out. */
  lemma RunAfterInit(init: InitScript, frames: seq<Frame>, interval: real, before: Option<Screen>)
    requires InitFailure(init).None?
    ensures var loop := MainLoop(init, frames, interval);
      && (loop.exit.Exhausted? ==> RunTrace(init, frames, interval, before) == InitTrace(init) + loop.trace)
      && (!loop.exit.Exhausted? ==>
            RunTrace(init, frames, interval, before) ==
            InitTrace(init) + loop.trace + CleanupTrace(ScreenAfterInit(init, before)))
      && RunOutcome(init, frames, interval) ==
           (match loop.exit
            case Exhausted => Unfinished
            case Failed(e) => Escape(e)
            case Quit => Returned
            case FlagCleared => Returned)
  {
  }

  /** One turn of the loop, by how the frame ends. */
  lemma LoopStep(frames: seq<Frame>, i: nat, interval: real)
    requires i < |frames|
    ensures var r := RunFrame(frames[i], interval);
      var here := LoopFrom(frames, i, interval);
      var next := LoopFrom(frames, i + 1, interval);
      && (r.end.QuitPressed? ==> here == LoopRun(r.trace, Quit))
      && (r.end.FrameFailed? ==> here == LoopRun(r.trace, Failed(r.end.exc)))
      && (r.end.Continue? && frames[i].signalled ==> here == LoopRun(r.trace, FlagCleared))
      && (r.end.Continue? && !frames[i].signalled ==> here == LoopRun(r.trace + next.trace, next.exit))
  {
  }

  /** The calls of the frames that rendered completely, in order. */
  function Rendered(frames: seq<Frame>, interval: real): seq<Event> {
    if frames == [] then [] else FrameCalls(frames[0], interval) + Rendered(frames[1..], interval)
  }

  /** A frame that renders completely and leaves the flag set. */
  predicate KeepsRunning(f: Frame, interval: real) {
    RunFrame(f, interval).end.Continue? && !f.signalled
  }

  /** The loop goes on through every frame that renders and leaves the flag set. */
  lemma {:induction false} LoopSkipsCompleted(frames: seq<Frame>, i: nat, k: nat, interval: real)
    requires i <= k <= |frames|
    requires forall j :: i <= j < k ==> KeepsRunning(frames[j], interval)
    ensures LoopFrom(frames, i, interval).trace == Rendered(frames[i..k], interval) + LoopFrom(frames, k, interval).trace
    ensures LoopFrom(frames, i, interval).exit == LoopFrom(frames, k, interval).exit
    decreases k - i
  {
    if i < k {
      LoopSkipsCompleted(frames, i + 1, k, interval);
      assert frames[i..k][1..] == frames[i + 1..k];
    } else {
      assert frames[i..k] == [];
    }
  }

  /** A frame whose key is 'q' or 'Q' ends the loop right after its `getch`:
      nothing is cleared, drawn, refreshed or slept in that frame, and no later
      frame runs. */
  lemma QuitKeyStopsLoop(frames: seq<Frame>, k: nat, interval: real)
    requires k < |frames|
    requires forall j :: 0 <= j < k ==> KeepsRunning(frames[j], interval)
    requires IsQuitKey(frames[k].key) && FrameFault(frames[k], AtGetCh).None?
    ensures LoopFrom(frames, 0, interval).trace == Rendered(frames[..k], interval) + [GetCh]
    ensures LoopFrom(frames, 0, interval).exit == Quit
  {
    LoopSkipsCompleted(frames, 0, k, interval);
    assert frames[0..k] == frames[..k];
  }

  /** A key other than 'q' or 'Q', with no exception, renders the frame in
      full: clear, the time centred on the middle row, the hint two rows from
      the bottom at the left edge, refresh, then sleep for the interval. */
  lemma OtherKeyRenders(f: Frame, interval: real)
    requires !IsQuitKey(f.key) && f.fault.None?
    ensures var r := RunFrame(f, interval);
      && r.end == Continue && |r.trace| == 7
      && r.trace[..3] == [GetCh, Clear, GetMaxYX]
      && r.trace[3].AddStr? && r.trace[3].y == f.height / 2
      && Chars(r.trace[3].shown) == FormatTime(f.now)
      && (f.width >= TimeWidth ==> 2 * r.trace[3].x <= f.width - TimeWidth <= 2 * r.trace[3].x + 1)
      && (f.width < TimeWidth + 2 ==> r.trace[3].x == 0)
      && r.trace[4] == AddStr(f.height - 2, 0, Literal(Hint))
      && r.trace[5..] == [Refresh, Sleep(interval)]
  {
  }

  /** Once the handler has cleared the flag during a frame, the loop is not re-entered. */
  lemma SignalStopsLoop(frames: seq<Frame>, k: nat, interval: real)
    requires k < |frames|
    requires forall j :: 0 <= j < k ==> KeepsRunning(frames[j], interval)
    requires RunFrame(frames[k], interval).end.Continue? && frames[k].signalled
    ensures LoopFrom(frames, 0, interval).trace == Rendered(frames[..k + 1], interval)
    ensures LoopFrom(frames, 0, interval).exit == FlagCleared
  {
    LoopSkipsCompleted(frames, 0, k, interval);
    assert frames[0..k] == frames[..k];
    RenderedAppend(frames[..k], [frames[k]], interval);
    assert frames[..k] + [frames[k]] == frames[..k + 1];
  }

  lemma {:induction false} RenderedAppend(a: seq<Frame>, b: seq<Frame>, interval: real)
    ensures Rendered(a + b, interval) == Rendered(a, interval) + Rendered(b, interval)
  {
    if a != [] {
      assert (a + b)[1..] == a[1..] + b;
      RenderedAppend(a[1..], b, interval);
    } else {
      assert a + b == b;
    }
  }

  /** The loop never enters `cleanup_curses` itself. */
  lemma {:induction false} LoopHasNoCleanup(frames: seq<Frame>, i: nat, interval: real)
    ensures CleanupStart !in LoopFrom(frames, i, interval).trace
    decreases |frames| - i
  {
    if i < |frames| {
      LoopHasNoCleanup(frames, i + 1, interval);
      var calls := FrameCalls(frames[i], interval);
      assert CleanupStart !in calls;
    }
  }

  /** On every way out of `run` (quit key, cleared flag, KeyboardInterrupt,
      other exception, failed initialisation) `cleanup_curses` runs exactly once,
      as the last thing `run` does. */
  lemma RunCleansUpOnce(init: InitScript, frames: seq<Frame>, interval: real, before: Option<Screen>)
    requires !RunOutcome(init, frames, interval).Unfinished?
    ensures var t := RunTrace(init, frames, interval, before);
      var cleanup := CleanupTrace(ScreenAfterInit(init, before));
      && multiset(t)[CleanupStart] == 1
      && |t| >= |cleanup| && t[|t| - |cleanup|..] == cleanup
  {
    var screen := ScreenAfterInit(init, before);
    InitHasNoCleanup(init);
    if InitFailure(init).Some? {
      assert RunTrace(init, frames, interval, before) == InitTrace(init) + CleanupTrace(screen);
      CleanupComesLast(InitTrace(init), screen);
    } else {
      var loop := MainLoop(init, frames, interval);
      assert !loop.exit.Exhausted?;
      assert RunTrace(init, frames, interval, before) == InitTrace(init) + loop.trace + CleanupTrace(screen);
      LoopHasNoCleanup(frames, 0, interval);
      CleanupComesLast(InitTrace(init) + loop.trace, screen);
    }
  }

  lemma InitHasNoCleanup(init: InitScript)
    ensures CleanupStart !in InitTrace(init)
  {
  }

  lemma CleanupComesLast(prefix: seq<Event>, screen: Option<Screen>)
    requires CleanupStart !in prefix
    ensures var t := prefix + CleanupTrace(screen);
      && multiset(t)[CleanupStart] == 1
      && t[|t| - |CleanupTrace(screen)|..] == CleanupTrace(screen)
  {
    var cleanup := CleanupTrace(screen);
    assert multiset(prefix)[CleanupStart] == 0;
    assert multiset(cleanup)[CleanupStart] == 1;
    assert multiset(prefix + cleanup) == multiset(prefix) + multiset(cleanup);
    assert (prefix + cleanup)[|prefix|..] == cleanup;
  }

  /** A run the script cuts short has not cleaned up. */
  lemma UnfinishedRunHasNotCleanedUp(init: InitScript, frames: seq<Frame>, interval: real, before: Option<Screen>)
    requires RunOutcome(init, frames, interval).Unfinished?
    ensures CleanupStart !in RunTrace(init, frames, interval, before)
  {
    LoopHasNoCleanup(frames, 0, interval);
  }

  /** `initscr` returning None: `run` raises "Failed to initialize curses",
      no frame is drawn, and cleanup finds no screen and makes no terminal call. */
  lemma InitReturnsNoneRun(frames: seq<Frame>, interval: real)
    ensures RunTrace(InitReturnsNone, frames, interval, None) == [InitScr, CleanupStart]
    ensures RunOutcome(InitReturnsNone, frames, interval) == Raised("Failed to initialize curses")
  {
  }

  /** A signal handled while `init_curses` runs: the loop is never entered, no
      key is read, and `run` restores the terminal and returns normally. */
  lemma InterruptedDuringInitRun(screen: Screen, frames: seq<Frame>, interval: real, before: Option<Screen>)
    ensures RunTrace(InitOk(screen, true), frames, interval, before) ==
      [InitScr] + SetupCalls + [CleanupStart] + TeardownCalls
    ensures GetCh !in RunTrace(InitOk(screen, true), frames, interval, before)
    ensures RunOutcome(InitOk(screen, true), frames, interval) == Returned
  {
  }

  /** An exception escapes `run` only if it is not a KeyboardInterrupt, and
      quitting by key or signal returns normally. */
  lemma RunOutcomeCases(init: InitScript, frames: seq<Frame>, interval: real)
    requires InitFailure(init).None?
    ensures var exit := MainLoop(init, frames, interval).exit;
      && (RunOutcome(init, frames, interval) == Returned <==>
            exit.Quit? || exit.FlagCleared? || exit == Failed(KeyboardInterrupt))
      && (forall m :: RunOutcome(init, frames, interval) == Raised(m) <==> exit == Failed(Error(m)))
  {
  }

  // ===========================================================================
  // main

  const IntervalError: string := "Error: Interval must be greater than 0"
  const SmallIntervalWarning: string := "Warning: Very small intervals may cause high CPU usage"

  datatype IntervalCheck = Rejected | Warned | Accepted

  /** The two interval checks of `main`. */
  function CheckInterval(interval: real): (c: IntervalCheck)
    ensures c.Rejected? <==> interval <= 0.0
    ensures c.Warned? <==> 0.0 < interval < 0.001
    ensures c.Accepted? <==> interval >= 0.001
  {
    if interval <= 0.0 then Rejected
    else if interval < 0.001 then Warned
    else Accepted
  }

  /** How the process ends: with an exit code, or not yet when the script runs out. */
  datatype Exit = ExitCode(code: int) | StillRunning

  /** The `main` command after option parsing: reject a non-positive interval,
      warn about a very small one, run a monitor, and map the outcome to an exit
      code and the lines written to standard error. */
  method Command(interval: real, init: InitScript, frames: seq<Frame>)
    returns (exit: Exit, stderr: seq<string>, monitor: TimeMonitor?)
    ensures interval <= 0.0 ==> exit == ExitCode(1) && stderr == [IntervalError] && monitor == null
    ensures interval > 0.0 ==> monitor != null && fresh(monitor) && monitor.updateInterval == interval
    ensures interval > 0.0 ==> monitor.trace == RunTrace(init, frames, interval, None)
    ensures interval > 0.0 ==>
      var outcome := RunOutcome(init, frames, interval);
      && stderr == (if interval < 0.001 then [SmallIntervalWarning] else [])
                   + (if outcome.Raised? then ["Error: " + outcome.message] else [])
      && exit == (match outcome
                  case Returned => ExitCode(0)
                  case Raised(_) => ExitCode(1)
                  case Unfinished => StillRunning)
  {
    stderr := [];
    monitor := null;
    if interval <= 0.0 {
      stderr := stderr + [IntervalError];
      return ExitCode(1), stderr, monitor;
    }
    if interval < 0.001 {
      stderr := stderr + [SmallIntervalWarning];
    }
    monitor := new TimeMonitor(interval);
    var result := monitor.Run(init, frames);
    match result
    case Raised(message) =>
      stderr := stderr + ["Error: " + message];
      exit := ExitCode(1);
    case Returned =>
      exit := ExitCode(0);
    case Unfinished =>
      exit := StillRunning;
  }
}
