# time-monitor in Dafny

A model of the two pieces of `time-monitor` that hold logic:

- **The terminal clock** (`src/time_monitor/cli.py`). A `TimeMonitor` keeps an
  update interval, a `running` flag and a curses screen. `run` sets the flag,
  installs a SIGINT/SIGTERM handler that clears it, and initialises curses. It
  then loops while the flag holds: poll a key, stop on 'q' or 'Q', clear the
  screen, draw the current time (milliseconds, centred) and a hint line,
  refresh, sleep. On the way out it always clears the flag and restores the
  terminal. A KeyboardInterrupt is swallowed; any other exception is re-raised
  after cleanup. `main` rejects a non-positive interval, warns about a very
  small one, and turns the result of `run` into an exit code.
- **The validators and records** (`src/time_monitor/core.py`): `greet`;
  `calculate_sum` and the `CalculationResult` record with its type checks;
  `create_user_profile` and the `UserProfile` constraints with the name and tag
  normalisation of its model validator; and the defaults of `ApplicationConfig`.

Files:

- `wrappers.dfy`: `Option`, `Result`, `Outcome`.
- `text.dfy`: Python's `strip`, `lower`, `title` and `isdigit` over ASCII, and
  zero-padded decimal fields as `strftime` writes them.
- `clock.dfy`: the calendar fields of a `datetime`.
- `core.dfy`: `core.py`.
- `cli.dfy`: `cli.py`.

The terminal is modelled as a log of the calls the monitor makes: the
`trace` field of `TimeMonitor`. Every curses call and every `time.sleep`
appends one `Event`; a call that raises appends nothing. `CleanupStart`
marks entry into `cleanup_curses`. The outside world is a script fixed in
advance:

- an `InitScript` says how `init_curses` fares;
- each `Frame` gives the key `getch` returns, the instant `datetime.now`
  returns, the size `getmaxyx` returns, which call (if any) raises what, and
  whether the signal handler runs during that frame.

Each step is specified by a function of the script: `InitTrace`, `RunFrame`,
`LoopFrom`, `RunTrace`, `RunOutcome`. The methods of `TimeMonitor` are proved
to append exactly those calls and to return exactly that outcome. The lemmas
below are proved about those functions.

## Model

| member | source | states |
|---|---|---|
| `Text.Strip` | src/time_monitor/core.py:115-119 | `str.strip()`: the result has no leading or trailing whitespace. It is empty exactly when the input is all whitespace. It is the run of the input that starts at the first non-whitespace character, and only whitespace follows it. |
| `Text.StripOfPadded` | src/time_monitor/core.py:119 | any whitespace put around a stripped string strips off again, giving back exactly that string |
| `Text.StrippedIsFixed` | src/time_monitor/core.py:119 | a string with no whitespace at either end strips to itself |
| `Text.StripIdempotent` | src/time_monitor/core.py:35 | stripping twice is stripping once |
| `Text.LowerStr` | src/time_monitor/core.py:38 | `str.lower()` keeps the length and lower-cases each character, changing only letters |
| `Text.LowerStrIdempotent` | src/time_monitor/core.py:38 | lower-casing twice is lower-casing once |
| `Text.Title` | src/time_monitor/core.py:35 | `str.title()`: same length, and non-letters unchanged. A letter is upper-case exactly when it starts the string or follows a non-letter; every letter keeps its identity. |
| `Text.TitleIdempotent` | src/time_monitor/core.py:35 | title-casing twice is title-casing once |
| `Text.TitleKeepsSpaces` | src/time_monitor/core.py:35 | title-casing changes no whitespace, so it cannot undo a strip |
| `Text.Digits` | src/time_monitor/cli.py:70 | the `%Y`/`%m`/`%f`-style field has exactly the requested width |
| `Text.DigitsAreDigits` | src/time_monitor/cli.py:70 | the field is made of decimal digits only |
| `Text.DigitsRoundTrip` | src/time_monitor/cli.py:70 | a field of a number that fits in its width reads back as that number |
| `Text.DigitsDropLast` | src/time_monitor/cli.py:70 | dropping the last digit of a field gives the field of the number divided by ten |
| `Core.Greet` | src/time_monitor/core.py:97-121 | A non-string raises TypeError "Name must be a string" before anything else. A string that is blank after stripping raises ValueError "Name cannot be empty". Otherwise the result is "Hello, " + strip(name) + "!". |
| `Core.GreetIgnoresPadding` | src/time_monitor/core.py:115-119 | whitespace around a name never changes the greeting |
| `Core.GreetingHoldsStrippedName` | src/time_monitor/core.py:119-121 | a greeting reads back as "Hello, ", then the stripped non-blank name, then "!" |
| `Core.CheckResultTypes` | src/time_monitor/core.py:60-67 | Passes exactly when both operands and the result are numbers and the operation is a string. Otherwise it fails with the message of the first failing check, in the order operand_a, operand_b, operation, result. |
| `Core.CalculationResult.constructor` | src/time_monitor/core.py:46-54 | the dataclass stores each field as given |
| `Core.CalculationResult.PostInit` | src/time_monitor/core.py:56-67 | A missing timestamp becomes `now` and a present one is kept. The outcome is the ordered type check. |
| `Core.CalculationResult.ToDict` | src/time_monitor/core.py:69-77 | the dictionary has exactly the five keys operand_a, operand_b, operation, result and timestamp, each holding its field |
| `Core.NewCalculationResult` | src/time_monitor/core.py:46-67 | Construction fails exactly when the type check fails, with its error. Otherwise the fresh record holds the given fields and a timestamp. |
| `Core.Add` | src/time_monitor/core.py:147 | The sum is a number, and an integer exactly when both operands are integers. Its value is the sum of the operands' values. |
| `Core.AddCommutes` | src/time_monitor/core.py:147 | `a + b == b + a` on numbers |
| `Core.CalculateSum` | src/time_monitor/core.py:124-151 | A non-number in either position gives TypeError "Both arguments must be numbers". Two numbers give a fresh record with operand_a = a, operand_b = b, operation "addition", result a + b, stamped now. |
| `Core.IndexOfAt` | src/time_monitor/core.py:22 | the index found holds the first '@' (or is the length when there is none) |
| `Core.EmailCheckMatchesPattern` | src/time_monitor/core.py:22 | The email check holds exactly when the string matches `^[^@]+@[^@]+\.[^@]+$`, read position by position. This holds in both directions. |
| `Core.EmailExampleAccepted` | src/time_monitor/core.py:22 | "john@example.com" is accepted |
| `Core.EmailExamplesRejected` | src/time_monitor/core.py:22 | "invalid-email", "@example.com" and "john@" are rejected |
| `Core.FieldFailures` | src/time_monitor/core.py:21-23 | Only field errors are reported, for name, email and age, in that order. Each is reported exactly when its constraint fails: name length 1..100, the email pattern, age absent or 0..120. |
| `Core.NormalizeName` | src/time_monitor/core.py:35 | The normalised name is no longer than the input and is stripped. A digit-free input gives a digit-free result. |
| `Core.NormalizeNameIdempotent` | src/time_monitor/core.py:35 | a normalised name is already title-cased, and normalising it again changes nothing |
| `Core.TitleKeepsNoDigit` | src/time_monitor/core.py:33-35 | stripping and title-casing introduce no digit |
| `Core.StripExample` | src/time_monitor/core.py:35 | "  john doe  " strips to "john doe" |
| `Core.NameExample` | src/time_monitor/core.py:35 | "  john doe  " normalises to "John Doe" |
| `Core.TitleExample` | src/time_monitor/core.py:35 | "john doe".title() is "John Doe" |
| `Core.BlankNameBecomesEmpty` | src/time_monitor/core.py:21-35 | the length limit is checked before stripping, so "   " passes it and is stored as "" |
| `Core.NormalizeTag` | src/time_monitor/core.py:38 | One tag gives at most one tag. It gives none exactly when it is blank. What it gives is non-empty, stripped and lower-case. |
| `Core.NormalizeTags` | src/time_monitor/core.py:38 | no more tags come out than went in |
| `Core.NormalizedTagsAreClean` | src/time_monitor/core.py:38 | every tag that comes out is non-empty, stripped and lower-case |
| `Core.NormalizeTagsAppend` | src/time_monitor/core.py:38 | normalisation works tag by tag, so it keeps the input order |
| `Core.NormalizeOneTag` | src/time_monitor/core.py:38 | a tag is dropped exactly when it is blank, and is otherwise kept stripped and lower-cased |
| `Core.NormalizeTagsIdempotent` | src/time_monitor/core.py:38 | normalising the tags twice is normalising them once |
| `Core.AcceptedProfileValid` | src/time_monitor/core.py:18-38 | Input that passes the field constraints and has no digit in the name is stored with an email and age that pass their constraints, a stripped, title-cased, digit-free name, and tags that normalise to themselves. The length limit is not re-established: the stored name may become empty (see `Core.BlankNameBecomesEmpty`). |
| `Core.UserProfile.constructor` | src/time_monitor/core.py:18-27 | the model stores each field as given |
| `Core.UserProfile.ValidateModel` | src/time_monitor/core.py:29-40 | A name with a digit fails with "Name cannot contain numbers" and changes nothing. Otherwise the name becomes its stripped title form and the tags their normalised list, in place. |
| `Core.NewUserProfile` | src/time_monitor/core.py:18-40 | Field errors are all reported together. The digit check runs only when the fields pass. A profile that gets through is fresh. It passes the email check and the age range, its name is digit-free, stripped and title-cased (and may be empty, see `Core.BlankNameBecomesEmpty`), and its tags normalise to themselves. It holds the normalised name and tags, the given email and age, and the creation time. |
| `Core.CreateUserProfile` | src/time_monitor/core.py:154-186 | Fails exactly when the fields fail or the name has a digit. The ValidationError carries every field failure, or else the digit message. On success the profile holds the normalised name and tags, the given email and age, and the creation time. Missing tags become the empty list. |
| `Core.ApplicationConfig.constructor` | src/time_monitor/core.py:80-93 | Every field takes its default or the given value. Missing features become ["basic", "logging"], and given features are kept. |
| `Core.ApplicationConfig.PostInit` | src/time_monitor/core.py:90-93 | a missing feature list becomes the default, and a present one is kept |
| `Core.DefaultConfig` | src/time_monitor/core.py:84-93 | debug off, log level "INFO", 1000 users, timeout 30.0, features ["basic", "logging"] |
| `Cli.StrfTime` | src/time_monitor/cli.py:70 | the full `%Y-%m-%d %H:%M:%S.%f` text is 26 characters |
| `Cli.FormatTime` | src/time_monitor/cli.py:63-70 | the display is always 23 characters, whatever the instant |
| `Cli.FormatTimeLayout` | src/time_monitor/cli.py:63-70 | The display has '-' at 4 and 7, ' ' at 10, ':' at 13 and 16, and '.' at 19. Its last three characters are the milliseconds field. |
| `Cli.MillisecondsOfMicroseconds` | src/time_monitor/cli.py:70 | cutting three digits off the microsecond field gives the milliseconds, truncated |
| `Cli.FormatTimeMilliseconds` | src/time_monitor/cli.py:70 | the last three characters read back as microseconds div 1000 |
| `Cli.FormatTimeRoundTrip` | src/time_monitor/cli.py:63-70 | reading the display back gives the instant with its microseconds truncated to whole milliseconds |
| `Cli.Column` | src/time_monitor/cli.py:96 | The column is never negative, and is 0 exactly when fewer than two columns are spare. When the text fits, the left margin is at most the right margin and at most one less than it. |
| `Cli.CentringExample` | src/time_monitor/cli.py:94-96 | a 24 x 80 screen puts the 23-character time at row 12, column 28 |
| `Cli.Chars` | src/time_monitor/cli.py:91-99 | the time written to the screen is 23 characters |
| `Cli.FrameCalls` | src/time_monitor/cli.py:84-110 | a fully rendered frame makes seven calls |
| `Cli.TimeMonitor.constructor` | src/time_monitor/cli.py:19-28 | stores the interval (default 0.05), the flag is false, there is no screen, and no call has been made |
| `Cli.TimeMonitor.HandleSignal` | src/time_monitor/cli.py:33-35 | the handler's only effect is clearing the flag |
| `Cli.TimeMonitor.InitCurses` | src/time_monitor/cli.py:40-52 | Raises exactly what the script says, including an error with message "Failed to initialize curses" when `initscr` returns None. Leaves `stdscr` as `initscr` returned it. Makes initscr, noecho, cbreak, keypad(True), nodelay(True), curs_set(0) in order, up to the call that raises. |
| `Cli.TimeMonitor.CleanupCurses` | src/time_monitor/cli.py:54-61 | With a screen it makes nocbreak, keypad(False), echo, endwin in that order; without one it makes no terminal call. It leaves `stdscr` as it is. |
| `Cli.TimeMonitor.RenderFrame` | src/time_monitor/cli.py:84-110 | One loop body: the calls and ending that `RunFrame` specifies for the frame. |
| `Cli.TimeMonitor.Loop` | src/time_monitor/cli.py:81-110 | The loop runs frames only while the flag holds. It makes exactly the calls `LoopFrom` specifies and stops for the same reason. The flag ends false exactly when the handler cleared it. |
| `Cli.TimeMonitor.Run` | src/time_monitor/cli.py:72-120 | Makes exactly the calls `RunTrace` specifies, in order, and ends as `RunOutcome` says: returns, re-raises with the message, or is still running when the script ends. The flag ends false whenever `run` has ended. |
| `Cli.RunWhenInitFails` | src/time_monitor/cli.py:78-79 | when `init_curses` raises, `run` goes straight to cleanup and ends as the `except` clauses say |
| `Cli.RunAfterInit` | src/time_monitor/cli.py:78-120 | after a successful `init_curses` come the loop's calls and then cleanup; the outcome is the loop's exit, with a KeyboardInterrupt swallowed |
| `Cli.LoopStep` | src/time_monitor/cli.py:81-110 | one turn of the loop: stop on the quit key, an exception or a cleared flag, and otherwise go on to the next frame |
| `Cli.LoopSkipsCompleted` | src/time_monitor/cli.py:81-110 | frames that render and leave the flag set contribute exactly their full calls, one after another, and the loop carries on after them |
| `Cli.QuitKeyStopsLoop` | src/time_monitor/cli.py:84-87 | After the frames before it, a 'q' or 'Q' frame adds only its `getch`. No clear, draw, refresh or sleep follows, and the loop exits. |
| `Cli.OtherKeyRenders` | src/time_monitor/cli.py:89-110 | Any other key renders in full: getch, clear, getmaxyx, then the time at row height div 2 in the centring column, then "Press 'q' to quit" at (height-2, 0), then refresh, then sleep(interval). |
| `Cli.SignalStopsLoop` | src/time_monitor/cli.py:33-35 | once the handler has cleared the flag during a frame, that frame finishes and no further frame runs |
| `Cli.RunCleansUpOnce` | src/time_monitor/cli.py:112-120 | on every exit path `cleanup_curses` runs exactly once, as the last thing `run` does |
| `Cli.UnfinishedRunHasNotCleanedUp` | src/time_monitor/cli.py:117-119 | cleanup belongs to the `finally` clause alone: a run still looping has not entered it |
| `Cli.InitReturnsNoneRun` | src/time_monitor/cli.py:43-47 | When `initscr` returns None, `run` raises "Failed to initialize curses". The only calls are initscr and the entry into cleanup, which makes no terminal call. |
| `Cli.InterruptedDuringInitRun` | src/time_monitor/cli.py:81 | a signal handled during initialisation means no frame runs; `run` restores the terminal and returns |
| `Cli.RunOutcomeCases` | src/time_monitor/cli.py:112-116 | `run` returns exactly when the loop ends by key, by flag or by KeyboardInterrupt, and raises message m exactly when an `Exception` with message m escaped the loop |
| `Cli.CheckInterval` | src/time_monitor/cli.py:149-156 | an interval is rejected exactly when it is <= 0, warned about exactly when it is in (0, 0.001), and accepted without warning from 0.001 up |
| `Cli.Command` | src/time_monitor/cli.py:149-164 | An interval <= 0 prints "Error: Interval must be greater than 0", exits 1 and builds no monitor. A small interval prints the warning and still runs. An exception from `run` prints "Error: " + message and exits 1. Otherwise the exit code is 0. |

## Left out

- curses itself: the calls are events in a log, and what they return or raise comes from the script. Library errors such as writing outside a small screen appear only as a scripted exception.
- `cleanup_curses` is modelled as not raising; an exception from `endwin` and its neighbours is not modelled.
- Signal registration (`signal.signal`) and asynchronous delivery. The handler's effect on the flag is applied at the end of the frame it interrupts, or after `init_curses` when it arrives during initialisation. Because the handler only clears the flag, both orders give the same calls.
- `time.sleep` timing, logging, the log file and stream handlers, click's option parsing and `sys.exit`: only the messages on standard error and the exit code are modelled.
- `datetime.now` and the profile's creation time are parameters. The `isoformat` text of `to_dict`'s timestamp is not modelled; the entry holds the timestamp itself.
- Calendar validity: a `DateTime` has day 1..31 for every month.
- `Cli.FormatTime`: the year is written with four digits, zero padded. Some C libraries write years below 1000 without padding, which would make the display shorter; that is not modelled.
- A script that ends while the loop is still running gives `Unfinished`. The model then says nothing about the rest of that run, so there is no `finally` and no cleanup.
- The loop's `else` branch for a missing screen (cli.py:104-107) is not modelled. `init_curses` raises whenever it leaves `stdscr` None, so `Cli.TimeMonitor.Loop` can require a screen.
- Exception classes other than KeyboardInterrupt are not distinguished: an exception is `Error(message)`, keeping only `str(e)`. The RuntimeError of `init_curses` and any curses error are both such an `Error`.
- NaN and infinite intervals are not modelled; the interval is a real number.
- `Core.CalculateSum`: float operands are added as exact reals, so IEEE rounding is not modelled. Python's `bool` being an `int` is not modelled either.
- pydantic internals: type coercion of the fields, the `json_encoders` configuration, and the text and location details of its error objects. Only which constraints failed, in order, is kept.
- Strings are ASCII for `strip`, `lower`, `title` and `isdigit`; Unicode whitespace, letters, digits and case rules are not modelled.
- The demo `main` of core.py prints examples and is not modelled. `src/time_monitor/__init__.py` only re-exports names.
- Calling `cleanup_curses` twice with a screen repeats nocbreak, keypad(False), echo and endwin, because `stdscr` is never reset. The model follows the code here and makes no claim that cleanup is idempotent.
