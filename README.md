# kbd_backlight in Dafny

kbd_backlight is a one-shot command-line tool that changes a keyboard
backlight's brightness. It reads the maximum level from the
`max_brightness` file, with 100 as the intended fallback. It then selects one action
from the options: `-u k` raises the level by k, `-d k` lowers it by k,
`-s v` sets it to v, `-o` sets it to 0 and `-m` sets it to the maximum. It is
meant to read the current level from the `brightness` file, then it
computes the new level, clamps it to `[0, max]`, writes it back and prints
"Changed level from X to Y".
The C code falls short of the fallback and of the read of the current
level; "## Left out" below says how.

This project models the logic of that program on values:

- `wrappers.dfy`: module `Wrappers` holds the `Option` datatype.
- `args.dfy`: module `ArgParse` models `get_args`.
  - getopt's output is a sequence of `Opt(flag, optarg)`.
  - `Select` is the switch on one option.
  - `GetArgs` is the scanning loop. It stops after the first option.
  - An operand of `-u`, `-d` or `-s` outside `[0, max]` makes it fail.
  - `-h` and unknown flags make it fail too; getopt reports an unknown flag or a missing operand as `?`.
- `levels.dfy`: module `Levels` models `change_level`.
  - `NewLevel` is the action switch followed by the `Clamp` bounds check.
  - `ChangeLevel` adds the failure to open the brightness file and the `ACTION_NONE` failure.
  - The current level is a parameter.
- `backlight.dfy`: module `KbdBacklight` holds the rest.
  - `MaxLevel` models `get_max_level`.
  - `Run` models `main`'s sequence: maximum, then arguments, then the change.
  - `ExitCode` gives the exit status of each outcome.

The model keeps these details of the C code:

- Operands come from `atoi`, so an operand that is not a number is read as 0, and accepted for a non-negative maximum. It is not a parse failure.
- When the maximum file opens but holds no number, `fscanf` leaves the default in place, so the maximum is still 100.
- A negative number in the maximum file is used as it is. `Clamp` then reproduces the C bounds check exactly: for example, `-o` gives the negative maximum. The range property is stated for a non-negative maximum only.
- The brightness file is opened before the action is looked at. So a run with no option and an unopenable brightness file ends in the `err` exit, not in the `ACTION_NONE` failure.

## Model

| member | source | states |
|---|---|---|
| ArgParse.Select | kbd_backlight.c:71-107 | an option is selected exactly when it is `-m`, `-o`, or `-u`/`-d`/`-s` with an operand in `[0, max]`; a selected action is never NONE, and it carries the option's flag and operand |
| ArgParse.SelectRender | kbd_backlight.c:72-101 | every action with an in-range operand is selected back from its own option (round trip) |
| ArgParse.GetArgs | kbd_backlight.c:65-116 | no options leave the action NONE and succeed; otherwise the result is decided by the first option alone, so later options never matter; parsing fails exactly when that first option is not accepted |
| Levels.Clamp | kbd_backlight.c:177-182 | for a non-negative maximum the result lies in `[0, max]`; in-range levels are unchanged; the result is always the level, 0 or the maximum |
| Levels.ClampIsNearest | kbd_backlight.c:177-182 | the clamped level is the level in `[0, max]` nearest to the computed one |
| Levels.ClampIdempotent | kbd_backlight.c:177-182 | clamping an already clamped level changes nothing |
| Levels.NewLevel | kbd_backlight.c:155-182 | the result is absent exactly for ACTION_NONE; every other action yields a level in `[0, max]` when the maximum is non-negative |
| Levels.SetYieldsOperand | kbd_backlight.c:166-182 | `-s v` with `0 <= v <= max` yields exactly v |
| Levels.UpYieldsCappedSum | kbd_backlight.c:160-182 | from an in-range level, `-u k` yields `min(current + k, max)`, which is exactly `max` when the sum exceeds it |
| Levels.DownYieldsFlooredDifference | kbd_backlight.c:163-182 | from an in-range level, `-d k` yields `max(current - k, 0)` |
| Levels.ZeroAndMaxIgnoreCurrent | kbd_backlight.c:169-182 | `-o` yields 0 and `-m` yields the maximum, whatever the current level |
| Levels.UpDownMonotone | kbd_backlight.c:160-182 | from an in-range level, `-u` never lowers the level and `-d` never raises it |
| Levels.ChangeLevel | kbd_backlight.c:137-192 | an unopenable brightness file is the failure exit; ACTION_NONE writes nothing; otherwise the old level is reported and the written level is the clamped new level, in `[0, max]` for a non-negative maximum |
| KbdBacklight.MaxLevel | kbd_backlight.c:118-135 | the maximum is the number in the file, and 100 when the file is missing (the intended fallback, see `fclose(NULL)` under Left out) or holds no number |
| KbdBacklight.Run | kbd_backlight.c:194-215 | help is shown, and nothing is changed, exactly when the first option is not accepted (including an out-of-range operand); otherwise the change is the one the first option selects; the exit status is 0 exactly when the first option is accepted and the brightness file opens; the written level is within `[0, max]` for a non-negative maximum |
| KbdBacklight.ExitCode | kbd_backlight.c:65-215 | the status is always EXIT_SUCCESS or EXIT_FAILURE, and EXIT_SUCCESS exactly when a level was written; help, the `err` exit and ACTION_NONE all give EXIT_FAILURE |

## Left out

- File I/O on the files under `/sys/class/leds/`: `fopen`, `fscanf`, `fprintf` and `fclose`. The number read from each file is a parameter: `MaxFile` for the maximum, and `current: Option<int>` for the brightness file (None means it could not be opened).
- The brightness file is opened with mode `"w+"`, which truncates it before it is read, so the C code reads an uninitialised `curr_level`. The file is also emptied on the ACTION_NONE path. The model takes the current level as an input instead.
- `fclose(NULL)` on the path where the maximum file cannot be opened. That call is undefined behaviour, and common C libraries crash on it, so the C program does not in fact reach the fallback of 100 when the file is missing. `MaxLevel` models the intended fallback instead.
- The help text of `print_help`, the stderr diagnostic of `get_max_level`, and the `printf` of the confirmation line. `Usage` and `Changed(from, to)` record that they happen, not their text.
- The internals of getopt(3) and atoi(3). Options arrive already tokenised and operands already converted. Non-option arguments are not represented, because getopt never returns them.
- The process exit of `err(1, ...)`. It is the `OpenFailed` outcome with status 1.
- Levels.NewLevel: does not model 32-bit `int` overflow of `current + increment` or `current - increment`, because levels and operands are unbounded integers here. For an in-range current level, `current + k` can overflow only when the maximum exceeds INT_MAX / 2, and `current - k` never overflows. An out-of-range current level, such as the uninitialised read, can overflow either way.
- Levels.UpYieldsCappedSum: describes the C program only when the maximum is at most INT_MAX / 2. Above that, `curr_level + args.increment` can overflow for an in-range level and operand, which is undefined behaviour in C.
- ArgParse.GetArgs: the C loop checks `args->action != ACTION_NONE` after each option and breaks. The model checks the same condition before each further option. Both stop after the first option, because every option either selects an action or ends parsing.
