/**
 * The top level of kbd_backlight: the maximum level (get_max_level) and
 * the sequencing of `main`: maximum, then arguments, then the change.
 */
module KbdBacklight {
  import opened Wrappers
  import opened ArgParse
  import opened Levels

  const DEFAULT_MAX_LEVEL := 100
  const EXIT_SUCCESS := 0
  const EXIT_FAILURE := 1

  /** What reading the max_brightness file gives. */
  datatype MaxFile =
    | Missing        // fopen failed: a diagnostic goes to stderr
    | Unparsable     // opened, but fscanf("%d") matched nothing
    | Holds(n: int)  // opened, and fscanf read n

  /**
   * get_max_level: the level read from the file, and the default 100
   * whenever no number could be read (fscanf leaves the default in place
   * when it matches nothing).
   */
  function MaxLevel(file: MaxFile): (r: int)
    ensures file.Holds? ==> r == file.n
    ensures !file.Holds? ==> r == DEFAULT_MAX_LEVEL
  {
    if file.Holds? then file.n else DEFAULT_MAX_LEVEL
  }

  /** How a run ends: the help text (get_args failed), or whatever change_level did. */
  datatype Outcome = Usage | Ran(change: Change)

  /**
   * The process exit status of a run: EXIT_FAILURE after the help text,
   * after err(1, ...) and for ACTION_NONE; EXIT_SUCCESS once a level is written.
   */
  function ExitCode(out: Outcome): (r: int)
    ensures r == EXIT_SUCCESS || r == EXIT_FAILURE
    ensures r == EXIT_SUCCESS <==> out.Ran? && out.change.Changed?
  {
    match out
    case Usage => EXIT_FAILURE
    case Ran(Changed(_, _)) => EXIT_SUCCESS
    case Ran(_) => EXIT_FAILURE
  }

  /**
   * main: read the maximum, parse the options, and change the level only
   * when parsing succeeded. `current` is the level in the brightness file,
   * None when that file cannot be opened.
   */
  method Run(opts: seq<Opt>, maxFile: MaxFile, current: Option<int>) returns (out: Outcome)
    ensures out.Usage? <==> opts != [] && !Accepted(opts[0], MaxLevel(maxFile))
    ensures out.Ran? ==>
      out.change == ChangeLevel(if opts == [] then NoAction else Select(opts[0], MaxLevel(maxFile)).value,
                                current, MaxLevel(maxFile))
    ensures ExitCode(out) == EXIT_SUCCESS <==>
      opts != [] && Accepted(opts[0], MaxLevel(maxFile)) && current.Some?
    ensures out.Ran? && out.change.Changed? && 0 <= MaxLevel(maxFile) ==>
      0 <= out.change.to <= MaxLevel(maxFile)
  {
    var maxLevel := MaxLevel(maxFile);
    var parsed := GetArgs(opts, maxLevel);
    if parsed.None? {
      return Usage;
    }
    out := Ran(ChangeLevel(parsed.value, current, maxLevel));
  }
}
