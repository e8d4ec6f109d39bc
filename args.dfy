/**
 * Argument selection of kbd_backlight (get_args).
 *
 * getopt(3) with the option string "u:d:s:moh" is not modelled: its output
 * is taken as a sequence of options, each an option character (getopt's
 * '?' for an unknown flag or for -u/-d/-s without an operand) and, for the
 * flags that take one, the operand already converted by atoi(3), so text
 * that is not a number arrives here as 0.
 */
module ArgParse {
  import opened Wrappers

  /** One option as getopt reports it. `optarg` only means something for -u, -d and -s. */
  datatype Opt = Opt(flag: char, optarg: int)

  /**
   * The action selected on the command line, with the operand of the
   * actions that have one (the C code keeps the operand in a union beside
   * the action tag; NoAction is ACTION_NONE, the value `main` starts from).
   */
  datatype Arguments =
    | NoAction
    | Up(increment: int)
    | Down(increment: int)
    | Set(level: int)
    | Zero
    | Max

  /** The flags whose operand is checked against the maximum level. */
  predicate TakesOperand(flag: char) {
    flag == 'u' || flag == 'd' || flag == 's'
  }

  /** The options get_args lets through: -m, -o, and -u/-d/-s with an operand in [0, maxLevel]. */
  predicate Accepted(o: Opt, maxLevel: int) {
    o.flag == 'm' || o.flag == 'o' || (TakesOperand(o.flag) && 0 <= o.optarg <= maxLevel)
  }

  /** The option that selects action `a` (the operand is 0 for actions without one). */
  function Render(a: Arguments): Opt {
    match a
    case NoAction => Opt('?', 0)
    case Up(k) => Opt('u', k)
    case Down(k) => Opt('d', k)
    case Set(v) => Opt('s', v)
    case Zero => Opt('o', 0)
    case Max => Opt('m', 0)
  }

  /**
   * The switch of get_args on one option: the action it selects, or None
   * when get_args prints the help text and returns EXIT_FAILURE (-h, an
   * unknown flag, or an operand outside [0, maxLevel]).
   */
  function Select(o: Opt, maxLevel: int): (r: Option<Arguments>)
    ensures r.Some? <==> Accepted(o, maxLevel)
    ensures r.Some? ==> r.value != NoAction && Render(r.value).flag == o.flag
    ensures r.Some? && TakesOperand(o.flag) ==> Render(r.value).optarg == o.optarg
  {
    if o.flag == 'u' then
      if o.optarg < 0 || o.optarg > maxLevel then None else Some(Up(o.optarg))
    else if o.flag == 'd' then
      if o.optarg < 0 || o.optarg > maxLevel then None else Some(Down(o.optarg))
    else if o.flag == 's' then
      if o.optarg < 0 || o.optarg > maxLevel then None else Some(Set(o.optarg))
    else if o.flag == 'm' then
      Some(Max)
    else if o.flag == 'o' then
      Some(Zero)
    else
      None
  }

  /** Every action with an in-range operand is selected back from the option that renders it. */
  lemma SelectRender(a: Arguments, maxLevel: int)
    requires a != NoAction
    requires (a.Up? || a.Down?) ==> 0 <= a.increment <= maxLevel
    requires a.Set? ==> 0 <= a.level <= maxLevel
    ensures Select(Render(a), maxLevel) == Some(a)
  {
  }

  /**
   * get_args: scan the options and stop after the first one. The scan
   * keeps going only while no action has been selected, which is the
   * C loop's `break` once `args->action != ACTION_NONE`, checked before
   * each further option instead of after each one.
   */
  method GetArgs(opts: seq<Opt>, maxLevel: int) returns (r: Option<Arguments>)
    ensures opts == [] ==> r == Some(NoAction)
    ensures opts != [] ==> r == Select(opts[0], maxLevel)
    ensures r.None? <==> opts != [] && !Accepted(opts[0], maxLevel)
  {
    var args := NoAction;
    var i := 0;
    while i < |opts| && args == NoAction
      invariant 0 <= i <= |opts|
      invariant args == NoAction ==> i == 0
      invariant args != NoAction ==> i == 1 && Select(opts[0], maxLevel) == Some(args)
    {
      var chosen := Select(opts[i], maxLevel);
      if chosen.None? {
        return None;
      }
      args := chosen.value;
      i := i + 1;
    }
    return Some(args);
  }
}
