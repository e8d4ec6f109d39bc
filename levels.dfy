/**
 * The arithmetic of kbd_backlight's change_level: the switch on the action
 * and the bounds check that follows it. The current level is an input here
 * instead of being read from the brightness file.
 */
module Levels {
  import opened Wrappers
  import opened ArgParse

  function Min(a: int, b: int): int { if a <= b then a else b }
  function MaxOf(a: int, b: int): int { if a <= b then b else a }
  function Dist(a: int, b: int): nat { if a <= b then b - a else a - b }

  /**
   * The bounds check: a level above maxLevel becomes maxLevel, else a
   * negative level becomes 0. With maxLevel < 0 (a maximum file holding a
   * negative number) the result can lie outside [0, maxLevel].
   */
  function Clamp(level: int, maxLevel: int): (r: int)
    ensures 0 <= maxLevel ==> 0 <= r <= maxLevel
    ensures 0 <= level <= maxLevel ==> r == level
    ensures r == level || r == 0 || r == maxLevel
  {
    if level > maxLevel then maxLevel
    else if level < 0 then 0
    else level
  }

  /** For a non-negative maximum, the clamped level is the level in [0, maxLevel] nearest to the input. */
  lemma ClampIsNearest(level: int, maxLevel: int, w: int)
    requires 0 <= w <= maxLevel
    ensures 0 <= Clamp(level, maxLevel) <= maxLevel
    ensures Dist(Clamp(level, maxLevel), level) <= Dist(w, level)
  {
  }

  /** Clamping twice is clamping once. */
  lemma ClampIdempotent(level: int, maxLevel: int)
    requires 0 <= maxLevel
    ensures Clamp(Clamp(level, maxLevel), maxLevel) == Clamp(level, maxLevel)
  {
  }

  /**
   * The level change_level writes for `args` given the current level, or
   * None for ACTION_NONE, where it fails without writing.
   */
  function NewLevel(args: Arguments, current: int, maxLevel: int): (r: Option<int>)
    ensures r.None? <==> args == NoAction
    ensures r.Some? && 0 <= maxLevel ==> 0 <= r.value <= maxLevel
  {
    match args
    case NoAction => None
    case Up(k) => Some(Clamp(current + k, maxLevel))
    case Down(k) => Some(Clamp(current - k, maxLevel))
    case Set(v) => Some(Clamp(v, maxLevel))
    case Zero => Some(Clamp(0, maxLevel))
    case Max => Some(Clamp(maxLevel, maxLevel))
  }

  /** -s v with v in range sets the level to exactly v. */
  lemma SetYieldsOperand(v: int, current: int, maxLevel: int)
    requires 0 <= v <= maxLevel
    ensures NewLevel(Set(v), current, maxLevel) == Some(v)
  {
  }

  /** -u k from an in-range level raises the level by k, capped at the maximum. */
  lemma UpYieldsCappedSum(k: int, current: int, maxLevel: int)
    requires 0 <= current <= maxLevel
    requires 0 <= k <= maxLevel
    ensures NewLevel(Up(k), current, maxLevel) == Some(Min(current + k, maxLevel))
    ensures current + k > maxLevel ==> NewLevel(Up(k), current, maxLevel) == Some(maxLevel)
  {
  }

  /** -d k from an in-range level lowers the level by k, floored at 0. */
  lemma DownYieldsFlooredDifference(k: int, current: int, maxLevel: int)
    requires 0 <= current <= maxLevel
    requires 0 <= k <= maxLevel
    ensures NewLevel(Down(k), current, maxLevel) == Some(MaxOf(current - k, 0))
  {
  }

  /** -o and -m ignore the current level: they give 0 and the maximum. */
  lemma ZeroAndMaxIgnoreCurrent(current: int, maxLevel: int)
    requires 0 <= maxLevel
    ensures NewLevel(Zero, current, maxLevel) == Some(0)
    ensures NewLevel(Max, current, maxLevel) == Some(maxLevel)
  {
  }

  /** From an in-range level, -u never dims and -d never brightens. */
  lemma UpDownMonotone(k: int, current: int, maxLevel: int)
    requires 0 <= current <= maxLevel
    requires 0 <= k
    ensures NewLevel(Up(k), current, maxLevel).value >= current
    ensures NewLevel(Down(k), current, maxLevel).value <= current
  {
  }

  /** What change_level reports once the brightness file has (or has not) been opened. */
  datatype Change =
    | OpenFailed              // fopen failed: err(1, ...) names the path and exits
    | NothingToDo             // ACTION_NONE: EXIT_FAILURE, no level written
    | Changed(from: int, to: int)  // `to` written back, "Changed level from <from> to <to>" printed

  /**
   * change_level: `current` is the level read from the brightness file,
   * None when that file cannot be opened.
   */
  function ChangeLevel(args: Arguments, current: Option<int>, maxLevel: int): (r: Change)
    ensures r.OpenFailed? <==> current.None?
    ensures r.NothingToDo? <==> current.Some? && args == NoAction
    ensures r.Changed? ==> current == Some(r.from) && NewLevel(args, r.from, maxLevel) == Some(r.to)
    ensures r.Changed? && 0 <= maxLevel ==> 0 <= r.to <= maxLevel
  {
    if current.None? then OpenFailed
    else
      match NewLevel(args, current.value, maxLevel)
      case None => NothingToDo
      case Some(level) => Changed(current.value, level)
  }
}
