/**
 * The three prompts of the game and the random draw that picks one
 * (BopIt/main.cpp, enum Action and get_random_action).
 */
module Actions {
  /** BOP is the button, PULL the switch, TWIST the tilt of the board. */
  datatype Action = Bop | Pull | Twist

  /** The enumerator's value in the C enum (BOP = 0, PULL = 1, TWIST = 2). */
  function Index(a: Action): (i: nat)
    ensures i < 3
  {
    match a
    case Bop => 0
    case Pull => 1
    case Twist => 2
  }

  /** The cast `(Action) i` for an in-range value. */
  function FromIndex(i: nat): (a: Action)
    requires i < 3
    ensures Index(a) == i
  {
    if i == 0 then Bop else if i == 1 then Pull else Twist
  }

  /** `(Action)(rand() % 3)`, with the value `r` returned by `rand()` as input. */
  function RandomAction(r: nat): (a: Action)
    ensures Index(a) == r % 3
  {
    FromIndex(r % 3)
  }

  /** Every action can be drawn, and the draw depends only on `r` modulo 3. */
  lemma RandomActionCoversAll(a: Action, r: nat)
    ensures RandomAction(Index(a)) == a
    ensures RandomAction(r + 3) == RandomAction(r)
  {
  }
}
