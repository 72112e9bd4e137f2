# Bop It reaction-game engine, modelled in Dafny

This project models the game engine of a "Bop It" reflex game for an FPGA
board (`BopIt/main.cpp`). The game prompts one of three actions: BOP (press
button 0), PULL (raise switch 0) or TWIST (tilt the board). The player must
perform it within a window that shrinks as the score grows. A wrong action, or
no action before the window closes, ends the run. The high score survives
from run to run.

The model replaces the hardware by inputs:

- each pass of the poll loop is a `Tick`: the milliseconds since the prompt
  started (`now_ms() - action_start_time`) and a `Sample` holding what the
  button, the switch and the tilt test would read;
- `rand()` is a non-negative draw `r`;
- the start press is a sequence of button readings.

The source checks each channel at most once per pass of the poll loop, so one
sample per pass is exact.

Modules:

- `Timing` holds the window rule.
- `Actions` holds the action enum and the random draw.
- `Edge` holds the two rising-edge detectors and what successive calls of each
  return.
- `Arbiter` holds `check_action`, `wrong_action_performed` and one poll.
  `wrong_action_performed` and the poll also return the list of channels
  whose detector was called.
- `Passes` reads the poll loop of a round pass by pass: which pass decides
  the round, and how each way of ending it follows from the passes before.
- `Game` holds the poll loop of a round, the round loop of `play_game`, the
  high-score update, `wait_for_start` and the loop of `main`, all as
  functions.
- `GameEngine.Engine` is the program as it runs. The function-local `static`
  memories `last_btn` and `last_sw`, and `main`'s `high_score`, are fields of
  the class. The methods keep the source's loops, `break`s and flags. Each
  method is proved equal to its function: the detectors to those in `Edge`,
  `check_action` and `wrong_action_performed` to those in `Arbiter`, and the
  loops to those in `Game`. `reset_switch_state` is proved to change nothing.
- `Display` holds the digit loop of `display_score`, using C's truncating
  `/` and `%`.

The source's loops never end (`while (true)`, and polling until a press or a
deadline). The model runs them over a finite script of inputs. When the
script runs out while the source would still be looping, the result is
`Unfinished` (or "not pressed"). Nothing the source does after that loop
happens in the model: in particular, the high score is not updated.

Where the code and its own comments disagree, the model follows the code:

- `reset_switch_state` (main.cpp:240-242) only reads the switches and throws
  the value away. Its comments (main.cpp:238 and main.cpp:241) say it resets,
  or updates, the switch tracking, but the memory `last_sw` is a static local
  of `switch_pulled` and the call does not touch it. The model treats it as a
  no-op. `Game.SwitchRaisedBeforePollingCounts` shows what follows: a switch
  raised after its last read, for example during the prompt's tone, wins a
  PULL round on the first poll.

Two consequences of the detectors' code that the model makes explicit:

- The button detector's memory starts at `0` (main.cpp:202), so a button
  already held on the first call reports an edge (`Edge.FirstCallDiffers`).
  The switch detector's memory starts at `-1` (main.cpp:218).
- Bit 0 of `-1` is set, so from that memory the bit test of `switch_pulled`
  (main.cpp:229) already returns false. The sentinel branch (main.cpp:222-225)
  therefore returns exactly what the bit test would, and stores the reading
  as the other path does. The two detectors compute the same function of
  memory and reading, a reading of `-1` included, and differ only in their
  initial memory, `0` against `-1` (`Edge.SwitchEdge`,
  `Edge.SwitchEdgesMatchButton`).

## Model

| member | source | states |
|---|---|---|
| `Timing.TimeLimit` | BopIt/main.cpp:286-292 | The window is at least MIN_TIME (800) and at least BASE_TIME - score * TIME_DECREMENT (3000 - 150 * score), and equals one of the two, so it is their maximum |
| `Timing.TimeLimitNonIncreasing` | BopIt/main.cpp:286-292 | A higher score never gets a longer window |
| `Timing.TimeLimitBounds` | BopIt/main.cpp:286-292 | For a score of 0 or more, the window lies between 800 and 3000 ms |
| `Timing.FloorReachedAtFifteen` | BopIt/main.cpp:286-292 | The window equals the 800 ms floor exactly when the score is 15 or more |
| `Timing.TimeLimitExamples` | BopIt/main.cpp:48-50 | With the constants 3000/800/150: score 0 gets 3000 ms, 10 gets 1500, 14 gets 900, and 15, 20 and 50 get 800 |
| `Actions.Index` | BopIt/main.cpp:33-37 | The enum values of BOP, PULL and TWIST are below 3 |
| `Actions.FromIndex` | BopIt/main.cpp:280 | Casting a value below 3 to `Action` gives the enumerator with that value |
| `Actions.RandomAction` | BopIt/main.cpp:279-281 | The drawn action is the enumerator whose value is `r % 3` |
| `Actions.RandomActionCoversAll` | BopIt/main.cpp:279-281 | Every action can be drawn, and the draw depends only on `r` modulo 3 |
| `Edge.ButtonEdge` | BopIt/main.cpp:201-212 | One call of `button_pressed` reports exactly when bit 0 of the reading is set and differs from bit 0 of the stored memory; a report implies the reading changed |
| `Edge.SwitchEdge` | BopIt/main.cpp:217-235 | One call of `switch_pulled` never reports from the sentinel -1, and in every case reports exactly what `button_pressed` would from the same memory |
| `Edge.ButtonEdges` | BopIt/main.cpp:201-212 | Call i of `button_pressed` is true exactly when bit 0 of reading i is 1 and bit 0 of the previous reading (or of the stored memory, for the first call) is 0; two calls in a row never both report |
| `Edge.SwitchEdges` | BopIt/main.cpp:217-235 | Successive calls of `switch_pulled` return one result per reading, and the first call from the sentinel -1 returns false |
| `Edge.FirstCallDiffers` | BopIt/main.cpp:202-224 | At power-on, a held button reports an edge on its first call; a raised switch does not |
| `Edge.SwitchEdgesMatchButton` | BopIt/main.cpp:201-235 | From any memory, the sentinel -1 included, and for any readings, successive switch calls return exactly what successive button calls would |
| `Edge.SwitchBaselineCall` | BopIt/main.cpp:221-225 | The first switch call returns false and only stores its reading as the baseline |
| `Edge.LowHighLowHigh` | BopIt/main.cpp:217-235 | After the baseline read, the readings low, high, low, high give exactly two edges, on the two highs |
| `Edge.SteadyLevelNoEdge` | BopIt/main.cpp:206-229 | A reading held equal to the stored memory never reports an edge, on either detector |
| `Arbiter.CheckAction` | BopIt/main.cpp:266-274 | `check_action` reports exactly when the expected channel fires, only that channel's memory takes the reading, and what the other detectors would report is unchanged |
| `Arbiter.WrongActionPerformed` | BopIt/main.cpp:247-261 | Never reads the expected channel. Reads the others in the order button, switch, tilt and stops at the first that reports. The reported channel did report, the channels read before it did not, and "no wrong action" means none of them reported. Only the detectors it called take the new reading |
| `Arbiter.Poll` | BopIt/main.cpp:366-381 | A pass of the poll loop is Correct exactly when the expected channel reports. Otherwise it is Wrong with the first other channel that reports, in the order button, switch, tilt, or NoInput when no channel reports. The expected channel is read first, and a Correct pass reads nothing else. The button memory takes the reading exactly when the button was read, and likewise the switch |
| `Arbiter.CheckActionReadsOnlyExpected` | BopIt/main.cpp:266-274 | `check_action` gives the same result for samples that agree on the expected channel, changes only that channel's memory, and does not change what the other detectors would report |
| `Arbiter.WrongActionIgnoresExpected` | BopIt/main.cpp:247-261 | `wrong_action_performed` gives the same result for samples that differ only on the expected channel |
| `Arbiter.PollReadsEachChannelOnce` | BopIt/main.cpp:366-378 | Within one pass of the poll loop, no channel's detector is called twice. After the expected channel, the pass reads exactly the other channels up to the one it blames, or all of them when it blames none |
| `Arbiter.CorrectWins` | BopIt/main.cpp:367-372 | When the expected channel reports, the poll is Correct whatever the other channels show, and no other channel is read |
| `Arbiter.SwitchBeforeTilt` | BopIt/main.cpp:248-258 | With BOP expected, no button edge, a switch edge and a tilt: the switch is blamed, and both button and switch take the new reading |
| `Game.Round` | BopIt/main.cpp:362-393 | If the first pass finds the limit already reached, the round times out without reading any input and leaves both memories as they were |
| `Passes.RoundSkipsQuiet` | BopIt/main.cpp:366-381 | Passes inside the window that see no input only move the memories on; the round continues from the memories they leave |
| `Passes.RoundDecidedAt` | BopIt/main.cpp:366-393 | The first pass that reaches the limit or sees input decides the round: the limit gives a timeout with the memories as they were, a Correct poll gives a success and a Wrong poll a wrong action, with the memories that pass left |
| `Passes.RoundOutcome` | BopIt/main.cpp:366-393 | A round ends in success exactly when some pass inside the window, after passes that saw no input, finds the expected action; it ends in a wrong action exactly when such a pass finds another action |
| `Passes.RoundRunsOut` | BopIt/main.cpp:366-393 | A round times out exactly when the clock reaches the limit after passes that saw no input, and is left unfinished exactly when every pass of the script saw no input inside the window, with the memories those passes leave |
| `Game.RoundEndsWithin` | BopIt/main.cpp:366-393 | A round times out only once the clock has reached the limit, and is left unfinished only if every pass of the script was still inside the window |
| `Game.PlayRounds` | BopIt/main.cpp:337-402 | The round loop never stops on a success; it plays at most one round per input, and at least one when it has any |
| `Game.RunAnnouncementAt` | BopIt/main.cpp:338-340 | Round i of a run prompts the action drawn from the i-th random value and gets the window for score `score + i` |
| `Game.RunAnnouncements` | BopIt/main.cpp:338-340 | For all rounds of a run at once: round i prompts the action drawn from the i-th random value and gets the window for score `score + i` |
| `Game.RunContinuesOnSuccess` | BopIt/main.cpp:383-402 | Every round of a run except its last one succeeded |
| `Game.RunScore` | BopIt/main.cpp:383-402 | The score rises by exactly one per successful round and in no other way. A run that ended did so the way its last round ended (wrong action or timeout), and its score is one less than the rounds it played |
| `Game.NewHighScore` | BopIt/main.cpp:405-407 | The new high score is at least the old one and at least the run's score, and equals one of the two |
| `Game.AwaitPress` | BopIt/main.cpp:467-473 | `wait_for_start` ends exactly at the first button edge, through the same detector the BOP rounds use. Afterwards that detector's memory holds the pressed reading (bit 0 set); if no press comes, every reading was taken |
| `Game.Serve` | BopIt/main.cpp:509-518 | Across runs the high score never decreases, is at least every finished run's score, and is either its starting value or one of those scores |
| `Game.IdlePlayerTimesOut` | BopIt/main.cpp:366-393 | A player who touches nothing never wins or loses a round by action, and the round times out once the clock reaches the limit. The button and the switch each stay at one reading that makes no edge against its memory: the released button after the start press or a BOP win, a held one, or any switch while its memory is the sentinel. Each memory ends as it was or at the held reading |
| `Game.SwitchRaisedBeforePollingCounts` | BopIt/main.cpp:240-242 | Because the switch reset changes nothing, a switch raised after its last read wins a PULL round on the first poll |
| `Game.StartPressIsConsumed` | BopIt/main.cpp:468 | Because the start press goes through the shared button detector, on the first poll of a run the button can neither win a BOP round nor be blamed as a wrong action |
| `Game.TwoThenTimeout` | BopIt/main.cpp:337-407 | With prompts BOP, PULL, TWIST, the player succeeds twice and then lets the third window (2700 ms) run out: the run scores 2 and ends in timeout, and a lower high score becomes 2 |
| `GameEngine.Engine.constructor` | BopIt/main.cpp:481-482 | At power-on the button memory is 0 (the initialiser of `last_btn`, main.cpp:202), the switch memory is the sentinel -1 (that of `last_sw`, main.cpp:218), and the high score is 0 (main.cpp:482) |
| `GameEngine.Engine.ButtonPressed` | BopIt/main.cpp:201-212 | Reports a 0-to-1 change of bit 0 against the stored reading, and always stores the new reading |
| `GameEngine.Engine.SwitchPulled` | BopIt/main.cpp:217-235 | Returns what `Edge.SwitchEdge` gives for the old memory and the reading: false from the sentinel -1 through its own branch, otherwise the rising edge of bit 0. In every case it stores the new reading |
| `GameEngine.Engine.ResetSwitchState` | BopIt/main.cpp:240-242 | Neither detector memory nor the high score changes |
| `GameEngine.Engine.CheckAction` | BopIt/main.cpp:266-274 | Result and new memories are those of `Arbiter.CheckAction` |
| `GameEngine.Engine.WrongActionPerformed` | BopIt/main.cpp:247-261 | Result and new memories are those of `Arbiter.WrongActionPerformed`: the three early returns stop further detector calls |
| `GameEngine.Engine.PlayRound` | BopIt/main.cpp:358-393 | The poll loop with its `break`s and its two flags ends as `Game.Round` says, with the memories `Game.Round` gives; the flags are never both set |
| `GameEngine.Engine.PlayGame` | BopIt/main.cpp:324-407 | Starts from score 0 and plays rounds as `Game.PlayRounds` does. When the run has ended, the high score becomes the larger of the old high score and the score |
| `GameEngine.Engine.WaitForStart` | BopIt/main.cpp:445-476 | Polls the shared button detector until the first press, as `Game.AwaitPress` describes |
| `GameEngine.Engine.Serve` | BopIt/main.cpp:509-518 | The loop of `main` gives the memories, high score and finished-run scores of `Game.Serve` |
| `GameEngine.PowerUp` | BopIt/main.cpp:481-518 | From power-on, the finished-run scores and the high score are those of `Game.Serve` from the power-on memories and a high score of 0: the high score is at least 0, at least every finished run's score, and is either 0 or one of those scores |
| `Display.Quot10` | BopIt/main.cpp:165 | C's `/ 10` truncates toward zero: for a non-negative value the quotient is the largest q with 10q <= x, for a negative one the smallest q with 10q >= x |
| `Display.Rem10` | BopIt/main.cpp:163 | C's `% 10`: the value equals 10 times its truncated quotient plus the remainder; the remainder lies in 0..9 for non-negative values and in -9..0 for negative ones |
| `Display.Recombine` | BopIt/main.cpp:158-167 | The four digits taken off a non-negative score by the four passes recombine to the score modulo 10000 |
| `Display.DisplayScore` | BopIt/main.cpp:158-167 | Produces four digits, digit i from pass i of the loop, least significant first. For a non-negative score each digit lies in 0..9, and together they spell the score modulo 10000 |

## Left out

- Accelerometer: `read_accel` and `is_tilted` (main.cpp:88-119) do SPI transfers and floating-point scaling against the 0.5 g threshold. Tilt is a boolean input per poll, and SPI read failures are not modelled.
- Audio: `play_tone`, `play_action_tone` and the DDFS set-up (main.cpp:69-74, 297-319, 488-489) only produce sound and pass time.
- Seven-segment display and LEDs: `display_action`, `set_led_pattern`, `clear_displays`, the "PUSH" and "LOSE" glyphs, the LED flashing, the segment encoding `h2s`, and the `wait_for_start` LED animation. These are presentation tables. Only the digit split of `display_score` is modelled.
- Logging: the `uart.disp` calls carry no behaviour. The per-round action and time limit they print are kept as the run's list of announcements.
- Clock and random source: `now_ms`, `sleep_ms`, the 10 ms poll cadence and `srand(now_ms())`. Elapsed times and random draws are inputs.
- Peripheral objects: their construction at main.cpp:58-64.
- `Timing.TimeLimit`: uses mathematical integers, so it does not model a C `int` overflow of `score * TIME_DECREMENT`. That overflow would need a score above 14 million.
- Endless loops: the poll loop, the round loop of `play_game`, `wait_for_start` and the loop of `main` are modelled over finite input scripts. What the device would do after the script ends is not modelled.
- `Game.PlayRounds`: the function's own contract only bounds how many rounds are played. How the log, the score and the outcome relate is stated by `Game.RunAnnouncements`, `Game.RunContinuesOnSuccess` and `Game.RunScore`.
- `GameEngine.Engine.ResetSwitchState`: the switch value it reads is not an input, because the source throws it away.
