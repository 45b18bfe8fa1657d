# Robot duel combat engine, modelled in Dafny

The `Game` component of `duelrobot/src/App.tsx` runs a duel between two
robots, "Robot Alpha" and "Robot Bêta". During setup a player edits the
damage and accuracy of the three weapons (Laser 20/70, Missile 30/50,
Canon Plasma 25/60). "Start" resets both robots to 100 health and clears the
attack history. Then either robot fires any weapon at the other at any time.
A shot draws a roll from 1 to 100. It hits when the roll is at most the
weapon's accuracy. A hit lowers the target's health by the weapon's damage,
but never below 0. A shot is ignored when either robot is destroyed,
meaning its health is 0 or less; every shot that is not ignored puts one
entry at the head of the history.

The project has three modules:

- `Rules` (`rules.dfy`) holds the value model. It has the weapon, history
  entry and game-state datatypes, the roll, the hit test and the damage
  clamp. It also has the three transitions (`Configure`, `Start`,
  `Resolve`) as functions on a `State` snapshot, whose contracts state what
  each transition changes and what it leaves alone.
- `Traces` (`traces.dfy`) runs sequences of player actions. It proves the
  multi-step properties: while no weapon has negative damage, health stays
  in [0, 100] and never rises during a duel; a finished duel is frozen; and
  the history grows only at its head.
- `Arena` (`arena.dfy`) holds the class `Game`. Its fields are the
  component's state: two health counters, the history, the started flag and
  a weapon `array`. Its methods `Configure`, `Start` and `Attack` update
  these fields in place. Each method is proved to move the object's
  `Snapshot()` exactly as the matching `Rules` function prescribes.

The random roll is an explicit parameter. `Attack` takes an integer roll in
[1, 100], so the engine is deterministic. `Rules.RollDice` models how the
source maps a uniform sample in [0, 1) to that range.

The handlers never validate a typed value, so a negative damage heals the
target on a hit and can lift its health above 100
(`Rules.NegativeDamageHeals`, `Traces.NegativeDamageBreaksBound`). The
[0, 100] bound is therefore proved only under the assumption that no damage
value is negative (`Traces.HealthStaysInRange`).

## Model

| member | source | states |
|---|---|---|
| `Rules.Initial` | duelrobot/src/App.tsx:80-90 | A mounted game has both robots at 100, an empty history, the setup screen, and the three default weapons in order. |
| `Rules.Opponent` | duelrobot/src/App.tsx:134-144 | Each robot's shots go to the other robot, never to itself. |
| `Rules.ValidRoll` | duelrobot/src/App.tsx:7 | A roll is valid when it lies between 1 and 100, both included, the range the dice produce. |
| `Rules.RollDice` | duelrobot/src/App.tsx:7 | A uniform sample in [0, 1), scaled by 100, rounded down and plus one, is always a roll in [1, 100]. |
| `Rules.EveryRollReachable` | duelrobot/src/App.tsx:7 | Every roll in [1, 100] comes from some sample, so the range is exactly [1, 100]. |
| `Rules.IsHit` | duelrobot/src/App.tsx:96 | A shot hits when the roll is at most the accuracy. For a valid roll, accuracy of 100 or more always hits and accuracy below 1 never hits. |
| `Rules.HitThresholds` | duelrobot/src/App.tsx:95-96 | For a valid roll, a roll equal to the accuracy hits and a roll one above it misses. |
| `Rules.ApplyDamage` | duelrobot/src/App.tsx:100 | Health after a hit is never negative. It is the difference or 0, and at least the difference. It is 0 exactly when the damage reaches the health. Non-negative damage never raises it. |
| `Rules.IsDead` | duelrobot/src/App.tsx:132-141 | A robot is destroyed when its health is 0 or less; for non-negative health that is exactly health 0. |
| `Rules.GameOver` | duelrobot/src/App.tsx:149-153 | The defeat banner shows exactly when some robot is destroyed. |
| `Rules.Refused` | duelrobot/src/App.tsx:93 | An attack is refused when the target or the attacker is destroyed. |
| `Rules.RefusedIffGameOver` | duelrobot/src/App.tsx:93 | The attack guard fires exactly when the duel is over, whichever robot attacks. |
| `Rules.Record` | duelrobot/src/App.tsx:98-104 | The history entry is a hit exactly when the roll is at most the accuracy. It reports the weapon's name, the roll and the accuracy, and on a hit the damage. |
| `Rules.Resolve` | duelrobot/src/App.tsx:92-106 | A guarded attack changes nothing. Otherwise the new history is the new entry followed by the unchanged old history, one longer. The attacker's health never changes. The target's health is clamped down on a hit and unchanged on a miss. The weapon table and the started flag are kept. |
| `Rules.MissChangesOnlyLog` | duelrobot/src/App.tsx:99-106 | A miss changes nothing except the history. |
| `Rules.NegativeDamageHeals` | duelrobot/src/App.tsx:100 | A hit with negative damage raises the target's health by the damage's magnitude. |
| `Rules.LaserHitsAtItsAccuracy` | duelrobot/src/App.tsx:87-101 | After start, the Laser (20 damage, 70 accuracy) hits on roll 70 and takes the target to 80. On roll 71 it misses and the target stays at 100. |
| `Rules.SetField` | duelrobot/src/App.tsx:13 | Editing a weapon field sets that field to the value and keeps the name and the other field. |
| `Rules.Configure` | duelrobot/src/App.tsx:11-14 | Only field `f` of weapon `i` changes. The table keeps its length and every other weapon. Health, history and the started flag are untouched. |
| `Rules.Start` | duelrobot/src/App.tsx:114-119 | Both healths become 100, the history is empty, and play begins with no robot destroyed. The weapon table is kept as configured. |
| `Traces.Apply` | duelrobot/src/App.tsx:11-119 | Each player action (configure, start, attack) keeps the number of weapons. |
| `Traces.Run` | duelrobot/src/App.tsx:11-119 | Any sequence of player actions keeps the number of weapons. |
| `Traces.HealthStaysInRange` | duelrobot/src/App.tsx:80-119 | If health starts in [0, 100], no damage is negative, and no action enters a negative damage, then after any sequence of configure, start and attack actions both healths are in [0, 100] and no damage is negative. |
| `Traces.HealthInRangeFromInitial` | duelrobot/src/App.tsx:80-90 | From a freshly mounted game, any such sequence keeps both healths in [0, 100]. |
| `Traces.HealthNeverRises` | duelrobot/src/App.tsx:100 | With non-negative damage, a sequence of attacks never raises either robot's health. |
| `Traces.GameOverIsFinal` | duelrobot/src/App.tsx:92-93 | Once a robot is destroyed, any sequence of attacks leaves the whole state unchanged. |
| `Traces.AttackGrowsAtHead` | duelrobot/src/App.tsx:106 | One attack keeps the old history as the unchanged tail of the new one and adds at most one entry. |
| `Traces.LogOnlyGrowsAtHead` | duelrobot/src/App.tsx:106 | Across attacks, the old history stays the unchanged tail of the new one, and each attack adds at most one entry. |
| `Traces.NegativeDamageBreaksBound` | duelrobot/src/App.tsx:11-15 | Setting the Laser's damage to -10, starting and hitting with it leaves the target at 110, above 100. |
| `Arena.Game.constructor` | duelrobot/src/App.tsx:80-90 | The new object's snapshot is the initial state, and its weapon array is fresh. |
| `Arena.Game.Configure` | duelrobot/src/App.tsx:11-15 | Editing in place moves the snapshot exactly as `Rules.Configure` prescribes. |
| `Arena.Game.Start` | duelrobot/src/App.tsx:114-119 | Resetting the four fields moves the snapshot exactly as `Rules.Start` prescribes. |
| `Arena.Game.Attack` | duelrobot/src/App.tsx:92-107 | Updating in place moves the snapshot exactly as `Rules.Resolve` prescribes with the chosen weapon. The attacker's health field is unchanged. |
| `Arena.Session` | duelrobot/src/App.tsx:109-146 | A client session (set the Laser's damage to 35, start, fire at roll 70 then 71) ends with Alpha at 100, Bêta at 65, and two entries, derived from the method contracts alone. |

## Left out

- Rendering (the weapon setup form, the robot cards, the defeat banner and the history list) is presentation only. The defeat condition it shows is modelled as `Rules.IsDead` and `Rules.GameOver`.
- The disabled state of a destroyed robot's buttons only mirrors the guard at the top of the attack handler, which the model keeps.
- `Math.random` and IEEE double rounding are not modelled. `Rules.RollDice` works on mathematical reals, and `Game.Attack` takes the roll as an argument in [1, 100].
- `Number(value)` coercion is modelled only for integer results. A number input reports unparsable text as the empty string, and `Number("")` is 0, so clearing a field sets the value to 0, which the model covers. Fractional and non-finite values are not modelled: damage and accuracy are integers in the model.
- Health is an unbounded integer. The source's JavaScript numbers hold integers exactly only up to 2^53, and the player may type any number, so the model assumes configured values stay well inside 2^53.
- The French wording of the history messages is not modelled. An entry keeps what the message reports: weapon name, roll, accuracy and, on a hit, damage.
- React specifics do not appear in a sequential model. The guard reads closure-captured health while the update uses the functional previous value; run one event at a time, these coincide. Re-rendering and setter batching are not modelled.
- `Game.Attack`, `Game.Configure` and `Game.Start` do not check the started flag, just as the handlers do not, and `Traces.Fits`, `Traces.Apply` and `Traces.Run` accept every action in either phase. In the component, configuring and starting are offered only on the setup screen and attacking only during play, and nothing sets the started flag back to false, so there is no restart and no configure or start once a duel is under way. The model admits these extra sequences, which is why `Traces.GameOverIsFinal` and `Traces.HealthNeverRises` are stated for sequences of attacks only.
- The attack handler receives a weapon object from the rendered table. The model passes an index into the table instead, so `Game.Attack` requires the index to be in range, as every rendered button's weapon is.
- The shallow-copy aliasing in `handleChange` is not modelled separately. It mutates the weapon object shared with the old array, but the copy then replaces the table, and the model edits the array entry in place with the same visible result.
