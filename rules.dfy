/**
 * The combat rules of the robot duel, as values: the weapon table, the hit
 * roll, the damage clamp, the log entries, and the three transitions of the
 * game (configure a weapon, start a duel, resolve one attack) as functions on
 * a snapshot of the game's state. The class in module Arena is proved to
 * follow these functions step by step.
 */
module Rules {

  /** Health of each robot when a duel starts. */
  const InitialHealth: int := 100
  /** The hit roll is an integer between these bounds, both included. */
  const MinRoll: int := 1
  const MaxRoll: int := 100

  /** The two robots: "Robot Alpha" and "Robot Bêta". */
  datatype Side = Alpha | Beta

  function Opponent(side: Side): (other: Side)
    ensures other != side
  {
    match side
    case Alpha => Beta
    case Beta => Alpha
  }

  /** A weapon: fixed damage dealt on a hit, and an accuracy in percent. */
  datatype Weapon = Weapon(name: string, damage: int, accuracy: int)

  /** The two numeric fields a player may edit before a duel. */
  datatype Field = Damage | Accuracy

  /** The weapon table a new game starts with. */
  const DefaultWeapons: seq<Weapon> := [
    Weapon("Laser", 20, 70),
    Weapon("Missile", 30, 50),
    Weapon("Canon Plasma", 25, 60)
  ]

  /**
   * One line of the attack history. The wording of the message is not
   * modelled; an entry keeps what the message reports: the weapon's name,
   * the roll, the accuracy it was compared with and, on a hit, the damage.
   */
  datatype Entry =
    | Hit(weapon: string, roll: int, accuracy: int, damage: int)
    | Miss(weapon: string, roll: int, accuracy: int)

  /**
   * A snapshot of the game: both robots' health, the history (most recent
   * entry first), whether the duel has started, and the ordered weapon table.
   */
  datatype State = State(alpha: int, beta: int, log: seq<Entry>, started: bool, weapons: seq<Weapon>)
  {
    function Health(side: Side): int {
      match side
      case Alpha => alpha
      case Beta => beta
    }

    /** The same state with one robot's health replaced. */
    function WithHealth(side: Side, h: int): (r: State)
      ensures r.Health(side) == h
      ensures r.Health(Opponent(side)) == Health(Opponent(side))
      ensures r.log == log && r.started == started && r.weapons == weapons
    {
      match side
      case Alpha => this.(alpha := h)
      case Beta => this.(beta := h)
    }
  }

  /** The state of a freshly mounted game: setup screen, default weapons. */
  function Initial(): (s: State)
    ensures s.alpha == InitialHealth && s.beta == InitialHealth
    ensures s.log == [] && !s.started && s.weapons == DefaultWeapons
  {
    State(InitialHealth, InitialHealth, [], false, DefaultWeapons)
  }

  // ---------------------------------------------------------------------------
  // The hit roll

  predicate ValidRoll(roll: int) {
    MinRoll <= roll <= MaxRoll
  }

  /**
   * The roll drawn from a uniform sample u in [0, 1): scale to [0, 100),
   * round down, add one. Every roll it produces is valid.
   */
  function RollDice(u: real): (roll: int)
    requires 0.0 <= u < 1.0
    ensures ValidRoll(roll)
  {
    (u * 100.0).Floor + 1
  }

  /** Every valid roll is drawn from some sample, so no roll is unreachable. */
  lemma EveryRollReachable(roll: int)
    requires ValidRoll(roll)
    ensures var u := (roll - 1) as real / 100.0; 0.0 <= u < 1.0 && RollDice(u) == roll
  {
  }

  /**
   * An attack hits when the roll does not exceed the weapon's accuracy. Over
   * the rolls that can be drawn, an accuracy of 100 or more always hits and
   * one below 1 never hits.
   */
  predicate IsHit(roll: int, accuracy: int)
    ensures ValidRoll(roll) && accuracy >= MaxRoll ==> IsHit(roll, accuracy)
    ensures ValidRoll(roll) && accuracy < MinRoll ==> !IsHit(roll, accuracy)
  {
    roll <= accuracy
  }

  /** The boundary roll, equal to the accuracy, hits; the roll just above it misses. */
  lemma HitThresholds(roll: int, accuracy: int)
    requires ValidRoll(roll)
    ensures roll == accuracy ==> IsHit(roll, accuracy)
    ensures roll == accuracy + 1 ==> !IsHit(roll, accuracy)
  {
  }

  // ---------------------------------------------------------------------------
  // Damage

  /**
   * The target's health after a hit for `damage`: the difference, but never
   * below zero. With non-negative damage it never raises health.
   */
  function ApplyDamage(health: int, damage: int): (r: int)
    ensures r >= 0
    ensures r >= health - damage
    ensures r == health - damage || r == 0
    ensures r == 0 <==> health <= damage
    ensures damage >= 0 && health >= 0 ==> r <= health
  {
    if health - damage > 0 then health - damage else 0
  }

  // ---------------------------------------------------------------------------
  // Defeat

  /**
   * A robot is destroyed once its health is zero or less; for health that
   * never goes negative, that is exactly when it is zero.
   */
  predicate IsDead(health: int)
    ensures health >= 0 ==> (IsDead(health) <==> health == 0)
  {
    health <= 0
  }

  /** The duel is over when some robot is destroyed. */
  predicate GameOver(s: State)
    ensures GameOver(s) <==> exists side :: IsDead(s.Health(side))
  {
    assert s.Health(Alpha) == s.alpha && s.Health(Beta) == s.beta;
    IsDead(s.alpha) || IsDead(s.beta)
  }

  /** An attack is refused when the attacker or its target is destroyed. */
  predicate Refused(s: State, attacker: Side) {
    IsDead(s.Health(Opponent(attacker))) || IsDead(s.Health(attacker))
  }

  lemma RefusedIffGameOver(s: State, attacker: Side)
    ensures Refused(s, attacker) <==> GameOver(s)
  {
  }

  // ---------------------------------------------------------------------------
  // Transitions

  /** The history entry an attack with `w` and `roll` produces. */
  function Record(w: Weapon, roll: int): (e: Entry)
    ensures e.Hit? <==> IsHit(roll, w.accuracy)
    ensures e.weapon == w.name && e.roll == roll && e.accuracy == w.accuracy
    ensures e.Hit? ==> e.damage == w.damage
  {
    if IsHit(roll, w.accuracy) then Hit(w.name, roll, w.accuracy, w.damage)
    else Miss(w.name, roll, w.accuracy)
  }

  /**
   * One attack by `attacker` on its opponent with weapon `w` and hit roll
   * `roll`. A refused attack changes nothing. Otherwise exactly one entry is
   * put at the head of the history; on a hit the target's health is clamped
   * down by the damage; the attacker, the weapon table and the started flag
   * never change.
   */
  function Resolve(s: State, attacker: Side, w: Weapon, roll: int): (r: State)
    ensures Refused(s, attacker) ==> r == s
    ensures !Refused(s, attacker) ==> r.log == [Record(w, roll)] + s.log
    ensures !Refused(s, attacker) ==> |r.log| == |s.log| + 1 && r.log[1..] == s.log
    ensures r.Health(attacker) == s.Health(attacker)
    ensures r.Health(Opponent(attacker)) ==
      if !Refused(s, attacker) && IsHit(roll, w.accuracy)
      then ApplyDamage(s.Health(Opponent(attacker)), w.damage)
      else s.Health(Opponent(attacker))
    ensures r.weapons == s.weapons && r.started == s.started
  {
    var target := Opponent(attacker);
    if IsDead(s.Health(target)) || IsDead(s.Health(attacker)) then
      s
    else
      var hit := IsHit(roll, w.accuracy);
      var hurt := if hit then s.WithHealth(target, ApplyDamage(s.Health(target), w.damage)) else s;
      hurt.(log := [Record(w, roll)] + s.log)
  }

  /** The weapon with field `f` set to `v`; name and the other field kept. */
  function SetField(w: Weapon, f: Field, v: int): (r: Weapon)
    ensures r.name == w.name
    ensures r.damage == (if f == Damage then v else w.damage)
    ensures r.accuracy == (if f == Accuracy then v else w.accuracy)
  {
    match f
    case Damage => w.(damage := v)
    case Accuracy => w.(accuracy := v)
  }

  /**
   * Editing field `f` of weapon `i` to `v`: only that field of that weapon
   * changes; the table keeps its length, and health, history and the started
   * flag are untouched. The value is not validated.
   */
  function Configure(s: State, i: nat, f: Field, v: int): (r: State)
    requires i < |s.weapons|
    ensures |r.weapons| == |s.weapons|
    ensures r.weapons[i] == SetField(s.weapons[i], f, v)
    ensures forall j :: 0 <= j < |s.weapons| && j != i ==> r.weapons[j] == s.weapons[j]
    ensures r.alpha == s.alpha && r.beta == s.beta && r.log == s.log && r.started == s.started
  {
    s.(weapons := s.weapons[i := SetField(s.weapons[i], f, v)])
  }

  /**
   * Starting the duel: both robots back to full health, an empty history,
   * the play screen; the weapon table as configured.
   */
  function Start(s: State): (r: State)
    ensures r.alpha == InitialHealth && r.beta == InitialHealth
    ensures r.log == [] && r.started
    ensures r.weapons == s.weapons
    ensures !GameOver(r)
  {
    s.(alpha := InitialHealth, beta := InitialHealth, log := [], started := true)
  }

  // ---------------------------------------------------------------------------
  // Properties of one attack

  /** On a miss the target is untouched and only the history grows. */
  lemma MissChangesOnlyLog(s: State, attacker: Side, w: Weapon, roll: int)
    requires !IsHit(roll, w.accuracy)
    ensures Resolve(s, attacker, w, roll).(log := s.log) == s
  {
  }

  /**
   * A negative damage value, which configuration accepts, heals the target
   * on a hit, lifting it above what it had.
   */
  lemma NegativeDamageHeals(s: State, attacker: Side, w: Weapon, roll: int)
    requires !Refused(s, attacker) && IsHit(roll, w.accuracy) && w.damage < 0
    ensures Resolve(s, attacker, w, roll).Health(Opponent(attacker))
         == s.Health(Opponent(attacker)) - w.damage
         > s.Health(Opponent(attacker))
  {
  }

  /** The Laser (20 damage, 70 accuracy) hits at roll 70 and misses at 71. */
  lemma LaserHitsAtItsAccuracy()
    ensures Resolve(Start(Initial()), Alpha, DefaultWeapons[0], 70).beta == InitialHealth - 20
    ensures Resolve(Start(Initial()), Alpha, DefaultWeapons[0], 71).beta == InitialHealth
  {
  }
}
