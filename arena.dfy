/**
 * The game component's state and its three handlers as an object: two
 * health counters, the attack history, the setup/playing flag and the weapon
 * table, updated in place. Each handler is proved to take the object from
 * one snapshot to the one the function of the same role in module Rules
 * prescribes.
 */
module Arena {
  import opened Rules

  class Game {
    var alphaHealth: int
    var betaHealth: int
    /** Most recent entry first. */
    var logs: seq<Entry>
    var started: bool
    /** The weapon table; its length never changes, its entries are edited. */
    const weapons: array<Weapon>

    /** The object's state as a value. */
    function Snapshot(): State
      reads this, weapons
    {
      State(alphaHealth, betaHealth, logs, started, weapons[..])
    }

    /** A new game: full health, empty history, setup screen, default weapons. */
    constructor ()
      ensures Snapshot() == Initial()
      ensures fresh(weapons)
    {
      alphaHealth := InitialHealth;
      betaHealth := InitialHealth;
      logs := [];
      started := false;
      weapons := new Weapon[] [DefaultWeapons[0], DefaultWeapons[1], DefaultWeapons[2]];
      new;
      assert weapons[..] == DefaultWeapons;
    }

    /** Sets one numeric field of weapon `index` to `value`, unvalidated. */
    method Configure(index: nat, field: Field, value: int)
      requires index < weapons.Length
      modifies weapons
      ensures Snapshot() == Rules.Configure(old(Snapshot()), index, field, value)
    {
      var w := weapons[index];
      if field == Damage {
        weapons[index] := w.(damage := value);
      } else {
        weapons[index] := w.(accuracy := value);
      }
    }

    /** Resets both robots to full health, clears the history, enters play. */
    method Start()
      modifies this
      ensures Snapshot() == Rules.Start(old(Snapshot()))
    {
      alphaHealth := InitialHealth;
      betaHealth := InitialHealth;
      logs := [];
      started := true;
    }

    /**
     * `attacker` fires weapon `index` at its opponent with hit roll `roll`.
     * Nothing happens when either robot is destroyed; otherwise a hit clamps
     * the target's health down by the damage, and one entry is put at the
     * head of the history.
     */
    method Attack(attacker: Side, index: nat, roll: int)
      requires index < weapons.Length && ValidRoll(roll)
      modifies this
      ensures Snapshot() == Resolve(old(Snapshot()), attacker, weapons[index], roll)
      ensures attacker == Alpha ==> alphaHealth == old(alphaHealth)
      ensures attacker == Beta ==> betaHealth == old(betaHealth)
    {
      var attackerHealth, targetHealth :=
        if attacker == Alpha then alphaHealth else betaHealth,
        if attacker == Alpha then betaHealth else alphaHealth;
      if targetHealth <= 0 || attackerHealth <= 0 {
        return;
      }
      var weapon := weapons[index];
      var hit := roll <= weapon.accuracy;
      var entry: Entry;
      if hit {
        var left := targetHealth - weapon.damage;
        if left < 0 {
          left := 0;
        }
        if attacker == Alpha {
          betaHealth := left;
        } else {
          alphaHealth := left;
        }
        entry := Hit(weapon.name, roll, weapon.accuracy, weapon.damage);
      } else {
        entry := Miss(weapon.name, roll, weapon.accuracy);
      }
      logs := [entry] + logs;
    }
  }

  /**
   * A whole session against the object: configure the Laser, start, and
   * fire it at the threshold roll and just above it.
   */
  method Session() returns (alpha: int, beta: int, entries: nat)
    ensures alpha == InitialHealth && beta == InitialHealth - 35 && entries == 2
  {
    var game := new Game();
    game.Configure(0, Damage, 35);
    game.Start();
    game.Attack(Alpha, 0, 70);
    game.Attack(Alpha, 0, 71);
    alpha, beta, entries := game.alphaHealth, game.betaHealth, |game.logs|;
  }
}
