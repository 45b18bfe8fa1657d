/**
 * Sequences of player actions and what they preserve: health stays within
 * [0, 100] and never rises during a duel while no weapon has negative damage,
 * a finished duel is frozen, and the history only grows at its head.
 */
module Traces {
  import opened Rules

  /** One player action. */
  datatype Step =
    | ConfigureStep(index: nat, field: Field, value: int)
    | StartStep
    | AttackStep(attacker: Side, index: nat, roll: int)

  /** A step the game can take with a table of `n` weapons. */
  predicate Fits(n: nat, st: Step) {
    match st
    case ConfigureStep(i, _, _) => i < n
    case StartStep => true
    case AttackStep(_, i, roll) => i < n && ValidRoll(roll)
  }

  predicate AllFit(n: nat, steps: seq<Step>) {
    forall k :: 0 <= k < |steps| ==> Fits(n, steps[k])
  }

  function Apply(s: State, st: Step): (r: State)
    requires Fits(|s.weapons|, st)
    ensures |r.weapons| == |s.weapons|
  {
    match st
    case ConfigureStep(i, f, v) => Configure(s, i, f, v)
    case StartStep => Start(s)
    case AttackStep(side, i, roll) => Resolve(s, side, s.weapons[i], roll)
  }

  /** The state after taking `steps` in order from `s`. */
  function Run(s: State, steps: seq<Step>): (r: State)
    requires AllFit(|s.weapons|, steps)
    ensures |r.weapons| == |s.weapons|
    decreases |steps|
  {
    if steps == [] then s
    else
      assert Fits(|s.weapons|, steps[0]);
      Run(Apply(s, steps[0]), steps[1..])
  }

  // ---------------------------------------------------------------------------
  // Invariants

  predicate HealthInRange(s: State) {
    0 <= s.alpha <= InitialHealth && 0 <= s.beta <= InitialHealth
  }

  predicate NoNegativeDamage(ws: seq<Weapon>) {
    forall k :: 0 <= k < |ws| ==> ws[k].damage >= 0
  }

  /** A configuration step that does not enter a negative damage value. */
  predicate KeepsDamage(st: Step) {
    st.ConfigureStep? && st.field == Damage ==> st.value >= 0
  }

  predicate AllKeepDamage(steps: seq<Step>) {
    forall k :: 0 <= k < |steps| ==> KeepsDamage(steps[k])
  }

  predicate AttacksOnly(steps: seq<Step>) {
    forall k :: 0 <= k < |steps| ==> steps[k].AttackStep?
  }

  /** Dropping the first of a run of attacks leaves a run of attacks that fits. */
  lemma AttacksTailFit(s: State, steps: seq<Step>)
    requires steps != [] && AllFit(|s.weapons|, steps) && AttacksOnly(steps)
    ensures AllFit(|Apply(s, steps[0]).weapons|, steps[1..]) && AttacksOnly(steps[1..])
  {
    forall k | 0 <= k < |steps[1..]|
      ensures Fits(|s.weapons|, steps[1..][k]) && steps[1..][k].AttackStep?
    {
      assert steps[1..][k] == steps[k + 1];
    }
  }

  /**
   * At the start of a duel, and at every later step, health is in [0, 100],
   * while no weapon has negative damage.
   */
  lemma {:induction false} HealthStaysInRange(s: State, steps: seq<Step>)
    requires AllFit(|s.weapons|, steps) && AllKeepDamage(steps)
    requires HealthInRange(s) && NoNegativeDamage(s.weapons)
    ensures HealthInRange(Run(s, steps)) && NoNegativeDamage(Run(s, steps).weapons)
    decreases |steps|
  {
    if steps != [] {
      assert Fits(|s.weapons|, steps[0]) && KeepsDamage(steps[0]);
      var next := Apply(s, steps[0]);
      match steps[0] {
        case ConfigureStep(i, f, v) =>
          forall k | 0 <= k < |next.weapons| ensures next.weapons[k].damage >= 0 {
            if k != i { assert next.weapons[k] == s.weapons[k]; }
          }
        case StartStep =>
        case AttackStep(side, i, roll) =>
          assert s.weapons[i].damage >= 0;
      }
      assert AllFit(|next.weapons|, steps[1..]) && AllKeepDamage(steps[1..]) by {
        forall k | 0 <= k < |steps[1..]| ensures Fits(|next.weapons|, steps[1..][k]) && KeepsDamage(steps[1..][k]) {
          assert steps[1..][k] == steps[k + 1];
        }
      }
      HealthStaysInRange(next, steps[1..]);
    }
  }

  /**
   * From a new game, health stays in [0, 100] whatever the players do, as
   * long as no negative damage is entered.
   */
  lemma HealthInRangeFromInitial(steps: seq<Step>)
    requires AllFit(|DefaultWeapons|, steps) && AllKeepDamage(steps)
    ensures HealthInRange(Run(Initial(), steps))
  {
    HealthStaysInRange(Initial(), steps);
  }

  /**
   * During a duel (attacks only), neither robot's health ever rises, while no
   * weapon has negative damage.
   */
  lemma {:induction false} HealthNeverRises(s: State, steps: seq<Step>)
    requires AllFit(|s.weapons|, steps) && AttacksOnly(steps)
    requires NoNegativeDamage(s.weapons)
    ensures Run(s, steps).alpha <= s.alpha && Run(s, steps).beta <= s.beta
    decreases |steps|
  {
    if steps != [] {
      assert Fits(|s.weapons|, steps[0]) && steps[0].AttackStep?;
      var next := Apply(s, steps[0]);
      assert next.weapons == s.weapons;
      assert s.weapons[steps[0].index].damage >= 0;
      AttacksTailFit(s, steps);
      HealthNeverRises(next, steps[1..]);
    }
  }

  /** Once a robot is destroyed, no sequence of attacks changes anything. */
  lemma {:induction false} GameOverIsFinal(s: State, steps: seq<Step>)
    requires AllFit(|s.weapons|, steps) && AttacksOnly(steps)
    requires GameOver(s)
    ensures Run(s, steps) == s
    decreases |steps|
  {
    if steps != [] {
      assert Fits(|s.weapons|, steps[0]) && steps[0].AttackStep?;
      RefusedIffGameOver(s, steps[0].attacker);
      assert Apply(s, steps[0]) == s;
      AttacksTailFit(s, steps);
      GameOverIsFinal(s, steps[1..]);
    }
  }

  /** `tail` is the unchanged end of `log`. */
  predicate IsTail(tail: seq<Entry>, log: seq<Entry>) {
    |tail| <= |log| && log[|log| - |tail|..] == tail
  }

  lemma IsTailTransitive(a: seq<Entry>, b: seq<Entry>, c: seq<Entry>)
    requires IsTail(a, b) && IsTail(b, c)
    ensures IsTail(a, c)
  {
    assert c[|c| - |a|..] == c[|c| - |b|..][|b| - |a|..];
  }

  /** One attack keeps the old history as the tail and adds at most one entry. */
  lemma AttackGrowsAtHead(s: State, st: Step)
    requires Fits(|s.weapons|, st) && st.AttackStep?
    ensures IsTail(s.log, Apply(s, st).log) && |Apply(s, st).log| <= |s.log| + 1
  {
    var next := Apply(s, st);
    if next.log != s.log {
      assert next.log[1..] == s.log;
    }
  }

  /**
   * During a duel the history is append-at-head only: the old history is
   * the unchanged tail of the new one, and each attack adds at most one entry.
   */
  lemma {:induction false} LogOnlyGrowsAtHead(s: State, steps: seq<Step>)
    requires AllFit(|s.weapons|, steps) && AttacksOnly(steps)
    ensures IsTail(s.log, Run(s, steps).log)
    ensures |Run(s, steps).log| <= |s.log| + |steps|
    decreases |steps|
  {
    if steps == [] {
      assert Run(s, steps).log[|s.log| - |s.log|..] == s.log;
    } else {
      assert Fits(|s.weapons|, steps[0]) && steps[0].AttackStep?;
      var next := Apply(s, steps[0]);
      AttackGrowsAtHead(s, steps[0]);
      AttacksTailFit(s, steps);
      LogOnlyGrowsAtHead(next, steps[1..]);
      IsTailTransitive(s.log, next.log, Run(next, steps[1..]).log);
    }
  }

  /**
   * Negative damage, which configuration accepts, breaks the [0, 100] bound:
   * set the Laser's damage to -10, start, and let Alpha hit with it.
   */
  lemma NegativeDamageBreaksBound()
    ensures var steps := [ConfigureStep(0, Damage, -10), StartStep, AttackStep(Alpha, 0, 1)];
      AllFit(|DefaultWeapons|, steps) && Run(Initial(), steps).beta == InitialHealth + 10
  {
  }
}
