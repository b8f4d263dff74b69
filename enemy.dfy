/**
 * AEnemy's combat bookkeeping: health that drops with damage and clamps at zero, a hit-react
 * gate that closes when a hit reaction plays and reopens on its timer, a stun flag set by a
 * random draw, and the floating hit-number widgets keyed by widget with their world location.
 * Health and the other engine floats are reals here.
 */
module Enemies {

  /** A hit-number widget, by identity. */
  datatype HitNumberWidget = HitNumberWidget(id: nat)

  /** A world location. */
  datatype Location = Location(x: real, y: real, z: real)

  const DefaultHealth: real := 100.0
  const DefaultStunChance: real := 0.5

  /** The health TakeDamage leaves: zero once the damage reaches it, else reduced by the damage. */
  function HealthAfterDamage(health: real, damage: real): (h: real)
    ensures h >= 0.0
    ensures h == 0.0 <==> health - damage <= 0.0
    ensures h != 0.0 ==> h == health - damage
  {
    if health - damage <= 0.0 then 0.0 else health - damage
  }

  /** The health after a run of hits, applied in order. */
  function HealthAfterHits(health: real, hits: seq<real>): real
    decreases |hits|
  {
    if hits == [] then health else HealthAfterHits(HealthAfterDamage(health, hits[0]), hits[1..])
  }

  /**
   * Health that starts non-negative stays non-negative through any run of hits, and once it
   * is zero, hits of non-negative damage keep it at zero.
   */
  lemma {:induction false} HitsNeverGoNegative(health: real, hits: seq<real>)
    requires health >= 0.0
    ensures HealthAfterHits(health, hits) >= 0.0
    ensures health == 0.0 && (forall i :: 0 <= i < |hits| ==> hits[i] >= 0.0) ==> HealthAfterHits(health, hits) == 0.0
    decreases |hits|
  {
    if hits != [] {
      HitsNeverGoNegative(HealthAfterDamage(health, hits[0]), hits[1..]);
    }
  }

  /** Whether a bullet hit stuns: the draw, in [0, 1], is at most the stun chance. */
  predicate Stuns(draw: real, stunChance: real)
  {
    draw <= stunChance
  }

  class Enemy {
    var health: real
    var maxHealth: real
    var canHitReact: bool
    var stunned: bool
    var stunChance: real
    var hitNumbers: map<HitNumberWidget, Location>

    /** A new enemy: full health of 100, free to react, not stunned, a one-in-two stun chance. */
    constructor ()
      ensures health == maxHealth == DefaultHealth
      ensures canHitReact && !stunned && stunChance == DefaultStunChance
      ensures hitNumbers == map[]
    {
      health := DefaultHealth;
      maxHealth := DefaultHealth;
      canHitReact := true;
      stunned := false;
      stunChance := DefaultStunChance;
      hitNumbers := map[];
    }

    /** Applies the damage; `died` tells whether Die was called. Returns the damage itself. */
    method TakeDamage(damage: real) returns (dealt: real, died: bool)
      modifies this`health
      ensures dealt == damage
      ensures health == HealthAfterDamage(old(health), damage)
      ensures died <==> old(health) - damage <= 0.0
      ensures died ==> health == 0.0
      ensures !died ==> health == old(health) - damage && health > 0.0
    {
      died := false;
      if health - damage <= 0.0 {
        health := 0.0;
        died := true;
      } else {
        health := health - damage;
      }
      dealt := damage;
    }

    /**
     * Plays a hit reaction unless one is already running; `reacted` tells whether it played.
     * Playing closes the gate until ResetHitReactTimer reopens it.
     */
    method PlayHitMontage() returns (reacted: bool)
      modifies this`canHitReact
      ensures reacted == old(canHitReact)
      ensures !canHitReact
    {
      if !canHitReact {
        return false;
      }
      canHitReact := false;
      reacted := true;
    }

    /** The hit-react timer's callback: the enemy may react again. */
    method ResetHitReactTimer()
      modifies this`canHitReact
      ensures canHitReact
    {
      canHitReact := true;
    }

    /**
     * A bullet hit, with the random draw from [0, 1] as a parameter: a draw at most the stun
     * chance plays a hit reaction and stuns; otherwise nothing in this state changes. Nothing
     * here clears the stun.
     */
    method BulletHit(draw: real) returns (reacted: bool)
      modifies this`canHitReact, this`stunned
      ensures stunned <==> old(stunned) || Stuns(draw, stunChance)
      ensures reacted <==> Stuns(draw, stunChance) && old(canHitReact)
      ensures canHitReact <==> old(canHitReact) && !Stuns(draw, stunChance)
    {
      reacted := false;
      if draw <= stunChance {
        reacted := PlayHitMontage();
        stunned := true;
      }
    }

    /** Records a hit number at a location; a widget already present moves to the new location. */
    method StoreHitNumber(w: HitNumberWidget, loc: Location)
      modifies this`hitNumbers
      ensures w in hitNumbers && hitNumbers[w] == loc
      ensures forall v :: v != w ==> (v in hitNumbers <==> v in old(hitNumbers))
      ensures forall v :: v != w && v in hitNumbers ==> hitNumbers[v] == old(hitNumbers)[v]
    {
      hitNumbers := hitNumbers[w := loc];
    }

    /** The hit number's timer callback: forgets the widget; the other entries stay. */
    method DestroyHitNumber(w: HitNumberWidget)
      modifies this`hitNumbers
      ensures w !in hitNumbers
      ensures hitNumbers == map v | v in old(hitNumbers) && v != w :: old(hitNumbers)[v]
    {
      hitNumbers := hitNumbers - {w};
    }
  }

  /**
   * A hit reaction, a second hit before its timer fires, then the timer: the second hit is
   * blocked, and once the gate is open again another reaction plays.
   */
  method HitReactCycle(e: Enemy) returns (first: bool, blocked: bool, second: bool)
    requires e.canHitReact
    modifies e
    ensures first && !blocked && second
  {
    first := e.PlayHitMontage();
    blocked := e.PlayHitMontage();
    e.ResetHitReactTimer();
    second := e.PlayHitMontage();
  }

  /** Storing a fresh hit number and destroying it again leaves the map as it was. */
  method HitNumberRoundTrip(e: Enemy, w: HitNumberWidget, loc: Location)
    requires w !in e.hitNumbers
    modifies e
    ensures e.hitNumbers == old(e.hitNumbers)
  {
    e.StoreHitNumber(w, loc);
    e.DestroyHitNumber(w);
  }
}
