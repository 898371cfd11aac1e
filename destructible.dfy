/**
 A destructible object's health counter (DestructibleObject.cs).

 The object starts at its maximum health; each hit subtracts the damage as
 given, with no sign check and no clamp. A hit that leaves the health at zero
 or below first tells the optional observer (the easter-egg manager) that this
 game object was destroyed, and then asks the engine to destroy it. The object
 keeps no "already destroyed" flag: every such hit asks again.

 Health is an unbounded integer (the source's 32-bit wrap-around is not
 modelled). The two calls the object makes to code outside it are recorded, in
 order, in a log of `HostCall`s.
 */
module Destructible {

  /** Identity of a game object in the scene. */
  type GameObject = nat

  /** A call the object makes to code outside it. */
  datatype HostCall =
    | OnObjectDestroyed(destroyed: GameObject)  // easterEggManager.OnObjectDestroyed(gameObject)
    | Destroy(target: GameObject)               // Destroy(gameObject), carried out by the engine later

  /** The calls one hit makes, given the health it leaves. */
  function HitCalls(health: int, observerPresent: bool, self: GameObject): (r: seq<HostCall>)
    ensures r == [] <==> health > 0
    ensures Destroy(self) in r <==> health <= 0
    ensures OnObjectDestroyed(self) in r <==> health <= 0 && observerPresent
    ensures |r| <= 2
    ensures r != [] ==> r[|r| - 1] == Destroy(self)
    ensures |r| == 2 ==> r[0] == OnObjectDestroyed(self)
    ensures forall c :: c in r ==> c == Destroy(self) || c == OnObjectDestroyed(self)
  {
    if health <= 0 then
      (if observerPresent then [OnObjectDestroyed(self)] else []) + [Destroy(self)]
    else
      []
  }

  class DestructibleObject {
    const maxHealth: int
    const gameObject: GameObject
    var currentHealth: int
    /** Whether the scene lookup in Start found an easter-egg manager. */
    var observerPresent: bool
    /** Every call made to the observer and to the engine's Destroy, oldest first. */
    ghost var calls: seq<HostCall>

    /** The object as the engine creates it: fields at their defaults, Start not yet run. */
    constructor (maxHealth: int, gameObject: GameObject)
      ensures this.maxHealth == maxHealth && this.gameObject == gameObject
      ensures currentHealth == 0 && !observerPresent && calls == []
    {
      this.maxHealth := maxHealth;
      this.gameObject := gameObject;
      currentHealth := 0;
      observerPresent := false;
      calls := [];
    }

    /** Sets full health and records whether an observer exists in the scene. */
    method Start(observerFound: bool)
      modifies this
      ensures currentHealth == maxHealth
      ensures observerPresent == observerFound
      ensures calls == old(calls)
    {
      currentHealth := maxHealth;
      observerPresent := observerFound;
    }

    /** Subtracts the damage; at zero or below, notifies the observer (if any), then asks for destruction. */
    method TakeDamage(damage: int)
      modifies this
      ensures currentHealth == old(currentHealth) - damage
      ensures observerPresent == old(observerPresent)
      ensures calls == old(calls) + HitCalls(currentHealth, observerPresent, gameObject)
    {
      currentHealth := currentHealth - damage;
      if currentHealth <= 0 {
        if observerPresent {
          calls := calls + [OnObjectDestroyed(gameObject)];
        }
        calls := calls + [Destroy(gameObject)];
      }
    }
  }

  // ---------------------------------------------------------------------------
  // A series of hits, as the host drives TakeDamage call after call.

  /** Health and the calls made so far. */
  datatype Outcome = Outcome(health: int, calls: seq<HostCall>)

  /** The state after the hits `damages`, one TakeDamage call each, starting from `health`. */
  function RunDamage(health: int, observerPresent: bool, self: GameObject, damages: seq<int>): (r: Outcome)
    ensures |r.calls| <= 2 * |damages|
    decreases damages
  {
    if damages == [] then Outcome(health, [])
    else
      var after := health - damages[0];
      var rest := RunDamage(after, observerPresent, self, damages[1..]);
      Outcome(rest.health, HitCalls(after, observerPresent, self) + rest.calls)
  }

  /** The host calling TakeDamage once per hit, in order: the object ends as RunDamage says. */
  method TakeHits(o: DestructibleObject, damages: seq<int>)
    modifies o
    ensures o.currentHealth == RunDamage(old(o.currentHealth), o.observerPresent, o.gameObject, damages).health
    ensures o.observerPresent == old(o.observerPresent)
    ensures o.calls == old(o.calls) + RunDamage(old(o.currentHealth), o.observerPresent, o.gameObject, damages).calls
    decreases damages
  {
    if damages != [] {
      ghost var calls0 := o.calls;
      o.TakeDamage(damages[0]);
      ghost var first := HitCalls(o.currentHealth, o.observerPresent, o.gameObject);
      ghost var rest := RunDamage(o.currentHealth, o.observerPresent, o.gameObject, damages[1..]);
      TakeHits(o, damages[1..]);
      assert (calls0 + first) + rest.calls == calls0 + (first + rest.calls);
    }
  }

  /** The total damage dealt. */
  function Sum(damages: seq<int>): int
  {
    if damages == [] then 0 else damages[0] + Sum(damages[1..])
  }

  /** The health left after each hit, in order. */
  function Healths(health: int, damages: seq<int>): (r: seq<int>)
    ensures |r| == |damages|
    decreases damages
  {
    if damages == [] then [] else [health - damages[0]] + Healths(health - damages[0], damages[1..])
  }

  /** The calls made by successive hits that leave the healths `hs`. */
  function CallsFor(hs: seq<int>, observerPresent: bool, self: GameObject): seq<HostCall>
  {
    if hs == [] then [] else HitCalls(hs[0], observerPresent, self) + CallsFor(hs[1..], observerPresent, self)
  }

  /** How many of the calls are of the given kind. */
  function Occurrences(calls: seq<HostCall>, c: HostCall): nat
  {
    if calls == [] then 0 else (if calls[0] == c then 1 else 0) + Occurrences(calls[1..], c)
  }

  /** How many of the healths are at zero or below. */
  function Depleted(hs: seq<int>): nat
  {
    if hs == [] then 0 else (if hs[0] <= 0 then 1 else 0) + Depleted(hs[1..])
  }

  /** After a series of hits the health has fallen by exactly the total damage: nothing is clamped. */
  lemma {:induction false} RunDamageHealth(health: int, observerPresent: bool, self: GameObject, damages: seq<int>)
    ensures RunDamage(health, observerPresent, self, damages).health == health - Sum(damages)
    decreases damages
  {
    if damages != [] {
      RunDamageHealth(health - damages[0], observerPresent, self, damages[1..]);
    }
  }

  /** The health after hit i is the starting health minus the damage of the first i + 1 hits. */
  lemma {:induction false} HealthsAt(health: int, damages: seq<int>, i: nat)
    requires i < |damages|
    ensures Healths(health, damages)[i] == health - Sum(damages[..i + 1])
    decreases i
  {
    if i > 0 {
      HealthsAt(health - damages[0], damages[1..], i - 1);
      assert damages[..i + 1][1..] == damages[1..][..i];
    }
  }

  /** The calls of a series are the calls each hit makes for the health it leaves, in order. */
  lemma {:induction false} RunDamageCalls(health: int, observerPresent: bool, self: GameObject, damages: seq<int>)
    ensures RunDamage(health, observerPresent, self, damages).calls
         == CallsFor(Healths(health, damages), observerPresent, self)
    decreases damages
  {
    if damages != [] {
      RunDamageCalls(health - damages[0], observerPresent, self, damages[1..]);
      assert Healths(health, damages)[1..] == Healths(health - damages[0], damages[1..]);
    }
  }

  lemma {:induction false} OccurrencesAppend(a: seq<HostCall>, b: seq<HostCall>, c: HostCall)
    ensures Occurrences(a + b, c) == Occurrences(a, c) + Occurrences(b, c)
  {
    if a != [] {
      assert (a + b)[0] == a[0] && (a + b)[1..] == a[1..] + b;
      OccurrencesAppend(a[1..], b, c);
    } else {
      assert a + b == b;
    }
  }

  /**
   One destroy request per hit that leaves the health at zero or below, and as
   many notifications when an observer is present (none otherwise): there is
   no "already destroyed" guard.
   */
  lemma {:induction false} CallsForCounts(hs: seq<int>, observerPresent: bool, self: GameObject)
    ensures Occurrences(CallsFor(hs, observerPresent, self), Destroy(self)) == Depleted(hs)
    ensures Occurrences(CallsFor(hs, observerPresent, self), OnObjectDestroyed(self))
         == if observerPresent then Depleted(hs) else 0
  {
    if hs != [] {
      var first := HitCalls(hs[0], observerPresent, self);
      var rest := CallsFor(hs[1..], observerPresent, self);
      CallsForCounts(hs[1..], observerPresent, self);
      OccurrencesAppend(first, rest, Destroy(self));
      OccurrencesAppend(first, rest, OnObjectDestroyed(self));
      if hs[0] <= 0 {
        if observerPresent {
          assert first == [OnObjectDestroyed(self), Destroy(self)];
        } else {
          assert first == [Destroy(self)];
        }
      }
    }
  }

  /** Over a series of hits, destroy requests and notifications both count the hits that leave health <= 0. */
  lemma RunDamageCounts(health: int, observerPresent: bool, self: GameObject, damages: seq<int>)
    ensures Occurrences(RunDamage(health, observerPresent, self, damages).calls, Destroy(self))
         == Depleted(Healths(health, damages))
    ensures Occurrences(RunDamage(health, observerPresent, self, damages).calls, OnObjectDestroyed(self))
         == if observerPresent then Depleted(Healths(health, damages)) else 0
  {
    RunDamageCalls(health, observerPresent, self, damages);
    CallsForCounts(Healths(health, damages), observerPresent, self);
  }

  /** With no negative damage, health never rises above where it started (so never above maxHealth after Start). */
  lemma {:induction false} NonNegativeDamageBounded(health: int, damages: seq<int>, i: nat)
    requires forall k :: 0 <= k < |damages| ==> damages[k] >= 0
    requires i < |damages|
    ensures Healths(health, damages)[i] <= health
    decreases i
  {
    if i > 0 {
      NonNegativeDamageBounded(health - damages[0], damages[1..], i - 1);
    }
  }

  /** With no negative damage, once a hit leaves health <= 0 every later hit does too, and so asks again to be destroyed. */
  lemma {:induction false} StaysDepleted(health: int, damages: seq<int>, i: nat, j: nat)
    requires forall k :: 0 <= k < |damages| ==> damages[k] >= 0
    requires i <= j < |damages|
    requires Healths(health, damages)[i] <= 0
    ensures Healths(health, damages)[j] <= 0
    decreases i
  {
    if i > 0 {
      StaysDepleted(health - damages[0], damages[1..], i - 1, j - 1);
    } else if j > 0 {
      NonNegativeDamageBounded(health - damages[0], damages[1..], j - 1);
    }
  }

  /** Negative damage heals, past the maximum and without any call. */
  lemma NegativeDamageHeals(maxHealth: int, observerPresent: bool, self: GameObject, heal: int)
    requires heal > 0 && maxHealth > 0
    ensures RunDamage(maxHealth, observerPresent, self, [-heal]) == Outcome(maxHealth + heal, [])
    ensures RunDamage(maxHealth, observerPresent, self, [-heal]).health > maxHealth
  {
  }

  /** With maxHealth 100, hits of 30 leave 70, 40, 10 and then -20. */
  lemma ThirtyDamageHealths()
    ensures Healths(100, [30, 30, 30, 30]) == [70, 40, 10, -20]
  {
    assert [30, 30, 30, 30][1..] == [30, 30, 30];
    assert [30, 30, 30][1..] == [30, 30];
    assert [30, 30][1..] == [30];
    assert Healths(10, [30]) == [-20];
    assert Healths(40, [30, 30]) == [10, -20];
    assert Healths(70, [30, 30, 30]) == [40, 10, -20];
  }

  /** From maxHealth 100, three hits of 30 make no call at all; the fourth makes the object ask to be destroyed. */
  lemma ThirtyDamageExample(observerPresent: bool, self: GameObject)
    ensures RunDamage(100, observerPresent, self, [30, 30, 30]) == Outcome(10, [])
    ensures RunDamage(100, observerPresent, self, [30, 30, 30, 30])
         == Outcome(-20, HitCalls(-20, observerPresent, self))
  {
    var o, calls := observerPresent, HitCalls(-20, observerPresent, self);
    assert [30, 30, 30, 30][1..] == [30, 30, 30];
    assert [30, 30, 30][1..] == [30, 30];
    assert [30, 30][1..] == [30];
    assert RunDamage(-20, o, self, []) == Outcome(-20, []);
    assert RunDamage(10, o, self, [30]) == Outcome(-20, calls);
    assert RunDamage(40, o, self, [30, 30]) == Outcome(-20, calls);
    assert RunDamage(70, o, self, [30, 30, 30]) == Outcome(-20, calls);
    assert RunDamage(10, o, self, []) == Outcome(10, []);
    assert RunDamage(40, o, self, [30]) == Outcome(10, []);
    assert RunDamage(70, o, self, [30, 30]) == Outcome(10, []);
  }

  /** From maxHealth 100, a single hit of 100 asks once to be destroyed, after notifying the observer if there is one. */
  lemma LethalHitExample(observerPresent: bool, self: GameObject)
    ensures RunDamage(100, observerPresent, self, [100]).calls
         == if observerPresent then [OnObjectDestroyed(self), Destroy(self)] else [Destroy(self)]
  {
  }
}
