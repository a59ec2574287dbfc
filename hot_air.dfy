/**
 * The timed round-robin activator of the hot-air vents (class HotAir in
 * Assets/Scripts/HotAir.cs).
 *
 * A timer alternates between a "spawned" phase, during which one vent and
 * its particle system are active, and a "cooldown" phase with everything
 * inactive. Each deactivation moves a cyclic index to the next vent. The
 * engine's SetActive calls are modelled as the entries of two flag arrays.
 */
module HotAirRules {

  /** Everything HotAir reads or writes, as a value. */
  datatype Cycle = Cycle(
    hotAirObjects: seq<bool>,     // active flag of each vent
    particleSystems: seq<bool>,   // active flag of each vent's particles
    timer: real,
    currentObjectIndex: nat,
    isSpawned: bool)

  /** The two serialized durations (2 and 3 seconds by default). */
  datatype Timing = Timing(spawnDuration: real, cooldown: real)

  /** Shape of the state: equally many vents and particle systems, and an index that selects one. */
  predicate Valid(c: Cycle) {
    0 < |c.hotAirObjects| && |c.particleSystems| == |c.hotAirObjects| &&
    c.currentObjectIndex < |c.hotAirObjects|
  }

  /** Switches on the vent and particles at the index and starts the spawned phase. */
  function ActivateNext(c: Cycle): (r: Cycle)
    requires Valid(c)
    ensures Valid(r) && |r.hotAirObjects| == |c.hotAirObjects|
  {
    c.(hotAirObjects := c.hotAirObjects[c.currentObjectIndex := true],
       particleSystems := c.particleSystems[c.currentObjectIndex := true],
       isSpawned := true,
       timer := 0.0)
  }

  /** Switches off the current vent and particles, moves to the next vent, starts the cooldown. */
  function DeactivateCurrent(c: Cycle): (r: Cycle)
    requires Valid(c)
    ensures Valid(r) && |r.hotAirObjects| == |c.hotAirObjects|
  {
    c.(hotAirObjects := c.hotAirObjects[c.currentObjectIndex := false],
       particleSystems := c.particleSystems[c.currentObjectIndex := false],
       currentObjectIndex := (c.currentObjectIndex + 1) % |c.hotAirObjects|,
       isSpawned := false,
       timer := 0.0)
  }

  /** One frame: advance the timer by dt, then end the phase whose duration has run out. */
  function Update(c: Cycle, t: Timing, dt: real): (r: Cycle)
    requires Valid(c)
    ensures Valid(r) && |r.hotAirObjects| == |c.hotAirObjects|
  {
    var c1 := c.(timer := c.timer + dt);
    if c1.isSpawned && c1.timer >= t.spawnDuration then DeactivateCurrent(c1)
    else if !c1.isSpawned && c1.timer >= t.cooldown then ActivateNext(c1)
    else c1
  }

  /** The state Start leaves: n vents, all switched off, at index 0, in cooldown. */
  function Started(n: nat): Cycle {
    Cycle(seq(n, _ => false), seq(n, _ => false), 0.0, 0, false)
  }

  /** Vent i is active exactly when i is the index and the spawned phase is on. */
  predicate OnlyCurrentActive(c: Cycle)
    requires Valid(c)
  {
    forall i :: 0 <= i < |c.hotAirObjects| ==>
      (c.hotAirObjects[i] <==> c.isSpawned && i == c.currentObjectIndex)
  }

  /** The invariant HotAir keeps: one vent at most, and particles in lockstep with vents. */
  predicate Inv(c: Cycle) {
    Valid(c) && OnlyCurrentActive(c) && c.particleSystems == c.hotAirObjects
  }

  lemma StartedInv(n: nat)
    requires 0 < n
    ensures Inv(Started(n))
  {
  }

  /** Under the invariant no two vents are active at once. */
  lemma AtMostOneActive(c: Cycle, i: nat, j: nat)
    requires Inv(c)
    requires i < |c.hotAirObjects| && j < |c.hotAirObjects|
    requires c.hotAirObjects[i] && c.hotAirObjects[j]
    ensures i == j && c.particleSystems[i]
  {
  }

  /**
   * Activation switches on the vent at the index (and only it), enters the
   * spawned phase with a zero timer and keeps the index.
   */
  lemma ActivateNextEffect(c: Cycle)
    requires Inv(c) && !c.isSpawned
    ensures var r := ActivateNext(c);
      Inv(r) && r.isSpawned && r.timer == 0.0 &&
      r.currentObjectIndex == c.currentObjectIndex &&
      r.hotAirObjects[c.currentObjectIndex] && r.particleSystems[c.currentObjectIndex]
  {
  }

  /**
   * Deactivation leaves every vent switched off, enters the cooldown with a
   * zero timer and moves the index one vent on, cyclically.
   */
  lemma DeactivateCurrentEffect(c: Cycle)
    requires Inv(c) && c.isSpawned
    ensures var r := DeactivateCurrent(c);
      Inv(r) && !r.isSpawned && r.timer == 0.0 &&
      r.currentObjectIndex == (c.currentObjectIndex + 1) % |c.hotAirObjects| &&
      (forall i :: 0 <= i < |r.hotAirObjects| ==> !r.hotAirObjects[i] && !r.particleSystems[i])
  {
  }

  /**
   * A frame flips the phase at most once: either it only advances the timer,
   * or it flips the phase (exactly when that phase's duration has run out),
   * resets the timer, and moves the index only when leaving the spawned phase.
   */
  lemma UpdateAtMostOneTransition(c: Cycle, t: Timing, dt: real)
    requires Valid(c)
    ensures var r := Update(c, t, dt);
      (r.isSpawned != c.isSpawned <==>
         (if c.isSpawned then c.timer + dt >= t.spawnDuration else c.timer + dt >= t.cooldown)) &&
      (r.isSpawned == c.isSpawned ==> r == c.(timer := c.timer + dt)) &&
      (r.isSpawned != c.isSpawned ==>
         r.timer == 0.0 &&
         r.currentObjectIndex == if c.isSpawned then (c.currentObjectIndex + 1) % |c.hotAirObjects|
                                 else c.currentObjectIndex)
  {
  }

  /** Every frame keeps the invariant. */
  lemma UpdateKeepsInv(c: Cycle, t: Timing, dt: real)
    requires Inv(c)
    ensures Inv(Update(c, t, dt))
  {
    var c1 := c.(timer := c.timer + dt);
    if c1.isSpawned && c1.timer >= t.spawnDuration {
      DeactivateCurrentEffect(c1);
    } else if !c1.isSpawned && c1.timer >= t.cooldown {
      ActivateNextEffect(c1);
    }
  }

  function Run(c: Cycle, t: Timing, dts: seq<real>): (r: Cycle)
    requires Valid(c)
    ensures Valid(r) && |r.hotAirObjects| == |c.hotAirObjects|
    decreases |dts|
  {
    if dts == [] then c else Run(Update(c, t, dts[0]), t, dts[1..])
  }

  /** Over any run of frames at most one vent is on, and the particles stay in lockstep with the vents. */
  lemma {:induction false} RunKeepsInv(c: Cycle, t: Timing, dts: seq<real>)
    requires Inv(c)
    ensures Inv(Run(c, t, dts))
    decreases |dts|
  {
    if dts != [] {
      UpdateKeepsInv(c, t, dts[0]);
      RunKeepsInv(Update(c, t, dts[0]), t, dts[1..]);
    }
  }

  /** The vents switched on during a run of frames with the given time steps, in order. */
  function Activations(c: Cycle, t: Timing, dts: seq<real>): seq<nat>
    requires Valid(c)
    decreases |dts|
  {
    if dts == [] then []
    else
      var n := Update(c, t, dts[0]);
      (if !c.isSpawned && n.isSpawned then [c.currentObjectIndex] else []) + Activations(n, t, dts[1..])
  }

  /** The vent the next activation will switch on. */
  function NextVent(c: Cycle): nat
    requires Valid(c)
  {
    if c.isSpawned then (c.currentObjectIndex + 1) % |c.hotAirObjects| else c.currentObjectIndex
  }

  /** A frame that activates a vent keeps the index; any other frame keeps the vent due next. */
  lemma UpdateNextVent(c: Cycle, t: Timing, dt: real)
    requires Valid(c)
    ensures var n := Update(c, t, dt);
      (!c.isSpawned && n.isSpawned ==> n.currentObjectIndex == c.currentObjectIndex) &&
      (!(!c.isSpawned && n.isSpawned) ==> NextVent(n) == NextVent(c))
  {
  }

  /**
   * Round robin: the first activation of any run switches on NextVent, and
   * each later one switches on the vent after the one before, cyclically.
   */
  lemma {:induction false} RoundRobin(c: Cycle, t: Timing, dts: seq<real>)
    requires Valid(c)
    ensures var acts := Activations(c, t, dts);
      (|acts| > 0 ==> acts[0] == NextVent(c)) &&
      forall k :: 0 <= k < |acts| - 1 ==> acts[k + 1] == (acts[k] + 1) % |c.hotAirObjects|
    decreases |dts|
  {
    if dts != [] {
      var n := Update(c, t, dts[0]);
      UpdateNextVent(c, t, dts[0]);
      RoundRobin(n, t, dts[1..]);
      var rest := Activations(n, t, dts[1..]);
      var N := |c.hotAirObjects|;
      if !c.isSpawned && n.isSpawned {
        var acts := [c.currentObjectIndex] + rest;
        assert Activations(c, t, dts) == acts;
        assert n.currentObjectIndex == c.currentObjectIndex;
        forall k | 0 <= k < |acts| - 1
          ensures acts[k + 1] == (acts[k] + 1) % N
        {
          if k > 0 {
            assert acts[k + 1] == rest[k] && acts[k] == rest[k - 1];
          }
        }
      } else {
        assert Activations(c, t, dts) == rest;
        assert NextVent(n) == NextVent(c);
      }
    }
  }

  /** From Start with the three vents of the scene, the k-th activation switches on vent k mod 3: 0, 1, 2, 0, ... */
  lemma RoundRobinFromStart(t: Timing, dts: seq<real>)
    ensures var acts := Activations(Started(3), t, dts);
      forall k :: 0 <= k < |acts| ==> acts[k] == k % 3
  {
    var acts := Activations(Started(3), t, dts);
    RoundRobin(Started(3), t, dts);
    forall k | 0 <= k < |acts|
      ensures acts[k] == k % 3
    {
      CyclicFromZero(acts, k);
    }
  }

  /** A sequence that starts at 0 and steps cyclically through 3 values holds k mod 3 at k. */
  lemma {:induction false} CyclicFromZero(acts: seq<nat>, k: nat)
    requires k < |acts| && acts[0] == 0
    requires forall j :: 0 <= j < |acts| - 1 ==> acts[j + 1] == (acts[j] + 1) % 3
    ensures acts[k] == k % 3
  {
    if k > 0 {
      CyclicFromZero(acts, k - 1);
    }
  }
}

/** The component itself, whose methods are specified by the functions of HotAirRules. */
module HotAirComponent {
  import opened HotAirRules

  class HotAir {
    const spawnDuration: real
    const cooldown: real
    var timer: real
    var currentObjectIndex: nat
    var isSpawned: bool
    var hotAirObjects: array<bool>
    var particleSystems: array<bool>

    /** Three vents, three particle systems, in two different arrays, and an index into them. */
    ghost predicate Valid()
      reads this
    {
      hotAirObjects != particleSystems &&
      hotAirObjects.Length == 3 && particleSystems.Length == 3 &&
      currentObjectIndex < 3
    }

    ghost function Model(): (c: Cycle)
      reads this, hotAirObjects, particleSystems
      requires Valid()
      ensures HotAirRules.Valid(c)
    {
      Cycle(hotAirObjects[..], particleSystems[..], timer, currentObjectIndex, isSpawned)
    }

    /**
     * The field initialisers followed by Start: the arrays gather the three
     * vents and particle systems (active or not in the scene) and every one
     * is switched off.
     */
    constructor (spawnDuration: real, cooldown: real, ventsInScene: seq<bool>, particlesInScene: seq<bool>)
      requires |ventsInScene| == 3 && |particlesInScene| == 3
      ensures Valid() && fresh(hotAirObjects) && fresh(particleSystems)
      ensures this.spawnDuration == spawnDuration && this.cooldown == cooldown
      ensures Model() == Started(3)
    {
      this.spawnDuration, this.cooldown := spawnDuration, cooldown;
      timer, currentObjectIndex, isSpawned := 0.0, 0, false;
      hotAirObjects := new bool[3] [ventsInScene[0], ventsInScene[1], ventsInScene[2]];
      particleSystems := new bool[3] [particlesInScene[0], particlesInScene[1], particlesInScene[2]];
      new;
      SwitchOffAll(hotAirObjects);
      SwitchOffAll(particleSystems);
    }

    /** One `foreach` of Start: every object of the array is set inactive. */
    static method SwitchOffAll(objects: array<bool>)
      modifies objects
      ensures objects[..] == seq(objects.Length, _ => false)
    {
      for i := 0 to objects.Length
        invariant forall j :: 0 <= j < i ==> !objects[j]
      {
        objects[i] := false;
      }
    }

    method Update(dt: real)
      requires Valid()
      modifies hotAirObjects, particleSystems, this`timer, this`currentObjectIndex, this`isSpawned
      ensures Valid()
      ensures Model() == HotAirRules.Update(old(Model()), Timing(spawnDuration, cooldown), dt)
    {
      timer := timer + dt;
      if isSpawned && timer >= spawnDuration {
        DeactivateCurrent();
      } else if !isSpawned && timer >= cooldown {
        ActivateNext();
      }
    }

    method ActivateNext()
      requires Valid()
      modifies hotAirObjects, particleSystems, this`timer, this`isSpawned
      ensures Valid()
      ensures Model() == HotAirRules.ActivateNext(old(Model()))
    {
      hotAirObjects[currentObjectIndex] := true;
      particleSystems[currentObjectIndex] := true;
      isSpawned := true;
      timer := 0.0;
    }

    method DeactivateCurrent()
      requires Valid()
      modifies hotAirObjects, particleSystems, this`timer, this`currentObjectIndex, this`isSpawned
      ensures Valid()
      ensures Model() == HotAirRules.DeactivateCurrent(old(Model()))
    {
      hotAirObjects[currentObjectIndex] := false;
      particleSystems[currentObjectIndex] := false;
      currentObjectIndex := (currentObjectIndex + 1) % hotAirObjects.Length;
      isSpawned := false;
      timer := 0.0;
    }
  }
}
