/**
 * The timed spawner of environmental events (class Environmental_Ev in
 * Assets/Scripts/Environmental_Ev.cs).
 *
 * The same spawned/cooldown timer machine as the hot-air vents, but over a
 * single event object: after the cooldown a new instance is created at a
 * random position inside a box, and after the spawn duration that instance
 * is destroyed. Instantiate and Destroy are modelled by a map from instance
 * identities to positions holding the instances this spawner has created
 * and not yet destroyed; Random.Range is a nondeterministic choice.
 */
module SpawnRules {
  import opened Vectors

  datatype Option<T> = None | Some(value: T)

  /** The six serialized bounds of the spawn box. */
  datatype Box = Box(minX: real, maxX: real, minY: real, maxY: real, minZ: real, maxZ: real)

  /** The possible results of three calls Random.Range(min, max) on floats: on each axis, a value between the two bounds, whichever is larger. */
  predicate InBox(p: Vec3, box: Box) {
    Between(p.x, box.minX, box.maxX) && Between(p.y, box.minY, box.maxY) && Between(p.z, box.minZ, box.maxZ)
  }

  /** The two serialized durations. */
  datatype Timing = Timing(spawnDuration: real, cooldown: real)

  /** Everything Environmental_Ev reads or writes, as a value. */
  datatype Spawner = Spawner(
    timer: real,
    isSpawned: bool,
    currentInstance: Option<nat>,   // the last instance created (null before the first)
    live: map<nat, Vec3>,           // instances created and not yet destroyed, with their positions
    nextId: nat)                    // the identity the next Instantiate will give

  const Initial := Spawner(0.0, false, None, map[], 0)

  /** Destroy(currentInstance): removes that instance; destroying null does nothing. */
  function Destroy(live: map<nat, Vec3>, instance: Option<nat>): map<nat, Vec3> {
    if instance.Some? then live - {instance.value} else live
  }

  /**
   * One frame: advance the timer by dt, then either destroy the live
   * instance (spawn duration over) or create one at `pos` (cooldown over).
   * `pos` is the value RandomPosition drew for this frame.
   */
  function Update(s: Spawner, t: Timing, dt: real, pos: Vec3): Spawner {
    var s1 := s.(timer := s.timer + dt);
    if s1.isSpawned && s1.timer >= t.spawnDuration then
      s1.(live := Destroy(s1.live, s1.currentInstance), isSpawned := false, timer := 0.0)
    else if !s1.isSpawned && s1.timer >= t.cooldown then
      s1.(live := s1.live[s1.nextId := pos], currentInstance := Some(s1.nextId),
          nextId := s1.nextId + 1, isSpawned := true, timer := 0.0)
    else
      s1
  }

  /**
   * What the spawner keeps: every live instance is one it created and lies
   * in the box; while spawned exactly the current instance is live, and in
   * cooldown none is.
   */
  predicate Inv(s: Spawner, box: Box) {
    (forall id :: id in s.live ==> id < s.nextId && InBox(s.live[id], box)) &&
    (s.isSpawned ==> s.currentInstance.Some? && s.live.Keys == {s.currentInstance.value}) &&
    (!s.isSpawned ==> s.live == map[])
  }

  lemma InitialInv(box: Box)
    ensures Inv(Initial, box)
  {
  }

  /** Under the invariant at most one instance is live. */
  lemma AtMostOneLive(s: Spawner, box: Box)
    requires Inv(s, box)
    ensures |s.live| <= 1
  {
    if s.isSpawned {
      assert s.live.Keys == {s.currentInstance.value};
      assert |s.live| == |s.live.Keys|;
    }
  }

  /**
   * The three outcomes of a frame: the live instance is destroyed when the
   * spawn duration has run out, a new one is created at the drawn position
   * (with none live before) when the cooldown has run out, and otherwise
   * only the timer changes.
   */
  lemma UpdateEffect(s: Spawner, t: Timing, box: Box, dt: real, pos: Vec3)
    requires Inv(s, box)
    ensures var r := Update(s, t, dt, pos);
      (s.isSpawned && s.timer + dt >= t.spawnDuration ==>
         r.live == map[] && !r.isSpawned && r.timer == 0.0) &&
      (!s.isSpawned && s.timer + dt >= t.cooldown ==>
         s.live == map[] && r.live == map[s.nextId := pos] && r.currentInstance == Some(s.nextId) &&
         r.isSpawned && r.timer == 0.0) &&
      (!(s.isSpawned && s.timer + dt >= t.spawnDuration) && !(!s.isSpawned && s.timer + dt >= t.cooldown) ==>
         r == s.(timer := s.timer + dt))
  {
    if s.isSpawned && s.timer + dt >= t.spawnDuration {
      assert s.live.Keys == {s.currentInstance.value};
      assert Destroy(s.live, s.currentInstance).Keys == {};
    }
  }

  /** A frame creates an instance only when none was live: a new one never appears beside an old one. */
  lemma CreatesOnlyWhenNoneLive(s: Spawner, t: Timing, box: Box, dt: real, pos: Vec3, id: nat)
    requires Inv(s, box)
    requires id in Update(s, t, dt, pos).live && id !in s.live
    ensures !s.isSpawned && s.live == map[] && id == s.nextId
  {
  }

  /** Every frame keeps the invariant when the drawn position is in the box. */
  lemma UpdateKeepsInv(s: Spawner, t: Timing, box: Box, dt: real, pos: Vec3)
    requires Inv(s, box) && InBox(pos, box)
    ensures Inv(Update(s, t, dt, pos), box)
  {
    UpdateEffect(s, t, box, dt, pos);
  }

  /** One frame's inputs: the time step and the position RandomPosition would draw. */
  datatype Frame = Frame(dt: real, draw: Vec3)

  function Run(s: Spawner, t: Timing, frames: seq<Frame>): Spawner
    decreases |frames|
  {
    if frames == [] then s else Run(Update(s, t, frames[0].dt, frames[0].draw), t, frames[1..])
  }

  /** Over any run of frames from any state satisfying the invariant (`Initial` does, by `InitialInv`), at most one instance is ever live, and it lies in the box. */
  lemma {:induction false} RunKeepsInv(s: Spawner, t: Timing, box: Box, frames: seq<Frame>)
    requires Inv(s, box)
    requires forall i :: 0 <= i < |frames| ==> InBox(frames[i].draw, box)
    ensures Inv(Run(s, t, frames), box) && |Run(s, t, frames).live| <= 1
    decreases |frames|
  {
    if frames == [] {
      AtMostOneLive(s, box);
    } else {
      UpdateKeepsInv(s, t, box, frames[0].dt, frames[0].draw);
      RunKeepsInv(Update(s, t, frames[0].dt, frames[0].draw), t, box, frames[1..]);
    }
  }
}

/** The component itself, whose Update is specified by SpawnRules.Update. */
module EnvironmentalComponent {
  import opened Vectors
  import opened SpawnRules

  class EnvironmentalEvent {
    const minX: real
    const maxX: real
    const minY: real
    const maxY: real
    const minZ: real
    const maxZ: real
    const spawnDuration: real
    const cooldown: real
    var currentInstance: Option<nat>
    var timer: real
    var isSpawned: bool
    /** The scene's side of Instantiate and Destroy: the live instances of the event object, by identity. */
    var live: map<nat, Vec3>
    var nextId: nat

    function Bounds(): Box
      reads this
    {
      Box(minX, maxX, minY, maxY, minZ, maxZ)
    }

    ghost function Model(): Spawner
      reads this
    {
      Spawner(timer, isSpawned, currentInstance, live, nextId)
    }

    /** The serialized fields and the initialisers: no instance, timer at zero, in cooldown. */
    constructor (minX: real, maxX: real, minY: real, maxY: real, minZ: real, maxZ: real,
                 spawnDuration: real, cooldown: real)
      ensures Bounds() == Box(minX, maxX, minY, maxY, minZ, maxZ)
      ensures this.spawnDuration == spawnDuration && this.cooldown == cooldown
      ensures Model() == Initial
    {
      this.minX, this.maxX, this.minY, this.maxY, this.minZ, this.maxZ := minX, maxX, minY, maxY, minZ, maxZ;
      this.spawnDuration, this.cooldown := spawnDuration, cooldown;
      currentInstance, timer, isSpawned := None, 0.0, false;
      live, nextId := map[], 0;
    }

    /** Draws each coordinate anywhere between its axis bounds. */
    method RandomPosition() returns (p: Vec3)
      ensures InBox(p, Bounds())
    {
      assert Between(minX, minX, maxX) && Between(minY, minY, maxY) && Between(minZ, minZ, maxZ);
      var x :| Between(x, minX, maxX);
      var y :| Between(y, minY, maxY);
      var z :| Between(z, minZ, maxZ);
      p := Vec3(x, y, z);
    }

    method Update(dt: real)
      modifies this`timer, this`isSpawned, this`currentInstance, this`live, this`nextId
      ensures exists pos ::
        InBox(pos, Bounds()) && Model() == SpawnRules.Update(old(Model()), Timing(spawnDuration, cooldown), dt, pos)
    {
      ghost var before := Model();
      ghost var pos := Vec3(minX, minY, minZ);
      timer := timer + dt;
      if isSpawned && timer >= spawnDuration {
        live := Destroy(live, currentInstance);
        isSpawned := false;
        timer := 0.0;
      } else if !isSpawned && timer >= cooldown {
        var randomPos := RandomPosition();
        pos := randomPos;
        live := live[nextId := randomPos];
        currentInstance := Some(nextId);
        nextId := nextId + 1;
        isSpawned := true;
        timer := 0.0;
      }
      assert InBox(pos, Bounds()) && Model() == SpawnRules.Update(before, Timing(spawnDuration, cooldown), dt, pos);
    }
  }
}
