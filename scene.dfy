/** The scene's state and its per-frame step (src/main.ts:31-103). */
module Scene {
  import opened Input

  /** Speed factor applied to the key direction (`scale(10.0)`). */
  const PlayerSpeed: int := 10
  /** Horizontal distance from the player to a new bullet. */
  const MuzzleOffset: int := 70
  /** Horizontal velocity of a new bullet. */
  const BulletSpeed: int := 20
  /** The player's position after `create`. */
  const PlayerStart: Vec2 := Vec2(100, 0)
  /** The fade-out tween attached to each bullet, in milliseconds. */
  const FadeDelay: int := 400
  const FadeDuration: int := 200

  /** The `Gun` record: created once and never read or written afterwards. */
  datatype Gun = Gun(isFiring: bool, lastFired: int)

  /** A bullet body as a plain record of the state `spawnBullet` gives it;
      `fadeDelay` and `fadeDuration` record the tween attached to it. */
  datatype Bullet = Bullet(pos: Vec2, vel: Vec2, alpha: int, fadeDelay: int, fadeDuration: int)

  /** The abstract value of a `World`: the player's body, the gun and every
      bullet spawned so far, oldest first, each as it was when spawned. */
  datatype WorldState = WorldState(playerPos: Vec2, playerVel: Vec2, gun: Gun, bullets: seq<Bullet>)

  /** One frame as the engine runs it: physics integration leaves the player
      at `enginePos`, then `update` runs with `keys` held. */
  datatype Frame = Frame(enginePos: Vec2, keys: PlayerKeys)

  /** Where a bullet fired by a player at `p` starts. */
  function Muzzle(p: Vec2): Vec2 {
    Vec2(p.x + MuzzleOffset, p.y)
  }

  /** The bullet `spawnBullet` creates at `position`. */
  function SpawnedBullet(position: Vec2): Bullet {
    Bullet(position, Vec2(BulletSpeed, 0), 1, FadeDelay, FadeDuration)
  }

  /** The state `create` builds. */
  function Initial(): WorldState {
    WorldState(PlayerStart, Vec2(0, 0), Gun(false, 0), [])
  }

  /** One call of `update` with the given keys held: at most one bullet is
      added, after all the earlier ones. */
  function StepState(s: WorldState, keys: PlayerKeys): (r: WorldState)
    ensures |r.bullets| == |s.bullets| + (if keys.fire then 1 else 0)
    ensures r.bullets[..|s.bullets|] == s.bullets
  {
    s.(playerVel := Scale(Direction(keys.cursor), PlayerSpeed),
       bullets := if keys.fire then s.bullets + [SpawnedBullet(Muzzle(s.playerPos))] else s.bullets)
  }

  /** One frame: the engine moves the player, then `update` runs. */
  function StepFrame(s: WorldState, f: Frame): WorldState {
    StepState(s.(playerPos := f.enginePos), f.keys)
  }

  /** Successive frames in order. The gun is never touched, and after the
      last frame the player is where the engine put it. */
  function Run(s: WorldState, frames: seq<Frame>): (r: WorldState)
    ensures r.gun == s.gun
    ensures frames != [] ==> r.playerPos == frames[|frames| - 1].enginePos
    decreases |frames|
  {
    if frames == [] then s else Run(StepFrame(s, frames[0]), frames[1..])
  }

  /** The number of frames in which fire is held. */
  function FireCount(frames: seq<Frame>): (n: nat)
    ensures n <= |frames|
  {
    if frames == [] then 0 else (if frames[0].keys.fire then 1 else 0) + FireCount(frames[1..])
  }

  /** The bullets a sequence of frames spawns: one per frame with fire held,
      at the muzzle of the position the engine gave the player in that frame. */
  function Spawns(frames: seq<Frame>): seq<Bullet> {
    if frames == [] then []
    else (if frames[0].keys.fire then [SpawnedBullet(Muzzle(frames[0].enginePos))] else [])
         + Spawns(frames[1..])
  }

  /** The player's velocity becomes ten times the key direction. */
  lemma StepVelocity(s: WorldState, keys: PlayerKeys)
    ensures StepState(s, keys).playerVel.x == 10 * Direction(keys.cursor).x
    ensures StepState(s, keys).playerVel.y == 10 * Direction(keys.cursor).y
  {
  }

  /** Fire held adds exactly one bullet, 70 to the right of the player,
      moving at (20, 0) with alpha 1; otherwise the bullets are unchanged. */
  lemma StepFire(s: WorldState, keys: PlayerKeys)
    ensures keys.fire ==>
              |StepState(s, keys).bullets| == |s.bullets| + 1 &&
              StepState(s, keys).bullets[..|s.bullets|] == s.bullets &&
              StepState(s, keys).bullets[|s.bullets|] ==
                Bullet(Vec2(s.playerPos.x + 70, s.playerPos.y), Vec2(20, 0), 1, 400, 200)
    ensures !keys.fire ==> StepState(s, keys).bullets == s.bullets
  {
  }

  /** `update` itself never writes the player's position or the gun. */
  lemma StepKeeps(s: WorldState, keys: PlayerKeys)
    ensures StepState(s, keys).playerPos == s.playerPos
    ensures StepState(s, keys).gun == s.gun
  {
  }

  /** Over any run, the bullets spawned earlier are kept and exactly the
      bullets of `Spawns` are appended, in frame order. */
  lemma {:induction false} RunBullets(s: WorldState, frames: seq<Frame>)
    ensures Run(s, frames).bullets == s.bullets + Spawns(frames)
    decreases |frames|
  {
    if frames != [] {
      var t := StepFrame(s, frames[0]);
      RunBullets(t, frames[1..]);
      assert Run(s, frames) == Run(t, frames[1..]);
      var first := if frames[0].keys.fire then [SpawnedBullet(Muzzle(frames[0].enginePos))] else [];
      assert t.bullets == s.bullets + first;
      assert Spawns(frames) == first + Spawns(frames[1..]);
      assert s.bullets + first + Spawns(frames[1..]) == s.bullets + (first + Spawns(frames[1..]));
    }
  }

  /** One bullet per frame with fire held: there is no rate limit. */
  lemma {:induction false} SpawnsCount(frames: seq<Frame>)
    ensures |Spawns(frames)| == FireCount(frames)
    decreases |frames|
  {
    if frames != [] {
      SpawnsCount(frames[1..]);
    }
  }

  /** The k-th bullet spawned during a run starts 70 units right of where the
      player was in the frame that fired it, moving at (20, 0) with alpha 1
      and the 400/200 ms fade recorded. */
  lemma {:induction false} SpawnedAt(frames: seq<Frame>, k: int)
    requires 0 <= k < |Spawns(frames)|
    ensures exists j :: 0 <= j < |frames| && frames[j].keys.fire &&
              Spawns(frames)[k] == Bullet(Vec2(frames[j].enginePos.x + 70, frames[j].enginePos.y),
                                          Vec2(20, 0), 1, 400, 200)
    decreases |frames|
  {
    var first := if frames[0].keys.fire then [SpawnedBullet(Muzzle(frames[0].enginePos))] else [];
    assert Spawns(frames) == first + Spawns(frames[1..]);
    if k < |first| {
      assert frames[0].keys.fire;
    } else {
      SpawnedAt(frames[1..], k - |first|);
      var j :| 0 <= j < |frames[1..]| && frames[1..][j].keys.fire &&
               Spawns(frames[1..])[k - |first|] ==
                 Bullet(Vec2(frames[1..][j].enginePos.x + 70, frames[1..][j].enginePos.y),
                        Vec2(20, 0), 1, 400, 200);
      assert frames[j + 1] == frames[1..][j];
    }
  }

  /** Holding fire on every one of n frames adds exactly n bullets. */
  lemma NoRateLimit(s: WorldState, frames: seq<Frame>)
    requires forall k :: 0 <= k < |frames| ==> frames[k].keys.fire
    ensures |Run(s, frames).bullets| == |s.bullets| + |frames|
  {
    AllFireCount(frames);
    SpawnsCount(frames);
    RunBullets(s, frames);
  }

  /** When fire is held on every frame, every frame counts as a firing frame. */
  lemma {:induction false} AllFireCount(frames: seq<Frame>)
    requires forall k :: 0 <= k < |frames| ==> frames[k].keys.fire
    ensures FireCount(frames) == |frames|
    decreases |frames|
  {
    if frames != [] {
      AllFireCount(frames[1..]);
    }
  }

  /** Two firing frames: each bullet starts 70 units right of where the
      engine had put the player in its own frame, so a player the engine
      has moved fires from the new place. */
  lemma TwoFiringFrames(keys: PlayerKeys, p: Vec2, q: Vec2)
    requires keys.fire
    ensures |Run(Initial(), [Frame(p, keys), Frame(q, keys)]).bullets| == 2
    ensures Run(Initial(), [Frame(p, keys), Frame(q, keys)]).bullets[0].pos == Vec2(p.x + 70, p.y)
    ensures Run(Initial(), [Frame(p, keys), Frame(q, keys)]).bullets[1].pos == Vec2(q.x + 70, q.y)
  {
    var frames := [Frame(p, keys), Frame(q, keys)];
    RunBullets(Initial(), frames);
    assert Spawns(frames[1..][1..]) == [];
    assert Spawns(frames) == [SpawnedBullet(Muzzle(p)), SpawnedBullet(Muzzle(q))];
  }

  /** After `create`, the gun stays {isFiring: false, lastFired: 0} whatever
      frames follow. */
  lemma GunNeverChanges(frames: seq<Frame>)
    ensures Run(Initial(), frames).gun == Gun(false, 0)
  {
  }

  /** After a non-empty run, the velocity is set by the last frame's keys alone. */
  lemma {:induction false} RunVelocity(s: WorldState, frames: seq<Frame>)
    requires frames != []
    ensures Run(s, frames).playerVel == Scale(Direction(frames[|frames| - 1].keys.cursor), 10)
    decreases |frames|
  {
    var t := StepFrame(s, frames[0]);
    if |frames| > 1 {
      RunVelocity(t, frames[1..]);
      assert frames[1..][|frames[1..]| - 1] == frames[|frames| - 1];
    }
  }

  /** The scene state that `create` builds and `update` changes. */
  class World {
    var playerPos: Vec2
    var playerVel: Vec2
    var gun: Gun
    var bullets: seq<Bullet>

    function State(): WorldState
      reads this
    {
      WorldState(playerPos, playerVel, gun, bullets)
    }

    /** `create`: the player at (100, 0) and a gun that is not firing. */
    constructor ()
      ensures State() == Initial()
      ensures playerPos == Vec2(100, 0) && gun == Gun(false, 0) && bullets == []
    {
      playerPos := Vec2(0, 0);
      playerVel := Vec2(0, 0);
      playerPos := PlayerStart;
      gun := Gun(false, 0);
      bullets := [];
    }

    /** `spawnBullet`: a new bullet body, set up one field at a time. */
    method SpawnBullet(position: Vec2)
      modifies this
      ensures bullets == old(bullets) + [SpawnedBullet(position)]
      ensures playerPos == old(playerPos) && playerVel == old(playerVel) && gun == old(gun)
    {
      var b := Bullet(Vec2(0, 0), Vec2(0, 0), 1, 0, 0);
      b := b.(vel := Vec2(BulletSpeed, 0));
      b := b.(pos := position);
      b := b.(alpha := 1);
      b := b.(fadeDelay := FadeDelay, fadeDuration := FadeDuration);
      bullets := bullets + [b];
    }

    /** `update`: set the player's velocity from the keys, then fire one
        bullet if the fire key is down. */
    method Step(keys: PlayerKeys)
      modifies this
      ensures State() == StepState(old(State()), keys)
      ensures playerVel == Scale(Direction(keys.cursor), PlayerSpeed)
      ensures playerPos == old(playerPos) && gun == old(gun)
      ensures bullets == if keys.fire then old(bullets) + [SpawnedBullet(Muzzle(old(playerPos)))]
                         else old(bullets)
    {
      var v := CursorKeysToVec2(keys.cursor);
      v := Scale(v, PlayerSpeed);
      playerVel := Vec2(v.x, v.y);
      if keys.fire {
        var position := Vec2(playerPos.x, playerPos.y);
        position := position.(x := position.x + MuzzleOffset);
        SpawnBullet(position);
      }
    }
  }
}
