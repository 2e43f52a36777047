/**
 * Power-ups: falling pickups, and the map from each active effect to the
 * time (ms) at which it expires.
 */
module Powerups {
  import opened Wrappers
  import opened Config
  import opened Geometry
  import opened Groups

  /** A falling pickup (the source's PowerUp sprite). */
  datatype Pickup = Pickup(rect: Rect, kind: PowerUpType)

  /** A pickup of the drawn `kind`, centred at (x, y). */
  function NewPickup(x: int, y: int, kind: PowerUpType): Pickup
  {
    Pickup(CenteredAt(x, y, PowerupSize, PowerupSize), kind)
  }

  /** A pickup falls PowerupSpeed px and is gone once its top is below the screen. */
  function FallPickup(p: Pickup): (r: Option<Pickup>)
    ensures r.Some? <==> p.rect.top + PowerupSpeed <= ScreenHeight
    ensures r.Some? ==> r.value == p.(rect := p.rect.MoveBy(0, PowerupSpeed))
  {
    var moved := p.(rect := p.rect.MoveBy(0, PowerupSpeed));
    if moved.rect.top > ScreenHeight then None else Some(moved)
  }

  /** `should_spawn`, given the draw `roll` of `random.random()`. */
  predicate ShouldSpawn(roll: real)
    ensures 0.0 <= roll < 1.0 ==> (ShouldSpawn(roll) <==> roll < 1.0 / 5.0)
    ensures roll >= 1.0 / 5.0 ==> !ShouldSpawn(roll)
  {
    roll < PowerupDropChance
  }

  /**
   * The pickups' rectangles, in group order, for the collision search. Pickups
   * are values, unlike bricks, so the brick group has its own `BrickRects`.
   */
  function PickupRects(ps: seq<Pickup>): (rs: seq<Rect>)
    ensures |rs| == |ps| && forall i :: 0 <= i < |ps| ==> rs[i] == ps[i].rect
  {
    seq(|ps|, i requires 0 <= i < |ps| => ps[i].rect)
  }

  /** The effects still running at `now`. */
  function Unexpired(m: map<PowerUpType, int>, now: int): (r: map<PowerUpType, int>)
    ensures r.Keys <= m.Keys
    ensures forall t :: t in r ==> r[t] == m[t] && now < r[t]
    ensures forall t :: t in m && now < m[t] ==> t in r
  {
    map t | t in m && now < m[t] :: m[t]
  }

  /** The effects whose time is up at `now`. */
  function Expired(m: map<PowerUpType, int>, now: int): (e: set<PowerUpType>)
    ensures e <= m.Keys
    ensures e !! Unexpired(m, now).Keys && e + Unexpired(m, now).Keys == m.Keys
  {
    set t | t in m && now >= m[t]
  }

  /** The effect shown on screen: bullet, else slow, else fast. */
  function ActiveType(m: map<PowerUpType, int>): (r: Option<PowerUpType>)
    ensures r == Some(Bullet) <==> Bullet in m
    ensures r == Some(Slow) <==> Slow in m && Bullet !in m
    ensures r == Some(Fast) <==> Fast in m && Slow !in m && Bullet !in m
    ensures r.None? <==> m == map[]
    ensures r.Some? ==> r.value in m
  {
    if Bullet in m then Some(Bullet)
    else if Slow in m then Some(Slow)
    else if Fast in m then Some(Fast)
    else
      NoKeyLeft(m);
      None
  }

  /** A map with none of the three kinds as a key is empty. */
  lemma NoKeyLeft(m: map<PowerUpType, int>)
    requires Slow !in m && Fast !in m && Bullet !in m
    ensures m == map[]
  {
    forall t: PowerUpType ensures t !in m {
      match t
      case Slow =>
      case Fast =>
      case Bullet =>
    }
  }

  class PowerUpManager {
    /** Effect -> absolute expiry time (ms). */
    var active: map<PowerUpType, int>
    /** The falling pickups, in insertion order. */
    var pickups: seq<Pickup>

    constructor ()
      ensures active == map[] && pickups == []
    {
      active := map[];
      pickups := [];
    }

    /** Drop a pickup of the drawn `kind` at (x, y) when the draw `roll` falls under the drop chance. */
    method SpawnPowerup(x: int, y: int, roll: real, kind: PowerUpType) returns (spawned: Option<Pickup>)
      modifies this
      ensures ShouldSpawn(roll) ==> spawned == Some(NewPickup(x, y, kind)) && pickups == old(pickups) + [spawned.value]
      ensures !ShouldSpawn(roll) ==> spawned == None && pickups == old(pickups)
      ensures active == old(active)
    {
      if ShouldSpawn(roll) {
        var p := NewPickup(x, y, kind);
        pickups := pickups + [p];
        return Some(p);
      }
      return None;
    }

    /** Move the pickups, then drop every effect whose time is up and return those effects. */
    method Update(dt: int, now: int) returns (expired: set<PowerUpType>)
      modifies this
      ensures pickups == UpdateAll(old(pickups), FallPickup)
      ensures expired == Expired(old(active), now)
      ensures active == Unexpired(old(active), now)
    {
      pickups := UpdateAll(pickups, FallPickup);
      expired := {};
      var unseen := active.Keys;
      while unseen != {}
        invariant unseen <= active.Keys
        invariant active == old(active) && pickups == UpdateAll(old(pickups), FallPickup)
        invariant expired == Expired(active, now) - unseen
        decreases unseen
      {
        var t :| t in unseen;
        if now >= active[t] {
          expired := expired + {t};
        }
        unseen := unseen - {t};
      }
      var doomed := expired;
      while doomed != {}
        invariant doomed <= expired
        invariant pickups == UpdateAll(old(pickups), FallPickup)
        invariant active.Keys == old(active).Keys - (expired - doomed)
        invariant forall t :: t in active ==> active[t] == old(active)[t]
        decreases doomed
      {
        var t :| t in doomed;
        active := active - {t};
        doomed := doomed - {t};
      }
    }

    /** Start (or restart) effect `t`, expiring `duration` ms after `now`. */
    method Activate(t: PowerUpType, now: int, duration: int)
      modifies this
      ensures active == old(active)[t := now + duration]
      ensures pickups == old(pickups)
    {
      active := active[t := now + duration];
    }

    /** Whether effect `t` is running; bullet is running exactly when it is the one shown. */
    predicate IsActive(t: PowerUpType)
      reads this
      ensures IsActive(t) ==> GetActiveType().Some?
      ensures t == Bullet ==> (IsActive(t) <==> GetActiveType() == Some(Bullet))
    {
      t in active
    }

    /** The effect shown on screen. */
    function GetActiveType(): (shown: Option<PowerUpType>)
      reads this
      ensures shown.None? <==> active == map[]
      ensures shown.Some? ==> shown.value in active
      ensures Bullet in active ==> shown == Some(Bullet)
      ensures shown == Some(Fast) ==> Bullet !in active && Slow !in active
    {
      ActiveType(active)
    }

    /**
     * Collect the first pickup touching the paddle: remove it and activate its
     * effect for PowerupDuration. At most one pickup per call.
     */
    method CheckCollision(paddle: Rect, now: int) returns (collected: Option<PowerUpType>, duration: int)
      modifies this
      ensures var k := FirstOverlap(PickupRects(old(pickups)), paddle);
        && (k.None? ==> collected.None? && duration == 0 && pickups == old(pickups) && active == old(active))
        && (k.Some? ==>
              var p := old(pickups)[k.value];
              && collected == Some(p.kind) && duration == PowerupDuration
              && pickups == old(pickups)[..k.value] + old(pickups)[k.value + 1..]
              && active == old(active)[p.kind := now + PowerupDuration])
    {
      var i := 0;
      while i < |pickups| && !Overlaps(pickups[i].rect, paddle)
        invariant 0 <= i <= |pickups|
        invariant forall j :: 0 <= j < i ==> !Overlaps(pickups[j].rect, paddle)
      {
        i := i + 1;
      }
      FirstOverlapIs(PickupRects(pickups), paddle, i);
      if i == |pickups| {
        return None, 0;
      }
      var p := pickups[i];
      Activate(p.kind, now, PowerupDuration);
      pickups := pickups[..i] + pickups[i + 1..];
      return Some(p.kind), PowerupDuration;
    }

    method Clear()
      modifies this
      ensures active == map[] && pickups == []
    {
      pickups := [];
      active := map[];
    }
  }

  /** A search that stops at `i` agrees with FirstOverlap. */
  lemma FirstOverlapIs(rs: seq<Rect>, r: Rect, i: nat)
    requires i <= |rs|
    requires forall j :: 0 <= j < i ==> !Overlaps(rs[j], r)
    requires i < |rs| ==> Overlaps(rs[i], r)
    ensures FirstOverlap(rs, r) == if i < |rs| then Some(i) else None
  {
  }

  /** After a sweep no remaining effect has expired, and activation then sweep keeps a fresh effect. */
  lemma ActivateSurvivesSweep(m: map<PowerUpType, int>, t: PowerUpType, now: int, later: int, duration: int)
    requires now <= later < now + duration
    ensures t in Unexpired(m[t := now + duration], later)
    ensures ActiveType(Unexpired(m[t := now + duration], later)).Some?
  {
  }

  /** Once its time has come, an activated effect is swept, whatever else is active. */
  lemma ActivateThenExpire(m: map<PowerUpType, int>, t: PowerUpType, now: int, later: int, duration: int)
    requires later >= now + duration
    ensures t in Expired(m[t := now + duration], later)
    ensures t !in Unexpired(m[t := now + duration], later)
  {
  }
}
