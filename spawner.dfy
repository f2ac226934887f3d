/**
 * The coin economy of a run (src/luge/spawner.rs): the spawn interval, the
 * weighted coin tiers, and the per-frame spawn, scroll, collection and
 * off-screen culling of the lane occupants.
 */
module Spawner {
  import Game
  import Luge
  import opened Wrappers

  /** A coin in a lane: its value, the atlas frame it is drawn with, and its position. */
  datatype Coin = Coin(lane: Luge.LaneLocation, value: nat, atlasIndex: nat, x: real, y: real)

  /** The seconds between spawns: 2.5 shrunk by luck, never below 0.8. */
  function SpawnInterval(luck: nat): (interval: real)
    ensures 0.8 <= interval <= 2.5
    ensures interval == 0.8 || interval * (1.0 + luck as real * 0.1) == 2.5
  {
    var base := 2.5 / (1.0 + luck as real * 0.1);
    if base > 0.8 then base else 0.8
  }

  /** A non-negative quotient does not grow when its divisor grows. */
  lemma QuotientAntitone(n: real, d1: real, d2: real)
    requires n >= 0.0 && 0.0 < d1 <= d2
    ensures n / d2 <= n / d1
  {
    var q1, q2 := n / d1, n / d2;
    assert q1 * d1 == n && q2 * d2 == n;
    assert q1 >= 0.0;
    assert q1 * d2 - q1 * d1 == q1 * (d2 - d1);
    assert q1 * (d2 - d1) >= 0.0;
    assert (q1 - q2) * d2 >= 0.0;
  }

  /** The floor decides the interval exactly from a luck of 22 on. */
  lemma SpawnIntervalFloor(luck: nat)
    ensures SpawnInterval(luck) == 0.8 <==> luck >= 22
  {
    var d := 1.0 + luck as real * 0.1;
    if luck >= 22 {
      QuotientAntitone(2.5, 3.125, d);
      assert 2.5 / 3.125 == 0.8;
    } else {
      QuotientAntitone(2.5, d, 3.1);
      assert 2.5 / 3.1 > 0.8;
    }
  }

  /** More luck never lengthens the interval. */
  lemma SpawnIntervalMonotone(a: nat, b: nat)
    requires a <= b
    ensures SpawnInterval(b) <= SpawnInterval(a)
  {
    QuotientAntitone(2.5, 1.0 + a as real * 0.1, 1.0 + b as real * 0.1);
  }

  /** At luck 1 the interval is 2.5 / 1.1 seconds, about 2.27. */
  lemma SpawnIntervalAtLuckOne()
    ensures SpawnInterval(1) == 25.0 / 11.0
  {
    assert 2.5 / 1.1 == 25.0 / 11.0;
  }

  const CommonWeight: real := 100.0

  function SilverWeight(luck: nat): real { 10.0 + luck as real * 5.0 }

  function GoldWeight(luck: nat): real { 2.0 + luck as real * 2.0 }

  function TotalWeight(luck: nat): (t: real)
    ensures t == 112.0 + 7.0 * luck as real
  {
    CommonWeight + SilverWeight(luck) + GoldWeight(luck)
  }

  /** A coin tier: the atlas frame and the value. */
  datatype Tier = Tier(atlasIndex: nat, value: nat)

  /** The tier a roll in [0, total) selects: the rolls are split into bands by weight. */
  function TierFor(luck: nat, roll: real): (t: Tier)
    requires 0.0 <= roll < TotalWeight(luck)
    ensures t == Tier(0, 1) <==> roll < CommonWeight
    ensures t == Tier(1, 5) <==> CommonWeight <= roll < CommonWeight + SilverWeight(luck)
    ensures t == Tier(2, 25) <==> CommonWeight + SilverWeight(luck) <= roll
  {
    if roll < CommonWeight then Tier(0, 1)
    else if roll < CommonWeight + SilverWeight(luck) then Tier(1, 5)
    else Tier(2, 25)
  }

  /**
   * More luck gives the 5 and 25 tiers a strictly larger share of the roll
   * range, while the common tier keeps its weight of 100 and so loses share.
   */
  lemma LuckShiftsShares(a: nat, b: nat)
    requires a < b
    ensures SilverWeight(a) * TotalWeight(b) < SilverWeight(b) * TotalWeight(a)
    ensures GoldWeight(a) * TotalWeight(b) < GoldWeight(b) * TotalWeight(a)
    ensures CommonWeight * TotalWeight(a) < CommonWeight * TotalWeight(b)
  {
    var x, y := a as real, b as real;
    assert TotalWeight(a) == 112.0 + 7.0 * x;
    assert TotalWeight(b) == 112.0 + 7.0 * y;
    calc {
      SilverWeight(b) * TotalWeight(a) - SilverWeight(a) * TotalWeight(b);
      (10.0 + 5.0 * y) * (112.0 + 7.0 * x) - (10.0 + 5.0 * x) * (112.0 + 7.0 * y);
      490.0 * (y - x);
    }
    calc {
      GoldWeight(b) * TotalWeight(a) - GoldWeight(a) * TotalWeight(b);
      (2.0 + 2.0 * y) * (112.0 + 7.0 * x) - (2.0 + 2.0 * x) * (112.0 + 7.0 * y);
      210.0 * (y - x);
    }
  }

  /** The lane a random index selects; the source draws the index from 0, 1, 2. */
  function LaneFor(index: nat): (l: Luge.LaneLocation)
    ensures l == Luge.Left <==> index == 0
    ensures l == Luge.Center <==> index == 1
    ensures l == Luge.Right <==> index >= 2
  {
    match index
    case 0 => Luge.Left
    case 1 => Luge.Center
    case _ => Luge.Right
  }

  /** Coins appear 50 pixels above the top of the screen. */
  function SpawnY(res: Game.Resolution): real
  {
    Game.Size(res).y / 2.0 + 50.0
  }

  /** Coins below this line, 100 pixels under the bottom of the screen, are culled. */
  function Cutoff(res: Game.Resolution): real
  {
    -(Game.Size(res).y / 2.0 + 100.0)
  }

  /** The vertical reach of a collection: 40 pixels per unit of scale. */
  function Threshold(res: Game.Resolution): real
  {
    40.0 * Game.Scale(res)
  }

  /** The coin a spawn event produces. */
  function NewCoin(res: Game.Resolution, lanes: Luge.Lanes, lane: Luge.LaneLocation, tier: Tier): (c: Coin)
    ensures c.lane == lane && c.value == tier.value && c.atlasIndex == tier.atlasIndex
    ensures c.x == lanes.XFor(lane)
    ensures c.y == Game.Size(res).y / 2.0 + 50.0 && c.y > Game.Size(res).y / 2.0
  {
    Coin(lane, tier.value, tier.atlasIndex, lanes.XFor(lane), SpawnY(res))
  }

  function Abs(r: real): real
  {
    if r < 0.0 then -r else r
  }

  /** Whether the player collects a coin: same lane and strictly within the reach. */
  predicate Collectable(c: Coin, playerLane: Luge.LaneLocation, playerY: real, threshold: real)
  {
    c.lane == playerLane && Abs(c.y - playerY) < threshold
  }

  predicate Onscreen(c: Coin, cutoff: real)
  {
    !(c.y < cutoff)
  }

  /** The coins that satisfy keep, in their original order. */
  function Filter(cs: seq<Coin>, keep: Coin -> bool): (r: seq<Coin>)
    ensures |r| <= |cs|
  {
    if cs == [] then []
    else Filter(cs[..|cs| - 1], keep) + (if keep(cs[|cs| - 1]) then [cs[|cs| - 1]] else [])
  }

  /** The total value of some coins. */
  function Total(cs: seq<Coin>): nat
  {
    if cs == [] then 0 else Total(cs[..|cs| - 1]) + cs[|cs| - 1].value
  }

  /** Every coin moved down by the same delta. */
  function Scrolled(cs: seq<Coin>, delta: real): (r: seq<Coin>)
    ensures |r| == |cs|
    ensures forall i :: 0 <= i < |cs| ==> r[i] == cs[i].(y := cs[i].y - delta)
  {
    seq(|cs|, i requires 0 <= i < |cs| => cs[i].(y := cs[i].y - delta))
  }

  function IsCollectable(playerLane: Luge.LaneLocation, playerY: real, threshold: real): Coin -> bool
  {
    c => Collectable(c, playerLane, playerY, threshold)
  }

  function IsOnscreen(cutoff: real): Coin -> bool
  {
    c => Onscreen(c, cutoff)
  }

  /** The predicate that rejects what keep accepts. */
  function Not(keep: Coin -> bool): Coin -> bool
  {
    c => !keep(c)
  }

  function NotCollectable(playerLane: Luge.LaneLocation, playerY: real, threshold: real): Coin -> bool
  {
    Not(IsCollectable(playerLane, playerY, threshold))
  }

  /** A filter keeps exactly the coins that satisfy its predicate. */
  lemma {:induction false} FilterMembers(cs: seq<Coin>, keep: Coin -> bool)
    ensures forall c :: c in Filter(cs, keep) <==> c in cs && keep(c)
  {
    if cs != [] {
      FilterMembers(cs[..|cs| - 1], keep);
      assert cs == cs[..|cs| - 1] + [cs[|cs| - 1]];
    }
  }

  /** Filtering is the identity exactly when every coin satisfies the predicate. */
  lemma FilterAllKept(cs: seq<Coin>, keep: Coin -> bool)
    ensures Filter(cs, keep) == cs <==> forall i :: 0 <= i < |cs| ==> keep(cs[i])
  {
    if forall i :: 0 <= i < |cs| ==> keep(cs[i]) {
      FilterKeepsAll(cs, keep);
    } else {
      var i :| 0 <= i < |cs| && !keep(cs[i]);
      FilterDrops(cs, keep, i);
    }
  }

  lemma {:induction false} FilterKeepsAll(cs: seq<Coin>, keep: Coin -> bool)
    requires forall i :: 0 <= i < |cs| ==> keep(cs[i])
    ensures Filter(cs, keep) == cs
  {
    if cs != [] {
      var init := cs[..|cs| - 1];
      assert forall i :: 0 <= i < |init| ==> init[i] == cs[i];
      FilterKeepsAll(init, keep);
      assert cs == init + [cs[|cs| - 1]];
    }
  }

  /** A coin the predicate rejects makes the filtered sequence strictly shorter. */
  lemma {:induction false} FilterDrops(cs: seq<Coin>, keep: Coin -> bool, i: nat)
    requires i < |cs| && !keep(cs[i])
    ensures |Filter(cs, keep)| < |cs|
  {
    var init := cs[..|cs| - 1];
    if i < |init| {
      assert init[i] == cs[i];
      FilterDrops(init, keep, i);
    }
  }

  /** A filter whose predicate no coin satisfies keeps nothing. */
  lemma {:induction false} FilterNone(cs: seq<Coin>, keep: Coin -> bool)
    requires forall i :: 0 <= i < |cs| ==> !keep(cs[i])
    ensures Filter(cs, keep) == []
  {
    if cs != [] {
      var init := cs[..|cs| - 1];
      assert forall i :: 0 <= i < |init| ==> init[i] == cs[i];
      FilterNone(init, keep);
    }
  }

  /** A predicate splits coins into the kept and the rest without losing or inventing value. */
  lemma {:induction false} FilterSplitsTotal(cs: seq<Coin>, keep: Coin -> bool)
    ensures Total(cs) == Total(Filter(cs, keep)) + Total(Filter(cs, Not(keep)))
    ensures |cs| == |Filter(cs, keep)| + |Filter(cs, Not(keep))|
  {
    if cs != [] {
      var init, last := cs[..|cs| - 1], cs[|cs| - 1];
      FilterSplitsTotal(init, keep);
      var yes, no := Filter(init, keep), Filter(init, Not(keep));
      assert Total(cs) == Total(init) + last.value;
      if keep(last) {
        assert Filter(cs, keep) == yes + [last];
        assert Filter(cs, Not(keep)) == no;
        TotalAppend(yes, last);
      } else {
        assert Filter(cs, keep) == yes;
        assert Filter(cs, Not(keep)) == no + [last];
        TotalAppend(no, last);
      }
    }
  }

  lemma TotalAppend(cs: seq<Coin>, c: Coin)
    ensures Total(cs + [c]) == Total(cs) + c.value
  {
    assert (cs + [c])[..|cs|] == cs;
  }

  /** Filtering a sequence extended by one coin. */
  lemma FilterAppend(cs: seq<Coin>, c: Coin, keep: Coin -> bool)
    ensures Filter(cs + [c], keep) == Filter(cs, keep) + (if keep(c) then [c] else [])
  {
    assert (cs + [c])[..|cs|] == cs;
  }

  /** A second collection with the player in the same place finds nothing: no coin counts twice. */
  lemma CollectOnce(cs: seq<Coin>, playerLane: Luge.LaneLocation, playerY: real, threshold: real)
    ensures Filter(Filter(cs, NotCollectable(playerLane, playerY, threshold)), IsCollectable(playerLane, playerY, threshold)) == []
  {
    var kept := Filter(cs, NotCollectable(playerLane, playerY, threshold));
    FilterMembers(cs, NotCollectable(playerLane, playerY, threshold));
    assert forall i :: 0 <= i < |kept| ==> kept[i] in kept;
    FilterNone(kept, IsCollectable(playerLane, playerY, threshold));
  }

  /**
   * Collection removes exactly the collectable coins and keeps the rest, and
   * the value collected plus the value left in the lanes is the value there was.
   */
  lemma CollectionSplitsCoins(cs: seq<Coin>, playerLane: Luge.LaneLocation, playerY: real, threshold: real)
    ensures forall c :: c in Filter(cs, NotCollectable(playerLane, playerY, threshold)) <==>
                          c in cs && !Collectable(c, playerLane, playerY, threshold)
    ensures forall c :: c in Filter(cs, IsCollectable(playerLane, playerY, threshold)) <==>
                          c in cs && Collectable(c, playerLane, playerY, threshold)
    ensures Total(cs) == Total(Filter(cs, NotCollectable(playerLane, playerY, threshold)))
                       + Total(Filter(cs, IsCollectable(playerLane, playerY, threshold)))
  {
    FilterMembers(cs, NotCollectable(playerLane, playerY, threshold));
    FilterMembers(cs, IsCollectable(playerLane, playerY, threshold));
    FilterSplitsTotal(cs, IsCollectable(playerLane, playerY, threshold));
  }

  /**
   * The cull keeps exactly the coins at or above the cutoff, and when every
   * coin is there it keeps the lanes as they are.
   */
  lemma CullSplitsCoins(cs: seq<Coin>, cutoff: real)
    ensures forall c :: c in Filter(cs, IsOnscreen(cutoff)) <==> c in cs && c.y >= cutoff
    ensures Filter(cs, IsOnscreen(cutoff)) == cs <==> forall i :: 0 <= i < |cs| ==> cs[i].y >= cutoff
  {
    FilterMembers(cs, IsOnscreen(cutoff));
    FilterAllKept(cs, IsOnscreen(cutoff));
  }

  /**
   * The lane occupants and the spawner's resources: the coin total, the spawn
   * timer (present only during a launch; it holds its interval), and whether
   * the coin atlas exists.
   */
  class CoinSpawner {
    var occupants: seq<Coin>
    var playerCoins: nat
    var spawnTimer: Option<real>
    var atlas: bool

    constructor ()
      ensures occupants == [] && playerCoins == 0 && spawnTimer == None && !atlas
    {
      occupants := [];
      playerCoins := 0;
      spawnTimer := None;
      atlas := false;
    }

    method InitCoinAtlas()
      modifies this`atlas
      ensures atlas
    {
      atlas := true;
    }

    /** On launch a repeating timer is installed with the luck-dependent interval. */
    method InitSpawnTimer(luck: nat)
      modifies this`spawnTimer
      ensures spawnTimer == Some(SpawnInterval(luck))
    {
      var l := luck as real;
      var base := 2.5 / (1.0 + l * 0.1);
      spawnTimer := Some(if base > 0.8 then base else 0.8);
    }

    /** On launch a common coin appears in the centre lane, when the atlas exists. */
    method SpawnInitialCoin(res: Game.Resolution, lanes: Luge.Lanes)
      modifies this`occupants
      ensures !atlas ==> occupants == old(occupants)
      ensures atlas ==> occupants == old(occupants) + [NewCoin(res, lanes, Luge.Center, Tier(0, 1))]
    {
      if !atlas {
        return;
      }
      var y := Game.Size(res).y / 2.0 + 50.0;
      var lane := Luge.Center;
      var laneX := lanes.XFor(lane);
      occupants := occupants + [Coin(lane, 1, 0, laneX, y)];
    }

    /**
     * When both the atlas and the timer exist and the timer just finished, one
     * coin appears in the drawn lane with the drawn tier; otherwise nothing
     * happens. The draws are inputs: a lane index in 0..3 and a roll in
     * [0, total weight).
     */
    method SpawnCoins(res: Game.Resolution, lanes: Luge.Lanes, luck: nat, timerJustFinished: bool, laneIndex: nat, roll: real)
      requires laneIndex < 3
      requires 0.0 <= roll < TotalWeight(luck)
      modifies this`occupants
      ensures !(atlas && spawnTimer.Some? && timerJustFinished) ==> occupants == old(occupants)
      ensures atlas && spawnTimer.Some? && timerJustFinished ==>
                occupants == old(occupants) + [NewCoin(res, lanes, LaneFor(laneIndex), TierFor(luck, roll))]
    {
      if !atlas || spawnTimer.None? {
        return;
      }
      if !timerJustFinished {
        return;
      }
      var lane := match laneIndex
        case 0 => Luge.Left
        case 1 => Luge.Center
        case _ => Luge.Right;
      var weight1 := 100.0;
      var weight5 := 10.0 + luck as real * 5.0;
      var tier := if roll < weight1 then Tier(0, 1)
        else if roll < weight1 + weight5 then Tier(1, 5)
        else Tier(2, 25);
      var laneX := lanes.XFor(lane);
      var y := Game.Size(res).y / 2.0 + 50.0;
      occupants := occupants + [Coin(lane, tier.value, tier.atlasIndex, laneX, y)];
    }

    /** Every occupant moves down by the frame's scroll distance; nothing else about it changes. */
    method ScrollOccupants(speed: real, speedStat: nat, dt: real)
      modifies this`occupants
      ensures occupants == Scrolled(old(occupants), Luge.ScrollDelta(speed, speedStat, dt))
    {
      var delta := speed * (speedStat as real / 10.0) * dt;
      var i := 0;
      while i < |occupants|
        invariant 0 <= i <= |occupants| == |old(occupants)|
        invariant forall k :: 0 <= k < i ==> occupants[k] == old(occupants)[k].(y := old(occupants)[k].y - delta)
        invariant forall k :: i <= k < |occupants| ==> occupants[k] == old(occupants)[k]
      {
        occupants := occupants[i := occupants[i].(y := occupants[i].y - delta)];
        i := i + 1;
      }
    }

    /** Every collectable coin is added to the total and removed; the rest stay, in order. */
    method CollectCoins(res: Game.Resolution, playerLane: Luge.LaneLocation, playerY: real)
      modifies this`occupants, this`playerCoins
      ensures occupants == Filter(old(occupants), NotCollectable(playerLane, playerY, Threshold(res)))
      ensures playerCoins == old(playerCoins) + Total(Filter(old(occupants), IsCollectable(playerLane, playerY, Threshold(res))))
    {
      var threshold := 40.0 * Game.Scale(res);
      var coins := occupants;
      var kept: seq<Coin> := [];
      var i := 0;
      while i < |coins|
        invariant 0 <= i <= |coins|
        invariant kept == Filter(coins[..i], NotCollectable(playerLane, playerY, threshold))
        invariant playerCoins == old(playerCoins) + Total(Filter(coins[..i], IsCollectable(playerLane, playerY, threshold)))
      {
        var coin := coins[i];
        assert coins[..i + 1] == coins[..i] + [coin];
        FilterAppend(coins[..i], coin, NotCollectable(playerLane, playerY, threshold));
        FilterAppend(coins[..i], coin, IsCollectable(playerLane, playerY, threshold));
        if coin.lane == playerLane && Abs(coin.y - playerY) < threshold {
          TotalAppend(Filter(coins[..i], IsCollectable(playerLane, playerY, threshold)), coin);
          assert Filter(coins[..i + 1], NotCollectable(playerLane, playerY, threshold)) == kept;
          playerCoins := playerCoins + coin.value;
        } else {
          assert Filter(coins[..i + 1], IsCollectable(playerLane, playerY, threshold))
              == Filter(coins[..i], IsCollectable(playerLane, playerY, threshold));
          kept := kept + [coin];
        }
        i := i + 1;
      }
      assert coins[..i] == coins;
      occupants := kept;
    }

    /** Exactly the occupants below the cutoff are removed; the rest stay, unchanged and in order. */
    method DespawnOffscreen(res: Game.Resolution)
      modifies this`occupants
      ensures occupants == Filter(old(occupants), IsOnscreen(Cutoff(res)))
    {
      var cutoff := -(Game.Size(res).y / 2.0 + 100.0);
      var coins := occupants;
      var kept: seq<Coin> := [];
      var i := 0;
      while i < |coins|
        invariant 0 <= i <= |coins|
        invariant kept == Filter(coins[..i], IsOnscreen(cutoff))
      {
        assert coins[..i + 1] == coins[..i] + [coins[i]];
        FilterAppend(coins[..i], coins[i], IsOnscreen(cutoff));
        if !(coins[i].y < cutoff) {
          kept := kept + [coins[i]];
        }
        i := i + 1;
      }
      assert coins[..i] == coins;
      occupants := kept;
    }

    /** When the launch ends every occupant is removed and the timer with them. */
    method CleanupSpawner()
      modifies this`occupants, this`spawnTimer
      ensures occupants == [] && spawnTimer == None
    {
      while occupants != []
        decreases |occupants|
      {
        occupants := occupants[1..];
      }
      spawnTimer := None;
    }

    /** On entering the Playing state the total restarts from 0. */
    method ResetPlayerCoins()
      modifies this`playerCoins
      ensures playerCoins == 0
    {
      playerCoins := 0;
    }
  }
}
