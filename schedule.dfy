/**
 * How the luge plugin wires its systems together (src/luge/mod.rs, the
 * plugin's build): what runs on entering and leaving each state, and the two
 * per-frame chains whose order the plugin fixes: the loadout chain and the
 * coin chain of a launched frame.
 */
module Schedule {
  import Game
  import Luge
  import Spawner
  import Dialogue
  import LugeUi
  import opened Wrappers

  /** Entering Playing: the sprites, the lane geometry, the stale-input guard, the coin atlas and a zero total. */
  method EnterPlaying(res: Game.Resolution, run: Luge.Run, spawner: Spawner.CoinSpawner, dialogue: Dialogue.Sequencer)
    modifies run`playerX, run`playerY, run`laneYs, run`lanes, run`cooldown
    modifies spawner`atlas, spawner`playerCoins, dialogue`text
    ensures run.playerX == 0.0 && run.playerY == -(Game.Size(res).y / 3.0)
    ensures run.laneYs == old(run.laneYs) + [0.0, 360.0 * Game.Scale(res)]
    ensures run.lanes == Luge.InitLanes(res) && run.cooldown
    ensures spawner.atlas && spawner.playerCoins == 0 && spawner.occupants == old(spawner.occupants)
    ensures dialogue.text == LugeUi.InitialText(dialogue.scenes, Dialogue.DialogueState(dialogue.currentScene, dialogue.lineIndex, dialogue.waiting))
    ensures run.lane == old(run.lane) && run.speed == old(run.speed)
  {
    run.SpawnLuigee(res);
    run.SpawnLanes(res);
    LugeUi.SpawnDialogueText(dialogue);
    run.UpdateLanes(res);
    run.SetInputCooldown();
    spawner.InitCoinAtlas();
    spawner.ResetPlayerCoins();
  }

  /** Entering the loadout: the lane, the player and the lane sprites are reset. */
  method EnterLoadout(res: Game.Resolution, run: Luge.Run)
    requires |run.laneYs| <= 2
    modifies run`lane, run`playerX, run`laneYs
    ensures run.lane == Luge.Center && run.playerX == 0.0
    ensures run.laneYs == Luge.LaneOffsets(res)[..|old(run.laneYs)|]
    ensures run.speed == old(run.speed) && run.cooldown == old(run.cooldown)
  {
    run.ResetLuge(res);
  }

  /** Launching: the timer restarts, the speed is restored, the spawn timer is installed and a first coin appears. */
  method EnterLaunched(res: Game.Resolution, luck: nat, run: Luge.Run, spawner: Spawner.CoinSpawner)
    modifies run`elapsed, run`speed, spawner`spawnTimer, spawner`occupants
    ensures run.elapsed == 0.0 && run.speed == Luge.DefaultScrollSpeed
    ensures spawner.spawnTimer == Some(Spawner.SpawnInterval(luck))
    ensures spawner.occupants == old(spawner.occupants) +
              (if old(spawner.atlas) then [Spawner.NewCoin(res, old(run.lanes), Luge.Center, Spawner.Tier(0, 1))] else [])
    ensures spawner.playerCoins == old(spawner.playerCoins) && run.lane == old(run.lane)
  {
    run.ResetRunTimer();
    run.ResetScrollSpeed();
    spawner.InitSpawnTimer(luck);
    spawner.SpawnInitialCoin(res, run.lanes);
  }

  /** Leaving the launch: the lanes are cleared and the spawn timer removed; the total is kept. */
  method ExitLaunched(spawner: Spawner.CoinSpawner)
    modifies spawner`occupants, spawner`spawnTimer
    ensures spawner.occupants == [] && spawner.spawnTimer == None
    ensures spawner.playerCoins == old(spawner.playerCoins)
  {
    spawner.CleanupSpawner();
  }

  /**
   * One loadout frame, in the plugin's fixed order: the stale-input guard
   * (only while it exists), then the dialogue, then the launch button. A
   * disabled Continue action reads as not pressed.
   */
  method LoadoutFrame(run: Luge.Run, dialogue: Dialogue.Sequencer, hud: LugeUi.Hud,
                      mouseLeftHeld: bool, spaceHeld: bool, continueJustPressed: bool)
    modifies run`continueDisabled, run`cooldown, dialogue, hud`launchButton, hud`hint
    ensures old(run.cooldown) && (mouseLeftHeld || spaceHeld) ==> run.cooldown && run.continueDisabled
    ensures old(run.cooldown) && !mouseLeftHeld && !spaceHeld ==> !run.cooldown && !run.continueDisabled
    ensures !old(run.cooldown) ==> run.cooldown == old(run.cooldown) && run.continueDisabled == old(run.continueDisabled)
    ensures dialogue.Snap() == Dialogue.Advance(old(dialogue.Snap()), continueJustPressed && !run.continueDisabled)
    ensures old(run.cooldown) && (mouseLeftHeld || spaceHeld) ==> dialogue.Snap() == old(dialogue.Snap())
    ensures hud.launchButton == LugeUi.Visible <==> !dialogue.waiting
    ensures hud.hint == LugeUi.Visible <==> dialogue.waiting
  {
    if run.cooldown {
      run.ConsumeStaleInput(mouseLeftHeld, spaceHeld);
    }
    ghost var before := dialogue.Snap();
    dialogue.AdvanceDialogue(continueJustPressed && !run.continueDisabled);
    if run.continueDisabled {
      Dialogue.AdvanceIdle(before, false);
    }
    hud.ToggleLaunchButton(dialogue.waiting);
  }

  /** The occupants that survive a coin chain, and what they were worth to the player. */
  function CoinChain(spawned: seq<Spawner.Coin>, delta: real, playerLane: Luge.LaneLocation, playerY: real,
                     threshold: real, cutoff: real): (r: (seq<Spawner.Coin>, nat))
  {
    var scrolled := Spawner.Scrolled(spawned, delta);
    var kept := Spawner.Filter(scrolled, Spawner.NotCollectable(playerLane, playerY, threshold));
    (Spawner.Filter(kept, Spawner.IsOnscreen(cutoff)),
     Spawner.Total(Spawner.Filter(scrolled, Spawner.IsCollectable(playerLane, playerY, threshold))))
  }

  /**
   * Because collection runs after the scroll and before the cull, every coin
   * that is collectable at its scrolled position is paid out in this frame,
   * even one the cull would remove; what survives is exactly the scrolled
   * coins neither collectable nor below the cutoff; and no value is lost:
   * the scrolled coins are worth what is paid, what survives and what is culled.
   */
  lemma CoinChainOutcome(spawned: seq<Spawner.Coin>, delta: real, playerLane: Luge.LaneLocation, playerY: real,
                         threshold: real, cutoff: real)
    ensures var scrolled := Spawner.Scrolled(spawned, delta);
            var kept := Spawner.Filter(scrolled, Spawner.NotCollectable(playerLane, playerY, threshold));
            var out := CoinChain(spawned, delta, playerLane, playerY, threshold, cutoff);
            (forall c :: c in out.0 <==> c in scrolled && !Spawner.Collectable(c, playerLane, playerY, threshold) && Spawner.Onscreen(c, cutoff)) &&
            Spawner.Total(scrolled) == out.1 + Spawner.Total(out.0) + Spawner.Total(Spawner.Filter(kept, Spawner.Not(Spawner.IsOnscreen(cutoff))))
  {
    var scrolled := Spawner.Scrolled(spawned, delta);
    var kept := Spawner.Filter(scrolled, Spawner.NotCollectable(playerLane, playerY, threshold));
    Spawner.CollectionSplitsCoins(scrolled, playerLane, playerY, threshold);
    Spawner.FilterMembers(kept, Spawner.IsOnscreen(cutoff));
    Spawner.FilterSplitsTotal(kept, Spawner.IsOnscreen(cutoff));
  }

  /** One launched frame's coin chain, in the plugin's fixed order: spawn, scroll, collect, cull. */
  method CoinPipeline(spawner: Spawner.CoinSpawner, res: Game.Resolution, lanes: Luge.Lanes, speed: real, speedStat: nat,
                      dt: real, luck: nat, timerJustFinished: bool, laneIndex: nat, roll: real,
                      playerLane: Luge.LaneLocation, playerY: real)
    requires laneIndex < 3
    requires 0.0 <= roll < Spawner.TotalWeight(luck)
    modifies spawner`occupants, spawner`playerCoins
    ensures var spawned := if spawner.atlas && spawner.spawnTimer.Some? && timerJustFinished
                           then old(spawner.occupants) + [Spawner.NewCoin(res, lanes, Spawner.LaneFor(laneIndex), Spawner.TierFor(luck, roll))]
                           else old(spawner.occupants);
            var out := CoinChain(spawned, Luge.ScrollDelta(speed, speedStat, dt), playerLane, playerY,
                                 Spawner.Threshold(res), Spawner.Cutoff(res));
            spawner.occupants == out.0 && spawner.playerCoins == old(spawner.playerCoins) + out.1
  {
    ghost var coins := spawner.playerCoins;
    spawner.SpawnCoins(res, lanes, luck, timerJustFinished, laneIndex, roll);
    ghost var spawned := spawner.occupants;
    spawner.ScrollOccupants(speed, speedStat, dt);
    ghost var scrolled := spawner.occupants;
    assert scrolled == Spawner.Scrolled(spawned, Luge.ScrollDelta(speed, speedStat, dt));
    spawner.CollectCoins(res, playerLane, playerY);
    ghost var kept := spawner.occupants;
    assert kept == Spawner.Filter(scrolled, Spawner.NotCollectable(playerLane, playerY, Spawner.Threshold(res)));
    assert spawner.playerCoins == coins + Spawner.Total(Spawner.Filter(scrolled, Spawner.IsCollectable(playerLane, playerY, Spawner.Threshold(res))));
    spawner.DespawnOffscreen(res);
    assert spawner.occupants == Spawner.Filter(kept, Spawner.IsOnscreen(Spawner.Cutoff(res)));
  }

  /** The scroll speed after a run of frames of equal length, braking as given for each frame. */
  function SpeedAfter(speed: real, speedStat: nat, brakes: seq<bool>, dt: real): real
    requires speedStat > 0
  {
    if brakes == [] then speed
    else Luge.Decelerated(SpeedAfter(speed, speedStat, brakes[..|brakes| - 1], dt), speedStat, brakes[|brakes| - 1], dt)
  }

  /** One frame takes off at least the coasting loss, or stops the sled. */
  lemma FrameLoss(speed: real, speedStat: nat, brake: bool, dt: real)
    requires speedStat > 0 && dt >= 0.0
    ensures var r := Luge.Decelerated(speed, speedStat, brake, dt);
            r == 0.0 || r <= speed - Luge.Deceleration(speedStat, false) * dt
  {
    var coast := Luge.Deceleration(speedStat, false);
    var d := Luge.Deceleration(speedStat, brake);
    assert d >= coast;
    assert d * dt - coast * dt == (d - coast) * dt;
    assert (d - coast) * dt >= 0.0;
  }

  /**
   * Every run ends: with frames of a positive length, the speed loses at least
   * the coasting deceleration each frame, so after enough frames it is 0 and
   * the loadout is requested.
   */
  lemma {:induction false} SpeedAfterBound(speed: real, speedStat: nat, brakes: seq<bool>, dt: real, step: real)
    requires speedStat > 0 && dt >= 0.0
    requires step == Luge.Deceleration(speedStat, false) * dt
    ensures SpeedAfter(speed, speedStat, brakes, dt) == 0.0 ||
            SpeedAfter(speed, speedStat, brakes, dt) <= speed - |brakes| as real * step
  {
    if brakes != [] {
      var init := brakes[..|brakes| - 1];
      SpeedAfterBound(speed, speedStat, init, dt, step);
      var before := SpeedAfter(speed, speedStat, init, dt);
      FrameLoss(before, speedStat, brakes[|brakes| - 1], dt);
      assert |brakes| as real * step == |init| as real * step + step;
    }
  }

  lemma RunEnds(speed: real, speedStat: nat, brakes: seq<bool>, dt: real)
    requires speed >= 0.0 && speedStat > 0 && dt > 0.0
    requires |brakes| as real * (Luge.Deceleration(speedStat, false) * dt) >= speed
    ensures SpeedAfter(speed, speedStat, brakes, dt) == 0.0
  {
    var step := Luge.Deceleration(speedStat, false) * dt;
    SpeedAfterBound(speed, speedStat, brakes, dt, step);
    var r := SpeedAfter(speed, speedStat, brakes, dt);
    if brakes != [] {
      assert r >= 0.0;
      assert speed - |brakes| as real * step <= 0.0;
    }
  }
}
