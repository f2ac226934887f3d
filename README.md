# Slick Rick's Luge Lounge — a Dafny model of the luge core

This project models the gameplay core of *Slick Rick's Luge Lounge*. The game
is built on the Bevy engine. The player, Luigee, sleds down three lanes. Each
run has two phases:

- **Loadout:** Slick Rick talks the player through a scripted dialogue. When
  the dialogue ends, the LAUNCH! button appears.
- **Launched:** the lanes scroll past and Luigee decelerates. Coins spawn
  above the screen and scroll down, and the ones that reach Luigee's lane
  are collected. The run returns to Loadout once the speed reaches zero.

Next to the run sit the settings screen (a resolution dropdown) and the
crate-level resolution table, which sizes everything.

Each source file is one module:

| module | file | form |
|---|---|---|
| `Game` | `game.dfy` | Models `src/lib.rs`: game states, the resolution table (size, label, scale, lane offsets, UI scale). Pure functions. |
| `Settings` | `settings.dfy` | Models `src/settings.rs`: its own resolution table, plus the dropdown. The dropdown is the class `SettingsScreen`, whose methods loop over the frame's interactions the way the Bevy query loops do. |
| `Luge` | `luge.dfy` | Models `src/luge/mod.rs`. Lane locations and lane geometry, deceleration and lane-sprite wrapping are pure functions. The resources and components the systems update are the fields of class `Run`, with one method per system. |
| `Spawner` | `spawner.dfy` | Models `src/luge/spawner.rs`. The spawn interval, the coin tiers and the lane pick are functions. The lane occupants, `PlayerCoins`, the spawn timer and the atlas are the fields of class `CoinSpawner`, with one method per system. |
| `Dialogue` | `dialogue.dfy` | Models `src/luge/dialogue.rs`. The script, its lookups and one `advance_dialogue` step as a function `Advance` on a `Snapshot`. Class `Sequencer` holds the same state as fields and is proved to follow `Advance`. |
| `LugeUi` | `luge_ui.dfy` | Models `src/luge/ui.rs`: the texts the HUD shows (coin count, clock, stat readout, initial dialogue line), and class `Hud` for the systems that update them. |
| `Schedule` | `schedule.dfy` | Models the plugin wiring in `src/luge/mod.rs`: the `OnEnter` / `OnExit` groups, the chained Loadout frame, and the chained coin pipeline. It adds lemmas on how a run ends. |
| `Wrappers` | `wrappers.dfy` | `Option`. |

Bevy resources and components become class fields. A Bevy system becomes a
method with `modifies` on the fields it writes. Queries over many entities
(lane sprites, coins, interactions) become `seq` fields or parameters, walked
by a loop. Each such method is specified against a pure function. The
properties are proved as lemmas about those functions.

`f32` arithmetic is modelled as exact `real` arithmetic.

Some facts about the program that the model records:

- **Lane offsets.** The run reads lane offsets from the crate-level table in
  `src/lib.rs`, which gives 61 · scale, so ±183 at 1080p (`Luge.DefaultLaneX`).
  `src/settings.rs` keeps a separate table of 66 · scale with a 4k scale of 5,
  which the run does not use (`Settings.LanesDisagreeWithGame`).
- **Dialogue script.** The shipped script has five Intro lines and an empty
  Shop scene. `Dialogue.ShippedScriptPlaysOut` follows it press by press.
- **Lane shifts.** `shift_left(shift_right(Center))` is `Center`, and more
  generally the two shifts undo each other away from the edges
  (`Luge.ShiftsUndoEachOther`).

## Model

| member | source | states |
|---|---|---|
| `Game.Scale` | src/lib.rs:73-80 | the sprite scale is 2, 3, 4 or 6, so between 2 and 6 |
| `Game.Size` | src/lib.rs:48-56 | the window is 360 · scale pixels tall and 16:9 |
| `Game.CalculateLanes` | src/lib.rs:68-71 | lane offsets are symmetric about 0, left negative, right positive, 61 · scale |
| `Game.UiScale` | src/lib.rs:82-84 | UI scale is a third of the sprite scale, and is 1 exactly at 1080p |
| `Game.ResolutionsEnumerateAll` | src/lib.rs:37-43 | the four variants, each once |
| `Game.ScaleIncreasesAlongTable` | src/lib.rs:73-80 | the scale strictly increases from 720p to 4k |
| `Game.LabelInjective` | src/lib.rs:58-66 | distinct resolutions have distinct labels |
| `Game.DefaultResolutionLayout` | src/lib.rs:36-84 | the default is 1080p: 1920x1080, lanes at ±183, UI scale 1 |
| `Settings.Size` | src/settings.rs:61-69 | every size in the settings table is 16:9 with height 360 · the crate-level scale (720, 1080, 1440, 2160) |
| `Settings.Scale` | src/settings.rs:98-106 | scale is 2, 3, 4 or 5; it equals the crate-level scale except at 4k, where it is 5 against 6 |
| `Settings.CalculateLanes` | src/settings.rs:81-96 | symmetric lane offsets of 66 · scale |
| `Settings.ScaleIncreasesAlongTable` | src/settings.rs:98-106 | the scale strictly increases along the table |
| `Settings.SizeAndLabelAgreeWithGame` | src/settings.rs:61-79 | size and label equal the crate-level table's for every variant |
| `Settings.LanesDisagreeWithGame` | src/settings.rs:81-106 | lane offsets differ from the crate-level table's for every variant; scales agree except at 4k |
| `Settings.Toggled` | src/settings.rs:258-262 | a press opens a hidden panel (Flex) and hides any other display |
| `Settings.HeadInteractionsParity` | src/settings.rs:253-265 | after a frame's head interactions, a hidden panel is open exactly when the number of presses is odd |
| `Settings.LastPressed` | src/settings.rs:267-283 | none when no choice was pressed, otherwise the resolution of the last pressed choice |
| `Settings.SettingsScreen.constructor` | src/settings.rs:109-187 | the default Settings (1080p) with the window set to its size, panel hidden, label "1080p" |
| `Settings.SettingsScreen.ToggleDropdown` | src/settings.rs:253-265 | the panel ends as the head interactions, applied in order, leave it |
| `Settings.SettingsScreen.SelectOption` | src/settings.rs:267-283 | the last pressed choice sets the resolution, window size and label and hides the panel; with no press nothing changes |
| `Luge.ShiftLeft` | src/luge/mod.rs:193-200 | moves one lane left, stops at the left edge |
| `Luge.ShiftRight` | src/luge/mod.rs:202-209 | moves one lane right, stops at the right edge |
| `Luge.ShiftsUndoEachOther` | src/luge/mod.rs:192-210 | right-then-left returns exactly when not starting at the right edge, and symmetrically |
| `Luge.InitLanes` | src/luge/mod.rs:159-167 | centre lane at 0, outer lanes at the resolution's lane offsets |
| `Luge.XForInitLanes` | src/luge/mod.rs:159-176 | `x_for` on initialised lanes is (index − 1) · 61 · scale: left < centre < right, left = −right |
| `Luge.DefaultLaneX` | src/luge/mod.rs:159-176 | at 1080p the lanes are at -183, 0, 183 |
| `Luge.MovedBounds` | src/luge/mod.rs:216-229 | no press keeps the lane; one press moves one step that way, stopping at the edge; both presses return to the start except from the left lane |
| `Luge.Deceleration` | src/luge/mod.rs:309-314 | deceleration is positive, and deceleration · stat = 50, tripled while braking |
| `Luge.Decelerated` | src/luge/mod.rs:314-315 | the new speed is never negative, never above the old one, zero exactly when the frame's loss covers the speed, otherwise speed − loss |
| `Luge.BrakingSlowsMore` | src/luge/mod.rs:309-315 | braking never leaves a higher speed than coasting |
| `Luge.ScrollDeltaNonNegative` | src/luge/mod.rs:249-250 | a non-negative speed scrolls the lanes down, never up |
| `Luge.Wrapped` | src/luge/mod.rs:252-258 | a sprite moves down by the delta, and is lifted by twice the screen height once it reaches −h or below |
| `Luge.WrapKeepsTiling` | src/luge/mod.rs:242-260 | for a scroll step of at most h, a sprite in (−h, h] stays there, and two sprites one screen apart stay one screen apart |
| `Luge.LaneOffsetsTile` | src/luge/mod.rs:116-138 | the two lane sprites start one sprite height apart, within the wrap window |
| `Luge.Run.constructor` | src/luge/mod.rs:79-85 | default resources: centre lane, zero lanes, scroll speed 1000, stopwatch at 0 |
| `Luge.Run.SpawnLuigee` | src/luge/mod.rs:99-114 | Luigee is placed at x 0, a third of the screen height below the centre |
| `Luge.Run.SpawnLanes` | src/luge/mod.rs:116-138 | two lane sprites at y 0 and 360 · scale are added |
| `Luge.Run.UpdateLanes` | src/luge/mod.rs:212-214 | the lanes are re-initialised from the resolution |
| `Luge.Run.SetInputCooldown` | src/luge/mod.rs:265-267 | the input cooldown is inserted |
| `Luge.Run.MoveLuigee` | src/luge/mod.rs:216-229 | the lane becomes the lane after a left shift on a Left press, then a right shift on a Right press |
| `Luge.Run.UpdateLuigeeSprite` | src/luge/mod.rs:231-240 | when the lane changed, Luigee's x becomes that lane's x; otherwise nothing moves |
| `Luge.Run.ScrollLanes` | src/luge/mod.rs:242-260 | every lane sprite is scrolled and wrapped with the frame's delta |
| `Luge.Run.ConsumeStaleInput` | src/luge/mod.rs:271-290 | with the left mouse button or Space held, Continue is disabled and the cooldown stays; otherwise Continue is enabled and the cooldown removed |
| `Luge.Run.TickRunTimer` | src/luge/mod.rs:292-294 | the stopwatch advances by the frame time |
| `Luge.Run.ResetRunTimer` | src/luge/mod.rs:296-298 | the stopwatch returns to 0 |
| `Luge.Run.DecelerateLuigee` | src/luge/mod.rs:302-320 | the speed becomes the decelerated speed and the Loadout transition is requested exactly when it reaches zero |
| `Luge.Run.ResetScrollSpeed` | src/luge/mod.rs:322-324 | the speed returns to 1000 |
| `Luge.Run.ResetLuge` | src/luge/mod.rs:326-339 | Luigee returns to the centre lane at x 0 and each lane sprite to its starting offset |
| `Spawner.SpawnInterval` | src/luge/spawner.rs:36-43 | the interval is in [0.8, 2.5]: either the floor 0.8 or exactly 2.5 / (1 + luck/10) |
| `Spawner.SpawnIntervalFloor` | src/luge/spawner.rs:38 | the floor applies exactly from luck 22 on |
| `Spawner.SpawnIntervalMonotone` | src/luge/spawner.rs:38 | more luck never lengthens the interval |
| `Spawner.SpawnIntervalAtLuckOne` | src/luge/spawner.rs:38 | at luck 1 the interval is 25/11 seconds |
| `Spawner.TotalWeight` | src/luge/spawner.rs:108-111 | the roll range is exactly 112 + 7 · luck |
| `Spawner.TierFor` | src/luge/spawner.rs:113-120 | a roll below 100 yields the 1-coin, the next silver-weight band the 5-coin, the rest the 25-coin, each with its atlas index |
| `Spawner.LuckShiftsShares` | src/luge/spawner.rs:108-111 | more luck strictly raises the 5- and 25-coin shares and lowers the 1-coin share |
| `Spawner.LaneFor` | src/luge/spawner.rs:101-105 | index 0 is left, 1 centre, any other right |
| `Spawner.NewCoin` | src/luge/spawner.rs:122-141 | a coin in the chosen lane at that lane's x, at y = half the screen height + 50 (50 px above the top), with the tier's value and atlas index |
| `Spawner.Scrolled` | src/luge/spawner.rs:144-155 | every occupant moves down by the delta, nothing else changes |
| `Spawner.CollectOnce` | src/luge/spawner.rs:157-175 | after collecting, no collectable coin is left, so a second pass collects nothing |
| `Spawner.CollectionSplitsCoins` | src/luge/spawner.rs:157-175 | the kept coins are exactly the non-collectable ones, and kept value plus collected value equals the value before |
| `Spawner.CullSplitsCoins` | src/luge/spawner.rs:177-188 | the kept coins are exactly those at or above the cutoff; the cull keeps everything exactly when nothing is below it |
| `Spawner.CoinSpawner.constructor` | src/luge/spawner.rs:18-25 | no occupants, zero coins, no timer, no atlas |
| `Spawner.CoinSpawner.InitCoinAtlas` | src/luge/spawner.rs:27-34 | the atlas layout becomes available |
| `Spawner.CoinSpawner.InitSpawnTimer` | src/luge/spawner.rs:36-43 | the spawn timer is set to the luck's interval |
| `Spawner.CoinSpawner.SpawnInitialCoin` | src/luge/spawner.rs:45-77 | with the atlas, a 1-coin is added in the centre lane; without it nothing happens |
| `Spawner.CoinSpawner.SpawnCoins` | src/luge/spawner.rs:79-142 | a coin is appended exactly when atlas and timer exist and the timer just finished |
| `Spawner.CoinSpawner.ScrollOccupants` | src/luge/spawner.rs:144-155 | the occupants become the scrolled occupants |
| `Spawner.CoinSpawner.CollectCoins` | src/luge/spawner.rs:157-175 | collectable coins are removed in order and their value added to PlayerCoins |
| `Spawner.CoinSpawner.DespawnOffscreen` | src/luge/spawner.rs:177-188 | occupants below the cutoff are removed, the rest kept in order |
| `Spawner.CoinSpawner.CleanupSpawner` | src/luge/spawner.rs:190-195 | all occupants and the spawn timer are removed |
| `Spawner.CoinSpawner.ResetPlayerCoins` | src/luge/spawner.rs:197-199 | PlayerCoins returns to 0 |
| `Dialogue.Next` | src/luge/dialogue.rs:87-94 | Intro is followed by Shop, and Shop by nothing |
| `Dialogue.FindScene` | src/luge/dialogue.rs:62-64 | the index of the first scene with the id, or none when no scene has it |
| `Dialogue.GetScene` | src/luge/dialogue.rs:62-64 | the first scene with the id, or none |
| `Dialogue.GetLine` | src/luge/dialogue.rs:70-73 | the first matching scene's line at the index when it exists, otherwise none |
| `Dialogue.MarkCompleted` | src/luge/dialogue.rs:66-68 | only the first matching scene becomes completed; ids and lines are untouched |
| `Dialogue.GetLineIgnoresCompleted` | src/luge/dialogue.rs:62-73 | completing a scene never changes which line a lookup finds |
| `Dialogue.AdvanceIdle` | src/luge/dialogue.rs:101-105 | when not waiting or not pressed, nothing changes |
| `Dialogue.AdvanceShowsNextLine` | src/luge/dialogue.rs:105-112 | a press with a next line shows it and moves the index by one |
| `Dialogue.AdvanceFinishesScene` | src/luge/dialogue.rs:113-133 | a press past the last line completes the scene and moves to the next scene's first line, or finishes with empty text |
| `Dialogue.AdvancePreservesConsistent` | src/luge/dialogue.rs:96-135 | a waiting sequencer always shows the line its index names |
| `Dialogue.AdvanceOnlyCompletes` | src/luge/dialogue.rs:113-129 | completed flags are only ever set, and the scenes and lines never change |
| `Dialogue.AdvanceForwardOnly` | src/luge/dialogue.rs:96-135 | a processed press goes to a later line, a later scene, or ends the dialogue |
| `Dialogue.ShippedScriptPlaysOut` | src/luge/dialogue.rs:29-135 | after n < 5 presses the shipped script shows Intro line n; from the fifth press on the dialogue is finished, with both scenes completed and empty text |
| `Dialogue.IntroPlays` | src/luge/dialogue.rs:96-112 | after n < 5 presses the sequencer is at Intro line n, waiting, showing that line, with the script's flags still clear |
| `Dialogue.FifthPressFinishes` | src/luge/dialogue.rs:113-133 | the fifth press completes Intro, finds the Shop scene empty, completes it too, and finishes with empty text |
| `Dialogue.Sequencer.constructor` | src/luge/dialogue.rs:16-59 | the default state (Intro, line 0, waiting) over the shipped script |
| `Dialogue.Sequencer.AdvanceDialogue` | src/luge/dialogue.rs:96-135 | the new state is one `Advance` step of the old state |
| `LugeUi.NatToString` | src/luge/ui.rs:280 | decimal digits without a leading zero that parse back to the number |
| `LugeUi.CoinText` | src/luge/ui.rs:280 | "Coins: " followed by exactly the count's decimal rendering, whose digits parse back to the count |
| `LugeUi.CoinTextFacts` | src/luge/ui.rs:193-201 | the initial "Coins: 0" is the text for 0, and distinct counts have distinct texts |
| `LugeUi.TwoDigits` | src/luge/ui.rs:270 | the number's decimal rendering, with one leading 0 added below 10 so it is exactly two digits there; the digits parse back to the number |
| `LugeUi.ReadClock` | src/luge/ui.rs:266-268 | whole minutes and seconds in [0, 60) with 60 · minutes + seconds = elapsed |
| `LugeUi.ReadClockUnique` | src/luge/ui.rs:266-268 | that reading is the only one with those properties |
| `LugeUi.RunTimerText` | src/luge/ui.rs:262-272 | the minutes field is the zero-padded rendering of the whole minutes, two or more digits that parse back to them, and minutes · 60 + seconds is the elapsed time |
| `LugeUi.InitialTimerText` | src/luge/ui.rs:184-192 | the initial "00:00.00" is the reading for elapsed 0 |
| `LugeUi.StatReadout` | src/luge/ui.rs:168-173 | four lines, each the stat's label followed by exactly its value's decimal rendering, whose digits parse back to the value |
| `LugeUi.InitialText` | src/luge/ui.rs:33-35 | the current line when the lookup finds one, otherwise the empty string |
| `LugeUi.InitialTextOpensScript` | src/luge/ui.rs:33-35 | for the default state the initial text is the first Intro line, matching the dialogue's opening |
| `LugeUi.SpawnDialogueText` | src/luge/ui.rs:93-99 | the dialogue text node gets the initial text |
| `LugeUi.Hud.constructor` | src/luge/ui.rs:184-232 | the timer shows "00:00.00", the coin count "Coins: 0", the launch button is hidden |
| `LugeUi.Hud.ToggleLaunchButton` | src/luge/ui.rs:248-260 | while waiting the button is hidden and the hint shown; otherwise the reverse |
| `LugeUi.Hud.UpdateRunTimerText` | src/luge/ui.rs:262-272 | every run timer text shows the stopwatch's reading |
| `LugeUi.Hud.UpdateCoinCountText` | src/luge/ui.rs:274-283 | when PlayerCoins changed, every coin text shows it; otherwise the texts stay |
| `Schedule.EnterPlaying` | src/luge/mod.rs:25-37 | the OnEnter(Playing) group: Luigee, both lane sprites, lanes, cooldown, atlas, zero coins and the dialogue text; no other field of the run, spawner or dialogue changes |
| `Schedule.EnterLoadout` | src/luge/mod.rs:38 | OnEnter(Loadout) resets the luge: centre lane, x 0, lane sprites at their offsets; only those three fields change |
| `Schedule.EnterLaunched` | src/luge/mod.rs:39-47 | OnEnter(Launched): stopwatch 0, speed 1000, spawn timer set, the first coin in the centre when the atlas was loaded; only those four fields change |
| `Schedule.ExitLaunched` | src/luge/mod.rs:78 | OnExit(Launched) removes every occupant and the spawn timer and changes nothing else |
| `Schedule.LoadoutFrame` | src/luge/mod.rs:48-57 | the chained Loadout frame; a press consumed by the cooldown guard never advances the dialogue |
| `Schedule.CoinChainOutcome` | src/luge/mod.rs:67-73 | after spawn, scroll, collect and cull, a coin remains exactly when it was scrolled, not collectable and on screen; the collected value plus the remaining and culled value equals the value before |
| `Schedule.CoinPipeline` | src/luge/mod.rs:67-73 | the four chained coin systems compose into the chain's outcome |
| `Schedule.FrameLoss` | src/luge/mod.rs:302-320 | braking or not, one frame takes away at least the coasting loss, unless it stops the run |
| `Schedule.SpeedAfterBound` | src/luge/mod.rs:302-320 | after n frames the speed is zero or at most the start speed minus n coasting losses |
| `Schedule.RunEnds` | src/luge/mod.rs:302-320 | once enough frames have passed to cover the speed, it is zero, so every run returns to Loadout |

## Left out

- `Luge.Run.DecelerateLuigee`: records the requested `NextState` in a field. The engine's state transition, and the fact that it happens once per run, are outside the core.
- Only the Loadout tuple and the coin tuple are `.chain()`ed in the source. The other Launched systems run in no fixed order, so no whole Launched frame is modelled. Each system is modelled alone, and the coin chain as a whole.
- `Spawner.CoinSpawner.CollectCoins`: `PlayerCoins` is a `u32` and the model uses `nat`. Past 2^32 − 1 the Rust `+=` panics in a debug build and wraps in a release build; neither is modelled.
- `LugeUi.ReadClock`: the cast `as u32` of the minutes is modelled as the floor. Its saturation at 2^32 − 1 is not modelled.
- `LugeUi.RunTimerText`: the seconds are kept as a number. The `{:05.2}` field (rounding to two decimals, padding to five characters) is not modelled.
- `f32` rounding is not modelled, since all arithmetic is exact `real`.
- Randomness is an input: `rand::rng()` gives the lane index and roll in `SpawnCoins`.
- Bevy `Timer`, `Stopwatch` and time: the frame delta and `just_finished` are parameters.
- Input: leafwing action states are booleans. A disabled action reads as not just pressed.
- `Changed<…>` / `is_changed` change detection is a boolean or list parameter.
- Sprite, texture, font and colour handles, `Name`s, and the node and widget trees of `spawn_slick_ui`, `spawn_luigee_ui` and `spawn_settings_menu` are not modelled. Only the texts and visibilities that the core systems read or write are kept.
- `cleanup_settings` and `DespawnOnExit` only despawn entities. The model keeps no entity registry, so it does not model them.
- `Luge.Run.ResetLuge`: requires at most the two lane sprites that `spawn_lanes` creates. The model pairs sprites with offsets in spawn order; the source pairs them in query-iteration order, which Bevy does not promise to match spawn order.
- The `Luge.Run.SpawnLanes` append assumes the `DespawnOnExit` of a previous Playing session has already removed the older sprites.
- `Settings`: the unreachable `_` arms of `calculate_lanes` and `scale` have no counterpart. A Dafny match over the four variants is exhaustive.
- The `info!` logging is not modelled.
- Where the crate-level `Resolution` resource is inserted is not part of this model. Systems take it as a parameter.
- `LugeState` is used but not declared in the modelled files, so the model declares it with its two variants.
- `PlayerStats` is not part of this model. Its stats are `nat` parameters, and the speed stat is taken to be positive, since the code divides by it.
- `src/menu.rs`, `src/loading.rs` and the older `src/luge.rs` are outside the core.
