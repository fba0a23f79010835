# Dino: a Dafny model of the game's core

This project models the core of a Chrome-Dino style runner written in Python with pygame. It covers these parts:

- **The economy.** `save_system.py` holds the coins, the high score and the upgrade levels. `shop.py` sells upgrades against that record.
- **The settings.** `settings_system.py` holds the resolution, fullscreen, colour scheme and key bindings. `settings_menu.py` is the screen that edits them. `color_manager.py` picks the palette for the chosen scheme.
- **The stand-alone runner of `main.py`.** A dino jumps under gravity and cacti scroll in from the right. It has a spawn timer, the hit test, the score and the game-over prompt.
- **The box player and box obstacle** of `player.py` and `obstacle.py`.
- **The screen flow.** `game_states.py` has the menu, playing and game-over screens. `game_manager.py` has the state slots, `change_state` and the main loop's dispatch rule.

Each module follows one source file:

| Dafny module | file |
|---|---|
| `Saves` | `save_system.dfy` |
| `Shops` | `shop.dfy` |
| `SettingsStore` | `settings_system.dfy` |
| `SettingsMenus` | `settings_menu.dfy` |
| `Palettes` | `color_manager.dfy` |
| `DinoPrototype` | `main.dfy` |
| `BoxPlayer` | `player.dfy` |
| `BoxObstacle` | `obstacle.dfy` |
| `GameStates` | `game_states.dfy` |
| `GameFlow` | `game_manager.dfy` |

Three small modules support them:
- `Wrappers` holds `Option`.
- `Input` holds pygame 2 key codes and the events the handlers see.
- `Geometry` holds pygame's `Rect`, `inflate` and `colliderect`.

Every Python class whose methods update fields becomes a Dafny `class` with the same fields. Each method is proved against a pure function of the old state, for example `ensures (ok, data) == Spent(old(data), amount)`. The properties the game relies on are lemmas about those functions. Pure code (key tables, palettes, prices) is written as functions and lemmas.

Some behaviours the model makes explicit:

- **`main.py` motion.** Vertical motion is kept in exact tenths of a pixel: gravity 0.8 is 8 and the jump force -15 is -150. The source uses floats; "## Left out" says what that leaves aside.
  - A jump lasts 36 ticks in the air and lands on the 37th.
  - It peaks at 120.8 pixels from the top of the screen.
  - Between ticks 5 and 32 it clears every cactus pattern.
  - A dino that never jumps is hit by every cactus, after exactly `(x - 158) / 6 + 1` updates.
- **Spawn timing.** Spawns are at least 80 and at most 120 ticks apart.
- **The obstacle pass.** The pass over a snapshot of the obstacle list is an imperative loop. It keeps the on-screen cacti in order and reports whether any cactus, once moved, hits the dino.
- **Dispatch in `game_manager.py`.** Each pass of the main loop hands all of its events, and then the `update` call, to the state that was current when the pass began.
  - So pressing ESC while playing and colliding in the same pass ends on the game-over screen (`GameFlow.EscapeThenCollision`).
  - From the start configuration the loop never meets an empty state slot. It ends only through QUIT, or ESC on the game-over screen (`GameFlow.FrameStopsExactly`, `GameFlow.PlayedStopsOnlyOnRequest`).
- **The shield cooldown in the HUD.** It shows `cooldown // 60 + 1` seconds, which is one more than the exact time at a whole number of seconds (`GameStates.CooldownAtWholeSeconds`).

Python's `//` and `%` floor. Dafny's agree with them for the positive divisors used here. Where C semantics matter (pygame's `inflate` halves a negative amount toward zero), the model writes the truncation out.

## Model

| member | source | states |
|---|---|---|
| Saves.DefaultData | save_system.py:11-21 | a fresh save has 0 coins, high score 0 and exactly the five upgrade keys, each at level 0 |
| Saves.Added | save_system.py:42-44 | `add_coins` moves the balance by exactly the amount and changes nothing else |
| Saves.Spent | save_system.py:46-51 | `spend_coins` succeeds iff the balance covers the amount; success subtracts it, refusal leaves the record unchanged, a non-negative balance stays non-negative |
| Saves.HighScoreUpdated | save_system.py:53-58 | reports a new record iff the score beats the stored one; the stored score becomes the larger of the two; coins and upgrades unchanged |
| Saves.Upgraded | save_system.py:60-63 | a known upgrade rises by one level, every other level and the key set stay, an unknown name changes nothing |
| Saves.SpendUndoesAdd | save_system.py:42-51 | from a non-negative balance, spending what was just added succeeds and restores the record |
| Saves.AddUndoesSpend | save_system.py:42-51 | adding back what a successful spend took restores the record |
| Saves.HighScoreIdempotent | save_system.py:53-58 | recording the same score twice: the second is not a new record and changes nothing |
| Saves.SpendKeepsBalance | save_system.py:46-51 | no spend takes a non-negative balance below zero |
| Saves.SaveSystem.constructor | save_system.py:10-21 | the save system starts from the default record |
| Saves.SaveSystem.AddCoins | save_system.py:42-44 | the record becomes `Added` of the old record |
| Saves.SaveSystem.SpendCoins | save_system.py:46-51 | result and record are `Spent` of the old record |
| Saves.SaveSystem.UpdateHighScore | save_system.py:53-58 | result and record are `HighScoreUpdated` of the old record |
| Saves.SaveSystem.UpgradeItem | save_system.py:60-63 | the record becomes `Upgraded` of the old record |
| Shops.ShopItem.GetCost | shop.py:15-17 | the price is the base price plus half of level times base price, rounded down |
| Shops.Catalog | shop.py:37-43 | the catalog has exactly the five upgrade keys |
| Shops.CatalogContents | shop.py:37-43 | the five items in order with base cost, unlock score and max level (10/0/5, 25/100/3, 20/200/3, 50/500/1, 75/750/4) |
| Shops.CostAtLeastBase | shop.py:15-17 | no non-negative level costs less than the base price |
| Shops.CostNonDecreasing | shop.py:15-17 | a higher level never costs less |
| Shops.Buy | shop.py:45-66 | a purchase succeeds iff the item exists, is unlocked, is not maxed and is affordable; success pays the current level's price and raises that level by one; every refusal changes nothing |
| Shops.PurchaseWithinMax | shop.py:54-64 | a purchase needs a level below the maximum and never lifts it above |
| Shops.PurchaseKeepsBalance | shop.py:59-61 | a purchase never takes a non-negative balance below zero |
| Shops.CatalogPurchaseCosts | shop.py:37-64 | in the real catalog every purchase costs at least the item's base price |
| Shops.ShopCommandOf | shop.py:68-78 | ESC or M leave; keys 1 to 5 buy the item at that position; nothing else does anything |
| Shops.Shop.constructor | shop.py:31-43 | the shop sells the catalog from the given save system |
| Shops.Shop.TryBuyUpgrade | shop.py:45-66 | result and record are `Buy` of the old record; the record keeps every upgrade key |
| Shops.Shop.HandleEvent | shop.py:68-78 | returns "menu" exactly for ESC/M, buys the numbered item for 1 to 5, leaves the record alone otherwise |
| SettingsStore.DefaultSettings | settings_system.py:9-23 | the default settings (scale 1.0 at index 2, windowed, scheme 1, the five default bindings) are consistent |
| SettingsStore.ClampIndex | settings_system.py:54 | the index is clamped into the option range and kept when already inside |
| SettingsStore.ResolutionChanged | settings_system.py:51-59 | the index moves by the clamped step; it reports a change iff the index moved, and only then stores the new scale; consistency is kept |
| SettingsStore.ResolutionStopsAtEnds | settings_system.py:51-59 | stepping past either end reports no change and changes nothing |
| SettingsStore.ResolutionUpThenDown | settings_system.py:51-59 | away from the top, one step up and one down restore the settings |
| SettingsStore.FullscreenToggled | settings_system.py:61-63 | the flag flips and the new value is returned |
| SettingsStore.ToggleTwiceRestores | settings_system.py:61-63 | two toggles restore the settings |
| SettingsStore.SchemeChanged | settings_system.py:65-67 | only schemes 1 to 3 are stored; any other value is ignored |
| SettingsStore.SchemeStaysValid | settings_system.py:65-67 | a valid scheme stays valid whatever is requested |
| SettingsStore.SchemeName | settings_system.py:69-71 | 2 is "Old Paper", 3 "Inverted", everything else "Normal" |
| SettingsStore.Rebound | settings_system.py:73-75 | only an action that already has a binding is rebound; every other binding and setting stays |
| SettingsStore.Lookup | settings_system.py:77-78 | the bound key, or K_UNKNOWN for an unbound action |
| SettingsStore.RebindThenLookup | settings_system.py:73-78 | after a rebind the lookup gives the new key; other actions keep theirs |
| SettingsStore.IntText | settings_system.py:107 | `str` of an integer: digits, with a leading minus for negatives |
| SettingsStore.IntTextInjective | settings_system.py:107 | different integers have different texts |
| SettingsStore.KeyName | settings_system.py:80-107 | table name first, then the upper-case letter, the digit, or "KEY_" and the code |
| SettingsStore.NamedKeyShape | settings_system.py:81-98 | table names are at least two characters long and none starts with 'K' |
| SettingsStore.NamedKeysDistinct | settings_system.py:81-98 | the table names no two codes alike |
| SettingsStore.UnnamedKeyShape | settings_system.py:102-107 | a code outside the table is shown as one character or as "KEY_" and its number |
| SettingsStore.UnnamedKeyNameInjective | settings_system.py:102-107 | codes outside the table are shown under different names |
| SettingsStore.KeyNameInjective | settings_system.py:80-107 | no two key codes are shown under the same name |
| SettingsStore.SettingsSystem.constructor | settings_system.py:6-23 | starts from the default settings |
| SettingsStore.SettingsSystem.ChangeResolution | settings_system.py:51-59 | result and state are `ResolutionChanged` of the old state |
| SettingsStore.SettingsSystem.ToggleFullscreen | settings_system.py:61-63 | result and state are `FullscreenToggled` of the old state |
| SettingsStore.SettingsSystem.ChangeColorScheme | settings_system.py:65-67 | the state becomes `SchemeChanged` of the old state |
| SettingsStore.SettingsSystem.SetKeybind | settings_system.py:73-75 | the state becomes `Rebound` of the old state |
| SettingsMenus.ActionOfItem | settings_menu.py:51 | the action is the item name without its "keybind_" prefix |
| SettingsMenus.NavAction | settings_menu.py:26-43 | UP/W go up, DOWN/S down, +/=/keypad + increase, -/keypad - decrease, X toggles fullscreen, RETURN/SPACE select, ESC back, 1 to 3 pick schemes 1 to 3; every other key gives nothing |
| SettingsMenus.Cycle | settings_menu.py:72-74 | the cursor wraps: down from the last item gives the first, up from the first gives the last |
| SettingsMenus.CycleSucc | settings_menu.py:74 | one more step past `a mod 7` is `(a + 1) mod 7` |
| SettingsMenus.DownPressesWrap | settings_menu.py:74 | n presses of "down" land on item (i + n) mod 7 |
| SettingsMenus.DownPressesRoundTrip | settings_menu.py:74 | seven presses of "down" return to the starting item |
| SettingsMenus.Stepped | settings_menu.py:94-108 | only the resolution item reacts; "apply_resolution" is returned iff the resolution moved |
| SettingsMenus.Selected | settings_menu.py:110-125 | select applies the resolution, toggles fullscreen, starts a rebinding, or goes back, by item |
| SettingsMenus.Acted | settings_menu.py:70-92 | each navigation action's effect on cursor, settings and result |
| SettingsMenus.OnEvent | settings_menu.py:45-68 | while a rebinding waits every key is consumed (ESC cancels, any other binds) and the wheel is ignored; otherwise keys go through the table and the wheel moves the cursor |
| SettingsMenus.UpUndoesDown | settings_menu.py:71-74 | "up" returns the cursor that "down" moved |
| SettingsMenus.ColorKeys | settings_menu.py:87-90 | keys 1 to 3 choose schemes 1 to 3 and return nothing |
| SettingsMenus.SelectThenBind | settings_menu.py:47-53 | selecting a keybind item then pressing a non-ESC key binds that key and ends the wait |
| SettingsMenus.SelectThenCancel | settings_menu.py:47-49 | selecting a keybind item then pressing ESC leaves everything as it was |
| SettingsMenus.ScaledSize | settings_system.py:46-49 | the scaled window is twice as wide as high, up to truncation |
| SettingsMenus.ActionLabel | settings_menu.py:216-220 | jump, shield and dash are shown as "Jump", "Shield" and "Air Dash"; any other action under its own name |
| SettingsMenus.ItemDisplay | settings_menu.py:200-229 | the label and value of every item: the scaled size and scale for resolution, ON/OFF, the scheme name, the action's label with its key name or the prompt while it is being rebound, and "Back to Menu" |
| SettingsMenus.PromptOnlyWhileWaiting | settings_menu.py:223-226 | a keybind item shows the prompt iff it is the one being rebound |
| SettingsMenus.SettingsMenu.constructor | settings_menu.py:5-24 | cursor on the first item, no rebinding waiting |
| SettingsMenus.SettingsMenu.HandleEvent | settings_menu.py:45-68 | cursor, waiting item, settings and result are `OnEvent` of the old ones |
| SettingsMenus.SettingsMenu.HandleAction | settings_menu.py:70-92 | cursor, settings and result are `Acted` of the old ones |
| SettingsMenus.SettingsMenu.HandleIncrease | settings_menu.py:94-100 | settings and result are `Stepped` upward |
| SettingsMenus.SettingsMenu.HandleDecrease | settings_menu.py:102-108 | settings and result are `Stepped` downward |
| SettingsMenus.SettingsMenu.HandleSelect | settings_menu.py:110-125 | cursor, settings and result are `Selected` of the old ones |
| Palettes.Invert | color_manager.py:36-37 | each channel and its inverse sum to 255 |
| Palettes.InvertInvolution | color_manager.py:36-37 | inverting twice gives the colour back and inverting stays in [0, 255] |
| Palettes.BasePalette | color_manager.py:5-18 | the twelve names, each an in-range colour |
| Palettes.OldPaperPalette | color_manager.py:21-34 | the same twelve names, each an in-range colour |
| Palettes.Inverted | color_manager.py:45 | same names, every colour inverted |
| Palettes.InvertedTwice | color_manager.py:45 | inverting a palette twice gives it back |
| Palettes.ActivePalette | color_manager.py:39-47 | scheme 2 old paper, 3 inverted base, anything else base |
| Palettes.PalettesShareNames | color_manager.py:39-47 | every scheme's palette has the same names and only in-range colours |
| Palettes.ColorOf | color_manager.py:49-51 | active palette, then base palette, then white |
| Palettes.ColorOfUnknown | color_manager.py:49-51 | white exactly for an unknown name; otherwise the active palette's colour |
| Palettes.PosterColors | color_manager.py:53-76 | the old-paper table for scheme 2, the grey table for scheme 3, the normal table for every other value; always the four names with in-range colours |
| Geometry.HalfTowardZero | main.py:300-301 | halving truncates toward zero, as `inflate` does |
| Geometry.Inflate | main.py:300-301 | the size grows by the amounts; an even amount keeps the centre |
| Geometry.CollidePositive | main.py:303 | for positive sizes `colliderect` is open-interval overlap on both axes |
| Geometry.CollideSymmetric | main.py:303 | collision does not depend on the order of the rectangles |
| DinoPrototype.StartMotion | main.py:200-208 | the dino starts at rest on the ground |
| DinoPrototype.Stepped | main.py:210-229 | a jump only from the ground, gravity, landing clamps to the ground, running animation only on the ground; validity kept |
| DinoPrototype.SpaceIgnoredInAir | main.py:212-214 | SPACE in the air changes nothing |
| DinoPrototype.JumpArc | main.py:210-222 | for 36 ticks after take-off the dino is airborne at `JumpHeight(n)` with speed -150 + 8n |
| DinoPrototype.JumpHeightStep | main.py:216-217 | each tick adds that tick's speed |
| DinoPrototype.JumpHeightBelowRest | main.py:219-222 | up to tick 36 the dino stays above the ground |
| DinoPrototype.JumpLands | main.py:219-222 | a jump lands on tick 37 |
| DinoPrototype.JumpPeak | main.py:216-217 | the peak is 120.8 px, at tick 18 |
| DinoPrototype.SpawnedCactus | main.py:240-244 | a cactus appears at the right edge standing on the ground |
| DinoPrototype.Moved | main.py:246-247 | a cactus moves 6 px left |
| DinoPrototype.HitsExactly | main.py:296-303 | the shrunk-box hit test as explicit bounds on x and on the dino's height |
| DinoPrototype.GroundedHitWindow | main.py:296-303 | a dino on the ground is hit exactly in a fixed x window |
| DinoPrototype.RetiredNeverHits | main.py:292-303 | a cactus that left the screen cannot hit |
| DinoPrototype.JumpClearsCacti | main.py:296-303 | from tick 5 to 32 of a jump no cactus hits |
| DinoPrototype.JumpHeightClear | main.py:216-217 | between ticks 5 and 32 the dino's top is above 197 px |
| DinoPrototype.Advanced | main.py:246-247 | updates keep a cactus's pattern and height |
| DinoPrototype.AdvancedLinear | main.py:246-247 | n updates move it 6n px |
| DinoPrototype.CannotRunThrough | main.py:289-303 | a dino that never jumps is hit after exactly `(x - 158) / 6 + 1` updates and not before |
| DinoPrototype.SpawnStep | main.py:280-284 | the timer resets on a spawn, otherwise counts up below the interval and stays below 120 |
| DinoPrototype.NoSpawnTooSoon | main.py:280-284 | spawns are at least 80 ticks apart |
| DinoPrototype.SpawnWithinMax | main.py:280-284 | spawns are at most 120 ticks apart |
| DinoPrototype.Scrolled | main.py:289-293 | a pass never adds cacti |
| DinoPrototype.ScrolledPrefixIsScrolled | main.py:289-293 | the pass over a prefix is the pass over that prefix's list |
| DinoPrototype.ScrolledContents | main.py:289-293 | a cactus is kept, moved once, exactly when the move leaves it on screen |
| DinoPrototype.HitIsOnScreen | main.py:289-303 | a hitting cactus is one the pass keeps |
| DinoPrototype.Without | main.py:293 | `list.remove` drops one element when present and changes nothing otherwise |
| DinoPrototype.DistinctIndex | main.py:289-293 | different positions in the list hold different cacti |
| DinoPrototype.DistinctSnoc | main.py:283 | appending a new cactus keeps the list free of repeats |
| DinoPrototype.WithoutAfterPrefix | main.py:293 | removal after a prefix without it keeps prefix and suffix in order |
| DinoPrototype.ViewsOf | main.py:289-293 | one view per cactus |
| DinoPrototype.ViewsOfAt | main.py:289-293 | each view is the cactus at the same position |
| DinoPrototype.ViewsOfSnoc | main.py:283 | appending a cactus appends its view |
| DinoPrototype.KeptAdvance | main.py:289-293 | each handled cactus is either dropped or joins the kept ones |
| DinoPrototype.KeptMembers | main.py:289-293 | kept cacti come from the snapshot |
| DinoPrototype.KeptDistinct | main.py:289-293 | kept cacti have no repeats |
| DinoPrototype.KeptViews | main.py:289-293 | the kept cacti's views are the scrolled views |
| DinoPrototype.DistinctOthers | main.py:289-293 | the cactus at one position is at no other |
| DinoPrototype.RemainsIsKept | main.py:289-293 | removing one cactus at a time leaves the kept ones followed by the unhandled ones |
| DinoPrototype.KeptFacts | main.py:289-293 | the list after the pass has the scrolled views, no repeats, nothing new |
| DinoPrototype.HitAmongIsAnyHit | main.py:296-303 | the accumulated hit flag is "some cactus hits" |
| DinoPrototype.WaitRestartsOnR | main.py:316-333 | the wait restarts the game iff the batch holds R |
| DinoPrototype.WaitStopsOnQuit | main.py:318-332 | `run` survives the batch iff it was set and no event is QUIT or ESC |
| DinoPrototype.WaitEndsOnAnyKey | main.py:316-333 | the wait ends iff the batch holds R, QUIT or ESC |
| DinoPrototype.DinoPlayer.constructor | main.py:200-208 | the dino starts in `StartMotion` |
| DinoPrototype.DinoPlayer.Update | main.py:210-229 | the dino's state becomes `Stepped` of the old one |
| DinoPrototype.Cactus.constructor | main.py:240-244 | a new cactus is `SpawnedCactus` of its pattern, moving 6 px per update |
| DinoPrototype.Cactus.Update | main.py:246-247 | the cactus becomes `Moved` of the old one |
| DinoPrototype.Runner.constructor | main.py:258-264 | fresh dino, no cacti, timer and score 0, running |
| DinoPrototype.Runner.Tick | main.py:265-303 | one pass: `run` cleared by QUIT, dino stepped, timer per `SpawnStep`, score + 1, cacti scrolled, hit iff some moved cactus hits |
| DinoPrototype.Runner.Advance | main.py:272-287 | events, dino, spawn and score; a spawned cactus is appended fresh |
| DinoPrototype.Runner.SpawnTick | main.py:280-284 | timer per `SpawnStep`; a spawn appends one new cactus; no repeats |
| DinoPrototype.Runner.MoveObstacles | main.py:289-303 | the obstacle list becomes the scrolled one; hit iff some moved cactus hits |
| DinoPrototype.Runner.Restart | main.py:325-328 | fresh dino, empty list, timer and score 0 |
| DinoPrototype.Runner.AwaitKeys | main.py:316-333 | `run`, the restart and `waiting` follow `WaitBatch`; a restart resets the game, otherwise it is unchanged |
| DinoPrototype.Collides | main.py:296-303 | the shrunk-box test equals `Hits` |
| DinoPrototype.MoveCacti | main.py:289-303 | every cactus moved once, the list is the kept ones in order, hit iff some moved cactus hits |
| BoxPlayer.StartBody | player.py:4-11 | a 40 by 40 box with bottom centre (100, 350), at rest |
| BoxPlayer.Jumped | player.py:13-16 | a jump starts only from the ground |
| BoxPlayer.Stepped | player.py:18-29 | column and size kept, never below the ground; clamped and stopped iff the move reached the ground |
| BoxPlayer.SteppedValid | player.py:18-29 | an update keeps the box valid |
| BoxPlayer.StandingStill | player.py:23-29 | standing without SPACE, the box does not move |
| BoxPlayer.NoJumpInAir | player.py:13-21 | SPACE in the air changes nothing |
| BoxPlayer.JumpTakesOff | player.py:13-24 | from the ground SPACE lifts the box 14 to 15 px with speed -14.2 |
| BoxPlayer.Player.constructor | player.py:4-11 | the box starts as `StartBody` |
| BoxPlayer.Player.Jump | player.py:13-16 | the box becomes `Jumped` of the old one |
| BoxPlayer.Player.Update | player.py:18-29 | the box becomes `Stepped` of the old one |
| BoxObstacle.Spawned | obstacle.py:5-9 | a 20 by 50 block with bottom centre (x, 350), speed 6 |
| BoxObstacle.Moved | obstacle.py:11-12 | one update moves the block `speed` pixels left |
| BoxObstacle.MovedTimesLinear | obstacle.py:11-12 | n updates move it n times its speed |
| BoxObstacle.LeavesScreen | obstacle.py:5-12 | wherever it spawned, the block is off screen from its 169th update |
| BoxObstacle.Obstacle.constructor | obstacle.py:5-9 | the block is `Spawned` at the drawn x |
| BoxObstacle.Obstacle.Update | obstacle.py:11-12 | the block becomes `Moved` of the old one |
| GameStates.MenuResult | game_states.py:44-50 | SPACE gives "game", S gives "shop", anything else nothing |
| GameStates.PlayingResult | game_states.py:138-142 | ESC gives "menu", anything else nothing |
| GameStates.GameOverResult | game_states.py:231-239 | R gives "game", M "menu", ESC "quit", anything else nothing |
| GameStates.CoinsEarned | game_states.py:157-159 | passed times (1 + level); nothing for nothing passed; at least one per obstacle for a non-negative level |
| GameStates.CooldownSeconds | game_states.py:208-209 | the shown seconds s satisfy 60(s - 1) <= cooldown < 60s |
| GameStates.CooldownAtWholeSeconds | game_states.py:208-209 | at exactly n seconds the HUD shows n + 1 |
| GameStates.PlayTick | game_states.py:144-170 | score + 1; the run's coins and the saved coins both rise by the coins earned; "game_over" iff collided |
| GameStates.PlayTicks | game_states.py:144-170 | updates never change the upgrade levels |
| GameStates.RunMatchesSave | game_states.py:157-164 | over any run the score counts the updates and the save gained exactly the run's coins |
| GameStates.RunEarnsPerObstacle | game_states.py:157-161 | with a non-negative multiplier every passed obstacle earns at least one coin |
| GameStates.Playing.constructor | game_states.py:124-136 | a new playing state starts a fresh run on the shared save system |
| GameStates.Playing.ResetGame | game_states.py:129-136 | score and run coins back to 0 |
| GameStates.Playing.Update | game_states.py:144-170 | run, save record and result are `PlayTick` of the old ones |
| GameStates.GameOverState.constructor | game_states.py:224-229 | keeps the final score and coins; the new-record flag and the save are `HighScoreUpdated` |
| GameFlow.StartScreens | game_manager.py:23-29 | the manager starts on "menu" with empty game and game-over slots |
| GameFlow.Changed | game_manager.py:31-44 | "game" installs a fresh run; "game_over" builds the summary and records the high score only when a run exists; the name always becomes current |
| GameFlow.Dispatched | game_manager.py:64-69 | nothing, or the current name, is ignored; "quit" stops without a state change; any other name is changed to |
| GameFlow.UpdateDispatched | game_manager.py:72-75 | the update's result is ignored when empty or current, otherwise changed to |
| GameFlow.ShopHandled | shop.py:68-78 | the shop's result and purchase on the save record; upgrade keys kept |
| GameFlow.HandledBy | game_manager.py:64 | each state's handler; only the shop changes the save |
| GameFlow.EventStep | game_manager.py:59-69 | one event: QUIT clears the flag, others go through the handler and the dispatch rule |
| GameFlow.EventsHandled | game_manager.py:59-69 | the event phase keeps every upgrade key |
| GameFlow.FrameUpdated | game_manager.py:71-75 | only a playing frame's update changes anything |
| GameFlow.Frame | game_manager.py:53-75 | an empty current slot stops the loop at once and changes nothing |
| GameFlow.StartConsistent | game_manager.py:23-29 | the start configuration is consistent |
| GameFlow.HandledNames | game_manager.py:64-69 | handlers return nothing, a slot name or "quit", and only the game-over screen returns "quit" |
| GameFlow.EventsKeepConsistent | game_manager.py:59-69 | the event phase keeps the configuration consistent and a playing frame's run |
| GameFlow.FrameKeepsConsistent | game_manager.py:53-75 | a pass keeps the configuration consistent |
| GameFlow.EventsStopExactly | game_manager.py:59-69 | the flag survives the events iff it was set, no event is QUIT and, on the game-over screen, none is ESC |
| GameFlow.FrameStopsExactly | game_manager.py:53-75 | a pass stops the loop iff it holds QUIT, or ESC on the game-over screen |
| GameFlow.EscapeThenCollision | game_manager.py:59-75 | ESC while playing plus a collision in the same pass ends on the game-over screen |
| GameFlow.PlayAgainStartsFresh | game_manager.py:33-34 | R on the game-over screen starts a fresh run |
| GameFlow.Played | game_manager.py:50-79 | the loop keeps every upgrade key |
| GameFlow.PlayedKeepsConsistent | game_manager.py:50-79 | any number of passes keeps the configuration consistent |
| GameFlow.PlayedStopsOnlyOnRequest | game_manager.py:50-79 | the loop stops only in a pass holding QUIT or ESC, never on an empty slot |
| GameFlow.GameManager.constructor | game_manager.py:12-29 | the manager's configuration is `StartScreens` of a fresh save |
| GameFlow.GameManager.ChangeState | game_manager.py:31-44 | the configuration becomes `Changed` of the old one |
| GameFlow.GameManager.HandleEvent | game_manager.py:64 | result and save are `HandledBy` |
| GameFlow.GameManager.DispatchEvent | game_manager.py:59-69 | configuration and flag become `EventStep` of the old ones |
| GameFlow.GameManager.UpdateFrame | game_manager.py:71-75 | the configuration becomes `FrameUpdated` of the old one |
| GameFlow.GameManager.RunFrame | game_manager.py:53-79 | configuration and flag become `Frame` of the old configuration |
| GameFlow.GameManager.Run | game_manager.py:46-82 | configuration and flag become `Played` of the old configuration |

## Left out

- Drawing is not modelled. This covers every `draw`, `draw_hud` and `draw_menu_item` method, `draw_pixel_art`, fonts, the window and the display updates. The pixel-art tables enter only through their sizes.
- The save, settings and shop files are not modelled. Reading and writing them (`load_save`, `save_data`, `load_settings`, `save_settings`) is file I/O. Both systems start from their defaults, and a write after a purchase, a game over or a settings change has no modelled effect.
- `print` and the frame clock are not modelled. The clock is `clock.tick`, `FPS`.
- Randomness is passed in as parameters:
  - `random.randint(80, 120)` is the spawn interval;
  - `random.choice` is a cactus's pattern;
  - `random.randint(800, 1000)` is the obstacle's x.
- The keyboard state (`pygame.key.get_pressed`) and the event queue are parameters: whether SPACE is held, and a sequence of events.
- `DinoPrototype.Stepped`: `y` and `vel_y` in `main.py` are Python floats stepping by 0.8. The model keeps them as exact tenths of a pixel, and it turns `y` into a pixel row by truncation (`y / 10` rounded down, which equals truncation for the positive heights reached). So two things are chosen rather than derived: IEEE rounding, which can leave the float just below a whole pixel that exact tenths reach, and pygame's float-to-integer conversion of a `Rect` coordinate. In either case the real game can draw and test the dino one pixel higher or lower than the model.
- `BoxPlayer.Player.Update`: the integer pixel that `rect.y += vel_y` stores from a float is a parameter, required only to be within one pixel of the exact value. pygame's float-to-integer conversion is not fixed by the model.
- `DinoPrototype.Runner.Tick`: in `main.py` the game-over wait runs inside the obstacle pass, once for every colliding cactus of the pass. The model reports the hit after the whole pass and runs one wait (`AwaitKeys`) after it. Two consequences of the source's order are therefore not modelled:
  - after a restart, the rest of the old snapshot's cacti still move and are tested against the new dino and list;
  - after ESC or QUIT clears `run`, every later colliding cactus of the same pass opens another wait that needs another key.
  - The dino's shrunk box is computed once per pass. The source recomputes it per cactus, but the dino does not change during a pass.
- `DinoPrototype.Runner.AwaitKeys` handles one batch of events. The source repeats `pygame.event.get()` while `waiting`. That repetition is the caller calling it again.
- The `ObstacleManager` and `Player(upgrades)` that the playing screen uses are not part of this model. What one update of theirs reports is a parameter: the obstacles passed and whether there was a collision.
  - The shield cooldown is likewise a parameter of `CooldownSeconds`.
  - The `BackgroundManager` (menu and playing backgrounds) is not part of this model either. The menu's `update` only moves it and returns nothing.
- `ColorManager` holds no state of its own. Its methods are modelled as functions of the scheme number they read from the settings.
- Resolution scales are `real`s, not floats. `ScaleText` writes Python's text only for the eight options.
- `GameFlow.PlayedStopsOnlyOnRequest` states only that the stopping pass holds a QUIT or an ESC. `FrameStopsExactly` states the exact rule per pass: an ESC stops only on the game-over screen.
- `GameFlow.GameManager.Run` runs over a finite list of passes. When the list runs out, the game loop would keep waiting for input. `pygame.quit` and `sys.exit` after the loop are not modelled.
