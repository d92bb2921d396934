# Quinton platformer, modelled in Dafny

This project models the playable core of the Quinton demo, a browser 3D
level-runner, and proves properties of that model. It covers:

- the per-frame movement controller of the Player (`components/Game/Player.tsx`):
  - running, and the damped glide during a phase dash;
  - the edge-triggered jump and double jump, and the dash with its cooldown;
  - gravity with a terminal fall speed, then explicit Euler integration;
  - first-match landing on axis-aligned box platforms;
  - the fall-out reset and the win radius;
- the session bookkeeping around it (`components/Game/GameRoot.tsx`): the opening level,
  restart, next level, full restart, the death record, health regeneration and the
  once-only level reward;
- the supply drop (`components/Sections/ShopView.tsx`): the paid roll over rarity
  pools, with a half refund for a duplicate frame, and equipping an owned frame;
- the persisted stats record (`utils/database.ts`): the fallback record, the inventory
  migration of old records, and the merge-on-save;
- the two catalogues: the five character frames (`data/characters.ts`) and the ten
  levels (`components/Game/Level.tsx`).

Layout, one module per source file:

- `types.dfy` (Types): vectors, platforms, character and stats records;
- `characters.dfy` (Characters);
- `player.dfy` (PlayerMovement): the reference tick `Tick` on a state value, and
  `class Player`, whose `Step` updates its fields in place;
- `level.dfy` (Level);
- `database.dfy` (Database, `class Store` over a storage map);
- `shop.dfy` (Shop, `class ShopView`);
- `gameroot.dfy` (GameRoot, `class Session`, which owns the mounted Player).

Numbers are exact reals, so IEEE rounding is not modelled. Held keys are a set of
key codes. The normalised key direction `dir` is a parameter: `NormalizedOf` says it is
zero exactly when the raw direction is, and of squared length 1 in the raw
direction's sense otherwise. Distances are compared squared (`< 3 * 3`).

Behaviour of the code the model keeps:

- `userData.lastDashTime || 0` defaults the dash time to 0. So no dash starts before
  clock time 0.6, and the first 0.2 s count as a dash window (`NoDashAtStart`).
- `inputDir.multiplyScalar(5)` scales the input direction in place, so a dash on the
  same tick as a double jump moves at 5 × 32 times the direction (`DashRule`).
- A walk off a ledge leaves `jumps` at 0, and the airborne jump branch then goes
  straight to 2 jumps (`AirJump`).
- React applies the last state update of a frame, so a landing tick ends with 0 jumps
  even if it also jumped.

## Model

| member | source | states |
|---|---|---|
| PlayerMovement.Tick | components/Game/Player.tsx:361-489 | reference definition of one frame on a state value; the lemmas below state what it promises, and Player.Step is proved equal to it |
| PlayerMovement.Steer | components/Game/Player.tsx:383-395 | reference horizontal movement, leaving the vertical speed alone; RunVelocity and DashGlide state its effect on a tick |
| PlayerMovement.Jump | components/Game/Player.tsx:397-413 | reference jump stage; GroundJump, AirJump, JumpDirection, SpentJumpIgnored and HeldJumpIgnored state its effect |
| PlayerMovement.Dash | components/Game/Player.tsx:415-435 | reference dash stage; DashRule and NoDashAtStart state its effect |
| PlayerMovement.Gravity | components/Game/Player.tsx:437-439 | horizontal speed unchanged; vertical speed is the larger of v.y − 40·delta and the −40 cap |
| PlayerMovement.Resolve | components/Game/Player.tsx:445-483 | reference collision, reset and goal stage; LandingRule, FallOutRespawn and WinRadius state its effect |
| PlayerMovement.NormalizedDirection | components/Game/Player.tsx:367-378 | a normalised key direction has no vertical part and is non-zero exactly when the held movement keys give a non-zero raw direction |
| PlayerMovement.RunVelocity | components/Game/Player.tsx:383-395 | outside a dash window, with no double jump and no dash, horizontal velocity after the tick is dir × 8.5 when a net direction is held and 0 otherwise |
| PlayerMovement.DashGlide | components/Game/Player.tsx:366-386 | inside the dash window horizontal velocity is the previous one × 0.96 on a tick with no double jump, whatever direction is held, and the dash time is kept |
| PlayerMovement.RisingEdges | components/Game/Player.tsx:398-435 | the latches record whether Space and Shift were held, so the next tick's jump and dash logic fires exactly on a rising edge |
| PlayerMovement.HeldJumpIgnored | components/Game/Player.tsx:398-409 | a Space key held since an earlier tick gives the same tick outcome as no Space, apart from the latch staying set |
| PlayerMovement.GroundJump | components/Game/Player.tsx:400-438 | a grounded jump edge gives vertical speed 24 − 40·delta and 1 jump used, airborne |
| PlayerMovement.AirJump | components/Game/Player.tsx:404-438 | an airborne jump edge with jumps < 2 gives vertical speed 20 − 40·delta, adds 5 × dir to the run velocity and uses both jumps |
| PlayerMovement.JumpDirection | components/Game/Player.tsx:404-407 | after the jump stage the input direction is 5 × dir on a double jump, dir otherwise, and is non-zero exactly when dir is |
| PlayerMovement.SpentJumpIgnored | components/Game/Player.tsx:400-409 | with both jumps used an airborne jump edge changes nothing beyond the latch |
| PlayerMovement.DashRule | components/Game/Player.tsx:416-438 | a dash fires exactly on a Shift edge past the 0.6 s cooldown with a non-zero direction; it sets horizontal velocity to 32 × the (possibly jump-scaled) direction and vertical speed 3 before gravity, and records the time; otherwise the dash time is unchanged |
| PlayerMovement.NoDashAtStart | components/Game/Player.tsx:366-419 | with the default dash time 0, no dash starts up to time 0.6 and times below 0.2 count as a dash window |
| PlayerMovement.FallSpeedBounded | components/Game/Player.tsx:437-476 | vertical velocity after every tick is at least −40 |
| PlayerMovement.FirstLandingFrom | components/Game/Player.tsx:449-469 | the landing search returns the first platform from an index on that the body lands on, or none exactly when no later platform qualifies |
| PlayerMovement.FindLanding | components/Game/Player.tsx:449-469 | the platform loop with its early exit computes the first-match landing |
| PlayerMovement.LandingRule | components/Game/Player.tsx:446-488 | grounded after the tick exactly when not rising and some platform qualifies; the first qualifying platform snaps the body to its top at vertical speed 0; grounded means 0 jumps, airborne keeps the jump stage's count |
| PlayerMovement.FallOutRespawn | components/Game/Player.tsx:472-478 | the fall-out event fires exactly when the snapped height is below −50, and then the body is at (0,5,0) at rest |
| PlayerMovement.WinRadius | components/Game/Player.tsx:480-483 | the win event fires on every tick that ends strictly within distance 3 of the goal |
| PlayerMovement.FreeFallExample | components/Game/Player.tsx:437-443 | a body dropped at height 5 with speed −10 over a box falls to 3.6 and then 1.8 at 0.1 s ticks |
| PlayerMovement.LandingSnapExample | components/Game/Player.tsx:448-466 | the next tick of that drop lands on the box top at 0.5 at rest and grounded, and the body then stays there |
| PlayerMovement.Player.constructor | components/Game/Player.tsx:340-344 | a new Player is at the spawn point (0,5,0), at rest, airborne, with no jumps used and clear latches |
| PlayerMovement.Player.Step | components/Game/Player.tsx:361-489 | one frame updates the fields to the reference tick's next state and returns its fall-out and win events |
| PlayerMovement.Player.Run | components/Game/Player.tsx:366-395 | the horizontal-movement code computes the reference steering: damped in a dash window, else from the input |
| PlayerMovement.Player.JumpInput | components/Game/Player.tsx:397-413 | the Space handler computes the reference jump stage and sets the latch to whether Space is held |
| PlayerMovement.Player.PhaseDash | components/Game/Player.tsx:415-435 | the Shift handler computes the reference dash stage and sets the latch to whether Shift is held |
| PlayerMovement.Player.Integrate | components/Game/Player.tsx:381-443 | the input, impulse, gravity and integration stages of the frame compute the reference motion |
| PlayerMovement.Player.Settle | components/Game/Player.tsx:445-483 | the collision, reset and goal stages of the frame compute the reference outcome |
| Characters.GetCharacterById | data/characters.ts:67-69 | the result is always a catalogue entry; it has the requested id when one exists, and is the first entry when none does |
| Characters.DefaultIsStandardFrame | data/characters.ts:4-68 | the fallback entry is frame_v01 |
| Characters.IdsDistinct | data/characters.ts:4-65 | catalogue ids are pairwise distinct |
| Characters.LookupFindsEntry | data/characters.ts:67-69 | looking up the id of any entry returns that very entry |
| Characters.EveryRarityPresent | data/characters.ts:4-65 | each rarity occurs in the catalogue |
| Level.LevelIds | components/Game/Level.tsx:24-187 | there are ten levels and level i has id i |
| Level.AllWellFormed | components/Game/Level.tsx:24-187 | every level has positive box sizes, a spawn pad at (0,−2,0) at least 10 wide, its goal on the vertical through the last box's top centre, within the win radius of that top, and all tops above −50 |
| Level.SpawnAbovePad | components/Game/Level.tsx:24-187 | the spawn point lies strictly inside every level's pad in X and Z and above its top at −1.5 |
| Level.GoalReachableOnLastPlatform | components/Game/Level.tsx:24-187 | a tick ending at the top centre of a level's last box raises the win event |
| Level.LandingNeverFallsOut | components/Game/Level.tsx:30-183 | on level geometry a landing tick never triggers the fall-out reset |
| Database.Decode | utils/database.ts:17-38 | reference getDatabase on the stored value; MissingYieldsDefault, CorruptYieldsDefault, MigrationKeepsProgress, ParsedRecordKept and RoundTrip state its cases |
| Database.Migrate | utils/database.ts:25-31 | reference migration of a parsed record; MigrationKeepsProgress and ParsedRecordKept state it |
| Database.Merge | utils/database.ts:42 | reference merge of a save; MergeFields, MergeIdempotent and MergeOnlyStamps state it |
| Database.Store.constructor | utils/database.ts:7-15 | a store holds the given storage map and the time the fallback record was built |
| Database.Store.GetDatabase | utils/database.ts:17-38 | getDatabase reads Decode of the value stored under the key, or of nothing when the key is absent |
| Database.DefaultRecord | utils/database.ts:7-15 | the fallback record has 500 credits, zero progress, and frame_v01 both owned and equipped |
| Database.MissingYieldsDefault | utils/database.ts:19-20 | nothing stored, or an empty string, reads as the fallback record |
| Database.CorruptYieldsDefault | utils/database.ts:34-37 | a stored value JSON.parse rejects reads as the fallback record |
| Database.MigrationKeepsProgress | utils/database.ts:25-31 | a record without an inventory keeps its counters and timestamp, gets the starter inventory and has its equip reset to the starter frame |
| Database.ParsedRecordKept | utils/database.ts:33 | a record with an inventory is read unchanged |
| Database.RoundTrip | utils/database.ts:17-45 | reading back a written record gives that record |
| Database.MergeFields | utils/database.ts:42 | a save takes each patched field from the patch and every other field from the current record, and stamps lastLogin with the save time |
| Database.MergeIdempotent | utils/database.ts:42 | saving the same patch twice at one time equals saving it once |
| Database.MergeOnlyStamps | utils/database.ts:42 | a patch with no fields (or only lastLogin) changes only the timestamp |
| Database.Store.SaveDatabase | utils/database.ts:40-45 | stores the merge of the current record with the patch under the storage key, returns it, and the next read returns it |
| Database.Store.ResetDatabase | utils/database.ts:47-50 | stores and returns the fallback record, which the next read returns |
| Shop.OfRarity | components/Sections/ShopView.tsx:71-73 | the pool holds exactly the catalogue entries of the rarity |
| Shop.PoolRarity | components/Sections/ShopView.tsx:70-73 | draws above 0.9 pick Legendary, above 0.6 up to 0.9 Rare, and the rest Common |
| Shop.Pick | components/Sections/ShopView.tsx:75 | a draw in [0, 1) selects a member of the pool |
| Shop.Draw | components/Sections/ShopView.tsx:70-75 | the selected frame is a catalogue entry of the pool's rarity |
| Shop.PoolNonEmpty | components/Sections/ShopView.tsx:71-75 | no pool is empty |
| Shop.Settle | components/Sections/ShopView.tsx:76-86 | the frame is new exactly when not owned; a new frame is appended once and the paid credits are kept, while a duplicate refunds 250 and keeps the inventory |
| Shop.SettleOwns | components/Sections/ShopView.tsx:79-86 | after a roll the frame is owned, nothing owned is lost, and the inventory grows by at most that one id |
| Shop.SecondRollIsDuplicate | components/Sections/ShopView.tsx:76-86 | rolling a frame a second time counts as a duplicate |
| Shop.RollCost | components/Sections/ShopView.tsx:56-97 | a completed roll costs 250 for a duplicate and 500 for a new frame |
| Shop.ShopView.constructor | components/Sections/ShopView.tsx:48-50 | a new view has no stats loaded, no roll in progress, no result shown and nothing scheduled |
| Shop.ShopView.Mount | components/Sections/ShopView.tsx:52-54 | the view loads the stored stats |
| Shop.ShopView.HandleRoll | components/Sections/ShopView.tsx:56-66 | a roll is refused with no change without stats, below 500 credits or while rolling; otherwise it lowers the credits by 500 (never below 0), saves them and schedules the completion |
| Shop.ShopView.FinishRoll | components/Sections/ShopView.tsx:68-96 | the completion settles the drawn frame against the inventory seen at the start, saves the credits and inventory, shows the result and ends the roll |
| Shop.ShopView.Award | components/Sections/ShopView.tsx:76-95 | refund or append, save both fields, show the frame and whether it is new |
| Shop.ShopView.Roll | components/Sections/ShopView.tsx:56-96 | a whole roll is refused with no change, or ends with the drawn frame owned, credits down by 250 or 500, the stored record equal to the shown one and no roll in progress |
| Shop.ShopView.HandleEquip | components/Sections/ShopView.tsx:99-103 | only a frame in the inventory is equipped and saved; otherwise nothing changes |
| GameRoot.InitialLevelIndex | components/Game/GameRoot.tsx:56-60 | the opening level is the stored progress while below 10, else 0; for any non-negative progress it is a valid index |
| GameRoot.Reward | components/Game/GameRoot.tsx:168 | reference definition of a level's reward, 100 + 100 × index; CampaignPayout states what it sums to |
| GameRoot.CampaignPayout | components/Game/GameRoot.tsx:166-181 | winning levels 0 … k−1 once each, saved as handleWin saves, adds 50k(k+1) to the stored credits, raises stored progress to max(old, k) and keeps inventory and deaths |
| GameRoot.Damage | components/Game/Player.tsx:474 | the health after a fall is the larger of 0 and h − 25 |
| GameRoot.Regen | components/Game/GameRoot.tsx:161 | the health after a regeneration tick is the smaller of 100 and h + 1 |
| GameRoot.HealthBounds | components/Game/GameRoot.tsx:159-164 | a fall (the health update at Player.tsx line 474) costs 25 health or what is left, and a regeneration tick adds one up to 100; both keep health in [0, 100] |
| GameRoot.RegenRestores | components/Game/GameRoot.tsx:159-164 | from any positive health, 100 − h regeneration ticks restore full health and further ticks keep it |
| GameRoot.WinProgress | components/Game/GameRoot.tsx:175-179 | a win adds the reward to the stored credits and sets stored progress to max(old, level + 1), so it never decreases |
| GameRoot.EquippedFrame | components/Game/GameRoot.tsx:84 | the frame shown is a catalogue entry, and the starter frame when none is stored |
| GameRoot.Session.constructor | components/Game/GameRoot.tsx:56-76 | a session opens on InitialLevelIndex of the stored progress at full health with a fresh Player at the spawn point |
| GameRoot.Session.Mount | components/Game/GameRoot.tsx:81-86 | the mount effect shows the stored credits and equipped frame and saves gamesPlayed + 1 |
| GameRoot.Session.RestartLevel | components/Game/GameRoot.tsx:125-131 | health 100, neither won nor dead, gameKey + 1 and a fresh Player; level and credits unchanged |
| GameRoot.Session.NextLevel | components/Game/GameRoot.tsx:134-139 | below the last level it advances by one and restarts; on the last level nothing changes |
| GameRoot.Session.RestartCampaign | components/Game/GameRoot.tsx:142-146 | back to level 0 and restart; credits unchanged |
| GameRoot.Session.CheckDeath | components/Game/GameRoot.tsx:149-156 | at no health the session dies once and the stored death count grows by exactly 1; re-evaluating changes nothing |
| GameRoot.Session.RegenTick | components/Game/GameRoot.tsx:159-164 | while 0 < health < 100 and not won, health rises by one; otherwise it is unchanged |
| GameRoot.Session.HandleWin | components/Game/GameRoot.tsx:166-181 | the first call while neither won nor dead pays 100 + 100 × level into the shown and stored credits, raises stored progress and marks the level won; later calls change nothing |
| GameRoot.Session.Frame | components/Game/GameRoot.tsx:231-240 | with neither dead nor won the mounted Player ticks (Player.tsx lines 472-483), a fall costs 25 health, and reaching the goal wins, shows the reward as the last earned credits, adds it to the shown credits and stores the win record, while a frame without a win leaves the storage alone; with a dead or won session the frame changes nothing |

## Left out

- AirJump: states the double jump for a direction with no vertical part only, which every normalised key direction satisfies (NormalizedDirection).
- Camera follow and shake, the impact-shake signal, and the HUD speed readout (`setVelocity`, and the speed reset in `restartLevel`): display-only output with square roots, rounding and random jitter.
- Rendering, the character previews and meshes, the level decoration and guide arrows, and post-processing: three.js output with no game logic.
- Audio, the mute toggle and the autoplay fallback: browser media.
- Keyboard listener wiring: the held-key set is the tick's input.
- `normalize` and `distanceTo`: the normalised direction is a parameter and distances are compared squared.
- setTimeout and setInterval: a roll is HandleRoll followed by FinishRoll (or Roll, both at once), and regeneration is one RegenTick per interval firing.
- React render batching and stale closures: the roll completion's stale `stats` closure is modelled (FinishRoll and Award settle against the snapshot taken when the roll started); every other handler sees the current fields. Within one Player frame, last-write-wins state updates are modelled.
- JSON and localStorage: the storage is a map from key to an already-classified value (blank, unparseable, or a parsed record). JSON.stringify/parse of a record is taken to round-trip.
- Database.Decode: a parsed record is taken to carry every counter field. A record with missing counters, or a parsed non-object, would produce undefined fields in the source, and the model does not cover that.
- `new Date().toISOString()` and `Math.random()`: timestamps and the two draws are parameters.
- GameRoot.Session.constructor: requires a non-negative stored highestLevel. For a negative one the source indexes LEVELS out of range.
- Navigation, the dashboard sections, the database view and the static text: App.tsx and the other views are not part of this model.
