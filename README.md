# Chronicles of Eldrath — a verified model of the game simulation

This project models, in Dafny, the simulation core of the browser role-playing game
*Chronicles of Eldrath*: everything that decides what happens in a frame, without the
drawing, sound, storage or page handling around it. One Dafny module follows each source
file:

- `utils.dfy` (`Utils`, from `js/utils.js`): random integers from a draw, clamping, linear
  interpolation and the `mm:ss` time format with its parser.
- `classes.dfy` (`Classes`, from `js/classes.js`): the box collision test and tags of game
  objects, the six-attribute sheet, skills and their experience curve and cooldown, timed
  effects, the slot inventory with its category index and gold, and the ten-slot equipment
  with its bonus and stat totals.
- `characters.dfy` (`Characters`, from `js/characters.js`): the playable character — class
  attributes, derived statistics, levelling, damage and healing, the mana and stamina pools,
  effects, regeneration, the sixteen class skills and save/restore.
- `enemies.dfy` (`Enemies`, from `js/enemies.js`): the generic enemy and its four kinds (orc,
  dragon, giant eagle, phoenix) as one class selected by `kind`, their damage intake, the
  idle/chase/attack decision, patrols, the special abilities, and the enemy factory.
- `world.dfy` (`World`, from `js/world.js`): the five regions and their level ranges, the
  level generator (tiles, obstacles, spawn points, exits, enemies, boss, items), the world
  clock and weather timer, and saving and restoring the world's state.
- `game.dfy` (`Game`, from `js/game.js`): the game loop and frame update, the running and
  paused states, keyboard input, skills and basic attacks on the nearest enemy, level
  changes, collisions, enemy deaths and their rewards, and damage numbers.

Objects the source updates in place are Dafny classes with `modifies` frames; pure
computations are functions; loops are methods with invariants. Every `Math.random()` call
except `generateId`'s reads a draw in `[0, 1)` passed in as a parameter (a stream `rs` with a cursor where several
are read). Distances are compared squared (`Game.CentreGap`), or through a norm passed as a
parameter (`Enemies`), so no square root is needed. Numbers are Dafny reals and integers.
An exception the source would raise inside a frame is modelled as a `faulted` result that
ends the game loop.

Where the source does not do what it evidently means to (see "## Findings"), the frame runs
the code as written and the corrected definition is modelled and proved beside it: the world
clock advances at the written rate, the basic attack never lands, and E on a level with an
exit raises and stops the loop. Enemy creation is the one exception: the level generator
makes living enemies (see "## Left out").

## Model

| member | source | states |
|---|---|---|
| Utils.Draw | js/utils.js:48-49 | the i-th draw of the stream stands for one `Math.random()`: it is the stream's own value inside the stream, and in `[0, 1)` whenever the stream holds draws |
| Utils.RandomInt | js/utils.js:48-50 | `random(min, max)` with a draw in `[0, 1)` lies between min and max inclusive |
| Utils.RandomIntReaches | js/utils.js:48-50 | every integer between min and max is the result of some draw, so the range is covered |
| Utils.Clamp | js/utils.js:69-71 | the clamped value lies in `[min, max]` when min ≤ max, is the value itself inside it, min below it and max above it; with min > max the result is max |
| Utils.Lerp | js/utils.js:64-66 | factor 0 gives start and factor 1 gives end |
| Utils.LerpBetween | js/utils.js:64-66 | with factor in `[0, 1]` the result lies between start and end, in either order |
| Utils.Decimal | js/utils.js:102-106 | `toString` of a natural is a non-empty string of decimal digits |
| Utils.DecimalRoundTrip | js/utils.js:102-106 | reading the decimal digits back gives the number |
| Utils.PadTwo | js/utils.js:102-106 | `padStart(2, '0')` gives at least two digits and exactly two for one- or two-digit input |
| Utils.PadTwoValue | js/utils.js:102-106 | padding with zeros keeps the value |
| Utils.FormatTime | js/utils.js:102-106 | `formatTime` gives digits, a colon third from the end, and at least five characters |
| Utils.FormatTimeRoundTrip | js/utils.js:102-106 | parsing the formatted time gives minutes and seconds with seconds < 60 and minutes·60 + seconds equal to the input |
| Classes.CollidesIffCommonPoint | js/classes.js:28-33 | two boxes of positive size collide exactly when some point lies strictly inside both, and the test is symmetric |
| Classes.AddTag | js/classes.js:48-52 | the tag is present afterwards; the list is unchanged if it already held the tag, else the tag is appended |
| Classes.AddTagKeepsTagsDistinct | js/classes.js:48-52 | adding tags never creates a duplicate |
| Classes.GetModifier | js/classes.js:77-79 | the modifier is the floor of (value − 10) / 2 |
| Classes.ModifierFloorsAndIsMonotone | js/classes.js:77-79 | the modifier rounds down (9 gives −1, 11 gives 0) and never decreases as the value grows |
| Classes.Attributes.constructor | js/classes.js:68-75 | all six attributes start at 10 |
| Classes.Attributes.SetAll | js/classes.js:108-110 | restoring sets all six attributes from the saved values |
| Classes.Attributes.Increase | js/classes.js:85-89 | an unknown name changes nothing; a known one becomes min(value + amount, 20) and the others stay |
| Classes.Attributes.Decrease | js/classes.js:91-95 | an unknown name changes nothing; a known one becomes max(value − amount, 1) and the others stay |
| Classes.IncreaseDecreaseStayInRange | js/classes.js:85-95 | from a value in `[1, 20]` and a non-negative amount, both changes stay in `[1, 20]` |
| Classes.ExperienceForLevel | js/classes.js:131-133 | the threshold floor(100 · 1.5^(level − 1)) is at least 100 |
| Classes.ExperienceForLevelMonotone | js/classes.js:131-133 | a higher level never needs less experience |
| Classes.LevelUpOnce | js/classes.js:142-149 | one level-up raises the level by one, spends the threshold and sets the next level's threshold (at least 100) |
| Classes.SkillLevelLoop | js/classes.js:135-140 | the level-up loop never lowers the level, stays at or below the maximum, and ends with experience below the threshold unless the maximum is reached |
| Classes.CooldownElapses | js/classes.js:178-182 | a positive cooldown ticked by non-negative frame times is over exactly when the frame times add up to it |
| Classes.StaysElapsed | js/classes.js:178-182 | an elapsed cooldown is no longer changed by `update` |
| Classes.Skill.constructor | js/classes.js:115-129 | a new skill is at level 1 with no experience, the level-2 threshold, maximum level 100 and no cooldown |
| Classes.Skill.Update | js/classes.js:178-182 | the cooldown takes one frame's tick (counted down only while positive); `CooldownElapses` gives the run of frames |
| Classes.Skill.LevelUp | js/classes.js:142-149 | progress becomes one level-up of the old progress and the skill stays consistent |
| Classes.Skill.GainExperience | js/classes.js:135-140 | progress is the old one plus the experience, run through the level-up loop up to the maximum level |
| Classes.Skill.FromJSON | js/classes.js:197-199 | saving the restored skill gives back the saved record; the threshold is not recomputed |
| Classes.Effect.constructor | js/classes.js:204-213 | a new effect has its whole duration left, one stack and a maximum of one stack |
| Classes.Effect.Update | js/classes.js:215-218 | the remaining duration drops by the frame time, and the effect reports itself alive exactly when time remains |
| Classes.Effect.AddStack | js/classes.js:232-237 | a stackable effect gains a stack, its full duration back and one more magnitude; otherwise nothing changes; stacks never pass the maximum |
| Classes.RemainingAfterIsDifference | js/classes.js:215-218 | after a run of frames the remaining duration is the start minus their sum, and positive exactly when the sum is below the start |
| Classes.CategoryMap | js/classes.js:321-339 | the category index has a list for every one of the five categories |
| Classes.CategoryMapSnoc | js/classes.js:321-339 | one more slot adds its entry to its category's list (an empty slot adds nothing) |
| Classes.CategoryEntriesListSlots | js/classes.js:321-339 | an entry is listed under a category exactly when its slot holds that item and quantity and the item belongs to the category |
| Classes.CountUsed | js/classes.js:358-360 | the used-slot count is at most the slot count |
| Classes.CountUsedUpdate | js/classes.js:358-360 | filling an empty slot adds one used slot, emptying one removes one, and any other change keeps the count |
| Classes.FirstEmpty | js/classes.js:267-282 | the free slot `addItem` picks is the first empty one; none exists exactly when every slot is full |
| Classes.FirstEmptyUnique | js/classes.js:267-282 | an empty slot with only full slots before it is the one picked |
| Classes.Taken | js/classes.js:284-302 | removing a quantity empties the slot exactly when it is at least what the slot holds, else lowers the quantity by it |
| Classes.Inventory.constructor | js/classes.js:254-265 | a new inventory has the given number of empty slots, no gold and a matching category index |
| Classes.Inventory.UpdateCategories | js/classes.js:321-339 | afterwards the category index mirrors the slots |
| Classes.Inventory.AddItem | js/classes.js:267-282 | succeeds exactly when a slot is free, then fills the first free slot and adds one used slot; a full inventory is unchanged; the index stays in step |
| Classes.Inventory.RemoveItem | js/classes.js:284-302 | succeeds exactly for an index in range whose slot is filled, then takes the quantity from that slot only; otherwise nothing changes; the index stays in step |
| Classes.Inventory.GetItem | js/classes.js:304-309 | an index out of range gives nothing; one in range gives the slot |
| Classes.Inventory.HasItem | js/classes.js:311-319 | true exactly when the quantities of the named item over all slots reach the asked quantity |
| Classes.Inventory.AddGold | js/classes.js:345-348 | gold grows by the amount and the new total is returned |
| Classes.Inventory.RemoveGold | js/classes.js:350-356 | succeeds exactly when there is enough gold, then pays it; otherwise gold is unchanged |
| Classes.Inventory.FromJSON | js/classes.js:373-377 | the restored slots and gold are the saved ones, with a matching category index |
| Classes.UsedPlusFreeIsCapacity | js/classes.js:358-364 | used and free slots add up to the capacity, and free slots are never negative |
| Classes.EmptySlotsListNothing | js/classes.js:321-339 | an inventory of empty slots lists nothing in any category |
| Classes.AddStats | js/classes.js:454-465 | adding one item's stats to the totals adds them key by key |
| Classes.StatTotalsPerKey | js/classes.js:454-465 | each total stat is the sum of that stat over the equipped items in slot order |
| Classes.EmptySlots | js/classes.js:382-403 | new equipment has exactly the ten declared slots, all empty |
| Classes.EmptySlotsSumToZero | js/classes.js:431-448 | with nothing equipped every bonus and stat sums to 0 |
| Classes.Equipment.constructor | js/classes.js:382-403 | new equipment has the ten slots empty and every bonus at 0 |
| Classes.Equipment.AddBonusesOf | js/classes.js:431-448 | each tracked bonus grows by the item's bonus of that name (0 if it has none) |
| Classes.Equipment.UpdateBonuses | js/classes.js:431-448 | afterwards every bonus is the sum of that bonus over the equipped items |
| Classes.Equipment.Unequip | js/classes.js:420-429 | returns the slot's item (nothing for an unknown or empty slot) and empties the slot; bonuses stay the sums |
| Classes.Equipment.EquipAsWritten | js/classes.js:405-418 | as written, equipping succeeds only into a slot that is already filled (see Findings) |
| Classes.Equipment.Equip | js/classes.js:405-418 | equipping succeeds exactly for a declared slot and puts the item there, replacing any previous one; bonuses stay the sums |
| Classes.Equipment.GetTotalStats | js/classes.js:454-465 | the totals are the stat sums over the slots in their declared order |
| Classes.Equipment.FromJSON | js/classes.js:473-476 | the restored slots are the saved ones and the bonuses are their sums |
| Classes.EquipOnFreshTableAsWritten | js/classes.js:405-418 | as written, equipping a weapon on new equipment fails and the totals stay empty |
| Classes.EquipOnFreshTable | js/classes.js:405-418 | with the intended guard, the weapon is equipped and the totals are exactly its stats |
| Classes.EmptyTotals | js/classes.js:454-465 | new equipment has no stat totals at all |
| Classes.OnlyWeaponCounts | js/classes.js:454-465 | with only a weapon equipped each total is the weapon's stat |
| Characters.LevelUpRaisesMaxima | js/characters.js:188-215 | a level-up raises maximum health by at least 5, mana by at least 3 and stamina by at least 2 |
| Characters.MaximaPositive | js/characters.js:103-137 | with attributes in `[1, 20]` the derived maxima are at least 50 health, 60 mana and 75 stamina |
| Characters.RaiseTimesCaps | js/characters.js:188-215 | n level-ups raise each attribute by n, capped at 20 |
| Characters.CharLevelLoop | js/characters.js:180-186 | the level-up loop ends with experience below the threshold, never lowers the level, keeps experience non-negative, and changes nothing when no level is gained |
| Characters.ExactThresholdIsOneLevel | js/characters.js:180-186 | gaining exactly the threshold from below it gives exactly one level |
| Characters.Mitigated | js/characters.js:217-237 | physical damage is reduced by defense and magical by magic defense, each to at least 1; other damage passes unchanged |
| Characters.ClassSkills | js/characters.js:139-174 | each of the four classes has four skills; an unknown class has none |
| Characters.Execute | js/characters.js:488-775 | a skill hurts only a target within its range, and one out of range does nothing (except the heal spell with no target, which heals its caster); a self-effect is a buff named after its skill with a positive duration; shield bash never deals plain damage |
| Characters.FirstNamed | js/characters.js:291-300 | the effect `find` returns is the first one with the name, or none when no effect has it |
| Characters.KeptMembers | js/characters.js:311-338 | the effects that survive a frame are exactly those with time remaining |
| Characters.KeptDistinct | js/characters.js:311-338 | pruning effects never duplicates one |
| Characters.SurvivorsAreTheLiveEffects | js/characters.js:311-338 | the surviving effects are the listed ones with time left, and all of them |
| Characters.SkillSaves | js/characters.js:386-402 | the saved skills are each skill's own save, in order |
| Characters.NewSkill | js/characters.js:139-174 | a class skill starts at level 1 with no cooldown and its kind's name, cooldown and costs |
| Characters.Character.constructor | js/characters.js:5-64 | a new character is at level 1 with the class's attributes, current statistics, pools filled up to 100, its class's skills, no effects and alive |
| Characters.Character.UpdateStats | js/characters.js:103-137 | statistics are rederived from attributes, level and equipment, and each pool is capped at its new maximum |
| Characters.Character.LevelUp | js/characters.js:188-215 | one level, every attribute +1 up to 20, current statistics, full pools, and 50 experience to each skill |
| Characters.Character.RaiseSheet | js/characters.js:188-207 | the character's side of a level-up: progress, attributes, statistics and full pools |
| Characters.Character.AdvanceLevel | js/characters.js:189-191 | level, experience and threshold move on by one level |
| Characters.Character.RefillPools | js/characters.js:202-207 | statistics are current and the pools full |
| Characters.Character.GrantSkillExperience | js/characters.js:210-212 | every skill gains the experience through its own loop; cooldowns and names stay |
| Characters.Character.GainExperience | js/characters.js:180-186 | progress is the level-up loop on the added experience; attributes rise once per level gained; every skill gains 50 experience per level gained, each grant through the skill's own level-up loop, and keeps its cooldown; pools are full after a level-up and untouched otherwise |
| Characters.Character.TakeDamage | js/characters.js:217-237 | a dead character takes nothing; a living one loses the mitigated damage, and at 0 or below it dies at 0 health and stops |
| Characters.Character.Die | js/characters.js:276-281 | the character is dead and stopped |
| Characters.Character.Respawn | js/characters.js:283-289 | alive again with half of each maximum |
| Characters.Character.Heal | js/characters.js:239-246 | a dead character heals nothing; a living one gains up to the maximum and the amount healed is returned, never more than asked |
| Characters.Character.UseMana | js/characters.js:248-253 | succeeds exactly when the mana suffices, then spends it; otherwise mana is unchanged |
| Characters.Character.RestoreMana | js/characters.js:255-260 | mana grows up to the maximum and the amount restored is returned, never more than asked |
| Characters.Character.UseStamina | js/characters.js:262-267 | succeeds exactly when the stamina suffices, then spends it; otherwise stamina is unchanged |
| Characters.Character.RestoreStamina | js/characters.js:269-274 | stamina grows up to the maximum and the amount restored is returned, never more than asked |
| Characters.Character.AddEffect | js/characters.js:291-300 | a stackable effect of the same name gains a stack and its remaining duration restarts at its full duration; otherwise the new effect is appended, even beside an unstackable one of the same name; other effects are untouched |
| Characters.Character.RemoveEffect | js/characters.js:302-309 | the first effect with the name is spliced out; without one nothing changes |
| Characters.Character.UpdateEffects | js/characters.js:315-321 | every effect loses the frame time and exactly those with time left remain, in order |
| Characters.Character.UpdateSkills | js/characters.js:324-326 | every skill's cooldown takes one tick and its progress is unchanged |
| Characters.Character.Regenerate | js/characters.js:329-334 | a living character regains 10 stamina a second up to the maximum, and 5 mana a second when stamina is at least half; pools stay within their maxima |
| Characters.Character.Update | js/characters.js:311-338 | one frame: the move by the velocity, effect pruning, one cooldown tick per skill, 10 stamina a second and, while stamina is at least half, 5 mana a second, all while alive and within the maxima |
| Characters.Character.TickTimers | js/characters.js:315-326 | effect pruning and skill cooldowns of one frame |
| Characters.Character.UseSkill | js/classes.js:161-172 | the skill is used exactly when `canUse` allows; then both costs are paid, the cooldown restarts and the skill's outcome is applied, else nothing changes |
| Characters.Character.PayFor | js/classes.js:163-167 | both costs are paid and the cooldown restarts |
| Characters.Character.ApplyToSelf | js/characters.js:506-775 | a self-heal heals a living character up to the maximum; a self-buff adds one new effect with the skill's name and figures; anything else leaves health and effects alone |
| Characters.Character.InitializeClassSkills | js/characters.js:139-174 | a known class gets its four fresh skills; an unknown class keeps its skills |
| Characters.Character.RestoreFrom | js/characters.js:404-426 | every saved field is restored, the skills restored from their saves, statistics rederived and pools capped at the new maxima; the threshold is left as it was |
| Characters.Character.RestoreSheet | js/characters.js:405-412 | name, class, level, experience, attributes and pools come from the save |
| Characters.Character.RestoreClassSkills | js/characters.js:414-418 | the class's skills are rebuilt and each restored from its save |
| Characters.Character.RestoreItems | js/characters.js:420-425 | inventory, equipment and position are restored and the statistics rederived |
| Characters.Character.RestoreSkills | js/characters.js:416-418 | each skill with a save is restored from it |
| Characters.Character.FromJSONAsWritten | js/characters.js:404-426 | as written, level and experience are restored but the threshold stays the old one (see Findings) |
| Characters.Character.FromJSON | js/characters.js:404-426 | with the threshold recomputed for the restored level, the progress is exactly the saved one and the threshold current |
| Characters.StaleThresholdAfterReload | js/characters.js:404-426 | a level-5 save with 200 experience reloaded into a new character levels up at once, while the recomputed threshold keeps it at level 5 |
| Characters.NewSheet | js/characters.js:66-101 | a new attribute sheet holds the class's starting attributes |
| Characters.NewOutfit | js/characters.js:5-64 | a new character's inventory and equipment start consistent, with the totals of empty equipment |
| Characters.NewClassSkills | js/characters.js:139-174 | one fresh skill per class skill, in order, distinct, at level 1 and ready |
| Characters.RaiseAttributes | js/characters.js:193-199 | every attribute goes up by one, capped at 20 |
| Enemies.TypeNameRoundTrip | js/enemies.js:798-811 | each kind's type name reads back as that kind, and a known type name is its kind's name |
| Enemies.ProfileGrowsWithLevel | js/enemies.js:332-676 | every kind has at least 80 health, 15 attack, 5 defense and 40 experience and 20 gold rewards, all non-decreasing with level, with speed and attack cooldown fixed |
| Enemies.PatrolRoute | js/enemies.js:339-371 | only orcs patrol, over four points |
| Enemies.NextPhase | js/enemies.js:460-470 | a dragon's phase rises by one at most, from 1 to 2 at 70% health and from 2 to 3 at 30%, and stays within 1..3 |
| Enemies.PhasesSettle | js/enemies.js:460-470 | from phase 1 a dragon reaches the phase its health calls for within two frames |
| Enemies.RebirthsBounded | js/enemies.js:696-722 | a phoenix is reborn at most twice, and after two lethal hits it has been reborn twice |
| Enemies.NextIndex | js/enemies.js:153-176 | the next patrol index is on the route |
| Enemies.PatrolIndexMod | js/enemies.js:153-176 | after k steps the patrol index is (i + k) mod the route length |
| Enemies.PatrolCycles | js/enemies.js:153-176 | a full round of steps brings the patrol back to its point |
| Enemies.EnemyMitigated | js/enemies.js:178-200 | physical damage is reduced by defense to at least 1; any other passes unchanged |
| Enemies.DamageRoll | js/enemies.js:147-151 | the damage is at least 1 and within 5 of the attack; a berserk orc's is the plain roll times 1.5, rounded down |
| Enemies.DamageRollReaches | js/enemies.js:147-151 | every variation from −5 to +5 occurs for some draw |
| Enemies.ChooseMove | js/enemies.js:485-742 | a special move is chosen only by its kind, off cooldown and with the draw below its chance; orcs and generic enemies only strike |
| Enemies.SpecialsReachable | js/enemies.js:485-742 | each special move is chosen for some draw and cooldowns |
| Enemies.NextFrame | js/enemies.js:219-225 | the animation frame cycles through 0..3 |
| Enemies.Enemy.constructor | js/enemies.js:5-50 | a new enemy is alive with its kind's profile for its level at full health, stands still and idle, and has the orc's route if an orc |
| Enemies.Enemy.AddTag | js/classes.js:48-52 | the tag is added once |
| Enemies.Enemy.AddKindTags | js/enemies.js:332-641 | the tags are the ones the kind's constructor adds |
| Enemies.Enemy.CalculateDamage | js/enemies.js:147-151 | the damage dealt is at least 1 |
| Enemies.Enemy.Hit | js/enemies.js:178-200 | a dead enemy takes nothing; a living one flashes, loses the mitigated damage, and at 0 or below dies at 0 health |
| Enemies.Enemy.Die | js/enemies.js:202-212 | the enemy is dead, stopped and in the dead state |
| Enemies.Enemy.TakeDamage | js/enemies.js:178-206 | `Wounded`: the mitigated damage is taken by a living enemy, which flashes for 0.2 seconds; a lethal hit leaves it in state `dead` and stopped, a survivor keeps its state and velocity, and a dead enemy takes nothing and keeps its health; an orc turns berserk at 30% health; a phoenix's lethal hit is a rebirth at 80% health while rebirths remain, still in state `dead` |
| Enemies.Enemy.ActivateBerserk | js/enemies.js:384-390 | attack ×1.5, speed ×1.2 and attack cooldown ×0.7 |
| Enemies.Enemy.Rebirth | js/enemies.js:707-722 | one more rebirth, alive at 80% health, attack ×1.2 and speed ×1.1 |
| Enemies.Enemy.UpdateAI | js/enemies.js:91-117 | a living enemy with a character in aggression range does what `Engaged` states: it targets the character and remembers its position; in attack range with the cooldown elapsed it makes the chosen move, restarts that move's cooldown, and the character loses the mitigated damage (dying and stopping at 0, pushed 50 away by the wing buffet only); otherwise it heads for the character at full speed with the character and cooldowns untouched; with no character engaged it idles and patrols with its cooldowns kept; health, life and abilities stay |
| Enemies.Enemy.Engage | js/enemies.js:97-107 | `Engaged`: the character is the target and its position is remembered; attack exactly when in range and off cooldown, with the chosen move, its cooldown restarted, the damage dealt and the character's new health, life, velocity and position; otherwise chase, with the full-speed heading and the character and cooldowns untouched |
| Enemies.Enemy.Assault | js/enemies.js:98-103 | the attack case: target, remembered position and the attack state; the move picked from the draw, its cooldown restarted, `Dealt` damage and the character `Struck` |
| Enemies.Enemy.Pursue | js/enemies.js:98-106 | the chase case: target, remembered position, the chase state and the full-speed heading towards the character |
| Enemies.Enemy.Rest | js/enemies.js:108-115 | the idle case: the idle state and one patrol step |
| Enemies.Enemy.ChasePlayer | js/enemies.js:124-135 | velocity points at the character at the enemy's speed; at distance 0 it is unchanged |
| Enemies.Enemy.Patrol | js/enemies.js:153-176 | every 3 seconds the next point; velocity at half speed towards the point, 0 within 10 of it; no route, no change |
| Enemies.Enemy.AttackPlayer | js/enemies.js:137-145 | on cooldown nothing happens to either side; otherwise the kind's move is chosen, exactly its cooldown restarts, a living character loses the mitigated damage and dies and stops at 0, a dead one is untouched, and only the wing buffet moves it, 50 units away from the enemy |
| Enemies.Enemy.Deliver | js/enemies.js:499-524 | the blow of a move: the damage is the move's share of the roll after resistances (0 on a dead character), and the character is `Struck` by it, pushed by the wing buffet only |
| Enemies.Enemy.Recharge | js/enemies.js:485-742 | exactly the chosen move's cooldown restarts; a dive starts diving |
| Enemies.Enemy.Push | js/enemies.js:507-524 | the wing buffet pushes the character 50 away from the dragon along the line between them |
| Enemies.Enemy.Update | js/enemies.js:69-89 | one frame: the enemy moves by its velocity, the hit flash runs down and the animation advances every 0.2 seconds, the dragon's phase, the phoenix's aura and the eagle's height follow their rules, health and life are untouched; with no character it idles, its attack cooldown ticks, it patrols (next point every 3 seconds, half speed, stopping within 10), its kind's special cooldowns tick and an eagle's dive descends |
| Enemies.Enemy.UpdateCommon | js/enemies.js:69-89 | the shared part of the frame: the move by the old velocity, the hit flash running down, the animation step, and with no character the idle state, the ticking attack cooldown, the patrol step and untouched special cooldowns; health, life, the kind's ability state and the scaled statistics stay as they were |
| Enemies.Enemy.KindTick | js/enemies.js:445-694 | the kind's own frame: the dragon's phase, the phoenix's fire aura at half health, the eagle's dive, and the special cooldowns of its own kind ticking (fire breath and wing buffet, dive, immolation); position, health, state, flash, animation and patrol are untouched |
| Enemies.Enemy.Move | js/classes.js:17-20 | the position advances by the velocity times the frame time; health, life and abilities stay |
| Enemies.Enemy.RunTimers | js/enemies.js:69-89 | the attack cooldown and flash timer tick, and the flash ends when its timer runs out; health, life and abilities stay |
| Enemies.Enemy.UpdateAnimation | js/enemies.js:219-225 | every 0.2 seconds the next frame, the timer otherwise accumulating; health, life and abilities stay |
| Enemies.Enemy.DragonTick | js/enemies.js:445-458 | both breath cooldowns tick and the phase follows the health ratio |
| Enemies.Enemy.EagleTick | js/enemies.js:580-595 | the dive cooldown ticks; a dive descends and ends back at cruising height; height never exceeds cruising height |
| Enemies.Enemy.PhoenixTick | js/enemies.js:678-694 | the immolation cooldown ticks and the fire aura lights at half health, never going out |
| Enemies.CreateEnemy | js/enemies.js:798-811 | a fresh enemy of the named kind (generic for other names), alive at full health with its kind's name, tags, profile and route |
| Enemies.CreateRandomEnemy | js/enemies.js:813-817 | a fresh living orc or eagle |
| Enemies.CreateBoss | js/enemies.js:819-823 | a fresh living dragon or phoenix |
| Enemies.CreateEnemyAsWritten | js/enemies.js:5-50 | as written, a new enemy is not alive though at full health (see Findings) |
| Enemies.FreshEnemyIgnoresHitsAsWritten | js/enemies.js:178-200 | as written, a new enemy takes no damage from any hit |
| Enemies.FreshEnemyTakesHits | js/enemies.js:178-200 | a new living enemy takes the mitigated damage of a hit |
| World.RegionOf | js/world.js:37-117 | a key names a region exactly when some region has that key |
| World.FirstCovering | js/world.js:123-130 | the region found covers the level and is the first listed that does; none when no listed region covers it |
| World.RegionForLevel | js/world.js:123-130 | the region covers the level, or is Valdoria when none does |
| World.RegionsPartitionLevels | js/world.js:123-130 | each level from 1 to 100 lies in exactly one region; any other level in none |
| World.BossType | js/world.js:537-547 | an unknown region's boss is an orc |
| World.RegionRoster | js/world.js:37-117 | which enemy kinds each region's type list names |
| World.BossRoster | js/world.js:537-547 | the bosses of Valdoria, Myr and Khar are an orc, a phoenix and a dragon; the other two are generic enemies |
| World.BossLevelsAreMultiplesOfTen | js/world.js:514-517 | a level is a boss level exactly when it is a multiple of 10 |
| World.CountFormulas | js/world.js:494-512 | the obstacle, spawn, enemy and item counts are the integer forms of their floor formulas |
| World.CountsGrowWithLevel | js/world.js:494-512 | none of the four counts shrinks as the level grows |
| World.PickWeighted | js/world.js:238-257 | the pick is the first entry whose running weight reaches the draw; none when the draw exceeds every running weight |
| World.PickIsMonotone | js/world.js:238-257 | a larger draw never picks an earlier entry |
| World.PickExists | js/world.js:238-257 | a draw within the total weight always picks an entry |
| World.WeightTablesAreComplete | js/world.js:238-341 | every theme's tile weights, the item category weights and the rarity weights sum to 1 |
| World.Decoration | js/world.js:343-372 | a decoration is one of three, reading one or two draws |
| World.GenerateTile | js/world.js:217-236 | the tile fits the region's theme |
| World.IsNearSpawnPoint | js/world.js:447-455 | true exactly when some spawn point is within distance 20 |
| World.FindSpawn | js/world.js:410-445 | the position lies in the spawn band; earlier attempts were rejected; before the attempt limit it is away from every spawn point |
| World.LevelMap.constructor | js/world.js:186-195 | an empty square map of the given side and theme |
| World.LevelMap.FillTiles | js/world.js:198-203 | every tile fits the theme |
| World.LevelMap.AddObstacles | js/world.js:374-392 | the level's number of obstacles is appended, each fitting the map, and only the tiles under them become impassable |
| World.LevelMap.AddSpawnPoints | js/world.js:410-445 | the player's spawn point is at the centre, the others are enemy spawns of the level, at most the level's count, all 20 apart |
| World.LevelMap.AddExitPoints | js/world.js:468-492 | one exit to the next level, and from level 2 on one back to the previous level, on the map |
| World.CreateLevelMap | js/world.js:186-215 | a map of side 50 + 2·level in the region's theme, with tiles, obstacles, spawn points and exits as above |
| World.SpawnEnemy | js/world.js:494-512 | a fresh living enemy of the level on the map |
| World.GenerateEnemies | js/world.js:494-512 | the level's number of fresh, distinct enemies, each spawned for the level |
| World.GenerateBoss | js/world.js:519-535 | a fresh living boss of the level's region at (400, 300) |
| World.ItemStatsFor | js/world.js:608-629 | the stats match the category, with the random stat in its range |
| World.ItemStatsGrowWithLevel | js/world.js:608-629 | weapon attack grows by 2, armor defense by 1 and potion healing by 10 per level, the random stats unchanged |
| World.RandomRarity | js/world.js:591-606 | the rarity is the weighted pick of the draw |
| World.CreateItem | js/world.js:580-589 | an item of the category and level, named with its level, with the rarity the weighted pick makes of its first draw and the stats of the next |
| World.GenerateItems | js/world.js:549-561 | the level's number of items, each of the level |
| World.ClockAsWrittenIsSlow | js/world.js:631-636 | as written, one day length advances the clock one hour and a day takes 28800 seconds (see Findings) |
| World.Clock | js/world.js:631-636 | the clock stays within a day |
| World.ClockRunsOneDayPerDayLength | js/world.js:631-636 | with the corrected step, half a day length is noon and a full day length wraps to midnight |
| World.ClockText | js/world.js:750-754 | the time of day reads as `hh:mm` |
| World.ClockTextReadsBack | js/world.js:750-754 | the text parses back to the hour and minute of the clock |
| World.DifficultyMultiplier | js/world.js:764-771 | the multiplier lies in `[0.7, 1.5]` and is 1 for any difficulty but easy or extreme |
| World.Save | js/world.js:773-781 | a save always holds level, difficulty, weather and time |
| World.Restore | js/world.js:783-789 | a non-empty saved region and a non-zero saved level are restored as saved |
| World.SaveRestoreRoundTrip | js/world.js:773-789 | saving and restoring gives back the state exactly when it is restorable |
| World.RestoreIsStable | js/world.js:773-789 | restoring a restored state's save changes nothing more |
| World.FreshWorldReloadsInValdoria | js/world.js:773-789 | a world with no region reloads in Valdoria, so it does not round-trip |
| World.GameWorld.constructor | js/world.js:5-35 | a new world is at level 1, normal difficulty, clear weather and time 0, with no region |
| World.GameWorld.ChangeRegion | js/world.js:132-147 | a known region is entered with one of its weathers; an unknown one changes nothing |
| World.GameWorld.ChangeLevel | js/world.js:149-166 | succeeds exactly for levels 1 to 100, then moves to the level's region; the weather changes only on a new region and then to one of its own |
| World.GameWorld.ChangeRandomWeather | js/world.js:661-669 | the new weather is one of those of the current level's region |
| World.GameWorld.Update | js/world.js:631-651 | the clock advances by dt · timeSpeed / dayLength hours as written and resets to 0 once it reaches 24; the weather and event timers advance and reset at their periods; the weather changes only to the region's when a timer fires |
| World.GameWorld.ToJSON | js/world.js:773-781 | the save restores the state exactly when the state is restorable |
| World.GameWorld.FromJSON | js/world.js:783-789 | the state becomes the restored save |
| World.GameWorld.IsNight | js/world.js:756-762 | it is night exactly when it is not day |
| Game.FrameDelta | js/game.js:148-169 | the frame time is the milliseconds since the last frame in seconds, clamped to at most 0.1 |
| Game.FrameDeltaIsClamped | js/game.js:148-169 | with time moving forward the frame time lies in `[0, 0.1]` and never exceeds the real gap |
| Game.PauseOf | js/game.js:899-904 | pausing a playing game pauses it; any other state but paused is kept |
| Game.ResumeOf | js/game.js:906-911 | resuming a paused game plays it; any other state but playing is kept |
| Game.PauseResumeRoundTrip | js/game.js:899-911 | pause then resume restores a playing game and the reverse a paused one; both are idempotent and ignore the menu and game over |
| Game.CentreGap | js/classes.js:35-46 | the squared distance between two centres is non-negative |
| Game.CentreGapIsSymmetric | js/classes.js:35-46 | the distance is symmetric and zero from a box to itself |
| Game.Direction | js/game.js:252-273 | down overrides up and right overrides left; diagonal moves are scaled by 0.707 on both axes; other moves are unit or still |
| Game.FacingFor | js/game.js:286-290 | a horizontal move decides the facing, else a vertical one; standing still keeps it |
| Game.OppositeKeysResolve | js/game.js:252-290 | W with S moves down, A with D moves right, all four move down-right and face right |
| Game.ClimbIsCapped | js/game.js:586-594 | completing levels one after another climbs one level each time up to level 100 and no further |
| Game.Particle.constructor | js/game.js:720-730 | a damage number starts at its position rising at 50 with one second of life |
| Game.Particle.Update | js/game.js:731-736 | the number moves by its velocity, slows under gravity 100, and lives while life remains |
| Game.TickEnemy | js/game.js:191-195 | an enemy's frame without a character: it moves by its velocity, idles and its attack cooldown ticks |
| Game.Reward | js/game.js:551-560 | the character gains the experience through its level-up loop, then its gold grows by the reward; its skills and effects stay |
| Game.Cast | js/classes.js:161-172 | the skill is used exactly when `canUse` allows and its outcome is the skill's on the target's distance; the character keeps its skills and place |
| Game.OnlyFirstSpawnIsThePlayers | js/game.js:485-491 | when only the first spawn point is the player's, the character ends there |
| Game.LevelEnemies | js/game.js:453-462 | the level's enemies, plus the boss on boss levels, are fresh and laid out |
| Game.LevelLoot | js/game.js:464-465 | the level's number of items, each loot of the level |
| Game.LootThenExits | js/game.js:464-483 | the loot followed by the exits is the level's item layout |
| Game.LevelContents | js/game.js:449-469 | a fresh map, the laid-out enemies and items, and the player's spawn point at (25 + level, 25 + level) |
| Game.AbsorbAllIsTotal | js/game.js:517-530 | a run of enemy blows on a living character subtracts their total mitigated damage; it survives exactly when health stays above 0 and otherwise ends dead at 0 |
| Game.SufferedIsAtLeastTheBlows | js/game.js:517-530 | each blow costs at least 1 health |
| Game.IndexOf | js/game.js:544-549 | the index is that of the item's first occurrence, or −1 exactly when it is absent |
| Game.Game.constructor | js/game.js:5-48 | a new game is stopped in the menu with a fresh world at level 1, no character, enemies, items or particles, and the menu panel closed |
| Game.Game.UpdateParticles | js/game.js:210-219 | every damage number ages one frame, and exactly those with life left remain, in order |
| Game.Game.LivingEnemies | js/game.js:579 | the enemies that are alive, in order |
| Game.Game.CheckLevelCompletion | js/game.js:577-584 | with no enemy alive the level moves on by one (up to 100); otherwise it stays |
| Game.Game.OnEnemyDeath | js/game.js:551-570 | the character gains the enemy's experience (through its level-up loop) and gold, and the level moves on when no enemy is alive |
| Game.Game.RemoveDead | js/game.js:196-200 | a dead enemy is spliced out and its experience and gold are paid, in the order of the backward loop |
| Game.Game.EnemyStep | js/game.js:191-201 | one step of the backward enemy loop keeps the pass's invariant |
| Game.Game.UpdateEnemies | js/game.js:191-201 | exactly the living enemies remain, in order; the character gains the experience and the gold of the dead ones, from the last to the first; the level climbs once per death when none is left |
| Game.NoneAliveEmptiesThePass | js/game.js:191-201 | with no enemy alive nothing is kept and the gold of every enemy is paid |
| Game.Game.PassWithNoneAlive | js/game.js:191-201 | the pass over enemies none of which is alive, as the factory leaves them: all are removed, all their gold is paid, and the world climbs one level per enemy up to 100 |
| Game.Game.Start | js/game.js:132-140 | a stopped game starts in play and runs its first frame at time 0 (the clamped delta, the clock step, a fault only on a held skill key or E at an exit, scheduling otherwise, and `Escaped`: Escape in that frame opens or closes the menu, pausing or resuming); a running game is left alone |
| Game.Game.Stop | js/game.js:142-146 | the game stops, paused |
| Game.Game.Pause | js/game.js:899-904 | the state is the paused form of the old one |
| Game.Game.Resume | js/game.js:906-911 | the state is the resumed form of the old one |
| Game.Game.GameOver | js/game.js:913-919 | the game is over |
| Game.Game.ToggleMenu | js/ui.js:404-413 | the menu flag flips; opening the menu gives the paused form of the state, closing it the resumed form |
| Game.Game.FindNearestEnemy | js/game.js:379-394 | the nearest living enemy, the first of equally near ones, or none exactly when no enemy is alive |
| Game.Game.Strike | js/game.js:402-404 | the target takes the mitigated damage if alive, in place, with its new health, life, state, velocity and flash as `Wounded` states |
| Game.Game.CreateDamageNumber | js/game.js:720-750 | one fresh damage number over the target is appended |
| Game.Game.PlayerAttackAsWritten | js/game.js:396-410 | as written, no basic attack ever lands (see Findings) |
| Game.Game.PlayerAttack | js/game.js:396-410 | with an attack range, the nearest living enemy is `Wounded` by the character's attack when within range and a damage number rises over it; otherwise nothing changes |
| Game.Game.UseSkill | js/game.js:363-377 | with a character and a skill at the index, the nearest living enemy is the target; the skill is used exactly when `canUse` allows, with its outcome on that target; a damaging outcome leaves the target `Wounded` by the mitigated amount; raising skills fault |
| Game.Game.CastOn | js/game.js:369-376 | the skill is cast on the chosen target and its damage lands on it: the target is `Wounded` by the mitigated amount |
| Game.Game.Land | js/characters.js:497-775 | a damaging outcome leaves the target `Wounded` by its mitigated damage; the skills that raise fault; other outcomes leave the target alone |
| Game.Game.Steer | js/game.js:252-290 | the velocity is the key direction times the character's speed, moving exactly when a direction is held, with the facing the keys decide |
| Game.Game.FindExit | js/game.js:412-422 | the first item the character can interact with, or none |
| Game.Game.PlayerInteractAsWritten | js/game.js:412-422 | as written, interacting raises exactly when there is a character and an exit on the level (see Findings) |
| Game.Game.PlayerInteract | js/game.js:412-432 | the first exit within reach is taken, and the level changes exactly when its level is from 1 to 100 |
| Game.Game.PlaceItemsOnMap | js/game.js:471-492 | every exit becomes an item, in order, and the character ends on the last player spawn point |
| Game.Game.GenerateLevel | js/game.js:449-469 | the level's enemies and items are laid out and the character is on its spawn point |
| Game.Game.ChangeLevel | js/game.js:434-447 | succeeds exactly for levels 1 to 100, then generates the level and puts the character at (400, 300); otherwise nothing changes |
| Game.Game.CheckCollisions | js/game.js:494-530 | every living enemy overlapping the character and off cooldown strikes once, in order, through `takeDamage`, with one damage number each |
| Game.Game.RemoveItem | js/game.js:544-549 | the item's first occurrence is removed, if any, and nothing else |
| Game.Game.SkillKey | js/game.js:293-304 | a held skill key with a skill behind it uses that skill; it can fault only then |
| Game.Game.SkillKeysInOrder | js/game.js:292-304 | the four skill keys in order; a fault needs a held skill key |
| Game.Game.AttackKey | js/game.js:306-309 | Space makes the basic attack as written, which never lands |
| Game.Game.InteractKey | js/game.js:311-314 | E interacts as written, raising exactly when there is a character and an exit on the level |
| Game.Game.HandleInput | js/game.js:249-330 | without a character or while not playing nothing happens: the game, the character with its skills and effects, and the enemies are unchanged; otherwise movement, skills, attack and interaction; a fault needs a held skill key or E on a level with an exit, and with no skill key held E on such a level always raises; when no fault occurs Escape toggles the menu, pausing the game when it opens and resuming it when it closes (`Escaped`); the items stay |
| Game.Game.PlayerTick | js/game.js:186-190 | the character's frame: it moves by its velocity and keeps its skills, exactly its expired effects are dropped, its skill cooldowns tick, and while alive it regains 10 stamina a second and, at half stamina or more, 5 mana a second, up to the maxima |
| Game.Game.EnemyPass | js/game.js:191-201 | the enemy pass keeps the game consistent and only removes enemies |
| Game.Game.CollisionPass | js/game.js:229-230 | the collision pass keeps the game consistent |
| Game.Game.WorldAndPlayer | js/game.js:183-190 | the world's frame (the clock as written, the weather and event timers resetting at 300 and 600 seconds, the weather changing only to the region's when a timer fires), then the character's frame as in `Game.Game.PlayerTick` |
| Game.Game.Crowd | js/game.js:191-219 | enemies and damage numbers update; the clock, the game state, the menu and the items are untouched, and the character keeps its skills and effects |
| Game.Game.Respond | js/game.js:226-230 | input, then collisions unless input raised; the same fault condition and Escape effect (`Escaped`) as the input |
| Game.Game.Update | js/game.js:181-231 | one frame keeps the game consistent and the items, advances the clock as written by the frame time, and raises only while playing, on a held skill key or on E with an exit on the level, and always on the latter when no skill key is held; Escape toggles the menu and pauses or resumes as `Escaped` states |
| Game.Game.GameLoop | js/game.js:148-169 | a stopped game changes nothing and schedules nothing; a running one records the time, takes the clamped frame time and advances the world clock as written by it; the next frame is not scheduled only after a fault of the input, so E on a level with an exit, with no skill key held, stops the loop; a scheduled frame toggles the menu on Escape as `Escaped` states |

## Left out

- Drawing, sprites, asset loading, the camera, the UI and its panels, audio, music,
  vibration, full screen, the page's events and `localStorage` are outside the model; so are
  `generateId`, `debounce`, `throttle`, `animate`, `formatNumber` and logging.
- Saving and loading the whole game (`saveGame`, `loadGame`) and `restart` are not modelled;
  the per-object save and restore are.
- The inventory and map keys (I, M) only toggle UI panels and are left out. The menu key
  (Escape) is modelled: it toggles the menu, which pauses or resumes the game; showing and
  hiding the menu panel is left out.
- Characters.Character.Update: the character's `updateAnimation` (js/characters.js:336-346),
  which advances `animationTimer` and, every 0.1 seconds, `animationFrame` modulo 4, is left
  out with both fields; they only choose the sprite to draw.
- The debug keys Digit1 to Digit5 of `handleKeyDown` (js/game.js:332-361, with
  `changeRegion` at js/game.js:707-718) set the world's current region directly to one of the
  five regions; Digit1 to Digit4 are also the skill keys, so pressing a skill key switches
  the region as well. They are not modelled: the model's region changes only through the
  world's level changes.
- `Math.random()` is a draw passed in, except in `generateId`, which is left out; `Math.sqrt`
  is avoided by comparing squared distances, and the enemy's distance function is a parameter
  `norm`.
- Numbers are exact reals and unbounded integers, not IEEE doubles; rounding of floating
  point is not modelled.
- Item collisions have no effect: level items carry no potion type, so
  `handlePlayerItemCollision` never matches.
- Game.Game.RemoveItem: compares items by value, where `indexOf` compares object identity.
- The skill, attack, hit, heal, mana and death effects only draw and are left out;
  `createSkillEffect` is called after a skill is used and draws only.
- The level's spawn point is in tile units while `changeLevel` then places the character at
  (400, 300); both are modelled as written.
- Game.Game.UpdateEnemies: each enemy's frame is modelled with no character near it (the
  game's enemies never receive the character, so `findNearestPlayer` finds none); the
  contract states the pruning and the rewards, not each enemy's new position.
- Game.Game.HandleInput: states the game's consistency and when a fault can occur, not the
  full effect of each key, which the key handlers state. With a skill key held, whether the
  skill raises is stated by `Game.Game.SkillKeysInOrder`, not here.
- Game.Game.Update: states consistency, the clock and the fault condition; the stages'
  effects are stated by `Game.Game.UpdateEnemies`, `Game.Game.UpdateParticles`,
  `Game.Game.CheckCollisions` and `Characters.Character.Update`.
- Game.Game.CollisionPass: states only that the game stays consistent;
  `Game.Game.CheckCollisions` states the collisions.
- Game.Game.EnemyPass: states consistency and that enemies are only removed;
  `Game.Game.UpdateEnemies` states the pass.
- Game.Game.Crowd: states consistency and an unchanged clock; the passes state the rest.
- Game.Game.Respond: states consistency and the fault condition.
- Enemies.Enemy.constructor: makes a living enemy, the corrected constructor of the
  Findings. As written `isAlive` stays unset, so the first enemy pass after a level is
  generated removes every enemy, pays all their gold and climbs one level per enemy;
  `Game.Game.PassWithNoneAlive` states that pass, and the model's level generation does not
  go through it.
- Enemies.CreateEnemy: its enemies are born alive through the corrected constructor, where the
  source's are not (see Enemies.Enemy.constructor above).
- Enemies.CreateRandomEnemy: its enemies are born alive through the corrected constructor, where the
  source's are not (see Enemies.Enemy.constructor above).
- Enemies.CreateBoss: its enemies are born alive through the corrected constructor, where the
  source's are not (see Enemies.Enemy.constructor above).
- World.SpawnEnemy: its enemies are born alive through the corrected constructor, where the
  source's are not (see Enemies.Enemy.constructor above).
- World.Spawned: counts a spawned enemy as alive, which the source's are not (see
  Enemies.Enemy.constructor above).
- World.GenerateEnemies: its enemies are born alive through the corrected constructor, where the
  source's are not (see Enemies.Enemy.constructor above).
- World.GenerateBoss: its enemies are born alive through the corrected constructor, where the
  source's are not (see Enemies.Enemy.constructor above).
- World.GameWorld.Update: the random events other than a weather change only log and are
  left out.
- World.GameWorld.ChangeLevel: does not call `generateLevel` (js/world.js:160, 168-184), which
  builds a map, enemies, a boss and items into local variables and discards them; only its
  random draws and a log line are lost. The game's own level generation is `Game.Game.GenerateLevel`.
- Characters.Character.UpdateStats: adds the equipment totals of the nine combat statistics
  only, where `updateStats` (js/characters.js:124-131) adds a total to any property the
  character has, such as `health`, `mana`, `level` or `x`. No item the world generates carries
  such a key (js/world.js:608-629), so only hand-made items would differ.
- Effects' `apply` and `remove` are empty in the source, so adding and removing an effect
  changes no statistic.

## Findings

| source | as written | input that shows it | evidently intended | confidence | as-written member | corrected member |
|---|---|---|---|---|---|---|
| js/enemies.js:5-50 | the enemy constructor never sets `isAlive`, so it is `undefined`; `takeDamage` returns 0 for it and the frame update removes it as dead | any new enemy, e.g. an orc of level 1 hit for 20 | enemies start alive | high, not executed | Enemies.FreshEnemyIgnoresHitsAsWritten | Enemies.FreshEnemyTakesHits |
| js/classes.js:405-418 | `equip` returns false when the slot is empty, so nothing can ever be equipped on new equipment | equipping any weapon into the empty `weapon` slot | refuse only unknown slots and replace what is there | high, not executed | Classes.EquipOnFreshTableAsWritten | Classes.EquipOnFreshTable |
| js/characters.js:404-426 | `fromJSON` restores level and experience but keeps the old threshold | a level-5 save with 200 experience loaded into a new character | recompute the threshold for the restored level | high, not executed | Characters.StaleThresholdAfterReload | Characters.Character.FromJSON |
| js/world.js:631-636 | the clock adds dt / dayLength hours, so one day takes 24 day lengths | 1200 seconds advance the clock by 1 hour instead of 24 | 24 hours per day length (20 minutes) | high, not executed | World.ClockAsWrittenIsSlow | World.ClockRunsOneDayPerDayLength |
| js/game.js:396-410 | `playerAttack` compares with the character's `attackRange`, which characters do not have, so the test is always false | Space held next to a living enemy | a character attack range | high, not executed | Game.Game.PlayerAttackAsWritten | Game.Game.PlayerAttack |
| js/game.js:412-422 | `playerInteract` measures the distance to an exit item, which has no `getCenter`, and raises | E held on any level (every level has an exit) | measure to the item's centre | high, not executed | Game.Game.PlayerInteractAsWritten | Game.Game.PlayerInteract |
