# Alien Invasion: spawn gate and game-state transitions in Dafny

A model of the logic of a small pygame arcade game in which a ship shoots at
aliens that appear one at a time and drop towards the bottom of the screen.
Two parts of the game carry logic, and both are modelled here as pure
functions over immutable records:

- **The alien spawn gate** (`TimerFunctions`, module `AlienTimer` in
  `alien_timer_functions.dfy`). It has two fields, `alienDelay` and
  `lastAlienCreatedTime`. It fires once the clock has advanced by the current
  delay. When it fires, it records the time and draws a new delay from
  500..2000 ms.
- **The game transitions of `AlienInvasion`** (module `AlienInvasion` in
  `alien_invasion.dfy`). The game is a `Game` record: `shipsLeft`, `score`,
  `level`, `gameActive`, the bullet and alien groups as sequences, and the
  spawn timer. The modelled operations are:
  - firing with its bullet cap;
  - the ship-hit handling;
  - collision scoring and level-up;
  - fleet creation, one alien at a time, with its column arithmetic;
  - pruning of bullets that have left the screen;
  - the bottom-of-screen check;
  - the Play-button guard and reset;
  - one active frame of the main loop, composing the above.

Two helper modules support them:
- `PyRandom` (`py_random.dfy`) models Python's `random.randint`. An empty
  range raises `ValueError`, modelled as `None`.
- `Groups` (`groups.dfy`) models removal of sprites from a group by position.

Everything outside the program's own code is a parameter:
- `now` is the value of `pygame.time.get_ticks()`. No monotonicity is assumed.
- Each `randint` call gets a natural-number `draw`. `RandInt` maps every draw
  into the range, and every value of the range is some draw's result.
- `groupcollide`'s result is a sequence of `Hit(bullet, aliens)` entries: a
  bullet's position in the bullet group and the positions of the aliens it hit.
- `spritecollideany`'s result is a boolean.
- How far `Bullet.update` and `Alien.update` move the sprites in a frame is one distance per group.
- The click test on the Play button is a boolean.
- The `Settings` values, the alien image size and the values
  `GameStats.reset_stats` assigns are opaque fields.

Sprite groups are taken to be insertion-ordered. Python 3's dict-backed
`pygame.sprite.Group` iterates in insertion order, so "the front of the
group" means the oldest sprite.

Two behaviours are modelled as the code has them:
- **Going inactive needs a hit at zero ships.** A hit while `ships_left > 0`
  only decrements. So a hit at one ship left leaves the game active with 0
  ships, and only the next hit ends it (`HitsUntilGameOver`).
- **`_check_aliens_bottom` removes the front of the group.** For each alien
  that has reached the bottom, the inner loop removes the first alien of the
  group and breaks. It does not remove the offending alien. The number removed
  equals the number at the bottom (`CheckAliensBottom`), but an alien at the
  bottom can survive while an alien still on screen is removed
  (`BottomCheckCanKeepOffender`).

`_create_fleet` also calls `randint` for the column before it asks the timer.
So an alien width of 0 (`ZeroDivisionError`) or a screen narrower than two
alien widths (`ValueError` from the empty range) raises even on frames where
no alien would be created. These are the `Crash` results.

## Model

| member | source | states |
|---|---|---|
| PyRandom.RandInt | final_project_melissa_genovese/alien_invasion.py:201-205 | randint yields a value inside lo..hi, both ends included; it fails exactly when the range is empty |
| PyRandom.RandIntReachesEvery | final_project_melissa_genovese/alien_timer_functions.py:13 | every value of a non-empty range is produced by some draw, so the model does not narrow randint's outcomes |
| Groups.Without | final_project_melissa_genovese/alien_invasion.py:223-224 | removing collided sprites never grows a group and never introduces a sprite that was not in it |
| Groups.WithoutCount | final_project_melissa_genovese/alien_invasion.py:223-224 | exactly one sprite leaves the group for every position of it that the collision reported, so reported sprites do leave |
| Groups.WithoutKeeps | final_project_melissa_genovese/alien_invasion.py:223-224 | a sprite whose position the collision did not report stays in the group |
| Groups.WithoutNothing | final_project_melissa_genovese/alien_invasion.py:223-226 | when no position is reported, the group is unchanged |
| Groups.WithoutEmptyIff | final_project_melissa_genovese/alien_invasion.py:223-232 | the group becomes empty exactly when every one of its positions was reported |
| AlienTimer.NewTimer | final_project_melissa_genovese/alien_timer_functions.py:6-9 | a freshly constructed timer is due at every non-negative clock value |
| AlienTimer.Due | final_project_melissa_genovese/alien_timer_functions.py:19 | with a delay in 500..2000 the gate is never due within 500 ms of the last creation and always due from 2000 ms on |
| AlienTimer.DrawnDelay | final_project_melissa_genovese/alien_timer_functions.py:11-13 | a drawn delay lies in 500..2000 inclusive |
| AlienTimer.SetNextAlienDelay | final_project_melissa_genovese/alien_timer_functions.py:11-13 | after redrawing, the delay lies in 500..2000 and the last creation time is unchanged |
| AlienTimer.TimeToCreateAnotherAlien | final_project_melissa_genovese/alien_timer_functions.py:15-24 | fires exactly when now - last >= delay; on firing the last time becomes now and the delay is redrawn in range; otherwise neither field changes |
| AlienTimer.FreshTimerFiresAtOnce | final_project_melissa_genovese/alien_timer_functions.py:6-19 | a freshly constructed timer fires at its first check for any now >= 0 |
| AlienTimer.NoRefireWithoutAdvance | final_project_melissa_genovese/alien_timer_functions.py:13-21 | with a clock that has not advanced, a firing check is followed by a non-firing one |
| AlienTimer.CheckKeepsValidDelay | final_project_melissa_genovese/alien_timer_functions.py:19-24 | a delay in 500..2000 stays in range across any check |
| AlienTimer.QuietStretchKeepsTimer | final_project_melissa_genovese/alien_timer_functions.py:19-24 | any run of non-firing checks leaves the timer exactly as it was |
| AlienTimer.ConsecutiveFiresSpacing | final_project_melissa_genovese/alien_timer_functions.py:19-23 | two consecutive firings at t1 and t2 satisfy t2 - t1 >= the delay drawn at t1 >= 500 |
| AlienTimer.AnyTwoFiresSpaced | final_project_melissa_genovese/alien_timer_functions.py:19-23 | any two firings of a run, consecutive or not, are at least 500 ms apart |
| AlienTimer.AtMostOneFirePerWindow | final_project_melissa_genovese/alien_timer_functions.py:19-23 | within any window shorter than 500 ms, including a clock that does not advance, the gate fires at most once |
| AlienInvasion.StartTimer | final_project_melissa_genovese/alien_invasion.py:32-33 | the game's timer starts with last time 0 and a delay already in 500..2000 |
| AlienInvasion.FireBullet | final_project_melissa_genovese/alien_invasion.py:188-192 | exactly one bullet is appended when fewer than bulletsAllowed exist, none otherwise, nothing else changes, and the count never goes above bulletsAllowed |
| AlienInvasion.ShipHit | final_project_melissa_genovese/alien_invasion.py:98-116 | with ships left: one fewer ship, both groups empty, activity unchanged; with none left: only gameActive becomes false; shipsLeft never goes negative |
| AlienInvasion.HitsUntilGameOver | final_project_melissa_genovese/alien_invasion.py:98-116 | from n >= 0 ships, the game stays active through n hits and goes inactive on hit n + 1; ships bottom out at 0 |
| AlienInvasion.NumberAliensX | final_project_melissa_genovese/alien_invasion.py:199-205 | number_aliens_x is the largest n with 2w * n <= W - 2w, and the column range 0..number_aliens_x is non-empty exactly when the screen is at least two alien widths wide |
| AlienInvasion.CreateAlien | final_project_melissa_genovese/alien_invasion.py:210-217 | any column in 0..number_aliens_x places the alien at w <= x <= W - w, fully on screen horizontally; the top row sits one alien height below the top |
| AlienInvasion.CreateFleet | final_project_melissa_genovese/alien_invasion.py:194-208 | fails exactly when no column fits; otherwise appends exactly when the timer is due one top-row alien placed at a column in 0..number_aliens_x and fully on screen, and nothing besides the aliens and the timer changes |
| AlienInvasion.CreateFleetKeepsInv | final_project_melissa_genovese/alien_invasion.py:194-208 | fleet creation keeps ships non-negative, the bullet cap and the delay range |
| AlienInvasion.Visible | final_project_melissa_genovese/alien_invasion.py:75-78 | the kept bullets all come from the group and have bottom > 0, and every bullet with bottom > 0 is kept |
| AlienInvasion.VisibleKeepsOnScreen | final_project_melissa_genovese/alien_invasion.py:75-78 | a group whose bullets are all on screen loses nothing to pruning |
| AlienInvasion.PruneIsIdempotent | final_project_melissa_genovese/alien_invasion.py:75-78 | pruning a pruned group changes nothing |
| AlienInvasion.PruneBullets | final_project_melissa_genovese/alien_invasion.py:75-78 | the loop over a copy of the group leaves exactly the on-screen bullets, in order |
| AlienInvasion.AwardPoints | final_project_melissa_genovese/alien_invasion.py:227-228 | the score rises by alienPoints times the number of aliens summed over all collision lists |
| AlienInvasion.NoCollisionRemovesNothing | final_project_melissa_genovese/alien_invasion.py:223-226 | with no collisions nothing is removed, nothing is scored and the fleet is not destroyed, so the collision step leaves the game unchanged |
| AlienInvasion.CheckBulletAlienCollisions | final_project_melissa_genovese/alien_invasion.py:220-240 | the score rises by alienPoints per alien over all collision lists and ships and activity are unchanged; when a collision destroyed the whole fleet the level rises by exactly one, the bullets are emptied and at most one alien appears, present exactly when the timer is due; otherwise the collided sprites are removed and level and timer are unchanged |
| AlienInvasion.MoveBullets | final_project_melissa_genovese/alien_invasion.py:73 | every bullet moves up by the same distance and keeps its column; the group keeps its size and order |
| AlienInvasion.UpdateBullets | final_project_melissa_genovese/alien_invasion.py:70-80 | after moving, pruning and collisions every remaining bullet is on screen, the score rises by alienPoints per alien hit, the level rises by at most one, and the invariant is kept |
| AlienInvasion.DropFleet | final_project_melissa_genovese/alien_invasion.py:87-88 | every alien moves down by the drop speed and keeps its column |
| AlienInvasion.CheckAliensBottom | final_project_melissa_genovese/alien_invasion.py:118-127 | removes exactly as many aliens as had reached the bottom at the start of the check, taken from the front of the group |
| AlienInvasion.NoneAtBottom | final_project_melissa_genovese/alien_invasion.py:118-127 | when no alien has reached the bottom the check removes nothing |
| AlienInvasion.BottomCheckCanKeepOffender | final_project_melissa_genovese/alien_invasion.py:121-127 | an alien at the bottom can survive the check while an alien still on screen is removed |
| AlienInvasion.MoveAliens | final_project_melissa_genovese/alien_invasion.py:85 | every alien moves across by the same distance and keeps its height; the group keeps its size and order |
| AlienInvasion.UpdateAliens | final_project_melissa_genovese/alien_invasion.py:83-95 | after moving, dropping, a possible ship hit and the bottom check: a ship collision costs one ship or ends the game; score, level and timer are unchanged; the alien group never grows |
| AlienInvasion.CheckPlayButton | final_project_melissa_genovese/alien_invasion.py:145-168 | no effect unless clicked while inactive; then the game is active with the reset statistics, no bullets, and at most one alien, present exactly when the timer is due |
| AlienInvasion.ActiveFrame | final_project_melissa_genovese/alien_invasion.py:62-66 | an active frame fails exactly when no column fits, keeps the invariant, raises the level by at most one and the score by alienPoints per alien hit |

## Left out

- Rendering: screen fill, blits, `_update_screen`, button drawing and the scoreboard `prep_*` / `show_score` calls. They are output only.
- Audio loading and playback, `sleep(0.5)`, `sys.exit()` and mouse-cursor visibility. They are side effects with no logical content.
- Event polling and key dispatch (`_check_events`, `_check_keydown_events`, `_check_keyup_events`). Their outcomes arrive as the `clicked` flag and as direct calls of `FireBullet`.
- Ship movement and centring (`Ship`). The class is not part of this model.
- MoveBullets: `Bullet.update` is not part of this model; it is taken as moving every bullet up by one injected distance per frame.
- MoveAliens: `Alien.update` is not part of this model; it is taken as moving every alien across by one injected distance per frame, with no edge handling.
- pygame's `groupcollide`, `spritecollideany` and `collidepoint`. Their results are inputs. The model does not assume their guarantees: distinct bullet keys, non-empty and disjoint alien lists.
- `Settings.increase_speed`, `Settings.initialize_dynamic_settings`, `Scoreboard.check_high_score` and the high score. The classes are not part of this model, and nothing is claimed about speed scaling or the high score. `bulletsAllowed` is taken to be fixed.
- Python's random generator. Its output is the injected `draw`. No claim is made about uniformity.
- ActiveFrame: states only the frame-level bookkeeping. The group contents follow from the contracts of the operations it composes.
- UpdateAliens: does not state which aliens survive the bottom check in game terms. That is stated on `CheckAliensBottom`.
