# Robot arena simulation: a Dafny model of the tick and the editing operations

This project models the core of a JavaFX robot simulation. A 500 x 500 arena holds
robots and fixtures in one list. The robots are BumpSensorRobot, WhiskerRobot,
BeamSensorRobot and the keyboard-driven ControlBot. The fixtures are Obstacle,
TeleportPad and BlackHole. The model covers:

- every animation frame's `updateObjects` tick: integrate, absorb, then the
  collision and teleport passes;
- the six random factories and the default arena;
- the robot and obstacle counts;
- the window's editing actions: select, drag, delete, add, new arena and the
  ControlBot rules;
- the save line layout and the load dispatch.

Modules, one per source class, plus a specification module for the tick:

- `Objects`: the entity record, shared by every class. `Robot(id, kind, x, y,
  radius, speed, direction)` or `Fixture(id, kind, x, y, radius)`. The `id`
  stands for Java object identity: none of the classes overrides `equals`, so
  `ArrayList.remove(Object)` and the `==` tests of the window compare identities.
- `Angles`: Java's truncating `%` and the heading reversal `(d + 180) % 360`.
- `Robots`: `Robot.update` (step, wall clamp and reflection, normalisation),
  `checkCollision` and `handleCollision`.
- `Steering`, `WhiskerRobots` and `BeamSensorRobots`: the shared
  `avoidObstacles` loop, which is a method proved against a recursive function.
  The whisker robot uses margin 10 and turn 90; the beam robot uses margin 20
  and turn 67.
- `ControlBots`, `BlackHoles` and `TeleportPads`: the moves, the absorption
  test and the teleport.
- `ArenaSpec`: one function per pass of `updateObjects`, and the lemmas about
  them. These include that the tick removes exactly the absorbed robots, and
  that it keeps identities distinct.
- `Arenas`: the factories and the `Arena` class. Its list is a field that the
  methods reassign. Each loop of `updateObjects` is a method proved to leave
  exactly the list the matching `ArenaSpec` function computes.
- `Simulations`: the save and load slices, hit-testing and removal, and the
  `Simulation` class that holds the window state (running, selection,
  ControlBot).

Headings are integers. Every source of a heading is a whole number of degrees:
`nextInt(360)`, the load's 0, and the steps `+90`, `+67`, `180 - d`, `-d`,
`+180`, each reduced by `%`. So the Java `double` heading never holds a
fraction, and the model keeps it as an `int`.

The model follows the code of `updateObjects` as written, in two places:

- The full teleport scan (every robot against every pad) is not a single pass
  after absorption. It runs again at the start of every index `i` of the
  collision loop, before the row of `i` (Arena.java:97-110). Nothing bounds how
  often one robot is teleported in a tick. Each scan teleports it once for
  every pad it overlaps at the moment that pad is checked, and its own row can
  teleport it again.
- A pad is handled again inside the collision row (Arena.java:124-125). The
  row's branches are tested in order: obstacle, then robot, then pad.

Each robot's row reads the live list. This includes entries that earlier rows
of the same tick have already moved or teleported.

Other consequences of the code that the model proves:

- A whisker or beam robot steers by the live list while the integration loop is
  updating it in place (Arena.java:78-80). This equals steering by the
  start-of-tick list, because the loop never changes an obstacle
  (`ArenaSpec.UpdateEntitySeesOnlyFixtures`).
- A ControlBot is absorbed by a black hole like any other robot.
- A saved BeamSensorRobot or ControlBot is not restored on load, because the
  load switch has no case for either class (`Simulations.SaveThenLoad`,
  `Simulations.UnhandledRobotIsNotReloaded`).
- A line with fewer than four fields, or whose second, third or fourth field
  does not parse as a number, throws out of the handler. Fields after the
  fourth are ignored. Only `IOException` is caught. The arena keeps the
  lines before it.

## Model

| member | source | states |
|---|---|---|
| Angles.JRem | Robot.java:74 | Java's `%` for a positive modulus: equal to Euclidean `%` for a non-negative left side, in (-n, 0] for a negative one, and always congruent to the left side modulo n (it is the Euclidean remainder or that minus n) |
| Angles.Reverse | Robot.java:95 | `(d + 180) % 360` of a heading in [0, 360) is again in [0, 360) |
| Angles.ReverseTwice | Robot.java:93-97 | reversing a heading twice gives back the heading |
| Angles.ReverseTimesParity | Robot.java:93-97 | k reversals give the heading for even k and its reversal for odd k |
| Objects.SimpleNameNamesTheKind | Simulation.java:405 | two entities have the same `getSimpleName()` exactly when they are of the same class (robot kind or fixture kind) |
| Robots.Reflect | Robot.java:57-71 | each wall branch's clamp on x and y as written; the heading is kept with no wall hit, becomes `180 - d` after an x-wall only, `-d` after a y-wall only, and `d - 180` when both fire; for 0 < radius <= 250 the position ends inside [radius, 500 - radius] on both axes |
| Robots.Collides | Robot.java:83-86 | no contract: the reference definition of `checkCollision` (squared centre distance below the squared radius sum); its properties are stated by `Robots.CollidesSymmetric`, `Robots.TouchingDoesNotCollide` and `Robots.SameCentreCollides` |
| Robots.Update | Robot.java:51-75 | only x, y and heading change; a robot with 0 < radius <= 250 ends within the walls; a heading in [0, 360) stays in [0, 360) after `(d + 360) % 360` |
| Robots.UpdateWithoutWall | Robot.java:51-75 | a step that touches no wall moves to the stepped position and keeps the heading |
| Robots.UpdateAtLeftWall | Robot.java:57-59 | crossing the left wall only: x is clamped to the radius and the heading becomes `(180 - d) % 360` |
| Robots.UpdateInTopLeftCorner | Robot.java:57-67 | crossing left and top together clamps both coordinates to the radius and the heading becomes `(d - 180) % 360`, that is reversed |
| Robots.CollidesSymmetric | Robot.java:83-86 | `checkCollision` is symmetric |
| Robots.TouchingDoesNotCollide | Robot.java:85 | circles whose centres are exactly the sum of the radii apart do not collide (strict `<`) |
| Robots.SameCentreCollides | Robot.java:83-86 | concentric objects with a positive radius sum collide |
| Robots.HandleCollision | Robot.java:93-97 | only the heading changes; without a collision nothing changes; with one, the heading is reversed |
| Robots.HandleCollisionTwice | Robot.java:93-97 | handling the same collision twice restores the robot |
| Steering.TriggerCount | WhiskerRobot.java:67-80 | the number of triggering objects is at most the list length, and 0 when the list holds no plain Obstacle |
| Steering.Steer | WhiskerRobot.java:67-80 | no contract: the reference definition of `avoidObstacles`, one turn per triggering obstacle in list order; its properties are stated by `Steering.AvoidObstacles`, `Steering.SteerClosedForm`, `Steering.SteerWithoutTriggers` and `Steering.SteerSeesOnlyObstacles` |
| Steering.AvoidObstacles | WhiskerRobot.java:67-80 | the scan loop computes exactly the heading of the recursive specification `Steer` (the same loop is BeamSensorRobot.java:63-77) |
| Steering.SteerClosedForm | WhiskerRobot.java:74-76 | from a heading in [0, 360), k triggering obstacles give `(d + turn * k) mod 360`, again in [0, 360) |
| Steering.SteerWithoutTriggers | BeamSensorRobot.java:63-77 | with no obstacle in range the heading is unchanged |
| Steering.SteerSeesOnlyObstacles | BeamSensorRobot.java:65 | lists that agree wherever either holds a plain Obstacle give the same heading and the same trigger count |
| WhiskerRobots.Update | WhiskerRobot.java:53-56 | for a heading in [0, 360): `Robot.update` of the robot turned to `(d + 90k) mod 360` at its old position, k being the number of obstacles within radius sum + 10; only x, y and heading change; with no obstacle in range it is the plain `Robot.update` |
| WhiskerRobots.WhiskerTurn | WhiskerRobot.java:74-76 | the steered heading is `(d + 90k) mod 360` for k obstacles within radius sum + 10 |
| WhiskerRobots.NearbyObstacleTurnsNinety | WhiskerRobot.java:67-80 | a robot 15 units from an obstacle (radii 15 and 20) turns from 0 to 90 degrees |
| BeamSensorRobots.Update | BeamSensorRobot.java:49-52 | for a heading in [0, 360): `Robot.update` of the robot turned to `(d + 67k) mod 360` at its old position, with margin 20; only x, y and heading change; with no obstacle in range it is the plain `Robot.update` |
| BeamSensorRobots.BeamTurn | BeamSensorRobot.java:71-73 | the steered heading is `(d + 67k) mod 360` |
| BeamSensorRobots.TwoObstaclesWrapAround | BeamSensorRobot.java:63-77 | two obstacles in range turn heading 300 to 74, wrapping past 360 |
| ControlBots.MoveUp | ControlBot.java:45-47 | only y changes, decreasing by the speed |
| ControlBots.MoveDown | ControlBot.java:52-54 | only y changes, increasing by the speed |
| ControlBots.MoveLeft | ControlBot.java:59-61 | only x changes, decreasing by the speed |
| ControlBots.MoveRight | ControlBot.java:66-68 | only x changes, increasing by the speed |
| ControlBots.OppositeMovesCancel | ControlBot.java:45-68 | up then down, and left then right, in either order, restore the robot |
| ControlBots.MovesCommute | ControlBot.java:45-68 | moves along different axes commute |
| ControlBots.MoveUpCanLeaveTheArena | ControlBot.java:45-47 | the moves have no wall clamp: a bot at y = 0 moves to y = -2 |
| BlackHoles.Absorbs | BlackHole.java:46-53 | absorption is exactly the robot's collision test against the hole |
| BlackHoles.CentreIsAbsorbed | BlackHole.java:46-53 | a robot at the hole's centre is absorbed |
| BlackHoles.RimIsNotAbsorbed | BlackHole.java:52 | a robot exactly touching the hole's rim is not absorbed |
| TeleportPads.Teleport | TeleportPad.java:43-53 | only x and y change; draws in [0, 1) land the object in [10, 490) on both axes |
| TeleportPads.LandingIgnoresOrigin | TeleportPad.java:45-50 | the landing point depends only on the draws |
| TeleportPads.LandingDeterminesDraws | TeleportPad.java:45-50 | different draws give different landing points |
| ArenaSpec.RobotsCount | Arena.java:247-249 | `getRobotsCount` is at most the list length |
| ArenaSpec.ObstaclesCount | Arena.java:256-258 | `getObstaclesCount` plus the robot count is at most the list length |
| ArenaSpec.CountsSayWhatTheyCount | Arena.java:247-258 | the robot count is the length exactly when every entry is a robot; the obstacle count is 0 exactly when no entry is a plain Obstacle |
| ArenaSpec.CountsOfAppend | Arena.java:57-59 | `addObject` raises the robot count by one for a robot and the obstacle count by one for an Obstacle, and appends a fixture to the fixtures |
| ArenaSpec.OneOfEachKind | Arena.java:247-258 | a list holding one object of each of the seven classes counts 4 robots and 1 obstacle: pads and holes are not counted as obstacles |
| ArenaSpec.ObstaclesInFixtures | Arena.java:256-258 | every counted obstacle is a fixture: counting obstacles among the fixtures gives the same number |
| ArenaSpec.MovesKeepCounts | Arena.java:78-130 | passes that only move robots keep the fixtures and both counts |
| ArenaSpec.UpdateEntity | Arena.java:78-80 | the per-object `update()`: fixtures and ControlBots are unchanged; other robots change only x, y and heading, end within the walls when 0 < radius <= 250, and keep the heading range |
| ArenaSpec.UpdateEntitySeesOnlyFixtures | Arena.java:78-80 | an update depends on the other entries only through the fixtures, so the live list and the start-of-tick list give the same result |
| ArenaSpec.Integrated | Arena.java:78-80 | the integration pass keeps every entry's identity, class, radius and speed, and every fixture |
| ArenaSpec.CountAbsorbed | Arena.java:83-94 | at most every robot is absorbed |
| ArenaSpec.Absorbed | Arena.java:84-93 | no contract: the reference definition of the `removeIf` test, some BlackHole of the list absorbs the robot; its properties are stated by `ArenaSpec.SurvivorsMembers`, `Arenas.IsAbsorbed` and `BlackHoles.Absorbs` |
| ArenaSpec.Survivors | Arena.java:83-94 | `removeIf` removes exactly the absorbed entries from the length |
| ArenaSpec.SurvivorsCounts | Arena.java:83-94 | the robot count drops by the number absorbed; the obstacle count and the fixtures, in order, are unchanged |
| ArenaSpec.SurvivorsKeepFixtures | Arena.java:83-94 | the filter removes robots only, so the fixtures are kept, in order |
| ArenaSpec.SurvivorsMembers | Arena.java:83-94 | an entry survives exactly when it was in the list and is not a robot absorbed by some BlackHole of the list |
| ArenaSpec.SurvivorsOfConcat | Arena.java:83-94 | removal keeps list order: it distributes over concatenation |
| ArenaSpec.SurvivorsKeepIds | Arena.java:83-94 | removal keeps identities distinct and issued |
| ArenaSpec.PadPass | Arena.java:104-108 | one robot against every pad: identity, class, radius, speed and heading are kept; draws are only consumed; a moved robot overlapped some pad, and lands in [10, 490) when the draws are in [0, 1) |
| ArenaSpec.TeleportScan | Arena.java:101-110 | the full scan only moves robots and keeps every fixture; an entry that changes is a robot overlapping a pad, landing in [10, 490) for unit draws |
| ArenaSpec.ScanWithoutPads | Arena.java:101-110 | with no TeleportPad in the list the scan changes nothing and draws nothing |
| ArenaSpec.PadPassWithoutPads | Arena.java:104-108 | with no TeleportPad a robot's pad pass changes nothing |
| ArenaSpec.Row | Arena.java:112-129 | robot i's collision row keeps identity, class, radius and speed, consumes draws only forwards, and keeps the heading in [0, 360) |
| ArenaSpec.PartnersIgnoreHeading | Robot.java:83-86 | which entries a robot collides with does not depend on its heading, so reversals in the row do not change later tests |
| ArenaSpec.RowWithoutPads | Arena.java:116-128 | with no overlapped pad, the row reverses the heading once for each other obstacle or robot it overlaps, and nothing else |
| ArenaSpec.LoneRobotRow | Arena.java:117 | a robot is never tested against itself: alone in the list its row changes nothing |
| ArenaSpec.PairPass | Arena.java:97-130 | the collision loop only moves robots and consumes draws forwards |
| ArenaSpec.Tick | Arena.java:76-131 | no contract: the reference definition of `updateObjects`, integrate, then absorb, then the collision loop; its properties are stated by `ArenaSpec.TickAccounting`, `ArenaSpec.TickKeepsIds`, `ArenaSpec.TickMovesSurvivors`, `ArenaSpec.TwoRobotsBounceApart` and `Arenas.Arena.UpdateObjects` |
| ArenaSpec.TickAccounting | Arena.java:76-131 | after one tick the length and the robot count drop by exactly the number absorbed; the obstacle count and the fixtures, in order, are unchanged |
| ArenaSpec.TickKeepsIds | Arena.java:76-131 | the tick keeps identities distinct and creates none |
| ArenaSpec.TickMovesSurvivors | Arena.java:76-131 | the final list matches the survivors of absorption entry by entry, changed only in position and heading |
| ArenaSpec.TwoRobotsBounceApart | Arena.java:97-130 | two overlapping robots and nothing else: each is reversed exactly once |
| Arenas.Coordinate | Arena.java:153 | `nextInt(480) + 10` is a whole number in [10, 489] |
| Arenas.RandomRobot | Arena.java:152-159 | a BumpSensorRobot of radius 15 and speed 3 with whole coordinates in [10, 489] and the drawn heading in [0, 359] |
| Arenas.RandomWhiskerRobot | Arena.java:170-177 | a WhiskerRobot of radius 15 and speed 4, spawned as above |
| Arenas.RandomObstacle | Arena.java:187-192 | an Obstacle of radius 20 at whole coordinates in [10, 489] |
| Arenas.RandomBeamSensorRobot | Arena.java:203-210 | a BeamSensorRobot of radius 10 and speed 5, spawned as above |
| Arenas.RandomTeleportPad | Arena.java:220-225 | a TeleportPad of radius 15, spawned as above |
| Arenas.RandomBlackHole | Arena.java:235-240 | a BlackHole of radius 20, spawned as above |
| Arenas.Seed | Arena.java:28-38 | the default arena: four entries, two BumpSensorRobots then two Obstacles, counts 2 and 2, distinct identities, all spawned in range |
| Arenas.IsAbsorbed | Arena.java:84-93 | the scan for an absorbing BlackHole returns true exactly when some BlackHole of the list absorbs the robot |
| Arenas.UpdateOne | Arena.java:79 | the dispatched `update()` of one object computes exactly `ArenaSpec.UpdateEntity` |
| Arenas.TeleportRobot | Arena.java:104-108 | the inner pad loop for one robot computes exactly `ArenaSpec.PadPass`, robot and draw cursor |
| Arenas.Arena.constructor | Arena.java:28-38 | the new arena holds the default list and is valid |
| Arenas.Arena.AddObject | Arena.java:57-59 | the object is appended and nothing else changes |
| Arenas.Arena.ClearObjects | Arena.java:65-67 | the list becomes empty |
| Arenas.Arena.UpdateObjects | Arena.java:76-131 | the new list and draw cursor are exactly those of `ArenaSpec.Tick`; validity is kept |
| Arenas.Arena.IntegrateAll | Arena.java:78-80 | the in-place loop over the live list leaves exactly `Integrated` of the old list |
| Arenas.Arena.RemoveAbsorbed | Arena.java:83-94 | `removeIf` leaves exactly the survivors, with the test made on the unmodified list |
| Arenas.Arena.CollideAll | Arena.java:97-130 | the collision loop leaves exactly `PairPass` of the old list |
| Arenas.Arena.ScanPads | Arena.java:101-110 | the nested teleport loops leave exactly `TeleportScan` |
| Arenas.Arena.CollisionRow | Arena.java:112-129 | robot i's row leaves exactly `Row` written back at index i |
| Simulations.ParseRecord | Simulation.java:436-458 | a line throws exactly when it has fewer than four fields or an unparsable number; otherwise it builds an object exactly when its first field names one of the five handled classes, with that class, the parsed x, y and radius, and speed 2 and heading 0 for a robot |
| Simulations.Malformed | Simulation.java:436-440 | no contract: the reference definition of the reads that throw, fewer than four fields or an unparsable second, third or fourth field; its properties are stated by `Simulations.ParseRecord` and `Simulations.LoadStopsAtMalformedLine` |
| Simulations.LoadRecords | Simulation.java:433-459 | the load adds one object per issued identity |
| Simulations.LoadIssuesFreshIds | Simulation.java:444-456 | each loaded line creates a new object: identities id, id + 1, ... in order |
| Simulations.LoadOfConcat | Simulation.java:435-459 | loading a + b is loading a then b, unless a threw |
| Simulations.LoadStopsAtMalformedLine | Simulation.java:436-440 | a malformed line ends the load unsuccessfully, keeping exactly the objects of the lines before it |
| Simulations.HandledOnly | Simulation.java:442-458 | an entry is kept exactly when it is in the list and of a class the switch handles; never longer than the list |
| Simulations.ReloadableIsHandled | Simulation.java:442-458 | the kinds `Reloadable` keeps are exactly those whose saved class name the switch has a case for |
| Simulations.HandledOnlyOfConcat | Simulation.java:442-458 | the filter distributes over concatenation, so the kept entries stay in list order |
| Simulations.HandledOnlyKeepsHandledList | Simulation.java:442-458 | a list of handled entries only is kept whole and unchanged |
| Simulations.SaveThenLoad | Simulation.java:404-409 | loading a saved file runs to the end and rebuilds, in order, exactly the objects of the five handled classes, each with its saved class, position and radius |
| Simulations.UnhandledRobotIsNotReloaded | Simulation.java:442-458 | a saved BeamSensorRobot or ControlBot comes back as nothing |
| Simulations.LineOf | Simulation.java:405-408 | no contract: the reference definition of one saved line, class name, x, y, radius; its properties are stated by `Simulations.SaveThenLoad` and `Simulations.UnhandledRobotIsNotReloaded` |
| Simulations.SaveLines | Simulation.java:404-409 | no contract: the reference definition of the saved file, one `LineOf` per object in list order; its properties are stated by `Simulations.Simulation.Save` and `Simulations.SaveThenLoad` |
| Simulations.FirstHit | Simulation.java:265-271 | the selected index is the first entry whose bounding square contains the point, borders included; there is none exactly when no entry is hit |
| Simulations.Hit | Simulation.java:266-269 | no contract: the reference definition of the selection filter, the bounding square with borders included; its properties are stated by `Simulations.FirstHit` and `Simulations.Simulation.Press` |
| Simulations.RemoveFirst | Simulation.java:316 | removing an absent object changes nothing; removing a present one shortens the list by one and adds nothing |
| Simulations.RemoveFirstDropsFirstMatch | Simulation.java:316 | `remove(Object)` drops the first entry with that identity and keeps the entries before and after it in order |
| Simulations.RemoveFirstDistinct | Simulation.java:316 | with distinct identities the result holds exactly the other entries, still distinct |
| Simulations.MoveTo | Simulation.java:293-294 | the entry with that identity takes the mouse position; every other entry is unchanged |
| Simulations.NewControlBot | Simulation.java:194 | the ControlBot is a new robot of kind ControlBot at (250, 250) with radius 15, speed 2 and heading 0, so it covers the centre point |
| Simulations.Drive | Simulation.java:146-150 | the four key flags move x by -speed/+speed for left/right and y by -speed/+speed for up/down, and change nothing else |
| Simulations.OppositeKeysCancel | Simulation.java:146-150 | all four keys held leave the bot where it is |
| Simulations.DriveTracked | Simulation.java:146-151 | the tracked entry, when it is a robot, becomes exactly its `Drive` by the keys; every other entry is unchanged |
| Simulations.Simulation.constructor | Simulation.java:62 | the window starts stopped with the default arena, nothing selected and no ControlBot |
| Simulations.Simulation.Start | Simulation.java:158-164 | Start runs and drops the selection only when stopped |
| Simulations.Simulation.Stop | Simulation.java:166-171 | Stop leaves the simulation stopped |
| Simulations.Simulation.Frame | Simulation.java:133-151 | a frame, which happens only while running, is the tick followed by the tracked ControlBot's moves; validity is kept |
| Simulations.Simulation.NewArena | Simulation.java:173-178 | the arena is emptied and the ControlBot and the selection are forgotten |
| Simulations.Simulation.AddControlBot | Simulation.java:192-196 | a ControlBot is created and tracked only when none is tracked; otherwise nothing changes |
| Simulations.Simulation.AddSelectedRobot | Simulation.java:180-200 | each robot kind appends its factory's robot with a new identity; ControlBot appends and tracks the new bot at (250, 250) when none is tracked, and otherwise changes nothing |
| Simulations.Simulation.AddSelectedObstacle | Simulation.java:203-217 | each fixture kind appends its factory's fixture |
| Simulations.Simulation.Press | Simulation.java:262-271 | when stopped the selection becomes the first hit, or nothing; when running it is unchanged |
| Simulations.Simulation.Drag | Simulation.java:290-294 | when stopped with a selection, the selected object takes the mouse position; otherwise nothing changes |
| Simulations.Simulation.Delete | Simulation.java:313-322 | the selected object is removed and the selection cleared; the ControlBot is forgotten exactly when it was the one selected |
| Simulations.Simulation.Save | Simulation.java:403-409 | one line per object in list order: class name, x, y, radius |
| Simulations.Simulation.Load | Simulation.java:425-465 | the arena is cleared, then holds exactly the objects `LoadRecords` builds, stopping at a malformed line; validity is kept |

## Left out

- Rendering, `sense()`, the information panel, the window layout, the About and Help dialogs, the file chooser and the console messages are left out. They compute nothing the arena reads.
- File I/O is left out. `Files.readAllLines` and `Files.write` are outside the model, and so is the `IOException` handling. Save returns its lines and Load receives its records already split.
- `String.split`, `Double.toString` and `Double.parseDouble` are not modelled as text. A field is either a parsed number or a word, and `Malformed` stands for the exceptions a bad field raises.
- `Math.cos`, `Math.sin` and `Math.toRadians` are left out: they are a `Trig` parameter.
- `Math.sqrt` is replaced by comparing squared distances. This is exact, because a distance is never negative and the comparison requires a positive bound.
- Floating point is not modelled. Coordinates are exact reals, so the exact cancellations in `ControlBots.OppositeMovesCancel` and `Simulations.OppositeKeysCancel` hold more strongly than with IEEE doubles.
- `java.util.Random` and `Math.random` are parameters. The factories receive their `nextInt` results. The tick reads `Math.random` values from a function `draws` at a cursor and returns the advanced cursor.
- `Arena.getInstance()` is not modelled. The steering methods read the arena's list directly, and Save and Load use the simulation's own arena, which is the instance.
- Mutation of shared objects in place is modelled on values carrying an identity. A robot's update, a teleport or a move writes a new record back at the robot's index. The model does not capture aliasing, for example an object held twice in the list.
- `removeIf` is modelled as building the list of kept entries and assigning it, with every test made on the unmodified list.
- The key-event handlers that set the movement flags are left out. A frame receives the four flags as `Keys`.
- Starting and stopping the animation timer is left out; only the `isRunning` flag is modelled. A frame requires `running`, because the timer calls its handler only between `start()` and `stop()`, which set and clear that flag.
- `Obstacle` and `BumpSensorRobot` are modelled as kind tags. They only construct, render and sense.
- `Simulations.Simulation.Load`: only the load loop is modelled. The controlBot reference and the selection are left as they were, which matches the code.
- `ArenaSpec.Row`: when a pad overlaps the robot, the contract states only what the row keeps. The exact reversal count is stated by `ArenaSpec.RowWithoutPads`, for rows in which no pad overlaps.
- `ArenaSpec.PairPass`: for a general list the contract states only what the pass keeps. The exact effect is stated for two overlapping robots (`ArenaSpec.TwoRobotsBounceApart`) and for a lone robot.
- `Arenas.Arena.AddObject`: validity is promised only for an object whose identity was issued and is larger than every identity in the list. Every caller obtains its identity from `NewId` immediately before.
