# Platformer simulation core, modelled in Dafny

This project models the simulation engine of a small tile-based platformer
(`game.js`). It covers:

- **Vectors.** 2D points and offsets with componentwise `plus` and `times`.
- **Actors.** A base actor, the player, coins and the fireball family
  (fireball, horizontal fireball, vertical fireball, fire rain).
- **Level.** A fixed obstacle grid, an ordered list of live actors, and the
  win/lose outcome.
- **Level parser.** Turns an ASCII plan into a level.

Files:

- `vectors.dfy` (module `Vectors`): the `Vector` value, plus `Math.floor` and
  `Math.ceil` on reals.
- `lists.dfy` (module `Lists`): `indexOf` and `splice`-by-one, as used by
  `removeActor`.
- `game.dfy` (module `Game`): the `Actor` class, the `Level` class, and the
  outcome state machine.
  - Each actor's variant is a constant `kind` of a sum type. `act` and
    `handleObstacle` dispatch on it.
  - Actors are class references, so identity (`===`, `indexOf`) is reference
    equality.
  - `Level.ObstacleAt` and `Level.ActorAt` keep the source's loops with early
    return. `ObstacleAt` is proved equal to the function `ObstacleUnder`, and
    the lemmas about `ObstacleUnder` state what the scan finds.
  - `PlayerTouched` and `RemoveActor` update the level in place. Both are tied
    to pure functions (`Touch`, `RemoveFirst`), and lemmas relate several
    calls.
- `parsing.dfy` (module `Parsing`): the `LevelParser` class.
  - `CreateGrid` and `CreateActors` keep the nested loops.
  - `CreateActors` is proved against `Spawns`, which describes the actors to
    build by class and cell. `PlanSpawnsSpec` characterises `Spawns`.
- `scenarios.dfy` (module `Scenarios`): concrete situations checked from the
  contracts alone. They cover the `["@ ", "xx"]` plan, a horizontal fireball
  bouncing off a wall, a fire rain drop resetting on lava, and lava losing for
  good.

Representation choices:

- An obstacle is `Wall`, `Lava` or `Empty`. `Empty` stands for the source's
  `undefined`. A cell past the end of a short row reads as `Empty`.
- The level status `null` is `Undecided`.
- Type tags stay strings, because `playerTouched` compares its argument with
  `'lava'` as well as with actor types.
- A dictionary value is `Maker(cls)`, `OtherFunction` or `NotAFunction`. These
  are the three outcomes of the `typeof … === 'function'` and
  `instanceof Actor` tests in `createActors`. A missing dictionary is `None`.
- The random phase of a coin is an input. `Coin` takes it as a parameter, and
  the parser takes a function from cell to phase.

Notes on game.js's behaviour:

- `actorAt` returns nothing when the list holds exactly one actor. An empty
  list falls through to the loop and finds nothing.
- The `!this.grid` guard in `actorAt` can never be true, so it is absent.
- The constants are those of game.js:226, 233, 240 and 286: horizontal
  fireball speed (2, 0), vertical fireball speed (0, 2), fire rain speed
  (0, 3), player size (0.8, 1.5).
- A level's height is its number of rows and its width its longest row
  (`Level.Valid`). Every constructed level satisfies this and neither value
  changes afterwards. So the scan in `obstacleAt` reads `grid[y]` only for
  rows that exist, and `Level.ObstacleAt` and `Actor.Act` rely on it.

## Model

| member | source | states |
|---|---|---|
| `Vectors.PlusLaws` | game.js:9-14 | `plus` is commutative and associative, the zero vector is its identity, and adding the negation gives zero |
| `Vectors.TimesLaws` | game.js:16-18 | `times` by 1 is the identity, by 0 gives zero and by -1 negates; scaling twice multiplies the factors; scaling distributes over a sum of factors and over `plus` |
| `Vectors.ReversedStepMirrors` | game.js:208-212 | after reversing the speed, the next target is the blocked target mirrored through the current position |
| `Vectors.Floor` | game.js:108 | `Math.floor`: the greatest integer not above the argument |
| `Vectors.Ceil` | game.js:108 | `Math.ceil`: the least integer not below the argument |
| `Lists.IndexOf` | game.js:121 | the result is -1 exactly when the element is absent; otherwise it is the position of its first occurrence |
| `Lists.RemoveFirst` | game.js:120-124 | an absent element leaves the list unchanged; otherwise the list is one shorter |
| `Lists.RemoveFirstSpec` | game.js:120-124 | removal of a present element cuts out exactly its first occurrence and keeps the rest in order |
| `Lists.RemoveFirstMultiset` | game.js:120-124 | the multiset of elements loses exactly one copy of the removed element |
| `Lists.RemoveFirstDistinct` | game.js:120-124 | on a duplicate-free list, the result holds exactly the other elements and stays duplicate-free |
| `Game.Kind.TypeName` | game.js:33-35 | the `type` getter together with its overrides at game.js:200-202, 260-262 and 290-292: `actor` exactly for the base actor, `player` exactly for the player, `coin` exactly for coins, `fireball` exactly for the fireball family |
| `Game.Actor.InteriorIffPositiveSize` | game.js:37-51 | `right - left` is the width and `bottom - top` the height; the rectangle has points strictly inside it exactly when both sizes are positive |
| `Game.Actor.constructor` | game.js:22-29 | a base actor has the given position, size and speed and type `actor` |
| `Game.Actor.Player` | game.js:282-288 | a player stands at anchor + (0, -0.5), has size (0.8, 1.5) and zero speed |
| `Game.Actor.Coin` | game.js:249-258 | a coin stands at anchor + (0.2, 0.1), records that point as its start, has size (0.6, 0.6), zero speed and the given phase |
| `Game.Actor.Fireball` | game.js:193-198 | a fireball is a 1x1 square at the given position with the given speed |
| `Game.Actor.HorizontalFireball` | game.js:223-228 | speed (2, 0), 1x1 |
| `Game.Actor.VerticalFireball` | game.js:230-235 | speed (0, 2), 1x1 |
| `Game.Actor.FireRain` | game.js:237-242 | speed (0, 3), 1x1, and its start position is the spawn position |
| `Game.Construct` | game.js:178-181 | `new cls(anchor)` yields a fresh actor in exactly the state the class's constructor gives |
| `Game.Actor.NextPositionAdditive` | game.js:204-206 | `getNextPosition(0)` is the position; moving for `t1 + t2` is moving for `t1` and then for `t2` at the same speed |
| `Game.Actor.HandleObstacle` | game.js:208-245 | a fireball negates both speed components and stays put; a fire rain drop returns to its start and keeps its speed |
| `Game.Actor.Act` | game.js:204-220 | if the rectangle at the next position `pos + speed * time` is free, a fireball moves exactly there at unchanged speed; otherwise it handles the obstacle (reverse, or reset for fire rain); base actors and the player do not move; a fireball that starts on free ground stays on free ground, provided, for fire rain, that its start position is free too; after a bounce its next target is the blocked target mirrored through its position |
| `Game.IntersectIffCommonPoint` | game.js:53-62 | for positive sizes, `isIntersect` holds exactly when the actors are distinct and some point lies strictly inside both rectangles |
| `Game.IntersectBasics` | game.js:53-62 | an actor never intersects itself; intersection is symmetric; rectangles that only share an edge do not intersect |
| `Game.SomeOfType` | game.js:135 | true exactly when some actor in the list has the type |
| `Game.FirstOfType` | game.js:69-71 | null exactly when no actor has the type; otherwise the earliest such actor |
| `Game.MaxRowLength` | game.js:73-74 | the length of the longest row, which some row reaches; 0 for an empty grid |
| `Game.Level.constructor` | game.js:66-77 | height = number of rows; width = longest row; player = first `player`-typed actor; status undecided; finish delay 1; not finished |
| `Game.Level.FinishedIsFinal` | game.js:79-81 | an undecided level is never finished; a finished level keeps its outcome and actors whatever the player touches afterwards |
| `Game.Level.CellAt` | game.js:110 | only a cell that exists in the grid can block; an existing cell reads as stored |
| `Game.Level.ObstacleUnder` | game.js:103-106 | the answer is empty only for a rectangle inside the level's bounds |
| `Game.Level.ScanRowFinds` | game.js:109-114 | the column scan returns the first blocked cell of the row range, and finds nothing exactly when all its cells are empty |
| `Game.Level.ScanRowsFinds` | game.js:107-116 | the nested scan returns the first blocked cell in row-major order, and finds nothing exactly when every covered cell is empty |
| `Game.Level.ObstacleUnderSpec` | game.js:99-118 | lava whenever the bottom edge is below the height, whatever the horizontal position; else wall when left < 0, right > width or top < 0; else the first wall or lava cell of rows floor(top)..ceil(bottom)-1 × columns floor(left)..ceil(right)-1 in row-major order, and empty exactly when all of them are empty |
| `Game.Level.CoveredCellsInGrid` | game.js:107-110 | inside the bounds every scanned row exists and every scanned column is below the width |
| `Game.Level.ObstacleAt` | game.js:99-118 | the loops return exactly `ObstacleUnder`; the method changes nothing |
| `Game.Level.ActorAt` | game.js:83-97 | nothing when the list has exactly one actor; otherwise the earliest listed actor that intersects the argument (never the argument itself), and nothing exactly when none does |
| `Game.Level.RemoveActor` | game.js:120-124 | the new list is the old one with the first occurrence of the actor removed |
| `Game.Level.NoMoreActors` | game.js:126-128 | true exactly when no live actor has the type |
| `Game.TouchTransitions` | game.js:130-138 | states what the function `Touch` computes: once decided, nothing changes; `lava` or `fireball` loses; `coin` with an actor removes it and wins exactly when no coin remains (never loses); any other call changes nothing |
| `Game.Level.PlayerTouched` | game.js:130-138 | the new status and actor list are those of `Touch` applied to the old ones; a finished level stays finished |
| `Game.OutcomeIsFinal` | game.js:130-138 | a decided outcome survives any series of calls unchanged, actors included; an undecided end implies an undecided start |
| `Game.CollectCoinWhileOthersRemain` | game.js:133-136 | collecting a coin while another coin remains removes it and leaves the level undecided |
| `Game.CollectLastCoin` | game.js:133-136 | collecting the only coin left wins and removes just that coin |
| `Game.CollectingEveryCoinWins` | game.js:133-136 | collecting each coin of an undecided level once wins exactly at the last coin; every shorter prefix leaves it undecided; afterwards no coin remains and all other actors do |
| `Parsing.LevelParser.constructor` | game.js:142-144 | the parser keeps the given dictionary |
| `Parsing.LevelParser.ActorFromSymbol` | game.js:146-149 | nothing exactly when the symbol is not in the dictionary; otherwise its value |
| `Parsing.LevelParser.ObstacleFromSymbol` | game.js:151-158 | wall exactly for `x`, lava exactly for `!`, empty otherwise |
| `Parsing.LevelParser.Spawns` | game.js:172-185 | exactly one actor per cell whose symbol the dictionary maps to an actor-building class, and none without a dictionary, in strictly increasing row-major order |
| `Parsing.RowSpawnsSpec` | game.js:176-183 | a row yields one spawn per column whose symbol names an actor-building class, in increasing column order |
| `Parsing.PlanSpawnsSpec` | game.js:175-185 | the plan yields exactly one spawn per cell whose symbol names an actor-building class, in strictly increasing row-major order |
| `Parsing.LevelParser.CreateGrid` | game.js:160-170 | one grid row per plan row, each as long as its plan row, cell (y, x) = obstacle of the symbol at (y, x) |
| `Parsing.LevelParser.CreateActors` | game.js:172-186 | the i-th actor is a fresh actor built by the i-th spawn's class at anchor (column, row); the actors are pairwise distinct |
| `Scenarios.PlayerAboveFloorSpawns` | game.js:172-186 | the plan `["@ ", "xx"]` with only `@` mapped to the player asks for exactly one player, in cell (0, 0) |
| `Parsing.LevelParser.Parse` | game.js:188-190 | a fresh level over that grid and those actors, with height = rows, width = longest row, player = first player, undecided status |

## Left out

- Coin motion (`updateSpring`, `getSpringVector`, the coin's `getNextPosition` and `act`, game.js:264-279) is not modelled. It uses `Math.sin` and a random starting phase. The phase is kept as an opaque value. The constants `springSpeed` = 8 and `springDist` = 0.07 are not represented.
- Game.Actor.Act: requires the actor not to be a coin, because the coin's `act` is the motion left out above.
- Game.Actor.HandleObstacle: does not return the speed vector that the fireball version returns. `act` ignores that value.
- Vector aliasing: the source negates the components of the speed object in place. The model treats vectors as values. So two fireballs constructed with one shared speed object would not both reverse, as they would in the source.
- Default constructor arguments are not modelled. These include `Vector()` = (0, 0), the `Actor` defaults, a `Fireball` default position of (-3, 4), and a `FireRain` built with no position, which records an undefined start. Every constructor here takes its position explicitly. The parser always passes one.
- The ignored second argument of the fireball subclasses' constructors is left out. The source passes it on as the speed and then overwrites it.
- The `TypeError`-style exceptions for arguments that are not a `Vector` or an `Actor` are left out. Dafny's types rule those arguments out.
- Game.Actor.Act: takes `time` explicitly, so the default `time = 1` of `getNextPosition` (game.js:204) is not modelled. In the source, `act(undefined, level)` moves a fireball by its speed times 1.
- Parsing.LevelParser.ActorFromSymbol: requires a dictionary. In the source, `actorFromSymbol` on a parser without one throws a `TypeError` (game.js:148). `createActors` never reaches it, because it returns early without a dictionary.
- Plan rows are Dafny strings of Unicode scalar values, while JavaScript strings count UTF-16 code units. Row lengths, columns and the level width therefore differ for characters outside the Basic Multilingual Plane. ASCII plans are unaffected.
- The `sym === undefined` guard in `actorFromSymbol` is left out, because a plan cell always holds a character.
- The driver is outside the model. That covers `runGame`, the display, keyboard input, decrementing `finishDelay`, and the level data and symbol table at the end of the file. Only the `isFinished` predicate is modelled.
- JavaScript numbers are modelled as exact reals, so floating-point rounding of positions is not captured.
- The level keeps the actor sequence it was given. Aliasing between that array and the caller's array is not modelled, and neither is a driver reassigning `player`, `grid`, `width` or `height`.
