/** The simulation engine of game.js: actors (the player, coins and the
    fireball family), the level with its obstacle grid and actor list, the
    collision queries and the win/lose outcome. */
module Game {
  import opened Vectors
  import opened Lists

  /** What a grid cell holds; `Empty` is the source's `undefined`. */
  datatype Obstacle = Wall | Lava | Empty

  /** The outcome of a level; `Undecided` is the source's `null`. */
  datatype Status = Undecided | Won | Lost

  /** The variant an actor was built as, with the data only that variant has. */
  datatype Kind =
    | Base
    | Player
    | Coin(startPos: Vector, spring: real)
    | Fireball
    | HorizontalFireball
    | VerticalFireball
    | FireRain(startPos: Vector)
  {
    /** Fireball and every class derived from it. */
    predicate IsFireball() {
      Fireball? || HorizontalFireball? || VerticalFireball? || FireRain?
    }

    /** The `type` getter, as each class overrides it: every variant of the
        fireball family reads `fireball`, and the four tags tell the base
        actor, the player, coins and fireballs apart. */
    function TypeName(): (r: string)
      ensures r == "actor" <==> Base?
      ensures r == "player" <==> Player?
      ensures r == "coin" <==> Coin?
      ensures r == "fireball" <==> IsFireball()
    {
      match this
      case Base => "actor"
      case Player => "player"
      case Coin(_, _) => "coin"
      case _ => "fireball"
    }
  }

  /** The classes a symbol of a level plan can name. */
  datatype ActorClass =
    | ActorBaseClass
    | PlayerClass
    | CoinClass
    | FireballClass
    | HorizontalFireballClass
    | VerticalFireballClass
    | FireRainClass

  const DefaultSize := Vector(1.0, 1.0)
  const PlayerOffset := Vector(0.0, -0.5)
  const PlayerSize := Vector(0.8, 1.5)
  const CoinOffset := Vector(0.2, 0.1)
  const CoinSize := Vector(0.6, 0.6)
  const HorizontalSpeed := Vector(2.0, 0.0)
  const VerticalSpeed := Vector(0.0, 2.0)
  const FireRainSpeed := Vector(0.0, 3.0)

  /** What `new cls(anchor)` builds, field by field. The coin's random phase
      is supplied by the caller. */
  function KindOf(cls: ActorClass, anchor: Vector, phase: real): Kind {
    match cls
    case ActorBaseClass => Base
    case PlayerClass => Kind.Player
    case CoinClass => Kind.Coin(anchor.Plus(CoinOffset), phase)
    case FireballClass => Kind.Fireball
    case HorizontalFireballClass => Kind.HorizontalFireball
    case VerticalFireballClass => Kind.VerticalFireball
    case FireRainClass => Kind.FireRain(anchor)
  }

  function SpawnPosition(cls: ActorClass, anchor: Vector): Vector {
    match cls
    case PlayerClass => anchor.Plus(PlayerOffset)
    case CoinClass => anchor.Plus(CoinOffset)
    case _ => anchor
  }

  function SpawnSize(cls: ActorClass): Vector {
    match cls
    case PlayerClass => PlayerSize
    case CoinClass => CoinSize
    case _ => DefaultSize
  }

  function SpawnSpeed(cls: ActorClass): Vector {
    match cls
    case HorizontalFireballClass => HorizontalSpeed
    case VerticalFireballClass => VerticalSpeed
    case FireRainClass => FireRainSpeed
    case _ => Zero
  }

  /** A rectangle-shaped thing on the level. Its variant and size are fixed
      at construction; its position and speed change as it acts. */
  class Actor {
    const kind: Kind
    const size: Vector
    var pos: Vector
    var speed: Vector

    /** `new Actor(position, size, speed)`. */
    constructor (position: Vector, size: Vector, speed: Vector)
      ensures kind == Base && pos == position && this.size == size && this.speed == speed
    {
      kind := Base;
      pos := position;
      this.size := size;
      this.speed := speed;
    }

    /** `new Player(anchor)`: half a cell above the anchor. */
    constructor Player(anchor: Vector)
      ensures kind == Kind.Player && pos == anchor.Plus(PlayerOffset)
      ensures size == PlayerSize && speed == Zero
    {
      kind := Kind.Player;
      pos := anchor.Plus(PlayerOffset);
      size := PlayerSize;
      speed := Zero;
    }

    /** `new Coin(anchor)`: offset into the cell, which is also the anchor
        of its bobbing; `spring` is the phase the source draws at random. */
    constructor Coin(anchor: Vector, spring: real)
      ensures kind == Kind.Coin(anchor.Plus(CoinOffset), spring)
      ensures pos == anchor.Plus(CoinOffset) && size == CoinSize && speed == Zero
    {
      kind := Kind.Coin(anchor.Plus(CoinOffset), spring);
      pos := anchor.Plus(CoinOffset);
      size := CoinSize;
      speed := Zero;
    }

    /** `new Fireball(position, speed)`: a one-cell square. */
    constructor Fireball(position: Vector, speed: Vector)
      ensures kind == Kind.Fireball && pos == position && size == DefaultSize && this.speed == speed
    {
      kind := Kind.Fireball;
      pos := position;
      size := DefaultSize;
      this.speed := speed;
    }

    constructor HorizontalFireball(position: Vector)
      ensures kind == Kind.HorizontalFireball && pos == position
      ensures size == DefaultSize && speed == HorizontalSpeed
    {
      kind := Kind.HorizontalFireball;
      pos := position;
      size := DefaultSize;
      speed := HorizontalSpeed;
    }

    constructor VerticalFireball(position: Vector)
      ensures kind == Kind.VerticalFireball && pos == position
      ensures size == DefaultSize && speed == VerticalSpeed
    {
      kind := Kind.VerticalFireball;
      pos := position;
      size := DefaultSize;
      speed := VerticalSpeed;
    }

    /** `new FireRain(position)`: remembers where it started. */
    constructor FireRain(position: Vector)
      ensures kind == Kind.FireRain(position) && pos == position
      ensures size == DefaultSize && speed == FireRainSpeed
    {
      kind := Kind.FireRain(position);
      pos := position;
      size := DefaultSize;
      speed := FireRainSpeed;
    }

    /** The `type` getter of this actor's class. */
    function TypeName(): string {
      kind.TypeName()
    }

    function Left(): real reads this { pos.x }
    function Right(): real reads this { pos.x + size.x }
    function Top(): real reads this { pos.y }
    function Bottom(): real reads this { pos.y + size.y }

    /** The edges bound the rectangle from `pos` to `pos + size`, which has
        points strictly inside it exactly when both sizes are positive. */
    lemma InteriorIffPositiveSize()
      ensures Right() - Left() == size.x && Bottom() - Top() == size.y
      ensures (exists p :: Contains(p)) <==> size.x > 0.0 && size.y > 0.0
    {
      if size.x > 0.0 && size.y > 0.0 {
        assert Contains(pos.Plus(size.Times(0.5)));
      }
    }

    /** The point lies strictly inside this actor's rectangle. */
    predicate Contains(p: Vector)
      reads this
    {
      Left() < p.x < Right() && Top() < p.y < Bottom()
    }

    /** `isIntersect`: never with itself; otherwise the two rectangles overlap
        with strict inequalities on all four sides, so touching edges do not
        count. */
    predicate IsIntersect(other: Actor)
      reads this, other
    {
      if this == other then false
      else other.Left() < Right() && other.Right() > Left() &&
           other.Top() < Bottom() && other.Bottom() > Top()
    }

    /** The state `new cls(anchor)` leaves behind. */
    ghost predicate SpawnedAs(cls: ActorClass, anchor: Vector, phase: real)
      reads this
    {
      kind == KindOf(cls, anchor, phase) && pos == SpawnPosition(cls, anchor) &&
      size == SpawnSize(cls) && speed == SpawnSpeed(cls)
    }

    /** `getNextPosition(time)` of a fireball: where it would be after `time`
        at its current speed. */
    function NextPosition(time: real): Vector
      requires kind.IsFireball()
      reads this
    {
      pos.Plus(speed.Times(time))
    }

    /** Moving for `t1 + t2` at one speed is moving for `t1` and then for
        `t2`, and moving for no time stays put. */
    lemma NextPositionAdditive(t1: real, t2: real)
      requires kind.IsFireball()
      ensures NextPosition(0.0) == pos
      ensures NextPosition(t1 + t2) == NextPosition(t1).Plus(speed.Times(t2))
    {
      TimesLaws(speed, speed, t1, t2);
    }

    /** `handleObstacle`: a fireball reverses its speed; a fire rain drop
        instead goes back to where it started. */
    method HandleObstacle()
      requires kind.IsFireball()
      modifies this`pos, this`speed
      ensures kind.FireRain? ==> pos == kind.startPos && speed == old(speed)
      ensures !kind.FireRain? ==> pos == old(pos) && speed == old(speed).Negated()
    {
      if kind.FireRain? {
        pos := kind.startPos;
      } else {
        speed := Vector(-speed.x, -speed.y);
      }
    }

    /** `act(time, level)`. The base actor and the player do nothing; a
        fireball moves on when the rectangle at its next position is free and
        handles the obstacle otherwise. A fireball that starts on free ground
        (and, for fire rain, started on free ground) stays on free ground.
        After a bounce the fireball aims at the blocked target mirrored
        through the position it kept. */
    method Act(time: real, level: Level)
      requires !kind.Coin? && level.Valid()
      modifies this`pos, this`speed
      ensures !kind.IsFireball() ==> pos == old(pos) && speed == old(speed)
      ensures kind.IsFireball() ==>
        var next := old(pos).Plus(old(speed).Times(time));
        if level.ObstacleUnder(next, size) == Empty then pos == next && speed == old(speed)
        else if kind.FireRain? then pos == kind.startPos && speed == old(speed)
        else pos == old(pos) && speed == old(speed).Negated()
      ensures kind.IsFireball() && level.ObstacleUnder(old(pos), size) == Empty &&
              (kind.FireRain? ==> level.ObstacleUnder(kind.startPos, size) == Empty)
              ==> level.ObstacleUnder(pos, size) == Empty
      ensures kind.IsFireball() && !kind.FireRain? && level.ObstacleUnder(old(NextPosition(time)), size) != Empty ==>
        NextPosition(time) == old(pos).Plus(old(speed).Negated().Times(time)) &&
        NextPosition(time).Plus(old(NextPosition(time))) == pos.Times(2.0)
    {
      if kind.IsFireball() {
        var next := NextPosition(time);
        var obstacle := level.ObstacleAt(next, size);
        if obstacle == Empty {
          pos := next;
        } else {
          HandleObstacle();
          if !kind.FireRain? {
            ReversedStepMirrors(pos, old(speed), time);
          }
        }
      }
    }
  }

  /** `new cls(anchor)` for a class named in a level plan. */
  method Construct(cls: ActorClass, anchor: Vector, phase: real) returns (a: Actor)
    ensures fresh(a) && a.SpawnedAs(cls, anchor, phase)
  {
    if cls == ActorBaseClass {
      a := new Actor(anchor, DefaultSize, Zero);
    } else if cls == PlayerClass {
      a := new Actor.Player(anchor);
    } else if cls == CoinClass {
      a := new Actor.Coin(anchor, phase);
    } else if cls == FireballClass {
      a := new Actor.Fireball(anchor, Zero);
    } else if cls == HorizontalFireballClass {
      a := new Actor.HorizontalFireball(anchor);
    } else if cls == VerticalFireballClass {
      a := new Actor.VerticalFireball(anchor);
    } else {
      a := new Actor.FireRain(anchor);
    }
  }

  /** `isIntersect` is exactly "distinct actors whose open rectangles share a
      point", for actors of positive size. */
  lemma IntersectIffCommonPoint(a: Actor, b: Actor)
    requires a.size.x > 0.0 && a.size.y > 0.0 && b.size.x > 0.0 && b.size.y > 0.0
    ensures a.IsIntersect(b) <==> a != b && exists p :: a.Contains(p) && b.Contains(p)
  {
    if a != b && a.IsIntersect(b) {
      var left := if a.Left() < b.Left() then b.Left() else a.Left();
      var right := if a.Right() < b.Right() then a.Right() else b.Right();
      var top := if a.Top() < b.Top() then b.Top() else a.Top();
      var bottom := if a.Bottom() < b.Bottom() then a.Bottom() else b.Bottom();
      var p := Vector((left + right) / 2.0, (top + bottom) / 2.0);
      assert a.Contains(p) && b.Contains(p);
    }
  }

  /** An actor never intersects itself, intersection is symmetric, and two
      rectangles that only share an edge do not intersect. */
  lemma IntersectBasics(a: Actor, b: Actor)
    ensures !a.IsIntersect(a)
    ensures a.IsIntersect(b) == b.IsIntersect(a)
    ensures (a.Right() == b.Left() || a.Left() == b.Right() ||
             a.Bottom() == b.Top() || a.Top() == b.Bottom()) ==> !a.IsIntersect(b)
  {
  }

  /** `some(el => el.type === t)`. */
  function SomeOfType(s: seq<Actor>, t: string): (r: bool)
    ensures r <==> exists i :: 0 <= i < |s| && s[i].TypeName() == t
  {
    if |s| == 0 then false
    else s[0].TypeName() == t || SomeOfType(s[1..], t)
  }

  /** `find(el => el.type === t)`: the first actor of that type, or null. */
  function FirstOfType(s: seq<Actor>, t: string): (r: Actor?)
    ensures r == null <==> forall i :: 0 <= i < |s| ==> s[i].TypeName() != t
    ensures r != null ==> exists k :: 0 <= k < |s| && s[k] == r && r.TypeName() == t &&
                                      forall i :: 0 <= i < k ==> s[i].TypeName() != t
  {
    if |s| == 0 then null
    else if s[0].TypeName() == t then s[0]
    else
      var r := FirstOfType(s[1..], t);
      assert r != null ==> exists k :: 0 <= k < |s| - 1 && s[1..][k] == r &&
                                      forall i :: 0 <= i < k ==> s[1..][i].TypeName() != t;
      r
  }

  /** The grid's `reduce` to the longest row; 0 for an empty grid. */
  function MaxRowLength<T>(rows: seq<seq<T>>): (r: nat)
    ensures forall i :: 0 <= i < |rows| ==> |rows[i]| <= r
    ensures |rows| == 0 ==> r == 0
    ensures |rows| > 0 ==> exists i :: 0 <= i < |rows| && |rows[i]| == r
  {
    if |rows| == 0 then 0
    else
      var m := MaxRowLength(rows[..|rows| - 1]);
      var last := |rows[|rows| - 1]|;
      assert forall i :: 0 <= i < |rows| - 1 ==> rows[..|rows| - 1][i] == rows[i];
      if m > last then m else last
  }

  /** The outcome state machine of `playerTouched` on values: the status and
      actor list after the player touched something of type `tag`
      (`actor` is the touched actor, or null). */
  function Touch(st: Status, actors: seq<Actor>, tag: string, actor: Actor?): (Status, seq<Actor>) {
    if st != Undecided then (st, actors)
    else if tag == "lava" || tag == "fireball" then (Lost, actors)
    else if tag == "coin" && actor != null then
      var rest := RemoveFirst(actors, actor);
      (if SomeOfType(rest, "coin") then Undecided else Won, rest)
    else (st, actors)
  }

  /** The transitions of the outcome state machine: a decided outcome is
      final; lava or a fireball loses; a coin is removed and wins exactly when
      it was the last coin; anything else changes nothing. */
  lemma TouchTransitions(st: Status, actors: seq<Actor>, tag: string, actor: Actor?)
    ensures st != Undecided ==> Touch(st, actors, tag, actor) == (st, actors)
    ensures st == Undecided && (tag == "lava" || tag == "fireball") ==> Touch(st, actors, tag, actor) == (Lost, actors)
    ensures st == Undecided && tag == "coin" && actor != null ==>
      var r := Touch(st, actors, tag, actor);
      r.1 == RemoveFirst(actors, actor) && r.0 != Lost &&
      (r.0 == Won <==> forall i :: 0 <= i < |r.1| ==> r.1[i].TypeName() != "coin")
    ensures tag != "lava" && tag != "fireball" && (tag != "coin" || actor == null) ==>
      Touch(st, actors, tag, actor) == (st, actors)
  {
    assert "lava"[0] != "coin"[0] && "fireball"[0] != "coin"[0];
  }

  /** The tags that lose the level are not the coin's tag. */
  lemma DeadlyTagsAreNotCoin(tag: string)
    ensures tag == "lava" || tag == "fireball" ==> tag != "coin"
  {
    assert "lava"[0] != "coin"[0] && "fireball"[0] != "coin"[0];
  }

  /** One call of `playerTouched`. */
  datatype Touching = Touching(tag: string, actor: Actor?)

  /** The state after a series of `playerTouched` calls. */
  function Touches(st: Status, actors: seq<Actor>, calls: seq<Touching>): (Status, seq<Actor>)
    decreases |calls|
  {
    if |calls| == 0 then (st, actors)
    else
      var next := Touch(st, actors, calls[0].tag, calls[0].actor);
      Touches(next.0, next.1, calls[1..])
  }

  /** The outcome is final: once decided, no series of calls changes the
      status or the actors; so an undecided end means an undecided start. */
  lemma {:induction false} OutcomeIsFinal(st: Status, actors: seq<Actor>, calls: seq<Touching>)
    ensures st != Undecided ==> Touches(st, actors, calls) == (st, actors)
    ensures Touches(st, actors, calls).0 == Undecided ==> st == Undecided
    decreases |calls|
  {
    if |calls| > 0 {
      var next := Touch(st, actors, calls[0].tag, calls[0].actor);
      OutcomeIsFinal(next.0, next.1, calls[1..]);
    }
  }

  /** Touching the given coins one after another. */
  function CollectCoins(st: Status, actors: seq<Actor>, coins: seq<Actor>): (Status, seq<Actor>)
    decreases |coins|
  {
    if |coins| == 0 then (st, actors)
    else
      var next := Touch(st, actors, "coin", coins[0]);
      CollectCoins(next.0, next.1, coins[1..])
  }

  /** Every coin of `actors`, and only those, listed once each in `coins`. */
  ghost predicate AllCoinsOnce(actors: seq<Actor>, coins: seq<Actor>) {
    NoDuplicates(actors) && NoDuplicates(coins) &&
    (forall c :: c in coins ==> c in actors && c.TypeName() == "coin") &&
    (forall a :: a in actors && a.TypeName() == "coin" ==> a in coins)
  }

  /** Once the first of several coins is removed, the remaining coins are
      listed once each, at least one coin is left, and every other actor
      stays. */
  lemma RemainingCoinsOnce(actors: seq<Actor>, coins: seq<Actor>)
    requires AllCoinsOnce(actors, coins) && |coins| > 1
    ensures AllCoinsOnce(RemoveFirst(actors, coins[0]), coins[1..])
    ensures SomeOfType(RemoveFirst(actors, coins[0]), "coin")
    ensures forall a :: a in RemoveFirst(actors, coins[0]) <==> a in actors && a != coins[0]
  {
    var rest := RemoveFirst(actors, coins[0]);
    RemoveFirstDistinct(actors, coins[0]);
    assert coins[1] in rest by {
      assert coins[1] in coins && coins[1] != coins[0];
    }
    var j :| 0 <= j < |rest| && rest[j] == coins[1];
    var tail := coins[1..];
    forall c | c in tail
      ensures c in rest && c.TypeName() == "coin"
    {
      var j :| 1 <= j < |coins| && coins[j] == c;
      assert coins[j] != coins[0];
    }
    forall a | a in rest && a.TypeName() == "coin"
      ensures a in tail
    {
      var j :| 0 <= j < |coins| && coins[j] == a;
      assert j != 0;
      assert tail[j - 1] == a;
    }
  }

  /** Collecting a coin while another coin remains keeps the level
      undecided. */
  lemma CollectCoinWhileOthersRemain(actors: seq<Actor>, coin: Actor)
    requires SomeOfType(RemoveFirst(actors, coin), "coin")
    ensures Touch(Undecided, actors, "coin", coin) == (Undecided, RemoveFirst(actors, coin))
  {
  }

  /** Collecting the only coin left wins, and removes just that coin. */
  lemma CollectLastCoin(actors: seq<Actor>, coins: seq<Actor>)
    requires AllCoinsOnce(actors, coins) && |coins| == 1
    ensures CollectCoins(Undecided, actors, coins) == (Won, RemoveFirst(actors, coins[0]))
    ensures forall a :: a in RemoveFirst(actors, coins[0]) <==> a in actors && a != coins[0]
  {
    var rest := RemoveFirst(actors, coins[0]);
    RemoveFirstDistinct(actors, coins[0]);
    assert !SomeOfType(rest, "coin") by {
      forall i | 0 <= i < |rest|
        ensures rest[i].TypeName() != "coin"
      {
        assert rest[i] in rest;
      }
    }
    assert coins[1..] == [];
  }

  /** Collecting a non-empty list of coins is collecting its first one, then
      the rest. */
  lemma CollectCoinsUnfold(st: Status, actors: seq<Actor>, coins: seq<Actor>, k: nat)
    requires 0 < k <= |coins|
    ensures var next := Touch(st, actors, "coin", coins[0]);
      CollectCoins(st, actors, coins[..k]) == CollectCoins(next.0, next.1, coins[1..][..k - 1])
  {
    assert coins[..k][0] == coins[0];
    assert coins[..k][1..] == coins[1..][..k - 1];
  }

  /** Collecting every coin of an undecided level, once each, wins it exactly
      at the last coin: every shorter prefix leaves the level undecided, and
      at the end the coins are gone and every other actor remains. */
  lemma {:induction false} CollectingEveryCoinWins(actors: seq<Actor>, coins: seq<Actor>)
    requires AllCoinsOnce(actors, coins) && |coins| > 0
    ensures CollectCoins(Undecided, actors, coins).0 == Won
    ensures forall a :: a in CollectCoins(Undecided, actors, coins).1 <==> a in actors && a !in coins
    ensures forall k :: 0 <= k < |coins| ==> CollectCoins(Undecided, actors, coins[..k]).0 == Undecided
    decreases |coins|
  {
    var rest := RemoveFirst(actors, coins[0]);
    var tail := coins[1..];
    forall a
      ensures a in coins <==> a == coins[0] || a in tail
    {
      assert coins == [coins[0]] + tail;
    }
    if |coins| == 1 {
      CollectLastCoin(actors, coins);
      assert coins[..0] == [];
    } else {
      RemainingCoinsOnce(actors, coins);
      CollectCoinWhileOthersRemain(actors, coins[0]);
      CollectingEveryCoinWins(rest, tail);
      CollectCoinsUnfold(Undecided, actors, coins, |coins|);
      assert coins[..|coins|] == coins && tail[..|tail|] == tail;
      forall k | 0 < k < |coins|
        ensures CollectCoins(Undecided, actors, coins[..k]).0 == Undecided
      {
        CollectCoinsUnfold(Undecided, actors, coins, k);
      }
      assert coins[..0] == [];
    }
  }

  /** A level: a fixed obstacle grid, the live actors, and the outcome. */
  class Level {
    const grid: seq<seq<Obstacle>>
    const height: int
    const width: int
    const player: Actor?
    var actors: seq<Actor>
    var status: Status
    var finishDelay: real

    /** `new Level(grid, actors)`. */
    constructor (grid: seq<seq<Obstacle>>, actors: seq<Actor>)
      ensures this.grid == grid && this.actors == actors
      ensures height == |grid| && width == MaxRowLength(grid)
      ensures player == FirstOfType(actors, "player")
      ensures status == Undecided && finishDelay == 1.0
      ensures Valid() && !IsFinished()
    {
      this.grid := grid;
      this.actors := actors;
      player := FirstOfType(actors, "player");
      height := |grid|;
      width := MaxRowLength(grid);
      status := Undecided;
      finishDelay := 1.0;
    }

    /** What the constructor establishes and nothing changes afterwards:
        the height counts the rows and the width is the longest row. */
    ghost predicate Valid()
      reads this
    {
      height == |grid| && width == MaxRowLength(grid)
    }

    /** `isFinished`: the outcome is decided and the driver's delay ran out. */
    predicate IsFinished()
      reads this
    {
      status != Undecided && finishDelay < 0.0
    }

    /** An undecided level is never finished, and a finished level stays
        finished with the same outcome and actors whatever the player touches
        afterwards. */
    lemma FinishedIsFinal(calls: seq<Touching>)
      ensures status == Undecided ==> !IsFinished()
      ensures IsFinished() ==> Touches(status, actors, calls) == (status, actors)
    {
      OutcomeIsFinal(status, actors, calls);
    }

    /** `grid[y][x]`, where a cell past the end of a row (or outside the grid)
        reads as empty. */
    function CellAt(y: int, x: int): (r: Obstacle)
      ensures r != Empty ==> 0 <= y < |grid| && 0 <= x < |grid[y]|
      ensures 0 <= y < |grid| && 0 <= x < |grid[y]| ==> r == grid[y][x]
    {
      if 0 <= y < |grid| && 0 <= x < |grid[y]| then grid[y][x] else Empty
    }

    /** The first non-empty cell of row `y` among columns `x .. xEnd - 1`. */
    function ScanRow(y: int, x: int, xEnd: int): Obstacle
      decreases xEnd - x
    {
      if x >= xEnd then Empty
      else if CellAt(y, x) != Empty then CellAt(y, x)
      else ScanRow(y, x + 1, xEnd)
    }

    /** The first non-empty cell, row by row, of rows `y .. yEnd - 1` and
        columns `x0 .. xEnd - 1`. */
    function ScanRows(y: int, yEnd: int, x0: int, xEnd: int): Obstacle
      decreases yEnd - y
    {
      if y >= yEnd then Empty
      else if ScanRow(y, x0, xEnd) != Empty then ScanRow(y, x0, xEnd)
      else ScanRows(y + 1, yEnd, x0, xEnd)
    }

    /** What `obstacleAt(pos, size)` answers; free ground always lies inside
        the level's bounds. */
    function ObstacleUnder(pos: Vector, size: Vector): (r: Obstacle)
      ensures r == Empty ==> 0.0 <= pos.x && pos.x + size.x <= width as real &&
                             0.0 <= pos.y && pos.y + size.y <= height as real
    {
      if pos.y + size.y > height as real then Lava
      else if pos.x < 0.0 || pos.x + size.x > width as real || pos.y < 0.0 then Wall
      else if |grid| == 0 then Empty
      else ScanRows(Floor(pos.y), Ceil(pos.y + size.y), Floor(pos.x), Ceil(pos.x + size.x))
    }

    lemma {:induction false} ScanRowFinds(y: int, x: int, xEnd: int)
      ensures ScanRow(y, x, xEnd) == Empty <==> forall k :: x <= k < xEnd ==> CellAt(y, k) == Empty
      ensures ScanRow(y, x, xEnd) != Empty ==>
        exists k :: x <= k < xEnd && CellAt(y, k) == ScanRow(y, x, xEnd) &&
                    forall j :: x <= j < k ==> CellAt(y, j) == Empty
      decreases xEnd - x
    {
      if x < xEnd {
        ScanRowFinds(y, x + 1, xEnd);
      }
    }

    /** The row-by-row scan finds the first blocked cell of the range in
        row-major order, and finds nothing exactly when every cell is empty. */
    lemma {:induction false} ScanRowsFinds(y: int, yEnd: int, x0: int, xEnd: int)
      ensures ScanRows(y, yEnd, x0, xEnd) == Empty <==>
        forall i, k :: y <= i < yEnd && x0 <= k < xEnd ==> CellAt(i, k) == Empty
      ensures ScanRows(y, yEnd, x0, xEnd) != Empty ==>
        exists i, k :: y <= i < yEnd && x0 <= k < xEnd && CellAt(i, k) == ScanRows(y, yEnd, x0, xEnd) &&
          forall i', k' :: y <= i' < yEnd && x0 <= k' < xEnd && (i' < i || (i' == i && k' < k)) ==>
            CellAt(i', k') == Empty
      decreases yEnd - y
    {
      if y < yEnd {
        ScanRowFinds(y, x0, xEnd);
        ScanRowsFinds(y + 1, yEnd, x0, xEnd);
      }
    }

    /** `obstacleAt`: lava below the bottom edge (whatever the horizontal
        position), otherwise wall outside the other three edges, otherwise the
        first blocked cell of the covered cells in row-major order, and empty
        exactly when every covered cell is empty. */
    lemma ObstacleUnderSpec(pos: Vector, size: Vector)
      ensures pos.y + size.y > height as real ==> ObstacleUnder(pos, size) == Lava
      ensures pos.y + size.y <= height as real && (pos.x < 0.0 || pos.x + size.x > width as real || pos.y < 0.0)
              ==> ObstacleUnder(pos, size) == Wall
      ensures pos.y + size.y <= height as real && 0.0 <= pos.x && pos.x + size.x <= width as real && 0.0 <= pos.y ==>
        var rows, rowEnd := Floor(pos.y), Ceil(pos.y + size.y);
        var cols, colEnd := Floor(pos.x), Ceil(pos.x + size.x);
        (ObstacleUnder(pos, size) == Empty <==>
          forall i, k :: rows <= i < rowEnd && cols <= k < colEnd ==> CellAt(i, k) == Empty) &&
        (ObstacleUnder(pos, size) != Empty ==>
          exists i, k :: rows <= i < rowEnd && cols <= k < colEnd && CellAt(i, k) == ObstacleUnder(pos, size) &&
            forall i', k' :: rows <= i' < rowEnd && cols <= k' < colEnd && (i' < i || (i' == i && k' < k)) ==>
              CellAt(i', k') == Empty)
    {
      ScanRowsFinds(Floor(pos.y), Ceil(pos.y + size.y), Floor(pos.x), Ceil(pos.x + size.x));
    }

    /** Inside the bounds every covered cell lies in a row of the grid and
        below the width, so the scan never reads a missing row. */
    lemma CoveredCellsInGrid(pos: Vector, size: Vector)
      requires Valid()
      requires pos.y + size.y <= height as real && 0.0 <= pos.x && pos.x + size.x <= width as real && 0.0 <= pos.y
      ensures 0 <= Floor(pos.y) && Ceil(pos.y + size.y) <= |grid|
      ensures 0 <= Floor(pos.x) && Ceil(pos.x + size.x) <= width
    {
      RoundingWithinIntegerBounds(pos.y, 0);
      RoundingWithinIntegerBounds(pos.y + size.y, height);
      RoundingWithinIntegerBounds(pos.x, 0);
      RoundingWithinIntegerBounds(pos.x + size.x, width);
    }

    /** `obstacleAt(pos, size)`: the checks in order, then the nested scan
        with an early return. */
    method ObstacleAt(pos: Vector, size: Vector) returns (r: Obstacle)
      requires Valid()
      ensures r == ObstacleUnder(pos, size)
    {
      if pos.y + size.y > height as real {
        return Lava;
      }
      if pos.x < 0.0 || pos.x + size.x > width as real || pos.y < 0.0 {
        return Wall;
      }
      if |grid| > 0 {
        var y0, yEnd := Floor(pos.y), Ceil(pos.y + size.y);
        var x0, xEnd := Floor(pos.x), Ceil(pos.x + size.x);
        CoveredCellsInGrid(pos, size);
        var y := y0;
        while y < yEnd
          invariant 0 <= y0 <= y
          invariant ScanRows(y0, yEnd, x0, xEnd) == ScanRows(y, yEnd, x0, xEnd)
          decreases yEnd - y
        {
          var x := x0;
          while x < xEnd
            invariant x0 <= x
            invariant ScanRow(y, x0, xEnd) == ScanRow(y, x, xEnd)
            decreases xEnd - x
          {
            var cell := if x < |grid[y]| then grid[y][x] else Empty;
            if cell == Lava || cell == Wall {
              return cell;
            }
            x := x + 1;
          }
          y := y + 1;
        }
      }
      return Empty;
    }

    /** `actorAt(actor)`: nothing when the list holds exactly one actor;
        otherwise the earliest actor in list order that intersects `actor`
        (never `actor` itself), and nothing when there is none. */
    method ActorAt(a: Actor) returns (r: Actor?)
      ensures |actors| == 1 ==> r == null
      ensures |actors| != 1 ==> (r == null <==> forall i :: 0 <= i < |actors| ==> !a.IsIntersect(actors[i]))
      ensures r != null ==> r != a && exists k :: 0 <= k < |actors| && actors[k] == r && a.IsIntersect(r) &&
                                               forall i :: 0 <= i < k ==> !a.IsIntersect(actors[i])
    {
      if |actors| == 1 {
        return null;
      }
      var i := 0;
      while i < |actors|
        invariant 0 <= i <= |actors|
        invariant forall j :: 0 <= j < i ==> !a.IsIntersect(actors[j])
      {
        if a.IsIntersect(actors[i]) {
          return actors[i];
        }
        i := i + 1;
      }
      return null;
    }

    /** `removeActor(actor)`: the first occurrence goes, the rest keep their
        order; an absent actor changes nothing. */
    method RemoveActor(a: Actor)
      modifies this`actors
      ensures actors == RemoveFirst(old(actors), a)
    {
      var i := IndexOf(actors, a);
      if i >= 0 {
        actors := actors[..i] + actors[i + 1..];
      }
    }

    /** `noMoreActors(type)`: no live actor has that type. */
    function NoMoreActors(t: string): (r: bool)
      reads this
      ensures r <==> forall i :: 0 <= i < |actors| ==> actors[i].TypeName() != t
    {
      !SomeOfType(actors, t)
    }

    /** `playerTouched(type, actor)`. */
    method PlayerTouched(tag: string, actor: Actor?)
      modifies this`status, this`actors
      ensures (status, actors) == Touch(old(status), old(actors), tag, actor)
      ensures old(IsFinished()) ==> IsFinished()
    {
      ghost var after := Touch(status, actors, tag, actor);
      if status == Undecided {
        if tag == "lava" || tag == "fireball" {
          status := Lost;
          DeadlyTagsAreNotCoin(tag);
        }
        if tag == "coin" && actor != null {
          DeadlyTagsAreNotCoin(tag);
          ghost var before := actors;
          RemoveActor(actor);
          assert status == Undecided && actors == RemoveFirst(before, actor);
          if !SomeOfType(actors, "coin") {
            status := Won;
          }
        }
      }
      assert (status, actors) == after;
    }
  }
}
