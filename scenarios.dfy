/** Concrete situations, checked from the contracts alone. */
module Scenarios {
  import opened Vectors
  import opened Game
  import opened Parsing

  const PlayerOnly := map['@' := Maker(PlayerClass)]

  /** The plan `["@ ", "xx"]` asks for one player, in the top-left cell. */
  lemma PlayerAboveFloorSpawns()
    ensures PlanSpawns(["@ ", "xx"], PlayerOnly) == [Spawn(PlayerClass, 0, 0)]
  {
    assert ["@ ", "xx"][..1] == ["@ "] && ["@ "][..0] == [];
    assert "@ "[..1] == "@" && "@"[..0] == "";
    assert "xx"[..1] == "x" && "x"[..0] == "";
    assert RowSpawns("@ ", 0, PlayerOnly) == [Spawn(PlayerClass, 0, 0)];
    assert RowSpawns("xx", 1, PlayerOnly) == [];
  }

  /** A plan with the player above a two-cell floor. */
  method PlayerAboveFloor() {
    var parser := new LevelParser(Some(PlayerOnly));
    var plan := ["@ ", "xx"];
    PlayerAboveFloorSpawns();
    var level := parser.Parse(plan, (x, y) => 0.0);
    assert |level.actors| == 1;
    var p := level.actors[0];
    assert p.kind == Kind.Player && p.pos == Vector(0.0, -0.5);
    assert RowOf(level.grid[0], "@ ") && RowOf(level.grid[1], "xx");
    assert level.grid[0] == [Empty, Empty] && level.grid[1] == [Wall, Wall];
  }

  /** A horizontal fireball whose next cell is a wall turns round in place. */
  method HorizontalFireballBounces() {
    var level := new Level([[Empty, Empty, Wall]], []);
    var ball := new Actor.HorizontalFireball(Vector(0.0, 0.0));
    assert level.ObstacleUnder(Vector(2.0, 0.0), DefaultSize) == Wall by {
      assert level.CellAt(0, 2) == Wall;
    }
    ball.Act(1.0, level);
    assert ball.speed == Vector(-2.0, 0.0) && ball.pos == Vector(0.0, 0.0);
  }

  /** A fire rain drop that hits lava below goes back to where it started,
      at unchanged speed. */
  method FireRainResets() {
    var level := new Level([[Empty], [Empty], [Empty], [Lava]], []);
    var drop := new Actor.FireRain(Vector(0.0, 0.0));
    drop.Act(1.0, level);
    assert drop.pos == Vector(0.0, 0.0);
    assert level.ObstacleUnder(Vector(0.0, 3.0), DefaultSize) == Lava by {
      assert level.ScanRows(3, 4, 0, 1) == Lava;
    }
    drop.Act(1.0, level);
    assert drop.pos == Vector(0.0, 0.0) && drop.speed == FireRainSpeed;
  }

  /** Touching lava loses, and nothing afterwards changes the outcome. */
  method LavaLosesForGood() {
    var coin := new Actor.Coin(Vector(1.0, 0.0), 0.0);
    var level := new Level([[Empty, Empty]], [coin]);
    level.PlayerTouched("lava", null);
    assert level.status == Lost;
    level.PlayerTouched("coin", coin);
    assert level.status == Lost && level.actors == [coin];
  }
}
