/** LevelParser of game.js: turns a plan (rows of characters) into an
    obstacle grid and a row-major list of actors, and wraps both in a Level. */
module Parsing {
  import opened Vectors
  import opened Lists
  import opened Game

  datatype Option<T> = None | Some(value: T)

  /** A value of the symbol dictionary: a class that builds an actor, a
      function that builds something else, or a value that is no function. */
  datatype Entry = Maker(cls: ActorClass) | OtherFunction | NotAFunction

  /** An actor the plan asks for: its class and the cell it stands in. */
  datatype Spawn = Spawn(cls: ActorClass, col: nat, row: nat) {
    function Anchor(): Vector {
      Vector(col as real, row as real)
    }
  }

  /** `a` comes before `b` in row-major order. */
  predicate Precedes(a: Spawn, b: Spawn) {
    a.row < b.row || (a.row == b.row && a.col < b.col)
  }

  /** The spawn a single character of row `y`, column `x` yields, if any. */
  function CellSpawns(c: char, x: nat, y: nat, dict: map<char, Entry>): seq<Spawn> {
    if c in dict && dict[c].Maker? then [Spawn(dict[c].cls, x, y)] else []
  }

  /** The spawns of one plan row, left to right. */
  function RowSpawns(line: string, y: nat, dict: map<char, Entry>): seq<Spawn>
    decreases |line|
  {
    if |line| == 0 then []
    else RowSpawns(line[..|line| - 1], y, dict) + CellSpawns(line[|line| - 1], |line| - 1, y, dict)
  }

  /** The spawns of a plan, row by row. */
  function PlanSpawns(plan: seq<string>, dict: map<char, Entry>): seq<Spawn>
    decreases |plan|
  {
    if |plan| == 0 then []
    else PlanSpawns(plan[..|plan| - 1], dict) + RowSpawns(plan[|plan| - 1], |plan| - 1, dict)
  }

  /** The cell of `s` exists in the plan and names the class of `s`. */
  ghost predicate Spawnable(plan: seq<string>, dict: map<char, Entry>, s: Spawn) {
    s.row < |plan| && s.col < |plan[s.row]| &&
    plan[s.row][s.col] in dict && dict[plan[s.row][s.col]] == Maker(s.cls)
  }

  lemma {:induction false} RowSpawnsSpec(line: string, y: nat, dict: map<char, Entry>)
    ensures forall s :: s in RowSpawns(line, y, dict) <==>
      s.row == y && s.col < |line| && line[s.col] in dict && dict[line[s.col]] == Maker(s.cls)
    ensures forall i, j :: 0 <= i < j < |RowSpawns(line, y, dict)| ==>
      RowSpawns(line, y, dict)[i].col < RowSpawns(line, y, dict)[j].col
    decreases |line|
  {
    if |line| > 0 {
      var init := line[..|line| - 1];
      RowSpawnsSpec(init, y, dict);
      assert forall k :: 0 <= k < |init| ==> init[k] == line[k];
    }
  }

  /** The plan's spawns are exactly one per cell whose symbol names a class
      that builds an actor, in strictly increasing row-major order. */
  lemma {:induction false} PlanSpawnsSpec(plan: seq<string>, dict: map<char, Entry>)
    ensures forall s :: s in PlanSpawns(plan, dict) <==> Spawnable(plan, dict, s)
    ensures forall i, j :: 0 <= i < j < |PlanSpawns(plan, dict)| ==>
      Precedes(PlanSpawns(plan, dict)[i], PlanSpawns(plan, dict)[j])
    decreases |plan|
  {
    if |plan| > 0 {
      var init := plan[..|plan| - 1];
      var last := |plan| - 1;
      PlanSpawnsSpec(init, dict);
      RowSpawnsSpec(plan[last], last, dict);
      assert forall k :: 0 <= k < |init| ==> init[k] == plan[k];
      var front, back := PlanSpawns(init, dict), RowSpawns(plan[last], last, dict);
      assert PlanSpawns(plan, dict) == front + back;
      forall i | 0 <= i < |front|
        ensures front[i].row < last
      {
        assert front[i] in front;
      }
      forall j | 0 <= j < |back|
        ensures back[j].row == last
      {
        assert back[j] in back;
      }
    }
  }

  /** A grid row built from a plan row, cell by cell. */
  ghost predicate RowOf(row: seq<Obstacle>, line: string) {
    |row| == |line| && forall x :: 0 <= x < |line| ==> row[x] == LevelParser.ObstacleFromSymbol(line[x])
  }

  /** `createGrid(plan)`'s result: one row per plan row, each as long as its
      plan row. */
  ghost predicate IsGridOf(grid: seq<seq<Obstacle>>, plan: seq<string>) {
    |grid| == |plan| && forall y :: 0 <= y < |plan| ==> RowOf(grid[y], plan[y])
  }

  /** The parser is configured once with its symbol dictionary, which may be
      missing (`undefined`). */
  class LevelParser {
    const symbolDict: Option<map<char, Entry>>

    constructor (symbolDict: Option<map<char, Entry>>)
      ensures this.symbolDict == symbolDict
    {
      this.symbolDict := symbolDict;
    }

    /** `actorFromSymbol(sym)`: the dictionary's value, or nothing. */
    function ActorFromSymbol(sym: char): (r: Option<Entry>)
      requires symbolDict.Some?
      ensures r.None? <==> sym !in symbolDict.value
      ensures r.Some? ==> r.value == symbolDict.value[sym]
    {
      if sym in symbolDict.value then Some(symbolDict.value[sym]) else None
    }

    /** `obstacleFromSymbol(sym)`: `x` is wall, `!` is lava, anything else
        is empty. */
    static function ObstacleFromSymbol(sym: char): (r: Obstacle)
      ensures r == Wall <==> sym == 'x'
      ensures r == Lava <==> sym == '!'
    {
      if sym == 'x' then Wall
      else if sym == '!' then Lava
      else Empty
    }

    /** The actors `createActors(plan)` builds, described by class and cell:
        exactly one per cell whose symbol the dictionary maps to an
        actor-building class (none without a dictionary), in strictly
        increasing row-major order. */
    function Spawns(plan: seq<string>): (r: seq<Spawn>)
      ensures forall s :: s in r <==> symbolDict.Some? && Spawnable(plan, symbolDict.value, s)
      ensures forall i, j :: 0 <= i < j < |r| ==> Precedes(r[i], r[j])
    {
      if |plan| == 0 || symbolDict.None? then []
      else
        PlanSpawnsSpec(plan, symbolDict.value);
        PlanSpawns(plan, symbolDict.value)
    }

    /** `createGrid(plan)`: fill an empty row per plan row, then set every
        cell from its symbol. */
    method CreateGrid(plan: seq<string>) returns (grid: seq<seq<Obstacle>>)
      ensures IsGridOf(grid, plan)
    {
      grid := [];
      while |grid| < |plan|
        invariant |grid| <= |plan|
        invariant forall i :: 0 <= i < |grid| ==> grid[i] == []
      {
        grid := grid + [[]];
      }
      var y := 0;
      while y < |plan|
        invariant 0 <= y <= |plan| && |grid| == |plan|
        invariant forall i :: 0 <= i < y ==> RowOf(grid[i], plan[i])
        invariant forall i :: y <= i < |plan| ==> grid[i] == []
      {
        var x := 0;
        while x < |plan[y]|
          invariant 0 <= x <= |plan[y]| && |grid| == |plan|
          invariant |grid[y]| == x
          invariant forall k :: 0 <= k < x ==> grid[y][k] == ObstacleFromSymbol(plan[y][k])
          invariant forall i :: 0 <= i < y ==> RowOf(grid[i], plan[i])
          invariant forall i :: y < i < |plan| ==> grid[i] == []
        {
          grid := grid[y := grid[y] + [ObstacleFromSymbol(plan[y][x])]];
          x := x + 1;
        }
        y := y + 1;
      }
    }

    /** `createActors(plan)`: a new actor for every cell whose symbol names an
        actor-building class, in row-major order, anchored at (column, row);
        `phase` supplies each coin's random phase. */
    method CreateActors(plan: seq<string>, phase: (nat, nat) -> real) returns (actors: seq<Actor>)
      ensures |actors| == |Spawns(plan)|
      ensures forall i :: 0 <= i < |actors| ==>
        var s := Spawns(plan)[i];
        fresh(actors[i]) && actors[i].SpawnedAs(s.cls, s.Anchor(), phase(s.col, s.row))
      ensures NoDuplicates(actors)
    {
      if |plan| == 0 || symbolDict.None? {
        return [];
      }
      var dict := symbolDict.value;
      actors := [];
      ghost var done: seq<Spawn> := [];
      var y := 0;
      while y < |plan|
        invariant 0 <= y <= |plan|
        invariant done == PlanSpawns(plan[..y], dict)
        invariant |actors| == |done|
        invariant forall i :: 0 <= i < |actors| ==>
          fresh(actors[i]) && actors[i].SpawnedAs(done[i].cls, done[i].Anchor(), phase(done[i].col, done[i].row))
        invariant NoDuplicates(actors)
      {
        var x := 0;
        while x < |plan[y]|
          invariant 0 <= x <= |plan[y]|
          invariant done == PlanSpawns(plan[..y], dict) + RowSpawns(plan[y][..x], y, dict)
          invariant |actors| == |done|
          invariant forall i :: 0 <= i < |actors| ==>
            fresh(actors[i]) && actors[i].SpawnedAs(done[i].cls, done[i].Anchor(), phase(done[i].col, done[i].row))
          invariant NoDuplicates(actors)
        {
          assert plan[y][..x + 1][..x] == plan[y][..x];
          var entry := ActorFromSymbol(plan[y][x]);
          if entry.Some? && entry.value.Maker? {
            var actor := Construct(entry.value.cls, Vector(x as real, y as real), phase(x, y));
            actors := actors + [actor];
          }
          done := done + CellSpawns(plan[y][x], x, y, dict);
          x := x + 1;
        }
        assert plan[y][..x] == plan[y];
        assert plan[..y + 1][..y] == plan[..y];
        y := y + 1;
      }
      assert plan[..y] == plan;
    }

    /** `parse(plan)`: a new level over the grid and the actors of the plan. */
    method Parse(plan: seq<string>, phase: (nat, nat) -> real) returns (level: Level)
      ensures fresh(level)
      ensures IsGridOf(level.grid, plan)
      ensures |level.actors| == |Spawns(plan)|
      ensures forall i :: 0 <= i < |level.actors| ==>
        var s := Spawns(plan)[i];
        fresh(level.actors[i]) && level.actors[i].SpawnedAs(s.cls, s.Anchor(), phase(s.col, s.row))
      ensures NoDuplicates(level.actors)
      ensures level.height == |plan| && level.width == MaxRowLength(level.grid)
      ensures level.player == FirstOfType(level.actors, "player")
      ensures level.status == Undecided && level.finishDelay == 1.0
    {
      var grid := CreateGrid(plan);
      var actors := CreateActors(plan, phase);
      level := new Level(grid, actors);
    }
  }
}
