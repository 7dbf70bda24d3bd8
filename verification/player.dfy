/** The `Player` class that Collectible.mjs defines and default-exports
    (Collectible.mjs:1-46); game.mjs imports it under the name `Collectible`. */
module PlayerModel {
  import opened Protocol

  /** The object the constructor destructures. `None` stands for a property the
      caller left out, which the constructor then stores as `undefined`. */
  datatype PlayerInit = PlayerInit(x: int, y: int, score: Option<int>, id: Option<string>, color: Option<string>)

  /** The opposite of a direction `movePlayer` recognises. */
  function Opposite(dir: string): string
  {
    if dir == "up" then "down"
    else if dir == "down" then "up"
    else if dir == "left" then "right"
    else if dir == "right" then "left"
    else dir
  }

  class Player {
    var x: int
    var y: int
    var score: Option<int>
    var id: Option<string>
    var color: Option<string>
    var width: int
    var height: int

    /** Collectible.mjs:2-10: the given fields verbatim and a fixed 20x20 size. */
    constructor (init: PlayerInit)
      ensures x == init.x && y == init.y
      ensures score == init.score && id == init.id && color == init.color
      ensures width == 20 && height == 20
    {
      x := init.x;
      y := init.y;
      score := init.score;
      id := init.id;
      color := init.color;
      width := 20;
      height := 20;
    }

    /** `movePlayer` (Collectible.mjs:20-35): one coordinate shifted by `speed`,
        without clamping; any other direction changes nothing. Only `x` and `y`
        may change. */
    method MovePlayer(dir: string, speed: int)
      modifies this`x, this`y
      ensures dir == "up" ==> x == old(x) && y == old(y) - speed
      ensures dir == "down" ==> x == old(x) && y == old(y) + speed
      ensures dir == "left" ==> x == old(x) - speed && y == old(y)
      ensures dir == "right" ==> x == old(x) + speed && y == old(y)
      ensures !IsDirection(dir) ==> x == old(x) && y == old(y)
    {
      if dir == "up" {
        y := y - speed;
      } else if dir == "down" {
        y := y + speed;
      } else if dir == "left" {
        x := x - speed;
      } else if dir == "right" {
        x := x + speed;
      }
    }
  }

  /** A move followed by the opposite move with the same speed restores the
      position and leaves every other field as it was. */
  method MoveAndBack(p: Player, dir: string, speed: int)
    modifies p
    ensures p.x == old(p.x) && p.y == old(p.y)
    ensures p.score == old(p.score) && p.id == old(p.id) && p.color == old(p.color)
    ensures p.width == old(p.width) && p.height == old(p.height)
  {
    p.MovePlayer(dir, speed);
    p.MovePlayer(Opposite(dir), speed);
  }

  /** Nothing keeps a player on the 800x600 board: from the corner (0, 0) an `up`
      move of speed 5 reaches y = -5, and a `right` move of speed 800 reaches
      x = 800. */
  method LeavesBoard() returns (x: int, y: int)
    ensures y < 0 && x >= GameWidth
  {
    var p := new Player(PlayerInit(0, 0, None, None, None));
    p.MovePlayer("up", 5);
    p.MovePlayer("right", 800);
    x, y := p.x, p.y;
  }
}
