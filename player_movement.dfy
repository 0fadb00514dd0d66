/**
 * The keyboard movement hook: each keydown reads the player's position from
 * the store, moves it one unit along the axis the key names, clamped to the
 * arena in the direction of motion, and writes it back to that player's
 * record only.
 */
module PlayerMovement {
  import opened Options
  import opened Text
  import opened Store

  const GameWidth: int := 800
  const GameHeight: int := 600
  const PlayerSize: int := 4
  /** The largest x a write can produce: 796. */
  const MaxX: int := GameWidth - PlayerSize
  /** The largest y a write can produce: 596. */
  const MaxY: int := GameHeight - PlayerSize

  datatype Direction = Up | Down | Left | Right {
    predicate IsVertical() { this == Up || this == Down }
  }

  /** The box every in-bounds position lies in: [0, 796] × [0, 596]. */
  predicate InArena(p: Position) {
    0 <= p.x <= MaxX && 0 <= p.y <= MaxY
  }

  /**
   * The direction a key names once lower-cased: `w`, `s`, `a`, `d`; any
   * other key names none. Only one-character keys name a direction, and
   * each direction is named by its letter in either case.
   */
  function Command(key: string): (d: Option<Direction>)
    ensures d.Some? ==> |key| == 1
    ensures d == Some(Up) <==> key == "w" || key == "W"
    ensures d == Some(Down) <==> key == "s" || key == "S"
    ensures d == Some(Left) <==> key == "a" || key == "A"
    ensures d == Some(Right) <==> key == "d" || key == "D"
  {
    var k := LowerAscii(key);
    assert |key| == 1 ==> key == [key[0]] && k == [LowerChar(key[0])];
    if k == "w" then Some(Up)
    else if k == "s" then Some(Down)
    else if k == "a" then Some(Left)
    else if k == "d" then Some(Right)
    else None
  }

  /**
   * One press: decrease or increase one coordinate by 1, never below 0 or
   * above MaxX / MaxY. The other coordinate is kept, and a start inside the
   * arena stays inside.
   */
  function Step(d: Direction, p: Position): (q: Position)
    ensures d.IsVertical() ==> q.x == p.x
    ensures !d.IsVertical() ==> q.y == p.y
    ensures InArena(p) ==> InArena(q)
  {
    match d
    case Up => p.(y := if p.y - 1 < 0 then 0 else p.y - 1)
    case Down => p.(y := if p.y + 1 > MaxY then MaxY else p.y + 1)
    case Left => p.(x := if p.x - 1 < 0 then 0 else p.x - 1)
    case Right => p.(x := if p.x + 1 > MaxX then MaxX else p.x + 1)
  }

  /** The unclamped unit move a direction asks for (the reference for `Step`). */
  function Translate(d: Direction, p: Position): Position {
    match d
    case Up => Position(p.x, p.y - 1)
    case Down => Position(p.x, p.y + 1)
    case Left => Position(p.x - 1, p.y)
    case Right => Position(p.x + 1, p.y)
  }

  /** The position a keydown starts from: the row read, or `(initialX, initialY)` when there is none. */
  function StartPosition(data: Option<Position>, initialX: int, initialY: int): (p: Position)
    ensures data.Some? ==> p == data.value
    ensures data.None? ==> p == Position(initialX, initialY)
  {
    data.GetOr(Position(initialX, initialY))
  }

  /**
   * The position a key leads to, or `None` when the key is ignored (the
   * `default: return`). A recognised key from inside the arena leads inside
   * it, at most one unit away.
   */
  function KeyStep(key: string, p: Position): (r: Option<Position>)
    ensures r.None? <==> Command(key).None?
    ensures r.Some? && InArena(p) ==> InArena(r.value)
    ensures r.Some? ==> (r.value.x == p.x || r.value.y == p.y)
  {
    match Command(key)
    case Some(d) => Some(Step(d, p))
    case None => None
  }

  /**
   * The position after a sequence of keydowns, each starting where the
   * previous one left off. Keys that name no direction do not move it.
   */
  function Walk(p: Position, keys: seq<string>): (q: Position)
    ensures (forall i :: 0 <= i < |keys| ==> Command(keys[i]).None?) ==> q == p
    decreases |keys|
  {
    if keys == [] then p else Walk(KeyStep(keys[0], p).GetOr(p), keys[1..])
  }

  /** Exactly the eight keys `w a s d W A S D` move; `ArrowUp`, `Shift`, `ww` and the rest do not. */
  lemma OnlyWasdMoves(key: string)
    ensures Command(key).Some? <==> key in {"w", "a", "s", "d", "W", "A", "S", "D"}
  {
    var k := LowerAscii(key);
    if Command(key).Some? {
      assert |k| == 1 && |key| == 1;
      assert key == [key[0]];
    }
  }

  /** Keys match case-insensitively: a key and its lower-cased form name the same direction. */
  lemma CommandIgnoresCase(key: string)
    ensures Command(key) == Command(LowerAscii(key))
  {
    LowerAsciiIdempotent(key);
  }

  /** `W`, `A`, `S`, `D` behave like `w`, `a`, `s`, `d`. */
  lemma UpperCaseKeys()
    ensures Command("W") == Command("w") == Some(Up)
    ensures Command("S") == Command("s") == Some(Down)
    ensures Command("A") == Command("a") == Some(Left)
    ensures Command("D") == Command("d") == Some(Right)
  {
  }

  /**
   * From inside the arena a press is the unit move when that stays inside,
   * and no move at all at the boundary.
   */
  lemma StepIsClampedUnitMove(d: Direction, p: Position)
    requires InArena(p)
    ensures Step(d, p) == if InArena(Translate(d, p)) then Translate(d, p) else p
  {
  }

  /**
   * From any start, even outside the arena, a press changes only the axis
   * of motion, and clamps only in the direction of motion: up and left
   * never go below 0, down and right never above MaxY and MaxX.
   */
  lemma StepClampsAxisOfMotion(d: Direction, p: Position)
    ensures d.IsVertical() ==> Step(d, p).x == p.x
    ensures !d.IsVertical() ==> Step(d, p).y == p.y
    ensures d == Up ==> Step(d, p).y == (if p.y >= 1 then p.y - 1 else 0)
    ensures d == Down ==> Step(d, p).y == (if p.y < MaxY then p.y + 1 else MaxY)
    ensures d == Left ==> Step(d, p).x == (if p.x >= 1 then p.x - 1 else 0)
    ensures d == Right ==> Step(d, p).x == (if p.x < MaxX then p.x + 1 else MaxX)
  {
  }

  /** A start at x = 900 snaps to 796 on `d`, and only moves to 899 on `a`. */
  lemma OutsideStartSnaps()
    ensures Step(Right, Position(900, 10)) == Position(MaxX, 10)
    ensures Step(Left, Position(900, 10)) == Position(899, 10)
  {
  }

  /** Bounds invariant: a start inside the arena stays inside after any key sequence. */
  lemma {:induction false} WalkStaysInArena(p: Position, keys: seq<string>)
    requires InArena(p)
    ensures InArena(Walk(p, keys))
    decreases |keys|
  {
    if keys != [] {
      var q := KeyStep(keys[0], p).GetOr(p);
      assert InArena(q);
      WalkStaysInArena(q, keys[1..]);
    }
  }

  /** No acceleration: after n keys the position is at most n unit steps from an in-arena start. */
  lemma {:induction false} WalkMovesOneUnitPerKey(p: Position, keys: seq<string>)
    requires InArena(p)
    ensures var q := Walk(p, keys);
      (if q.x >= p.x then q.x - p.x else p.x - q.x) + (if q.y >= p.y then q.y - p.y else p.y - q.y) <= |keys|
    decreases |keys|
  {
    if keys != [] {
      var q := KeyStep(keys[0], p).GetOr(p);
      assert InArena(q);
      WalkMovesOneUnitPerKey(q, keys[1..]);
    }
  }

  /** From (100, 100), five presses of `d` lead to (105, 100). */
  lemma FiveRightPresses()
    ensures Walk(Position(100, 100), ["d", "d", "d", "d", "d"]) == Position(105, 100)
  {
  }

  /** One short of the right edge, `d` reaches the edge, and a second `d` stays there. */
  lemma RightEdgeHolds(y: int)
    requires 0 <= y <= MaxY
    ensures Walk(Position(MaxX - 1, y), ["d"]) == Position(MaxX, y)
    ensures Walk(Position(MaxX - 1, y), ["d", "d"]) == Position(MaxX, y)
  {
  }

  /**
   * `handleKeyDown`. With no player id nothing is read or written. Otherwise
   * the position is read (falling back to `(initialX, initialY)`), and a
   * recognised key sends exactly one update, to `playerId`'s record, even
   * when the clamped position equals the one read; any other key returns
   * before the update. `readFails` and `writeLands` are the outcomes of the
   * two store requests.
   */
  method HandleKeyDown(store: PlayerStore, playerId: Option<string>, initialX: int, initialY: int,
                       key: string, readFails: bool, writeLands: bool)
    modifies store
    ensures store.rules == old(store.rules)
    ensures !IsPresent(playerId) ==> store.rows == old(store.rows) && store.log == old(store.log)
    ensures IsPresent(playerId) ==>
      var id := playerId.value;
      var p := StartPosition(ReadPosition(old(store.rows), id, readFails), initialX, initialY);
      match KeyStep(key, p)
      case None =>
        store.rows == old(store.rows) && store.log == old(store.log) + [Select(id)]
      case Some(q) =>
        && store.log == old(store.log) + [Select(id), PositionUpdate(id, q)]
        && store.rows == if writeLands then WithPosition(old(store.rows), id, q) else old(store.rows)
  {
    if !IsPresent(playerId) {
      return;
    }
    var id := playerId.value;
    var data := store.SelectPosition(id, readFails);
    var p := StartPosition(data, initialX, initialY);
    var d := Command(key);
    if d.None? {
      return;
    }
    store.UpdatePosition(id, Step(d.value, p), writeLands);
  }
}
