/** The hexagonal torus of boards: links, board coordinates and chip coordinates. */
module Coordinates {

  /** The six links of a board, numbered anticlockwise from east. */
  datatype Link = East | NorthEast | North | West | SouthWest | South {
    function Index(): nat {
      match this
      case East => 0
      case NorthEast => 1
      case North => 2
      case West => 3
      case SouthWest => 4
      case South => 5
    }

    function Opposite(): Link {
      match this
      case East => West
      case NorthEast => SouthWest
      case North => South
      case West => East
      case SouthWest => NorthEast
      case South => North
    }
  }

  const ALL_LINKS: seq<Link> := [East, NorthEast, North, West, SouthWest, South]

  /** The opposite of a link is the one numbered three further on, modulo six. */
  lemma OppositeIsThreeFurther(link: Link)
    ensures link.Opposite() == ALL_LINKS[(link.Index() + 3) % 6]
    ensures link.Opposite().Opposite() == link
  {
    match link
    case East => assert (0 + 3) % 6 == 3;
    case NorthEast => assert (1 + 3) % 6 == 4;
    case North => assert (2 + 3) % 6 == 5;
    case West => assert (3 + 3) % 6 == 0;
    case SouthWest => assert (4 + 3) % 6 == 1;
    case South => assert (5 + 3) % 6 == 2;
  }

  datatype Board = Board(x: int, y: int, z: int)

  datatype Vector = Vector(dx: int, dy: int, dz: int)

  predicate Opposed(v: Vector, u: Vector) {
    u.dx == -v.dx && u.dy == -v.dy && u.dz == -v.dz
  }

  /** Which wrap-around links are involved; the two bits of the original enumeration. */
  datatype WrapAround = WrapAround(alongX: bool, alongY: bool) {
    function Or(other: WrapAround): WrapAround {
      WrapAround(alongX || other.alongX, alongY || other.alongY)
    }

    predicate None() {
      !alongX && !alongY
    }
  }

  const NO_WRAP := WrapAround(false, false)

  /** The vector table. The entries for west, south-west and south are those the original derives at start-up. */
  function LinkVector(z: int, link: Link): Vector
    requires 0 <= z < 3
  {
    match link
    case North => if z == 0 then Vector(0, 0, 2) else if z == 1 then Vector(1, 1, -1) else Vector(0, 1, -1)
    case NorthEast => if z == 0 then Vector(0, 0, 1) else if z == 1 then Vector(1, 0, 1) else Vector(1, 1, -2)
    case East => if z == 0 then Vector(0, -1, 2) else if z == 1 then Vector(1, 0, -1) else Vector(0, 0, -1)
    case South => if z == 0 then Vector(-1, -1, 1) else if z == 1 then Vector(0, -1, 1) else Vector(0, 0, -2)
    case SouthWest => if z == 0 then Vector(-1, -1, 2) else if z == 1 then Vector(0, 0, -1) else Vector(-1, 0, -1)
    case West => if z == 0 then Vector(-1, 0, 1) else if z == 1 then Vector(0, 0, 1) else Vector(0, 1, -2)
  }

  lemma VectorBounds(z: int, link: Link)
    requires 0 <= z < 3
    ensures -1 <= LinkVector(z, link).dx <= 1
    ensures -1 <= LinkVector(z, link).dy <= 1
    ensures 0 <= z + LinkVector(z, link).dz < 3
  {
  }

  /** The rule that derives the second half of the table: the opposite link at the far end has the reversed vector. */
  lemma VectorReverses(z: int, link: Link)
    requires 0 <= z < 3
    ensures 0 <= z + LinkVector(z, link).dz < 3
    ensures Opposed(LinkVector(z, link), LinkVector(z + LinkVector(z, link).dz, link.Opposite()))
  {
    match link
    case East =>
    case NorthEast =>
    case North =>
    case West =>
    case SouthWest =>
    case South =>
  }

  /**
   * The remainder that Python's % gives for a positive n, found by going round a ring of n positions. Written
   * without multiplication it keeps the proofs linear; RingIsModulo says that it is the remainder.
   */
  function Ring(a: int, n: int): (r: int)
    requires n > 0
    ensures 0 <= r < n
    decreases if a < 0 then n - a else a
  {
    if a < 0 then Ring(a + n, n) else if a >= n then Ring(a - n, n) else a
  }

  lemma {:induction false} RingIsModulo(a: int, n: int)
    requires n > 0
    ensures Ring(a, n) == a % n
    decreases if a < 0 then n - a else a
  {
    var q := a / n;
    assert a == n * q + a % n;
    if a < 0 {
      RingIsModulo(a + n, n);
      assert n * (q + 1) == n * q + n;
      RemainderIsUnique(a + n, q + 1, a % n, n);
    } else if a >= n {
      RingIsModulo(a - n, n);
      assert n * (q - 1) == n * q - n;
      RemainderIsUnique(a - n, q - 1, a % n, n);
    } else {
      RemainderIsUnique(a, 0, a, n);
    }
  }

  /** Moving by a vector on a torus of width x height triads: where it leads, and how it wrapped. */
  function Shift(b: Board, v: Vector, width: int, height: int): (Board, WrapAround)
    requires width > 0 && height > 0
  {
    var x2 := Ring(b.x + v.dx, width);
    var y2 := Ring(b.y + v.dy, height);
    (Board(x2, y2, b.z + v.dz), WrapAround(b.x + v.dx != x2, b.y + v.dy != y2))
  }

  /** The board at the far end of a link, and how the link wrapped. */
  function BoardDownLink(b: Board, link: Link, width: int, height: int): (Board, WrapAround)
    requires 0 <= b.z < 3 && width > 0 && height > 0
  {
    Shift(b, LinkVector(b.z, link), width, height)
  }

  /** The board reached, without the wrap-around information. */
  function Down(b: Board, link: Link, width: int, height: int): (r: Board)
    requires 0 <= b.z < 3 && width > 0 && height > 0
    ensures InMachine(r, width, height)
  {
    VectorBounds(b.z, link);
    BoardDownLink(b, link, width, height).0
  }

  predicate InMachine(b: Board, width: int, height: int) {
    0 <= b.x < width && 0 <= b.y < height && 0 <= b.z < 3
  }

  /** The remainder is the only number in range that differs by a multiple of n. */
  lemma RemainderIsUnique(a: int, q: int, r: int, n: int)
    requires 0 <= r < n && a == n * q + r
    ensures a % n == r
  {
    QuotientIsUnique(q, r, a / n, a % n, n);
  }

  lemma QuotientIsUnique(q: int, r: int, q': int, r': int, n: int)
    requires 0 <= r < n && 0 <= r' < n && n * q + r == n * q' + r'
    ensures q == q' && r == r'
  {
    var d := q' - q;
    assert n * d == r - r' by {
      assert n * d == n * q' - n * q;
    }
    assert d >= 1 ==> n * d >= n;
    assert d <= -1 ==> n * d <= -n;
  }

  /** In a triad board 2 is north of board 0 and west of board 1, which is north-east of board 0; and so on to the next triads. */
  lemma TriadNeighbours(x: int, y: int, width: int, height: int)
    requires InMachine(Board(x, y, 0), width, height)
    ensures Down(Board(x, y, 0), North, width, height) == Board(x, y, 2)
    ensures Down(Board(x, y, 0), NorthEast, width, height) == Board(x, y, 1)
    ensures Down(Board(x, y, 1), West, width, height) == Board(x, y, 2)
    ensures x + 1 < width ==> Down(Board(x, y, 1), East, width, height) == Board(x + 1, y, 0)
    ensures y + 1 < height ==> Down(Board(x, y, 2), North, width, height) == Board(x, y + 1, 1)
  {
  }

  /** A link wraps in a direction exactly when its vector leads out of the machine in that direction. */
  lemma WrapsExactly(b: Board, link: Link, width: int, height: int)
    requires width > 0 && height > 0 && InMachine(b, width, height)
    ensures var v := LinkVector(b.z, link); var wrapped := BoardDownLink(b, link, width, height).1;
            && (wrapped.alongX <==> !(0 <= b.x + v.dx < width))
            && (wrapped.alongY <==> !(0 <= b.y + v.dy < height))
  {
  }

  /** One step and its reverse on a ring of n positions cancel, and wrap together. */
  lemma StepBack(a: int, d: int, n: int)
    requires 0 <= a < n && -1 <= d <= 1
    ensures var e := Ring(a + d, n);
            && Ring(e - d, n) == a
            && (e == a + d <==> e - d == a)
  {
    assert Ring(a + d, n) == if a + d < 0 then a + d + n else if a + d >= n then a + d - n else a + d;
  }

  lemma ShiftBack(b: Board, v: Vector, u: Vector, width: int, height: int)
    requires width > 0 && height > 0 && InMachine(b, width, height)
    requires -1 <= v.dx <= 1 && -1 <= v.dy <= 1 && Opposed(v, u)
    ensures var (there, out) := Shift(b, v, width, height);
            var (home, back) := Shift(there, u, width, height);
            && home.x == b.x && home.y == b.y && home.z == b.z
            && back.alongX == out.alongX && back.alongY == out.alongY
  {
    StepBack(b.x, v.dx, width);
    StepBack(b.y, v.dy, height);
  }

  /** Following a link and then its opposite returns to the start, wrapping in the same way both times. */
  lemma LinkThereAndBack(b: Board, link: Link, width: int, height: int)
    requires width > 0 && height > 0 && InMachine(b, width, height)
    ensures BoardDownLink(Down(b, link, width, height), link.Opposite(), width, height)
         == (b, BoardDownLink(b, link, width, height).1)
  {
    ThereAndBack(b, link, width, height);
  }

  lemma ThereAndBack(b: Board, link: Link, width: int, height: int)
    requires width > 0 && height > 0 && InMachine(b, width, height)
    ensures var (there, out) := BoardDownLink(b, link, width, height);
            0 <= there.z < 3 && BoardDownLink(there, link.Opposite(), width, height) == (b, out)
  {
    VectorReverses(b.z, link);
    VectorBounds(b.z, link);
    ShiftBack(b, LinkVector(b.z, link), LinkVector(b.z + LinkVector(b.z, link).dz, link.Opposite()), width, height);
  }

  /** No two boards share a neighbour in the same direction: every link permutes the machine. */
  lemma LinkInjective(b: Board, c: Board, link: Link, width: int, height: int)
    requires width > 0 && height > 0 && InMachine(b, width, height) && InMachine(c, width, height)
    requires Down(b, link, width, height) == Down(c, link, width, height)
    ensures b == c
  {
    LinkThereAndBack(b, link, width, height);
    LinkThereAndBack(c, link, width, height);
  }

  /** A whole turn leads nowhere. */
  lemma {:induction false} WholeTurn(a: int, n: int)
    requires n > 0
    ensures Ring(a + n, n) == Ring(a, n)
  {
  }

  /** Reducing an intermediate position modulo n does not change where later steps lead. */
  lemma {:induction false} ModStep(a: int, d: int, n: int)
    requires n > 0
    ensures Ring(Ring(a, n) + d, n) == Ring(a + d, n)
    decreases if a < 0 then n - a else a
  {
    if a < 0 {
      ModStep(a + n, d, n);
      WholeTurn(a + d, n);
    } else if a >= n {
      ModStep(a - n, d, n);
      WholeTurn(a + d - n, n);
    }
  }

  /** North after east, and east after north, are both north-east. */
  lemma HexagonCloses(b: Board, width: int, height: int)
    requires width > 0 && height > 0 && InMachine(b, width, height)
    ensures Down(Down(b, East, width, height), North, width, height) == Down(b, NorthEast, width, height)
    ensures Down(Down(b, North, width, height), East, width, height) == Down(b, NorthEast, width, height)
  {
    TwoSteps(b, East, North, width, height);
    TwoSteps(b, North, East, width, height);
  }

  lemma TwoSteps(b: Board, first: Link, second: Link, width: int, height: int)
    requires width > 0 && height > 0 && InMachine(b, width, height)
    requires (first == East && second == North) || (first == North && second == East)
    ensures Down(Down(b, first, width, height), second, width, height) == Down(b, NorthEast, width, height)
  {
    var v := LinkVector(b.z, first);
    VectorBounds(b.z, first);
    var u := LinkVector(b.z + v.dz, second);
    ModStep(b.x + v.dx, u.dx, width);
    ModStep(b.y + v.dy, u.dy, height);
    assert b.z == 0 || b.z == 1 || b.z == 2;
    var n := LinkVector(b.z, NorthEast);
    assert n == Vector(v.dx + u.dx, v.dy + u.dy, v.dz + u.dz);
  }

  /** The chip at the bottom-left corner of a board. */
  function BoardToChip(b: Board): (int, int) {
    if b.z == 1 then (12 * b.x + 8, 12 * b.y + 4)
    else if b.z == 2 then (12 * b.x + 4, 12 * b.y + 8)
    else (12 * b.x, 12 * b.y)
  }

  /** Board (0, 0, 0) is at chip (0, 0); the corner chips of a machine's boards differ, and lie in the machine. */
  lemma ChipsOfMachine(b: Board, c: Board, width: int, height: int)
    requires InMachine(b, width, height) && InMachine(c, width, height)
    ensures BoardToChip(Board(0, 0, 0)) == (0, 0)
    ensures 0 <= BoardToChip(b).0 < 12 * width && 0 <= BoardToChip(b).1 < 12 * height
    ensures BoardToChip(b) == BoardToChip(c) ==> b == c
  {
    var chip, other := BoardToChip(b), BoardToChip(c);
    assert chip.0 - 12 * b.x in {0, 4, 8} && other.0 - 12 * c.x in {0, 4, 8};
    assert chip.1 - 12 * b.y in {0, 4, 8} && other.1 - 12 * c.y in {0, 4, 8};
  }

  /** The chip displacement of a link; it does not depend on the board. */
  function ChipVector(link: Link): (int, int) {
    match link
    case East => (4, -4)
    case NorthEast => (8, 4)
    case North => (4, 8)
    case West => (-4, 4)
    case SouthWest => (-8, -4)
    case South => (-4, -8)
  }

  /**
   * Following a link moves the corner chip by the link's own displacement,
   * up to a whole turn of the torus, which is 12 chips per triad in each direction.
   */
  lemma LinkMovesChipByVector(b: Board, link: Link, width: int, height: int)
    requires width > 0 && height > 0 && InMachine(b, width, height)
    ensures Ring(BoardToChip(Down(b, link, width, height)).0, 12 * width)
         == Ring(BoardToChip(b).0 + ChipVector(link).0, 12 * width)
    ensures Ring(BoardToChip(Down(b, link, width, height)).1, 12 * height)
         == Ring(BoardToChip(b).1 + ChipVector(link).1, 12 * height)
  {
    LinkMovesChipAlongX(b, link, width, height);
    LinkMovesChipAlongY(b, link, width, height);
  }

  lemma LinkMovesChipAlongX(b: Board, link: Link, width: int, height: int)
    requires width > 0 && height > 0 && InMachine(b, width, height)
    ensures Ring(BoardToChip(Down(b, link, width, height)).0, 12 * width)
         == Ring(BoardToChip(b).0 + ChipVector(link).0, 12 * width)
  {
    var v := LinkVector(b.z, link);
    VectorBounds(b.z, link);
    ChipVectorFits(b, link, v);
    ChipOnRing(b.x + v.dx, b.y + v.dy, b.z + v.dz, width, height);
    assert Down(b, link, width, height) == Board(Ring(b.x + v.dx, width), Ring(b.y + v.dy, height), b.z + v.dz);
  }

  lemma LinkMovesChipAlongY(b: Board, link: Link, width: int, height: int)
    requires width > 0 && height > 0 && InMachine(b, width, height)
    ensures Ring(BoardToChip(Down(b, link, width, height)).1, 12 * height)
         == Ring(BoardToChip(b).1 + ChipVector(link).1, 12 * height)
  {
    var v := LinkVector(b.z, link);
    VectorBounds(b.z, link);
    ChipVectorFits(b, link, v);
    ChipOnRing(b.x + v.dx, b.y + v.dy, b.z + v.dz, width, height);
    assert Down(b, link, width, height) == Board(Ring(b.x + v.dx, width), Ring(b.y + v.dy, height), b.z + v.dz);
  }

  /** Without wrapping, a link moves the corner chip by its displacement. */
  lemma ChipVectorFits(b: Board, link: Link, v: Vector)
    requires 0 <= b.z < 3 && v == LinkVector(b.z, link)
    ensures var flat := BoardToChip(Board(b.x + v.dx, b.y + v.dy, b.z + v.dz));
            && flat.0 == BoardToChip(b).0 + ChipVector(link).0
            && flat.1 == BoardToChip(b).1 + ChipVector(link).1
  {
  }

  /** Going round the torus of triads goes round the torus of chips. */
  lemma ChipOnRing(x: int, y: int, z: int, width: int, height: int)
    requires width > 0 && height > 0
    ensures var chip := BoardToChip(Board(Ring(x, width), Ring(y, height), z));
            var flat := BoardToChip(Board(x, y, z));
            && Ring(chip.0, 12 * width) == Ring(flat.0, 12 * width)
            && Ring(chip.1, 12 * height) == Ring(flat.1, 12 * height)
  {
    var flat := BoardToChip(Board(x, y, z));
    TwelveTimesMod(x, flat.0 - 12 * x, width);
    TwelveTimesMod(y, flat.1 - 12 * y, height);
  }

  lemma {:induction false} TwelveTimesMod(a: int, c: int, n: int)
    requires n > 0
    ensures Ring(12 * Ring(a, n) + c, 12 * n) == Ring(12 * a + c, 12 * n)
    decreases if a < 0 then n - a else a
  {
    if a < 0 {
      TwelveTimesMod(a + n, c, n);
      WholeTurn(12 * a + c, 12 * n);
    } else if a >= n {
      TwelveTimesMod(a - n, c, n);
      WholeTurn(12 * (a - n) + c, 12 * n);
    }
  }
}
