/**
 * Deciding whether a rectangle of triads will do: which of its boards can be reached from its bottom-left
 * board over working links, and how the links of those boards are classified.
 */
module CandidateFilter {
  import opened Wrappers
  import opened Coordinates
  import opened PackTreeModel

  datatype Machine = Machine(width: int, height: int, deadBoards: set<Board>, deadLinks: set<(Board, Link)>) {
    predicate Positive() {
      width >= 1 && height >= 1
    }
  }

  // ----- reachable boards

  /** The link leads from a to b, works, and does not leave the rectangle. */
  predicate Bridge(m: Machine, r: Rect, a: Board, link: Link, b: Board) {
    && m.Positive() && 0 <= a.z < 3
    && (a, link) !in m.deadLinks
    && Down(a, link, m.width, m.height) == b
    && r.Has(b.x, b.y)
  }

  ghost predicate Joined(m: Machine, r: Rect, a: Board, b: Board) {
    exists link :: Bridge(m, r, a, link, b)
  }

  /** A walk over working boards and links from the bottom-left board, inside the rectangle. */
  ghost predicate Path(m: Machine, r: Rect, p: seq<Board>) {
    && |p| >= 1 && p[0] == Board(r.x, r.y, 0)
    && (forall i :: 0 <= i < |p| ==> p[i] !in m.deadBoards)
    && (forall i :: 0 < i < |p| ==> Joined(m, r, p[i - 1], p[i]))
  }

  ghost predicate Reaches(m: Machine, r: Rect, b: Board) {
    exists p :: Path(m, r, p) && p[|p| - 1] == b
  }

  function BoardsOf(r: Rect): set<Board> {
    set x, y, z | r.x <= x < r.x + r.w && r.y <= y < r.y + r.h && 0 <= z < 3 :: Board(x, y, z)
  }

  /** The boards a candidate offers. */
  ghost function Region(m: Machine, r: Rect): set<Board> {
    set b | b in BoardsOf(r) && Reaches(m, r, b)
  }

  lemma ReachesStart(m: Machine, r: Rect)
    requires Board(r.x, r.y, 0) !in m.deadBoards
    ensures Reaches(m, r, Board(r.x, r.y, 0))
  {
    var p := [Board(r.x, r.y, 0)];
    assert Path(m, r, p) && p[|p| - 1] == Board(r.x, r.y, 0);
  }

  lemma ReachesFurther(m: Machine, r: Rect, a: Board, link: Link, b: Board)
    requires Reaches(m, r, a) && Bridge(m, r, a, link, b) && b !in m.deadBoards
    ensures Reaches(m, r, b)
  {
    var p :| Path(m, r, p) && p[|p| - 1] == a;
    var q := p + [b];
    assert Joined(m, r, a, b);
    assert Path(m, r, q) && q[|q| - 1] == b;
  }

  /** Every set holding the start and closed under working steps holds all that can be reached. */
  lemma {:induction false} ClosedHoldsPath(m: Machine, r: Rect, closed: set<Board>, p: seq<Board>)
    requires Path(m, r, p)
    requires p[0] in closed
    requires forall a, link, b :: a in closed && Bridge(m, r, a, link, b) && b !in m.deadBoards ==> b in closed
    ensures p[|p| - 1] in closed
    decreases |p|
  {
    if |p| > 1 {
      var q := p[..|p| - 1];
      ClosedHoldsPath(m, r, closed, q);
      assert Joined(m, r, p[|p| - 2], p[|p| - 1]);
    }
  }

  lemma BridgeStaysInside(m: Machine, r: Rect, a: Board, link: Link, b: Board)
    requires Bridge(m, r, a, link, b)
    ensures b in BoardsOf(r)
  {
    assert b == Board(b.x, b.y, b.z);
  }

  lemma StartInside(r: Rect)
    requires r.Positive()
    ensures Board(r.x, r.y, 0) in BoardsOf(r)
  {
  }

  /** A queued or visited board is one that could be reached, if it works at all. */
  ghost predicate Plausible(m: Machine, r: Rect, b: Board) {
    b in BoardsOf(r) && (b !in m.deadBoards ==> Reaches(m, r, b))
  }

  /** Every neighbour of a visited board is visited, dead or still queued. */
  ghost predicate Frontier(m: Machine, r: Rect, boards: set<Board>, queue: seq<Board>) {
    forall a, link, b :: a in boards && Bridge(m, r, a, link, b) && b !in m.deadBoards && b !in boards ==> b in queue
  }

  /** The breadth-first search; it finds exactly the reachable boards. */
  method EnumerateBoards(m: Machine, r: Rect) returns (boards: set<Board>)
    requires m.Positive() && r.Positive()
    ensures boards == Region(m, r)
  {
    var start := Board(r.x, r.y, 0);
    boards := {};
    var toVisit := [start];
    StartInside(r);
    if start !in m.deadBoards {
      ReachesStart(m, r);
    }
    while toVisit != []
      invariant boards <= BoardsOf(r) && boards !! m.deadBoards
      invariant forall b :: b in boards ==> Reaches(m, r, b)
      invariant forall b :: b in toVisit ==> Plausible(m, r, b)
      invariant Frontier(m, r, boards, toVisit)
      invariant start in boards || start in m.deadBoards || start in toVisit
      decreases |BoardsOf(r) - boards|, |toVisit|
    {
      var b := toVisit[0];
      var rest := toVisit[1..];
      FrontierSplits(m, r, boards, toVisit);
      assert Plausible(m, r, b);
      if b in m.deadBoards || b in boards {
        toVisit := rest;
      } else {
        var found := Neighbours(m, r, b);
        assert toVisit == [b] + rest;
        FrontierAdvances(m, r, boards, b, rest, found);
        OneFewerToVisit(BoardsOf(r), boards, b);
        boards := boards + {b};
        toVisit := rest + found;
      }
    }
    if start in boards {
      assert forall a, link, b :: a in boards && Bridge(m, r, a, link, b) && b !in m.deadBoards ==> b in boards;
      RegionIsClosure(m, r, boards);
    } else {
      RegionOfDeadStart(m, r);
    }
  }

  lemma OneFewerToVisit(all: set<Board>, boards: set<Board>, b: Board)
    requires b in all && b !in boards
    ensures |all - (boards + {b})| < |all - boards|
  {
    assert all - boards == (all - (boards + {b})) + {b};
  }

  lemma FrontierSplits(m: Machine, r: Rect, boards: set<Board>, queue: seq<Board>)
    requires queue != [] && Frontier(m, r, boards, queue)
    ensures queue[0] in boards || queue[0] in m.deadBoards ==> Frontier(m, r, boards, queue[1..])
  {
    assert queue == [queue[0]] + queue[1..];
  }

  lemma FrontierAdvances(m: Machine, r: Rect, boards: set<Board>, b: Board, rest: seq<Board>, found: seq<Board>)
    requires Frontier(m, r, boards, [b] + rest)
    requires forall link, c :: Bridge(m, r, b, link, c) ==> c in found
    ensures Frontier(m, r, boards + {b}, rest + found)
  {
  }

  lemma RegionIsClosure(m: Machine, r: Rect, boards: set<Board>)
    requires boards <= BoardsOf(r) && forall b :: b in boards ==> Reaches(m, r, b)
    requires Board(r.x, r.y, 0) in boards
    requires forall a, link, b :: a in boards && Bridge(m, r, a, link, b) && b !in m.deadBoards ==> b in boards
    ensures boards == Region(m, r)
  {
    forall b | Reaches(m, r, b)
      ensures b in boards
    {
      var p :| Path(m, r, p) && p[|p| - 1] == b;
      ClosedHoldsPath(m, r, boards, p);
    }
  }

  lemma RegionOfDeadStart(m: Machine, r: Rect)
    requires Board(r.x, r.y, 0) in m.deadBoards
    ensures Region(m, r) == {}
  {
  }

  /** The inner loop of the search: the boards down the working links of b that lie in the rectangle. */
  method Neighbours(m: Machine, r: Rect, b: Board) returns (found: seq<Board>)
    requires m.Positive() && b in BoardsOf(r) && b !in m.deadBoards && Reaches(m, r, b)
    ensures forall c :: c in found ==> Plausible(m, r, c)
    ensures forall link, c :: Bridge(m, r, b, link, c) ==> c in found
  {
    found := [];
    var i := 0;
    while i < |ALL_LINKS|
      invariant 0 <= i <= |ALL_LINKS|
      invariant forall c :: c in found ==> Plausible(m, r, c)
      invariant forall k, c :: 0 <= k < i && Bridge(m, r, b, ALL_LINKS[k], c) ==> c in found
    {
      var link := ALL_LINKS[i];
      i := i + 1;
      if (b, link) in m.deadLinks {
        continue;
      }
      var c := Down(b, link, m.width, m.height);
      if r.Has(c.x, c.y) {
        BridgeStaysInside(m, r, b, link, c);
        if c !in m.deadBoards {
          ReachesFurther(m, r, b, link, c);
        }
        found := found + [c];
      }
    }
    forall link, c | Bridge(m, r, b, link, c)
      ensures c in found
    {
      EveryLinkListed(link);
    }
  }

  lemma EveryLinkListed(link: Link)
    ensures ALL_LINKS[link.Index()] == link
  {
    match link
    case East =>
    case NorthEast =>
    case North =>
    case West =>
    case SouthWest =>
    case South =>
  }

  /** From boards of this set, links that work lead to no other working boards of the rectangle. */
  ghost predicate Closed(m: Machine, r: Rect, boards: set<Board>)
    requires m.Positive()
  {
    forall a, link | a in boards && 0 <= a.z < 3 && (a, link) !in m.deadLinks ::
      var b := Down(a, link, m.width, m.height);
      r.Has(b.x, b.y) && b !in m.deadBoards ==> b in boards
  }

  /**
   * The region of a rectangle whose bottom-left board works is closed under working links, and is the least such set
   * that holds that board.
   */
  lemma RegionIsLeastClosed(m: Machine, r: Rect, boards: set<Board>)
    requires m.Positive() && r.Positive() && Board(r.x, r.y, 0) !in m.deadBoards
    ensures Board(r.x, r.y, 0) in Region(m, r) && Closed(m, r, Region(m, r))
    ensures Board(r.x, r.y, 0) in boards && Closed(m, r, boards) ==> Region(m, r) <= boards
  {
    RegionHoldsStart(m, r);
    forall a, link | a in Region(m, r) && 0 <= a.z < 3 && (a, link) !in m.deadLinks
      ensures var b := Down(a, link, m.width, m.height); r.Has(b.x, b.y) && b !in m.deadBoards ==> b in Region(m, r)
    {
      var b := Down(a, link, m.width, m.height);
      if r.Has(b.x, b.y) && b !in m.deadBoards {
        BridgeStaysInside(m, r, a, link, b);
        ReachesFurther(m, r, a, link, b);
      }
    }
    if Board(r.x, r.y, 0) in boards && Closed(m, r, boards) {
      forall b | b in Region(m, r)
        ensures b in boards
      {
        var p :| Path(m, r, p) && p[|p| - 1] == b;
        ClosedHoldsPath(m, r, boards, p);
      }
    }
  }

  /** An accepted region holds its bottom-left board, and no dead one. */
  lemma RegionHoldsStart(m: Machine, r: Rect)
    requires r.Positive()
    ensures Board(r.x, r.y, 0) in m.deadBoards ==> Region(m, r) == {}
    ensures Board(r.x, r.y, 0) !in m.deadBoards ==> Board(r.x, r.y, 0) in Region(m, r)
    ensures Region(m, r) !! m.deadBoards && Region(m, r) <= BoardsOf(r)
  {
    StartInside(r);
    if Board(r.x, r.y, 0) in m.deadBoards {
      RegionOfDeadStart(m, r);
    } else {
      ReachesStart(m, r);
    }
    forall b | b in Region(m, r)
      ensures b !in m.deadBoards
    {
      var p :| Path(m, r, p) && p[|p| - 1] == b;
    }
  }

  // ----- classified links

  type Port = (Board, Link)

  /** The kinds of link of a set of boards; each link of each board is of exactly one kind. */
  datatype LinkClass = Alive | Wrap | Dead | DeadWrap | Periphery

  function FarEnd(m: Machine, p: Port): (Board, WrapAround)
    requires m.Positive() && 0 <= p.0.z < 3
  {
    BoardDownLink(p.0, p.1, m.width, m.height)
  }

  function ClassOf(m: Machine, boards: set<Board>, p: Port): LinkClass
    requires m.Positive() && 0 <= p.0.z < 3
  {
    var (far, wrapped) := FarEnd(m, p);
    if far !in boards then Periphery
    else if !wrapped.None() then (if p in m.deadLinks then DeadWrap else Wrap)
    else if p in m.deadLinks then Dead
    else Alive
  }

  predicate OnTriads(boards: set<Board>) {
    forall b :: b in boards ==> 0 <= b.z < 3
  }

  function Ports(boards: set<Board>): set<Port> {
    set b, link: Link | b in boards :: (b, link)
  }

  /** The ports of a given class among those seen. */
  ghost function Only(m: Machine, boards: set<Board>, seen: set<Port>, cls: LinkClass): set<Port>
    requires m.Positive()
  {
    set p | p in seen && 0 <= p.0.z < 3 && ClassOf(m, boards, p) == cls
  }

  ghost function LinksOf(m: Machine, boards: set<Board>, cls: LinkClass): set<Port>
    requires m.Positive()
  {
    Only(m, boards, Ports(boards), cls)
  }

  /** Which wrap-around links, dead or alive, join boards of the set. */
  ghost predicate WrapsAmong(m: Machine, boards: set<Board>, seen: set<Port>, torus: WrapAround)
    requires m.Positive()
  {
    && (torus.alongX <==> exists p :: p in seen && 0 <= p.0.z < 3 && FarEnd(m, p).0 in boards && FarEnd(m, p).1.alongX)
    && (torus.alongY <==> exists p :: p in seen && 0 <= p.0.z < 3 && FarEnd(m, p).0 in boards && FarEnd(m, p).1.alongY)
  }

  /** The five sets hold, class by class, the ports seen. */
  ghost predicate Sorted(m: Machine, boards: set<Board>, seen: set<Port>, c: Classes)
    requires m.Positive()
  {
    && c.alive == Only(m, boards, seen, Alive)
    && c.wrap == Only(m, boards, seen, Wrap)
    && c.dead == Only(m, boards, seen, Dead)
    && c.deadWrap == Only(m, boards, seen, DeadWrap)
    && c.periphery == Only(m, boards, seen, Periphery)
    && WrapsAmong(m, boards, seen, c.torus)
  }

  /** The six results of classifying the links of a set of boards. */
  datatype Classes = Classes(
    alive: set<Port>, wrap: set<Port>, dead: set<Port>, deadWrap: set<Port>, periphery: set<Port>, torus: WrapAround)

  function Add(m: Machine, boards: set<Board>, c: Classes, p: Port): Classes
    requires m.Positive() && 0 <= p.0.z < 3
  {
    var (far, wrapped) := FarEnd(m, p);
    if far in boards then
      var d := c.(torus := c.torus.Or(wrapped));
      if !wrapped.None() then
        (if p in m.deadLinks then d.(deadWrap := c.deadWrap + {p}) else d.(wrap := c.wrap + {p}))
      else
        (if p in m.deadLinks then d.(dead := c.dead + {p}) else d.(alive := c.alive + {p}))
    else c.(periphery := c.periphery + {p})
  }

  lemma OnlyAdds(m: Machine, boards: set<Board>, seen: set<Port>, p: Port, cls: LinkClass)
    requires m.Positive() && 0 <= p.0.z < 3
    ensures Only(m, boards, seen + {p}, cls)
         == if ClassOf(m, boards, p) == cls then Only(m, boards, seen, cls) + {p} else Only(m, boards, seen, cls)
  {
  }

  lemma WrapsAdd(m: Machine, boards: set<Board>, seen: set<Port>, p: Port, torus: WrapAround)
    requires m.Positive() && 0 <= p.0.z < 3 && WrapsAmong(m, boards, seen, torus)
    ensures WrapsAmong(m, boards, seen + {p}, if FarEnd(m, p).0 in boards then torus.Or(FarEnd(m, p).1) else torus)
  {
    var now := seen + {p};
    assert p in now;
    assert forall q :: q in seen ==> q in now;
  }

  lemma SortedAdds(m: Machine, boards: set<Board>, seen: set<Port>, c: Classes, p: Port)
    requires m.Positive() && 0 <= p.0.z < 3 && Sorted(m, boards, seen, c)
    ensures Sorted(m, boards, seen + {p}, Add(m, boards, c, p))
  {
    OnlyAdds(m, boards, seen, p, Alive);
    OnlyAdds(m, boards, seen, p, Wrap);
    OnlyAdds(m, boards, seen, p, Dead);
    OnlyAdds(m, boards, seen, p, DeadWrap);
    OnlyAdds(m, boards, seen, p, Periphery);
    WrapsAdd(m, boards, seen, p, c.torus);
  }

  ghost function PortsUpTo(b: Board, n: nat): set<Port>
    requires n <= |ALL_LINKS|
  {
    set k | 0 <= k < n :: (b, ALL_LINKS[k])
  }

  lemma AllPortsOf(b: Board)
    ensures PortsUpTo(b, |ALL_LINKS|) == Ports({b})
  {
    forall link: Link
      ensures (b, link) in PortsUpTo(b, |ALL_LINKS|)
    {
      EveryLinkListed(link);
    }
  }

  lemma SortedNext(m: Machine, boards: set<Board>, seen: set<Port>, c: Classes, b: Board, i: nat)
    requires m.Positive() && 0 <= b.z < 3 && i < |ALL_LINKS| && Sorted(m, boards, seen + PortsUpTo(b, i), c)
    ensures Sorted(m, boards, seen + PortsUpTo(b, i + 1), Add(m, boards, c, (b, ALL_LINKS[i])))
  {
    var p := (b, ALL_LINKS[i]);
    SortedAdds(m, boards, seen + PortsUpTo(b, i), c, p);
    assert seen + PortsUpTo(b, i) + {p} == seen + PortsUpTo(b, i + 1);
  }

  method ClassifyBoard(m: Machine, boards: set<Board>, b: Board, c0: Classes, ghost seen: set<Port>)
    returns (c: Classes)
    requires m.Positive() && 0 <= b.z < 3 && Sorted(m, boards, seen, c0)
    ensures Sorted(m, boards, seen + Ports({b}), c)
  {
    c := c0;
    var i := 0;
    assert seen + PortsUpTo(b, 0) == seen;
    while i < |ALL_LINKS|
      invariant 0 <= i <= |ALL_LINKS|
      invariant Sorted(m, boards, seen + PortsUpTo(b, i), c)
    {
      SortedNext(m, boards, seen, c, b, i);
      c := Add(m, boards, c, (b, ALL_LINKS[i]));
      i := i + 1;
    }
    AllPortsOf(b);
  }

  method ClassifyLinks(m: Machine, boards: set<Board>) returns (c: Classes)
    requires m.Positive() && OnTriads(boards)
    ensures Sorted(m, boards, Ports(boards), c)
  {
    c := Classes({}, {}, {}, {}, {}, NO_WRAP);
    var todo := boards;
    ghost var done: set<Board> := {};
    assert Ports(done) == {};
    while todo != {}
      invariant todo !! done && todo + done == boards
      invariant Sorted(m, boards, Ports(done), c)
      decreases todo
    {
      var b :| b in todo;
      c := ClassifyBoard(m, boards, b, c, Ports(done));
      assert Ports(done) + Ports({b}) == Ports(done + {b});
      done := done + {b};
      todo := todo - {b};
    }
    assert done == boards;
  }

  /** The five classes partition the links of the boards, six to a board. */
  lemma ClassesPartition(m: Machine, boards: set<Board>, p: Port)
    requires m.Positive() && OnTriads(boards)
    ensures p in Ports(boards) <==> p.0 in boards
    ensures p in Ports(boards) <==>
              exists cls :: p in LinksOf(m, boards, cls)
    ensures forall cls, other :: p in LinksOf(m, boards, cls) && p in LinksOf(m, boards, other) ==> cls == other
  {
    if p.0 in boards {
      assert p == (p.0, p.1) && p in Ports(boards);
      assert p in LinksOf(m, boards, ClassOf(m, boards, p));
    }
  }

  /** The periphery is exactly the links that leave the set. */
  lemma PeripheryLeaves(m: Machine, boards: set<Board>, p: Port)
    requires m.Positive() && OnTriads(boards)
    ensures p in LinksOf(m, boards, Periphery) <==> p.0 in boards && FarEnd(m, p).0 !in boards
  {
    ClassesPartition(m, boards, p);
  }

  /**
   * What the classes mean: a link of a board of the set leaves the set, or joins two of its boards; then it wraps or does
   * not, and is listed as dead or is not.
   */
  lemma ClassesExactly(m: Machine, boards: set<Board>, p: Port)
    requires m.Positive() && OnTriads(boards)
    ensures p in LinksOf(m, boards, Periphery) <==> p.0 in boards && FarEnd(m, p).0 !in boards
    ensures p in LinksOf(m, boards, Dead) <==>
              p.0 in boards && FarEnd(m, p).0 in boards && FarEnd(m, p).1.None() && p in m.deadLinks
    ensures p in LinksOf(m, boards, DeadWrap) <==>
              p.0 in boards && FarEnd(m, p).0 in boards && !FarEnd(m, p).1.None() && p in m.deadLinks
    ensures p in LinksOf(m, boards, Alive) <==>
              p.0 in boards && FarEnd(m, p).0 in boards && FarEnd(m, p).1.None() && p !in m.deadLinks
    ensures p in LinksOf(m, boards, Wrap) <==>
              p.0 in boards && FarEnd(m, p).0 in boards && !FarEnd(m, p).1.None() && p !in m.deadLinks
  {
    ClassesPartition(m, boards, p);
  }

  /** The links listed as dead that join boards of the set, those that wrap only if asked for. */
  function DeadInside(m: Machine, boards: set<Board>, wrapsToo: bool): set<Port>
    requires m.Positive() && OnTriads(boards)
  {
    set p | p in m.deadLinks && p.0 in boards && FarEnd(m, p).0 in boards && (wrapsToo || FarEnd(m, p).1.None())
  }

  lemma DeadCounted(m: Machine, boards: set<Board>, wrapsToo: bool)
    requires m.Positive() && OnTriads(boards)
    ensures |DeadInside(m, boards, wrapsToo)|
         == |LinksOf(m, boards, Dead)| + if wrapsToo then |LinksOf(m, boards, DeadWrap)| else 0
  {
    var dead, deadWrap := LinksOf(m, boards, Dead), LinksOf(m, boards, DeadWrap);
    forall p: Port
      ensures p in DeadInside(m, boards, wrapsToo) <==> p in dead || (wrapsToo && p in deadWrap)
      ensures !(p in dead && p in deadWrap)
    {
      ClassesExactly(m, boards, p);
    }
    if wrapsToo {
      assert DeadInside(m, boards, wrapsToo) == dead + deadWrap;
    } else {
      assert DeadInside(m, boards, wrapsToo) == dead;
    }
  }

  /** A link joining two boards of the set is also seen from its other end, and wraps from both ends or neither. */
  lemma InternalLinksPairUp(m: Machine, boards: set<Board>, p: Port)
    requires m.Positive() && OnTriads(boards) && forall b :: b in boards ==> InMachine(b, m.width, m.height)
    requires p.0 in boards && FarEnd(m, p).0 in boards
    ensures var back := (FarEnd(m, p).0, p.1.Opposite());
            && FarEnd(m, back).0 == p.0
            && back !in LinksOf(m, boards, Periphery)
            && (p in LinksOf(m, boards, Wrap) + LinksOf(m, boards, DeadWrap)
                <==> back in LinksOf(m, boards, Wrap) + LinksOf(m, boards, DeadWrap))
  {
    LinkThereAndBack(p.0, p.1, m.width, m.height);
  }

  // ----- accepting a candidate

  /** The caller's limits; None means no limit. */
  datatype Limits = Limits(maxDeadBoards: Option<int>, maxDeadLinks: Option<int>, requireTorus: bool)

  /**
   * The three conditions the packing tree is asked to respect: none at all, a triad with a board that works,
   * and a connected region within limits.
   */
  datatype FilterKind =
    | Anything
    | SomeBoardWorks(deadBoards: set<Board>)
    | Connected(machine: Machine, limits: Limits, expectedBoards: Option<int>)

  function Working(deadBoards: set<Board>, x: int, y: int): set<int> {
    set z | 0 <= z < 3 && Board(x, y, z) !in deadBoards
  }

  ghost predicate Connects(m: Machine, limits: Limits, expectedBoards: Option<int>, r: Rect)
    requires m.Positive()
  {
    var boards := Region(m, r);
    var expected := if expectedBoards.Some? then expectedBoards.value else r.w * r.h * 3;
    var dead := |LinksOf(m, boards, Dead)| + if limits.requireTorus then |LinksOf(m, boards, DeadWrap)| else 0;
    && boards != {}
    && (limits.maxDeadBoards.Some? ==> expected - |boards| <= limits.maxDeadBoards.value)
    && (limits.requireTorus ==> !TorusOf(m, boards).None())
    && (limits.maxDeadLinks.Some? ==> dead <= limits.maxDeadLinks.value)
  }

  /** Which limits a candidate has to keep, with nothing said of classes. */
  lemma LimitsExactly(m: Machine, limits: Limits, expectedBoards: Option<int>, r: Rect)
    requires m.Positive() && r.Positive()
    ensures OnTriads(Region(m, r))
    ensures Connects(m, limits, expectedBoards, r) <==>
              && Region(m, r) != {}
              && (limits.maxDeadBoards.Some? ==>
                    (if expectedBoards.Some? then expectedBoards.value else r.w * r.h * 3) - |Region(m, r)| <= limits.maxDeadBoards.value)
              && (limits.maxDeadLinks.Some? ==> |DeadInside(m, Region(m, r), limits.requireTorus)| <= limits.maxDeadLinks.value)
              && (limits.requireTorus ==>
                    exists p: Port :: p.0 in Region(m, r) && FarEnd(m, p).0 in Region(m, r) && !FarEnd(m, p).1.None())
  {
    var boards := Region(m, r);
    assert forall b :: b in boards ==> 0 <= b.z < 3;
    DeadCounted(m, boards, limits.requireTorus);
    TorusExactly(m, boards);
  }

  lemma TorusExactly(m: Machine, boards: set<Board>)
    requires m.Positive() && OnTriads(boards)
    ensures !TorusOf(m, boards).None() <==>
              exists p: Port :: p.0 in boards && FarEnd(m, p).0 in boards && !FarEnd(m, p).1.None()
  {
    if p: Port :| p.0 in boards && FarEnd(m, p).0 in boards && !FarEnd(m, p).1.None() {
      assert p == (p.0, p.1) && p in Ports(boards);
    }
  }

  /** A candidate none of whose links is listed as dead is never refused for a limit on dead links. */
  lemma FaultlessNotRefused(m: Machine, limits: Limits, expectedBoards: Option<int>, r: Rect)
    requires m.Positive() && r.Positive() && (limits.maxDeadLinks.Some? ==> limits.maxDeadLinks.value >= 0)
    requires forall p :: p in m.deadLinks ==> p.0 !in Region(m, r)
    ensures Connects(m, limits, expectedBoards, r) <==> Connects(m, limits.(maxDeadLinks := None), expectedBoards, r)
  {
    LimitsExactly(m, limits, expectedBoards, r);
    LimitsExactly(m, limits.(maxDeadLinks := None), expectedBoards, r);
    assert DeadInside(m, Region(m, r), limits.requireTorus) == {};
  }

  ghost function TorusOf(m: Machine, boards: set<Board>): (torus: WrapAround)
    requires m.Positive()
    ensures WrapsAmong(m, boards, Ports(boards), torus)
  {
    WrapAround(
      exists p :: p in Ports(boards) && 0 <= p.0.z < 3 && FarEnd(m, p).0 in boards && FarEnd(m, p).1.alongX,
      exists p :: p in Ports(boards) && 0 <= p.0.z < 3 && FarEnd(m, p).0 in boards && FarEnd(m, p).1.alongY)
  }

  ghost predicate Accepts(kind: FilterKind, r: Rect) {
    match kind
    case Anything => true
    case SomeBoardWorks(deadBoards) => Working(deadBoards, r.x, r.y) != {}
    case Connected(m, limits, expected) => m.Positive() && Connects(m, limits, expected, r)
  }

  ghost function AsFilter(kind: FilterKind): Filter {
    r => Accepts(kind, r)
  }

  /** A filter object; it remembers the boards, periphery and torus of the candidate it last accepted. */
  class CandidateFilter {
    const kind: FilterKind
    var boards: set<Board>
    var periphery: set<Port>
    var torus: WrapAround

    constructor (kind: FilterKind)
      ensures this.kind == kind
    {
      this.kind := kind;
      boards, periphery, torus := {}, {}, NO_WRAP;
    }

    predicate Usable() {
      kind.Connected? ==> kind.machine.Positive()
    }

    /** The attributes describe this candidate. */
    ghost predicate Describes(r: Rect)
      reads this
    {
      kind.Connected? && kind.machine.Positive() ==>
        && boards == Region(kind.machine, r)
        && periphery == LinksOf(kind.machine, boards, Periphery)
        && torus == TorusOf(kind.machine, boards)
    }

    /** Test a candidate. Its attributes are recorded if and only if it is accepted. */
    method Call(r: Rect) returns (ok: bool)
      requires Usable() && r.Positive()
      modifies this
      ensures ok == Accepts(kind, r) == AsFilter(kind)(r)
      ensures ok ==> Describes(r)
      ensures !ok ==> unchanged(this)
    {
      match kind {
        case Anything =>
          return true;
        case SomeBoardWorks(deadBoards) =>
          ok := OneWorks(deadBoards, r.x, r.y);
        case Connected(m, limits, expectedBoards) =>
          ok := CallConnected(m, limits, expectedBoards, r);
      }
    }

    static method OneWorks(deadBoards: set<Board>, x: int, y: int) returns (ok: bool)
      ensures ok <==> Working(deadBoards, x, y) != {}
    {
      var numDead := 0;
      var z := 0;
      while z < 3
        invariant 0 <= z <= 3 && 0 <= numDead <= z
        invariant numDead == z ==> forall k :: 0 <= k < z ==> k !in Working(deadBoards, x, y)
        invariant numDead < z ==> Working(deadBoards, x, y) != {}
      {
        if Board(x, y, z) in deadBoards {
          numDead := numDead + 1;
        } else {
          assert z in Working(deadBoards, x, y);
        }
        z := z + 1;
      }
      ok := numDead < 3;
    }

    method CallConnected(m: Machine, limits: Limits, expectedBoards: Option<int>, r: Rect) returns (ok: bool)
      requires kind == Connected(m, limits, expectedBoards) && m.Positive() && r.Positive()
      modifies this
      ensures ok == Connects(m, limits, expectedBoards, r)
      ensures ok ==> Describes(r)
      ensures !ok ==> unchanged(this)
    {
      var found := EnumerateBoards(m, r);
      RegionHoldsStart(m, r);
      if limits.maxDeadBoards.Some? {
        var expected := if expectedBoards.Some? then expectedBoards.value else r.w * r.h * 3;
        var alive := |found|;
        var dead := expected - alive;
        if alive == 0 || dead > limits.maxDeadBoards.value {
          return false;
        }
      } else if found == {} {
        return false;
      }
      var classes := ClassifyLinks(m, found);
      TorusIsUnique(m, found, classes.torus);
      if limits.requireTorus && classes.torus.None() {
        return false;
      }
      if limits.maxDeadLinks.Some? {
        var deadLinks := |classes.dead|;
        if limits.requireTorus {
          deadLinks := deadLinks + |classes.deadWrap|;
        }
        if deadLinks > limits.maxDeadLinks.value {
          return false;
        }
      }
      boards, periphery, torus := found, classes.periphery, classes.torus;
      ok := true;
    }
  }

  lemma TorusIsUnique(m: Machine, boards: set<Board>, torus: WrapAround)
    requires m.Positive() && WrapsAmong(m, boards, Ports(boards), torus)
    ensures torus == TorusOf(m, boards)
  {
  }
}
