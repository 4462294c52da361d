/**
 * The question "could this ever be allocated?", and when the answer agrees with what allocating on an idle
 * machine does.
 */
module Oracle {
  import opened Wrappers
  import opened Coordinates
  import opened AreaToRect
  import opened PackTreeModel
  import opened CandidateFilter
  import opened AllocatorModel

  function Root(m: Machine): Rect {
    Rect(0, 0, m.width, m.height)
  }

  /** Some corner of the machine takes a rectangle of this size. */
  ghost predicate CornerAccepted(m: Machine, width: int, height: int, filter: FilterKind) {
    exists r :: r in Corners(Root(m), width, height) && Accepts(filter, r)
  }

  /** A torus cannot be asked of a single board. */
  predicate Rejected(d: Demand) {
    d.request.ForOneBoard() && d.limits.requireTorus
  }

  /** The requests for which alloc_possible raises an error instead of answering. */
  predicate Raises(m: Machine, d: Demand) {
    || Rejected(d)
    || (&& d.request.Count? && d.request.boards != 1 && d.request.ratio < 0.0
        && CeilDiv(d.request.boards, 3) > 0
        && (d.limits.requireTorus ==> CeilDiv(d.request.boards, 3) == m.width * m.height))
  }

  /** What alloc_possible answers. */
  ghost predicate Possible(m: Machine, d: Demand) {
    if d.request.ThisBoard? then
      InMachine(d.request.at, m.width, m.height) && d.request.at !in m.deadBoards
      && |m.deadBoards| < m.width * m.height * 3
    else if d.request.ForOneBoard() then |m.deadBoards| < m.width * m.height * 3
    else
      match d.request
      case Block(width, height) =>
        && width <= m.width && height <= m.height && width > 0 && height > 0
        && (d.limits.requireTorus ==> width == m.width && height == m.height)
        && CornerAccepted(m, width, height, Connected(m, d.limits, None))
      case Count(boards, ratio) =>
        var triads := CeilDiv(boards, 3);
        && triads > 0
        && (d.limits.requireTorus ==> triads == m.width * m.height)
        && var size := RectFor(triads, m.width, m.height, ratio);
           size.Fits? && CornerAccepted(m, size.width, size.height, Connected(m, d.limits, Some(boards)))
      case _ => false
  }

  /** Nothing is allocated: the tree is one free leaf, no triad is opened and the quarantine is empty. */
  predicate Idle(m: Machine, s: State) {
    s.tree == Leaf(Root(m), false) && s.pool == map[] && s.toFree == []
  }

  /** The dead boards are boards of the machine. */
  predicate DeadInMachine(m: Machine) {
    forall b :: b in m.deadBoards ==> InMachine(b, m.width, m.height)
  }

  // ----- counting boards

  /** The last triad of a row, apart from the rest. */
  lemma LastTriad(x: int, y: int, w: nat) returns (rest: set<Board>, last: set<Board>)
    requires w > 0
    ensures rest == BoardsOf(Rect(x, y, w - 1, 1)) && rest !! last && |last| == 3
    ensures BoardsOf(Rect(x, y, w, 1)) == rest + last
  {
    rest := BoardsOf(Rect(x, y, w - 1, 1));
    var e := x + w - 1;
    last := {Board(e, y, 0), Board(e, y, 1), Board(e, y, 2)};
    forall b
      ensures b in BoardsOf(Rect(x, y, w, 1)) <==> b in rest + last
    {
    }
  }

  lemma {:induction false} RowCells(x: int, y: int, w: nat)
    ensures |BoardsOf(Rect(x, y, w, 1))| == 3 * w
    decreases w
  {
    if w == 0 {
      assert BoardsOf(Rect(x, y, 0, 1)) == {};
    } else {
      RowCells(x, y, w - 1);
      var rest, last := LastTriad(x, y, w);
    }
  }

  lemma {:induction false} BoardCount(x: int, y: int, w: nat, h: nat)
    ensures |BoardsOf(Rect(x, y, w, h))| == w * h * 3
    decreases h
  {
    if h == 0 {
      assert BoardsOf(Rect(x, y, w, 0)) == {};
    } else {
      BoardCount(x, y, w, h - 1);
      RowCells(x, y + h - 1, w);
      var rest, row := BoardsOf(Rect(x, y, w, h - 1)), BoardsOf(Rect(x, y + h - 1, w, 1));
      assert BoardsOf(Rect(x, y, w, h)) == rest + row;
      assert rest !! row;
      assert w * h == w * (h - 1) + w;
    }
  }

  /** Fewer dead boards than boards means that some board works, and conversely. */
  lemma SomeBoardAlive(m: Machine)
    requires m.Positive() && DeadInMachine(m)
    ensures |m.deadBoards| < m.width * m.height * 3
        <==> exists b :: InMachine(b, m.width, m.height) && b !in m.deadBoards
  {
    var all := BoardsOf(Root(m));
    BoardCount(0, 0, m.width, m.height);
    forall b | InMachine(b, m.width, m.height)
      ensures b in all
    {
      assert b == Board(b.x, b.y, b.z);
    }
    assert m.deadBoards <= all;
    assert all == m.deadBoards + (all - m.deadBoards);
    if |m.deadBoards| < |all| {
      var b :| b in all - m.deadBoards;
      assert InMachine(b, m.width, m.height) && b !in m.deadBoards;
    }
    if b :| InMachine(b, m.width, m.height) && b !in m.deadBoards {
      assert b in all - m.deadBoards;
    }
  }

  // ----- agreement with allocating on the idle machine

  lemma CornerSearch(m: Machine, width: int, height: int, filter: FilterKind)
    ensures FindAcceptable(Root(m), width, height, AsFilter(filter)).Some? <==> CornerAccepted(m, width, height, filter)
  {
    FirstAcceptedExact(Corners(Root(m), width, height), AsFilter(filter));
  }

  /**
   * For blocks, board counts and particular boards the oracle is exact: it says yes if and only if allocating
   * succeeds on the idle machine.
   */
  lemma OracleExact(m: Machine, s: State, d: Demand, s': State, r: Option<Allocation>)
    requires Inv(m, s) && Idle(m, s) && DeadInMachine(m) && d.request.Sensible()
    requires d.request.ThisBoard? || !d.request.ForOneBoard()
    requires Outcome(m, s, d, s', r)
    ensures r.Some? <==> Possible(m, d)
  {
    match d.request
    case ThisBoard(b) => ThisBoardExact(m, s, b, d.limits, s', r);
    case Block(width, height) => CornerSearch(m, width, height, Connected(m, d.limits, None));
    case Count(boards, ratio) => CountExact(m, s, d, s', r);
  }

  lemma ThisBoardExact(m: Machine, s: State, b: Board, limits: Limits, s': State, r: Option<Allocation>)
    requires Inv(m, s) && Idle(m, s) && DeadInMachine(m) && 0 <= b.z < 3 && ThisBoardOutcome(m, s, b, s', r)
    ensures r.Some? <==> Possible(m, Demand(ThisBoard(b), limits))
  {
    RequestExact(s.tree, b.x, b.y);
    SomeBoardAlive(m);
  }

  lemma CountExact(m: Machine, s: State, d: Demand, s': State, r: Option<Allocation>)
    requires Inv(m, s) && Idle(m, s) && d.request.Sensible() && d.request.Count? && d.request.boards != 1
    requires BlockOutcome(m, s, d, s', r)
    ensures r.Some? <==> Possible(m, d)
  {
    var size := RectFor(CeilDiv(d.request.boards, 3), m.width, m.height, d.request.ratio);
    if size.Fits? {
      CornerSearch(m, size.width, size.height, Connected(m, d.limits, Some(d.request.boards)));
    }
  }

  /** One of the four corner triads of the machine has a working board. */
  predicate CornerWorks(m: Machine) {
    || Working(m.deadBoards, 0, 0) != {}
    || Working(m.deadBoards, 0, m.height - 1) != {}
    || Working(m.deadBoards, m.width - 1, 0) != {}
    || Working(m.deadBoards, m.width - 1, m.height - 1) != {}
  }

  /**
   * For an unspecified single board the oracle only counts dead boards, while allocating on the idle machine
   * tries only the corner triads: it succeeds if and only if one of them has a working board.
   */
  lemma AnyBoardSucceeds(m: Machine, s: State, d: Demand, s': State, r: Option<Allocation>)
    requires Inv(m, s) && Idle(m, s) && d.request.ForOneBoard() && !d.request.ThisBoard?
    requires Outcome(m, s, d, s', r)
    ensures r.Some? <==> CornerWorks(m)
  {
    var filter := SomeBoardWorks(m.deadBoards);
    CornerSearch(m, 1, 1, filter);
    var corners := Corners(Root(m), 1, 1);
    assert CornerAccepted(m, 1, 1, filter) <==> CornerWorks(m) by {
      assert Accepts(filter, corners[0]) <==> Working(m.deadBoards, 0, 0) != {};
      assert Accepts(filter, corners[1]) <==> Working(m.deadBoards, 0, m.height - 1) != {};
      assert Accepts(filter, corners[2]) <==> Working(m.deadBoards, m.width - 1, 0) != {};
      assert Accepts(filter, corners[3]) <==> Working(m.deadBoards, m.width - 1, m.height - 1) != {};
      assert forall r :: r in corners ==> r == corners[0] || r == corners[1] || r == corners[2] || r == corners[3];
    }
  }

  /** So for single boards the oracle is right exactly when a corner triad works or no board at all does. */
  lemma AnyBoardOracleExact(m: Machine, s: State, d: Demand, s': State, r: Option<Allocation>)
    requires Inv(m, s) && Idle(m, s) && DeadInMachine(m) && d.request.ForOneBoard() && !d.request.ThisBoard?
    requires Outcome(m, s, d, s', r)
    ensures (r.Some? <==> Possible(m, d)) <==> (CornerWorks(m) || |m.deadBoards| == m.width * m.height * 3)
  {
    AnyBoardSucceeds(m, s, d, s', r);
    SomeBoardAlive(m);
    var all := BoardsOf(Root(m));
    BoardCount(0, 0, m.width, m.height);
    assert m.deadBoards <= all by {
      forall b | b in m.deadBoards
        ensures b in all
      {
        assert b == Board(b.x, b.y, b.z);
      }
    }
    SubsetCount(m.deadBoards, all);
    if CornerWorks(m) {
      CornerAlive(m);
    }
  }

  lemma SubsetCount<T>(a: set<T>, b: set<T>)
    requires a <= b
    ensures |a| <= |b|
  {
    assert b == a + (b - a);
  }

  lemma CornerAlive(m: Machine)
    requires m.Positive() && CornerWorks(m)
    ensures exists b :: InMachine(b, m.width, m.height) && b !in m.deadBoards
  {
    var x := if Working(m.deadBoards, 0, 0) != {} || Working(m.deadBoards, 0, m.height - 1) != {} then 0 else m.width - 1;
    var y := if Working(m.deadBoards, x, 0) != {} then 0 else m.height - 1;
    var z :| z in Working(m.deadBoards, x, y);
    assert InMachine(Board(x, y, z), m.width, m.height) && Board(x, y, z) !in m.deadBoards;
  }

  /** Three triads in a row with only the middle one working: possible, says the oracle; never on the idle machine. */
  lemma AnyBoardOracleCanBeWrong()
    ensures var dead := {Board(0, 0, 0), Board(0, 0, 1), Board(0, 0, 2), Board(2, 0, 0), Board(2, 0, 1), Board(2, 0, 2)};
            var m := Machine(3, 1, dead, {});
            var d := Demand(AnyBoard, Limits(None, None, false));
            && Possible(m, d) && Inv(m, Initial(m, 1)) && Idle(m, Initial(m, 1))
            && forall s', r :: Outcome(m, Initial(m, 1), d, s', r) ==> r == None
  {
    var dead := {Board(0, 0, 0), Board(0, 0, 1), Board(0, 0, 2), Board(2, 0, 0), Board(2, 0, 1), Board(2, 0, 2)};
    var m := Machine(3, 1, dead, {});
    var d := Demand(AnyBoard, Limits(None, None, false));
    InitialHolds(m, 1);
    assert |dead| == 6;
    assert Working(dead, 0, 0) == {} && Working(dead, 2, 0) == {};
    forall s', r | Outcome(m, Initial(m, 1), d, s', r)
      ensures r == None
    {
      AnyBoardSucceeds(m, Initial(m, 1), d, s', r);
    }
  }

  /** Some outcome always exists, so a demand found possible really is met by the idle machine. */
  lemma OutcomeExists(m: Machine, s: State, d: Demand) returns (s': State, r: Option<Allocation>)
    requires Inv(m, s) && d.request.Sensible()
    ensures Outcome(m, s, d, s', r)
  {
    if d.request.ThisBoard? {
      s', r := ThisBoardExists(m, s, d.request.at);
    } else if d.request.ForOneBoard() {
      s', r := AnyBoardExists(m, s);
    } else {
      var p := PlanFor(m, d);
      if p.Some? && Alloc(s.tree, p.value.wanted, AsFilter(p.value.filter)).Granted? {
        var g := Alloc(s.tree, p.value.wanted, AsFilter(p.value.filter));
        s', r := GrantBlock(s, g.tree, g.rect, Region(m, g.rect)), Some(BlockAllocation(m, s.nextId, g.rect));
      } else {
        s', r := s, None;
      }
    }
  }

  lemma TakeExists(s: State, t: Triad, z: int) returns (s': State, r: Option<Allocation>)
    requires t in s.pool && z in s.pool[t]
    ensures Takes(s, t, z, s', r)
  {
    s', r := TakeBoard(s, t, z), Some(BoardAllocation(s.nextId, Board(t.0, t.1, z)));
  }

  lemma ThisBoardExists(m: Machine, s: State, b: Board) returns (s': State, r: Option<Allocation>)
    requires Inv(m, s) && 0 <= b.z < 3
    ensures ThisBoardOutcome(m, s, b, s', r)
  {
    var t := (b.x, b.y);
    s', r := s, None;
    if b !in m.deadBoards {
      if b.z in Unused(s, t) {
        s', r := TakeExists(s, t, b.z);
      } else if PackTreeModel.Request(s.tree, b.x, b.y).Some? {
        assert b.z in Working(m.deadBoards, b.x, b.y);
        s', r := TakeExists(OpenTriad(m, s, PackTreeModel.Request(s.tree, b.x, b.y).value, t), t, b.z);
      }
    }
  }

  lemma AnyBoardExists(m: Machine, s: State) returns (s': State, r: Option<Allocation>)
    requires Inv(m, s)
    ensures AnyBoardOutcome(m, s, s', r)
  {
    s', r := s, None;
    if s.pool != map[] {
      var t :| t in s.pool;
      assert TriadOk(m, s, t);
      var z :| z in s.pool[t];
      s', r := TakeExists(s, t, z);
    } else {
      var f := AsFilter(SomeBoardWorks(m.deadBoards));
      var g := Alloc(s.tree, Size(1, 1), f);
      if g.Granted? {
        AllocGrants(s.tree, Size(1, 1), f);
        var z :| z in Working(m.deadBoards, g.rect.x, g.rect.y);
        s', r := TakeExists(OpenTriad(m, s, g.tree, (g.rect.x, g.rect.y)), (g.rect.x, g.rect.y), z);
      }
    }
  }
}
