/** What the allocator's invariant gives over whole runs: disjoint grants, conservation, and the quarantine. */
module AllocatorTheorems {
  import opened Wrappers
  import opened Coordinates
  import opened AreaToRect
  import opened PackTreeModel
  import opened CandidateFilter
  import opened AllocatorModel

  // ----- disjointness

  /** Two allocations that are live or in quarantine never share a board. */
  lemma GrantsDisjoint(m: Machine, s: State, h: Holding, k: Holding)
    requires Inv(m, s) && h in s.ledger && k in s.ledger && h != k
    ensures s.ledger[h].boards !! s.ledger[k].boards
  {
    var g, f := s.ledger[h], s.ledger[k];
    assert GripOk(m, s, h, g) && GripOk(m, s, k, f);
    if g.rect != f.rect {
      GripRect(m, s, h);
      GripRect(m, s, k);
      LeavesApart(s.tree, g.rect, f.rect);
      ApartBoards(g.rect, f.rect);
    }
  }

  /** A holding lies inside an allocated leaf of the tree. */
  lemma GripRect(m: Machine, s: State, h: Holding)
    requires Inv(m, s) && h in s.ledger
    ensures s.ledger[h].rect in Busy(s.tree) && s.ledger[h].boards <= BoardsOf(s.ledger[h].rect)
    ensures s.ledger[h].boards != {} && s.ledger[h].boards !! m.deadBoards
  {
    assert GripOk(m, s, h, s.ledger[h]);
    if h.kind.SingleBoard? {
      assert TriadOk(m, s, (h.at.x, h.at.y));
      assert h.at == Board(h.at.x, h.at.y, h.at.z);
    }
  }

  lemma ApartBoards(r: Rect, q: Rect)
    requires r.Apart(q)
    ensures BoardsOf(r) !! BoardsOf(q)
  {
  }

  /** Every board that is held works and lies in the machine. */
  lemma GrantsInMachine(m: Machine, s: State, h: Holding, b: Board)
    requires Inv(m, s) && h in s.ledger && b in s.ledger[h].boards
    ensures InMachine(b, m.width, m.height) && b !in m.deadBoards
  {
    GripRect(m, s, h);
    LeavesInside(s.tree, s.ledger[h].rect);
  }

  /** What a successful allocation returns is disjoint from everything still held, and is not empty. */
  lemma NewGrantAvoidsHeld(m: Machine, s: State, d: Demand, s': State, a: Allocation, h: Holding)
    requires Inv(m, s) && d.request.Sensible() && Outcome(m, s, d, s', Some(a)) && h in s.ledger
    ensures a.boards != {} && a.boards !! s.ledger[h].boards
  {
    OutcomeKeeps(m, s, d, s', Some(a));
    GripRect(m, s', s'.live[a.id]);
    GrantsDisjoint(m, s', s'.live[a.id], h);
  }

  /** The rectangle is what was asked for: the block itself, or the triads that the boards make up, and no more than need be. */
  predicate Answers(request: Request, rect: Rect) {
    match request
    case Block(width, height) => rect.w == width && rect.h == height
    case Count(boards, ratio) =>
      && rect.w >= 1 && rect.h >= 1 && ratio >= 0.0 && rect.w * rect.h >= CeilDiv(boards, 3)
      && NoLarger(rect.w, rect.h, CeilDiv(boards, 3))
      && Proportionate(Longer(rect.w, rect.h), Shorter(rect.w, rect.h), Landscape(ratio))
    case _ => false
  }

  /** The boards granted keep the limits on missing boards, dead links and torus links. */
  ghost predicate WithinLimits(m: Machine, d: Demand, rect: Rect, a: Allocation)
    requires m.Positive()
  {
    var expected := if d.request.Count? then d.request.boards else rect.w * rect.h * 3;
    && (d.limits.maxDeadBoards.Some? ==> expected - |a.boards| <= d.limits.maxDeadBoards.value)
    && (d.limits.maxDeadLinks.Some? ==> OnTriads(a.boards) && |DeadInside(m, a.boards, d.limits.requireTorus)| <= d.limits.maxDeadLinks.value)
    && (d.limits.requireTorus ==> !a.torus.None())
  }

  /** The boards, periphery and torus are those of this rectangle. */
  ghost predicate DescribesRectangle(m: Machine, rect: Rect, a: Allocation)
    requires m.Positive()
  {
    && a.boards == Region(m, rect) && Board(rect.x, rect.y, 0) in a.boards
    && (forall p :: p in a.periphery <==> p.0 in a.boards && 0 <= p.0.z < 3 && FarEnd(m, p).0 !in a.boards)
    && a.torus == TorusOf(m, a.boards)
  }

  /**
   * What a block allocation returns describes exactly the one rectangle that was newly marked allocated: its
   * connected working boards, starting with the bottom-left one, and the links leaving them. The rectangle is
   * what was asked for, and its boards keep the limits.
   */
  lemma GrantMatchesRectangle(m: Machine, s: State, d: Demand, s': State, a: Allocation)
    requires Inv(m, s) && d.request.Sensible() && Outcome(m, s, d, s', Some(a)) && !d.request.ForOneBoard()
    ensures exists rect ::
              && Busy(s'.tree) == Busy(s.tree) + {rect} && rect !in Busy(s.tree)
              && Answers(d.request, rect) && DescribesRectangle(m, rect, a) && WithinLimits(m, d, rect, a)
              && s'.live[a.id] == Holding(Triads, Board(rect.x, rect.y, 0))
  {
    var p := PlanFor(m, d).value;
    var f := AsFilter(p.filter);
    AllocGrants(s.tree, p.wanted, f);
    var rect := Alloc(s.tree, p.wanted, f).rect;
    assert Accepts(p.filter, rect);
    BlockDescribed(m, s.nextId, rect);
    LimitsExactly(m, d.limits, if d.request.Count? then Some(d.request.boards) else None, rect);
    assert Busy(s'.tree) == Busy(s.tree) + {rect};
  }

  lemma BlockDescribed(m: Machine, id: int, rect: Rect)
    requires m.Positive() && rect.Positive() && Region(m, rect) != {}
    ensures DescribesRectangle(m, rect, BlockAllocation(m, id, rect))
  {
    var a := BlockAllocation(m, id, rect);
    RegionHoldsStart(m, rect);
    forall q: Port
      ensures q in a.periphery <==> q.0 in a.boards && 0 <= q.0.z < 3 && FarEnd(m, q).0 !in a.boards
    {
      if q.0 in a.boards {
        PeripheryLeaves(m, a.boards, q);
      }
    }
  }

  /**
   * A single board is given with all six of its links as periphery, and without a torus. It works, belongs to the
   * machine, and is the one asked for if one was.
   */
  lemma SingleBoardGrant(m: Machine, s: State, d: Demand, s': State, a: Allocation) returns (b: Board)
    requires Inv(m, s) && d.request.Sensible() && Outcome(m, s, d, s', Some(a)) && d.request.ForOneBoard()
    ensures a.boards == {b} && InMachine(b, m.width, m.height) && b !in m.deadBoards
    ensures forall p: Port :: p in a.periphery <==> p.0 == b
    ensures !a.torus.alongX && !a.torus.alongY
    ensures d.request.ThisBoard? ==> b == d.request.at
  {
    OutcomeKeeps(m, s, d, s', Some(a));
    b :| a.boards == {b};
    forall p: Port
      ensures p in a.periphery <==> p.0 == b
    {
      assert p == (p.0, p.1);
    }
    GrantsInMachine(m, s', s'.live[a.id], b);
  }

  /**
   * Triads are opened for single boards only when need be: while some opened triad has an unused board, asking for any
   * board succeeds and leaves the tree as it is; asking for a particular one opens its triad only if it is not unused
   * in an opened one.
   */
  lemma OpenedTriadsFirst(m: Machine, s: State, d: Demand, s': State, r: Option<Allocation>)
    requires Inv(m, s) && d.request.Sensible() && Outcome(m, s, d, s', r) && d.request.ForOneBoard()
    ensures !d.request.ThisBoard? && s.pool != map[] ==> r.Some? && s'.tree == s.tree
    ensures d.request.ThisBoard? && d.request.at.z in Unused(s, (d.request.at.x, d.request.at.y)) ==>
              r.Some? && s'.tree == s.tree
    ensures s'.tree != s.tree ==>
              r.Some? && exists t: Triad :: t !in Opened(s) && t in Opened(s') && Busy(s'.tree) == Busy(s.tree) + {Cell(t.0, t.1)}
  {
    if d.request.ThisBoard? {
      var t := (d.request.at.x, d.request.at.y);
      RequestExact(s.tree, t.0, t.1);
      if t in Opened(s) {
        assert TriadOk(m, s, t);
      }
      if s'.tree != s.tree {
        assert t !in Opened(s) && t in Opened(s');
      }
    } else if s.pool == map[] && r.Some? {
      var f := AsFilter(SomeBoardWorks(m.deadBoards));
      AllocGrants(s.tree, Size(1, 1), f);
      GrantedCell(s.tree, f);
      var corner := (Alloc(s.tree, Size(1, 1), f).rect.x, Alloc(s.tree, Size(1, 1), f).rect.y);
      assert corner in Opened(s) ==> TriadOk(m, s, corner);
      assert corner !in Opened(s) && corner in Opened(s');
    }
  }

  // ----- when an allocation is granted

  /** The corner q of the free leaf a is of the size asked for, or of the size for the number of boards within this leaf. */
  predicate Answering(request: Request, a: Rect, q: Rect) {
    match request
    case Block(width, height) => width >= 1 && height >= 1 && q.w == width && q.h == height
    case Count(boards, ratio) =>
      boards >= 1 && q.w >= 1 && q.h >= 1 && RectFor(CeilDiv(boards, 3), a.w, a.h, ratio) == Fits(q.w, q.h)
    case _ => false
  }

  /** A torus is only looked for in the whole machine. */
  predicate TorusInOrder(m: Machine, d: Demand) {
    d.limits.requireTorus ==>
      match d.request
      case Block(width, height) => width == m.width && height == m.height
      case Count(boards, _) => CeilDiv(boards, 3) == m.width * m.height
      case _ => true
  }

  /** Some corner of some free leaf has the size asked for, and its boards keep the limits. */
  ghost predicate Obtainable(m: Machine, s: State, d: Demand)
    requires m.Positive()
  {
    exists a, q: Rect :: a in Spare(s.tree) && a.Fits(q.w, q.h) && IsCorner(q, a) && Answering(d.request, a, q)
      && Connects(m, d.limits, if d.request.Count? then Some(d.request.boards) else None, q)
  }

  /**
   * A block, or a number of boards, is granted if and only if some corner of some free leaf has the size asked for and
   * keeps the limits; LimitsExactly says what those are. A torus is only ever granted as the whole machine.
   */
  lemma BlockGrantedExactly(m: Machine, s: State, d: Demand, s': State, r: Option<Allocation>)
    requires Inv(m, s) && d.request.Sensible() && Outcome(m, s, d, s', r) && !d.request.ForOneBoard()
    ensures r.Some? <==> TorusInOrder(m, d) && Obtainable(m, s, d)
    ensures r.None? ==> s' == s
  {
    CountsTriads(d.request);
    if PlanFor(m, d).Some? {
      var p := PlanFor(m, d).value;
      AllocRefuses(s.tree, p.wanted, AsFilter(p.filter));
      forall a | a in Spare(s.tree)
        ensures Choose(a, p.wanted, AsFilter(p.filter)).Some? <==>
                  exists q: Rect :: a.Fits(q.w, q.h) && IsCorner(q, a) && Answering(d.request, a, q) && Accepts(p.filter, q)
      {
        LeavesInside(s.tree, a);
        ChosenExactly(m, d, p, a);
      }
    }
  }

  lemma CountsTriads(request: Request)
    ensures request.Count? ==> (CeilDiv(request.boards, 3) >= 1 <==> request.boards >= 1)
    ensures request.Count? ==> 3 * (CeilDiv(request.boards, 3) - 1) < request.boards <= 3 * CeilDiv(request.boards, 3)
  {
  }

  lemma ChosenExactly(m: Machine, d: Demand, p: Plan, a: Rect)
    requires PlanFor(m, d) == Some(p) && a.Positive() && d.request.Sensible() && !d.request.ForOneBoard()
    ensures Choose(a, p.wanted, AsFilter(p.filter)).Some? <==>
              exists q: Rect :: a.Fits(q.w, q.h) && IsCorner(q, a) && Answering(d.request, a, q) && Accepts(p.filter, q)
  {
    CountsTriads(d.request);
    var f := AsFilter(p.filter);
    match d.request
    case Block(width, height) => FindAcceptableExact(a, width, height, f);
    case Count(boards, ratio) =>
      var size := RectFor(CeilDiv(boards, 3), a.w, a.h, ratio);
      if size.Fits? {
        RectForFits(CeilDiv(boards, 3), a.w, a.h, ratio);
        AreaWithin(size.width, size.height, a.w, a.h);
        FindAcceptableExact(a, size.width, size.height, f);
      }
    case _ =>
  }

  lemma AreaWithin(w: int, h: int, width: int, height: int)
    requires 0 <= w <= width && 0 <= h <= height
    ensures w * h <= width * height
  {
    MulMonotone(w, width, h);
    MulMonotone(h, height, width);
  }

  /**
   * A particular board is granted if and only if it works and either its triad is opened and the board unused, or its
   * triad is in a free leaf; any board, if and only if some opened triad has an unused board or some triad at the corner
   * of a free leaf has a board that works.
   */
  lemma BoardGrantedExactly(m: Machine, s: State, d: Demand, s': State, r: Option<Allocation>)
    requires Inv(m, s) && d.request.Sensible() && Outcome(m, s, d, s', r) && d.request.ForOneBoard()
    ensures d.request.ThisBoard? ==>
              var b := d.request.at;
              (r.Some? <==>
                && b !in m.deadBoards
                && (b.z in Unused(s, (b.x, b.y)) || (s.tree.area.Has(b.x, b.y) && LeafAt(s.tree, b.x, b.y) in Spare(s.tree))))
    ensures !d.request.ThisBoard? ==>
              (r.Some? <==>
                || s.pool != map[]
                || exists a, q: Rect :: a in Spare(s.tree) && q.w == 1 && q.h == 1 && IsCorner(q, a) && SomeWorks(m, q))
  {
    if d.request.ThisBoard? {
      RequestExact(s.tree, d.request.at.x, d.request.at.y);
    } else if s.pool == map[] {
      var f := AsFilter(SomeBoardWorks(m.deadBoards));
      AllocRefuses(s.tree, Size(1, 1), f);
      forall a | a in Spare(s.tree)
        ensures Choose(a, Size(1, 1), f).Some? <==> exists q: Rect :: q.w == 1 && q.h == 1 && IsCorner(q, a) && SomeWorks(m, q)
      {
        LeavesInside(s.tree, a);
        FindAcceptableExact(a, 1, 1, f);
        forall q: Rect
          ensures f(q) <==> SomeWorks(m, q)
        {
          assert forall z :: 0 <= z < 3 && Board(q.x, q.y, z) !in m.deadBoards ==> z in Working(m.deadBoards, q.x, q.y);
        }
      }
    }
  }

  predicate SomeWorks(m: Machine, q: Rect) {
    exists z :: 0 <= z < 3 && Board(q.x, q.y, z) !in m.deadBoards
  }

  // ----- boards off the triad

  /**
   * What comes of asking for a board numbered outside its triad, which alloc_possible refuses but alloc accepts: nothing
   * is given. If the triad is free it is opened all the same, which breaks the invariant; if it is not, or if the board
   * is listed as dead, nothing happens.
   */
  lemma OffTriadRequestLeaks(m: Machine, s: State, d: Demand, s': State, r: Option<Allocation>)
    requires Inv(m, s) && !d.request.OnTriad() && Outcome(m, s, d, s', r)
    ensures r == None
    ensures var b := d.request.at;
            var leaks := b !in m.deadBoards && s.tree.area.Has(b.x, b.y) && LeafAt(s.tree, b.x, b.y) in Spare(s.tree);
            && (leaks <==> s' != s) && (leaks <==> !Inv(m, s'))
            && (leaks ==> (b.x, b.y) !in Opened(s) && (b.x, b.y) in Opened(s') && Busy(s'.tree) == Busy(s.tree) + {Cell(b.x, b.y)})
  {
    var b := d.request.at;
    var t := (b.x, b.y);
    RequestExact(s.tree, b.x, b.y);
    assert t in Opened(s) ==> TriadOk(m, s, t);
    if b !in m.deadBoards && PackTreeModel.Request(s.tree, b.x, b.y).Some? {
      NotYetHeld(m, s, None, PackTreeModel.Request(s.tree, b.x, b.y).value, Cell(b.x, b.y));
      assert t in Opened(s') && Out(s', t) == {};
    }
  }

  // ----- conservation

  /** The working boards of a triad opened for single boards are those unused and those out, none twice. */
  lemma TriadConserved(m: Machine, s: State, t: Triad)
    requires Inv(m, s) && t in Opened(s)
    ensures Cell(t.0, t.1) in Busy(s.tree) && (t in s.pool <==> t !in s.full)
    ensures Unused(s, t) + Out(s, t) == Working(m.deadBoards, t.0, t.1) && Unused(s, t) !! Out(s, t)
    ensures Out(s, t) != {}
  {
    assert TriadOk(m, s, t);
  }

  /** With nothing live and nothing in quarantine, the allocator is as it was when it was created. */
  lemma AllReturned(m: Machine, s: State)
    requires Inv(m, s) && s.live == map[] && s.toFree == []
    ensures s == Initial(m, s.nextId)
  {
    assert forall h :: h in s.ledger ==> Claimed(s, h);
    assert s.ledger == map[];
    assert forall t :: t in Opened(s) ==> Out(s, t) != {};
    assert Opened(s) == {} && s.full <= Opened(s);
    assert s.pool == map[] && s.full == {};
    assert forall r :: r in Busy(s.tree) ==> LeafOk(s, r);
    EmptyCollapses(s.tree);
  }

  // ----- quarantine

  predicate Expired(e: Entry, secondsBeforeFree: int, now: int) {
    now - e.time >= secondsBeforeFree
  }

  /** n entries have left the front of the quarantine, and with them their ledger entries; nothing else is forgotten. */
  ghost predicate Dropped(s: State, s': State, n: nat) {
    && n <= |s.toFree| && s'.toFree == s.toFree[n..]
    && s'.live == s.live && s'.nextId == s.nextId
    && s'.ledger == s.ledger - set k | 0 <= k < n :: s.toFree[k].holding
  }

  /** check_free drops exactly the longest run of expired entries at the front, however the clock moved. */
  lemma {:induction false} CheckFreeDrops(m: Machine, secondsBeforeFree: int, s: State, now: int) returns (n: nat)
    requires Inv(m, s)
    ensures Dropped(s, CheckFree(m, secondsBeforeFree, s, now), n)
    ensures forall k :: 0 <= k < n ==> Expired(s.toFree[k], secondsBeforeFree, now)
    ensures n < |s.toFree| ==> !Expired(s.toFree[n], secondsBeforeFree, now)
    decreases |s.toFree|
  {
    if Due(s, secondsBeforeFree, now) {
      FreeNextKeeps(m, s);
      var s1 := FreeNext(m, s);
      var i := CheckFreeDrops(m, secondsBeforeFree, s1, now);
      n := i + 1;
      DroppedOneMore(s, s1, CheckFree(m, secondsBeforeFree, s1, now), i);
    } else {
      n := 0;
      assert s.ledger - {} == s.ledger;
    }
  }

  lemma DroppedOneMore(s: State, s1: State, s2: State, i: nat)
    requires s.toFree != [] && s1.toFree == s.toFree[1..] && s1.live == s.live && s1.nextId == s.nextId
    requires s1.ledger == s.ledger - {s.toFree[0].holding} && Dropped(s1, s2, i)
    ensures Dropped(s, s2, i + 1)
  {
    var gone := set k | 0 <= k < i :: s1.toFree[k].holding;
    var all := set k | 0 <= k < i + 1 :: s.toFree[k].holding;
    forall h
      ensures h in all <==> h == s.toFree[0].holding || h in gone
    {
      if h in gone {
        var k :| 0 <= k < i && s1.toFree[k].holding == h;
        assert s.toFree[k + 1].holding == h;
      }
      if h in all {
        var k :| 0 <= k < i + 1 && s.toFree[k].holding == h;
        assert k > 0 ==> s1.toFree[k - 1].holding == h;
      }
    }
  }

  predicate InTimeOrder(q: seq<Entry>) {
    forall k, l :: 0 <= k < l < |q| ==> q[k].time <= q[l].time
  }

  /**
   * With timestamps in order, check_free releases exactly the entries whose time is up: a holding leaves
   * the ledger if and only if it was in quarantine and has expired.
   */
  lemma CheckFreeExact(m: Machine, secondsBeforeFree: int, s: State, now: int, h: Holding)
    requires Inv(m, s) && InTimeOrder(s.toFree)
    ensures var s' := CheckFree(m, secondsBeforeFree, s, now);
            && (h in s.ledger && h !in s'.ledger <==>
                exists k :: 0 <= k < |s.toFree| && s.toFree[k].holding == h && Expired(s.toFree[k], secondsBeforeFree, now))
            && (h in s'.ledger ==> h in s.ledger && s'.ledger[h] == s.ledger[h])
            && forall e :: e in s'.toFree ==> !Expired(e, secondsBeforeFree, now)
  {
    var n := CheckFreeDrops(m, secondsBeforeFree, s, now);
    var s' := CheckFree(m, secondsBeforeFree, s, now);
    forall k | n <= k < |s.toFree|
      ensures !Expired(s.toFree[k], secondsBeforeFree, now)
    {
      assert s.toFree[n].time <= s.toFree[k].time;
    }
    forall e | e in s'.toFree
      ensures !Expired(e, secondsBeforeFree, now)
    {
      var k :| 0 <= k < |s'.toFree| && s'.toFree[k] == e;
      assert s.toFree[n + k] == e;
    }
    if k :| 0 <= k < |s.toFree| && s.toFree[k].holding == h && Expired(s.toFree[k], secondsBeforeFree, now) {
      assert k < n && s.toFree[k].holding in s.ledger;
    }
  }

  /** Checking again at the same time changes nothing. */
  lemma {:induction false} CheckFreeSettles(m: Machine, secondsBeforeFree: int, s: State, now: int)
    ensures CheckFree(m, secondsBeforeFree, CheckFree(m, secondsBeforeFree, s, now), now)
         == CheckFree(m, secondsBeforeFree, s, now)
    decreases |s.toFree|
  {
    if Due(s, secondsBeforeFree, now) && FreeNextOk(m, s) {
      CheckFreeSettles(m, secondsBeforeFree, FreeNext(m, s), now);
    }
  }

  // ----- runs

  datatype Op =
    | DoAlloc(demand: Demand, now: int)
    | DoFree(id: int, now: int)
    | DoCheck(now: int)

  ghost predicate Step(m: Machine, secondsBeforeFree: int, s: State, op: Op, s': State) {
    match op
    case DoAlloc(d, now) =>
      d.request.Sensible() && exists r :: Outcome(m, CheckFree(m, secondsBeforeFree, s, now), d, s', r)
    case DoFree(id, now) => id in s.live && s' == Release(s, id, now)
    case DoCheck(now) => s' == CheckFree(m, secondsBeforeFree, s, now)
  }

  /** states[0] is a new allocator and every operation leads from one state to the next. */
  ghost predicate Run(m: Machine, secondsBeforeFree: int, firstId: int, ops: seq<Op>, states: seq<State>) {
    && m.Positive() && |states| == |ops| + 1 && states[0] == Initial(m, firstId)
    && forall i :: 0 <= i < |ops| ==> Step(m, secondsBeforeFree, states[i], ops[i], states[i + 1])
  }

  lemma StepKeeps(m: Machine, secondsBeforeFree: int, s: State, op: Op, s': State)
    requires Inv(m, s) && Step(m, secondsBeforeFree, s, op, s')
    ensures Inv(m, s')
  {
    match op
    case DoAlloc(d, now) =>
      CheckFreeKeeps(m, secondsBeforeFree, s, now);
      var s1 := CheckFree(m, secondsBeforeFree, s, now);
      var r :| Outcome(m, s1, d, s', r);
      OutcomeKeeps(m, s1, d, s', r);
    case DoFree(id, now) => ReleaseKeeps(m, s, id, now);
    case DoCheck(now) => CheckFreeKeeps(m, secondsBeforeFree, s, now);
  }

  lemma {:induction false} RunKeeps(m: Machine, secondsBeforeFree: int, firstId: int, ops: seq<Op>, states: seq<State>, i: nat)
    requires Run(m, secondsBeforeFree, firstId, ops, states) && i < |states|
    ensures Inv(m, states[i])
  {
    if i == 0 {
      InitialHolds(m, firstId);
    } else {
      RunKeeps(m, secondsBeforeFree, firstId, ops, states, i - 1);
      StepKeeps(m, secondsBeforeFree, states[i - 1], ops[i - 1], states[i]);
    }
  }

  /**
   * Whole-run safety: at every point of every run, the board sets of the allocations that are live or in
   * quarantine are pairwise disjoint, inside the machine, and free of dead boards.
   */
  lemma WholeRunDisjoint(m: Machine, secondsBeforeFree: int, firstId: int, ops: seq<Op>, states: seq<State>, i: nat)
    requires Run(m, secondsBeforeFree, firstId, ops, states) && i < |states|
    ensures var s := states[i];
            && (forall h, k :: h in s.ledger && k in s.ledger && h != k ==> s.ledger[h].boards !! s.ledger[k].boards)
            && (forall h, b :: h in s.ledger && b in s.ledger[h].boards ==>
                  InMachine(b, m.width, m.height) && b !in m.deadBoards)
            && (forall id :: id in s.live ==> s.live[id] in s.ledger)
            && (forall e :: e in s.toFree ==> e.holding in s.ledger)
  {
    RunKeeps(m, secondsBeforeFree, firstId, ops, states, i);
    var s := states[i];
    forall h, k | h in s.ledger && k in s.ledger && h != k
      ensures s.ledger[h].boards !! s.ledger[k].boards
    {
      GrantsDisjoint(m, s, h, k);
    }
    forall h, b | h in s.ledger && b in s.ledger[h].boards
      ensures InMachine(b, m.width, m.height) && b !in m.deadBoards
    {
      GrantsInMachine(m, s, h, b);
    }
  }

  /**
   * A grant outlives every step, unless it was freed and its quarantine time has passed: boards never come
   * back into use early, whatever the clock does.
   */
  lemma HeldUntilExpired(m: Machine, secondsBeforeFree: int, s: State, op: Op, s': State, h: Holding)
    requires Inv(m, s) && Step(m, secondsBeforeFree, s, op, s') && h in s.ledger
    ensures (h in s'.ledger && s'.ledger[h] == s.ledger[h])
         || exists k :: 0 <= k < |s.toFree| && s.toFree[k].holding == h && Expired(s.toFree[k], secondsBeforeFree, op.now)
  {
    if !op.DoFree? {
      var n := CheckFreeDrops(m, secondsBeforeFree, s, op.now);
      var s1 := CheckFree(m, secondsBeforeFree, s, op.now);
      if h in s1.ledger && op.DoAlloc? {
        CheckFreeKeeps(m, secondsBeforeFree, s, op.now);
        var r :| Outcome(m, s1, op.demand, s', r);
        OutcomeKeeps(m, s1, op.demand, s', r);
      }
    }
  }

  predicate ClockMonotone(ops: seq<Op>) {
    forall i, j :: 0 <= i < j < |ops| ==> ops[i].now <= ops[j].now
  }

  /** With a clock that never goes back, the quarantine is always in time order, oldest first. */
  lemma {:induction false} QuarantineInOrder(
    m: Machine, secondsBeforeFree: int, firstId: int, ops: seq<Op>, states: seq<State>, i: nat)
    requires Run(m, secondsBeforeFree, firstId, ops, states) && i < |states| && ClockMonotone(ops)
    ensures InTimeOrder(states[i].toFree)
    ensures i > 0 ==> forall e :: e in states[i].toFree ==> e.time <= ops[i - 1].now
  {
    if i > 0 {
      QuarantineInOrder(m, secondsBeforeFree, firstId, ops, states, i - 1);
      RunKeeps(m, secondsBeforeFree, firstId, ops, states, i - 1);
      var s, op, s' := states[i - 1], ops[i - 1], states[i];
      assert Step(m, secondsBeforeFree, s, op, s');
      assert i > 1 ==> ops[i - 2].now <= op.now;
      if !op.DoFree? {
        var n := CheckFreeDrops(m, secondsBeforeFree, s, op.now);
        if op.DoAlloc? {
          var s1 := CheckFree(m, secondsBeforeFree, s, op.now);
          CheckFreeKeeps(m, secondsBeforeFree, s, op.now);
          var r :| Outcome(m, s1, op.demand, s', r);
          OutcomeKeeps(m, s1, op.demand, s', r);
        }
        assert s'.toFree == s.toFree[n..];
      }
    }
  }

  /**
   * However a run has gone, once nothing is live and a check is made after the last quarantine time is up,
   * the allocator is a new one again but for the next identifier: both pools empty, the tree one free leaf.
   */
  lemma EverythingComesBack(
    m: Machine, secondsBeforeFree: int, firstId: int, ops: seq<Op>, states: seq<State>, now: int)
    requires Run(m, secondsBeforeFree, firstId, ops, states)
    requires var s := states[|ops|];
             s.live == map[] && forall e :: e in s.toFree ==> Expired(e, secondsBeforeFree, now)
    ensures var s := states[|ops|];
            CheckFree(m, secondsBeforeFree, s, now) == Initial(m, s.nextId)
  {
    var s := states[|ops|];
    RunKeeps(m, secondsBeforeFree, firstId, ops, states, |ops|);
    var n := CheckFreeDrops(m, secondsBeforeFree, s, now);
    assert forall k :: 0 <= k < |s.toFree| ==> s.toFree[k] in s.toFree;
    CheckFreeKeeps(m, secondsBeforeFree, s, now);
    AllReturned(m, CheckFree(m, secondsBeforeFree, s, now));
  }

  // ----- how long freed boards are kept back

  /** What a step other than a free does to the quarantine: it loses entries that have expired at the front. */
  lemma QuarantineLoses(m: Machine, secondsBeforeFree: int, s: State, op: Op, s': State) returns (n: nat)
    requires Inv(m, s) && Step(m, secondsBeforeFree, s, op, s') && !op.DoFree?
    ensures n <= |s.toFree| && s'.toFree == s.toFree[n..]
    ensures forall k :: 0 <= k < n ==> op.now - s.toFree[k].time >= secondsBeforeFree
    ensures forall k :: n <= k < |s.toFree| ==>
              && s.toFree[k].holding in s.ledger && s.toFree[k].holding in s'.ledger
              && s'.ledger[s.toFree[k].holding] == s.ledger[s.toFree[k].holding]
  {
    n := CheckFreeDrops(m, secondsBeforeFree, s, op.now);
    var s1 := CheckFree(m, secondsBeforeFree, s, op.now);
    CheckFreeKeeps(m, secondsBeforeFree, s, op.now);
    assert ClaimsOk(s) && ClaimsOk(s1);
    if op.DoAlloc? {
      var r :| Outcome(m, s1, op.demand, s', r);
      OutcomeKeeps(m, s1, op.demand, s', r);
    }
    forall k | n <= k < |s.toFree|
      ensures s.toFree[k].holding in s1.ledger && s1.ledger[s.toFree[k].holding] == s.ledger[s.toFree[k].holding]
    {
      assert s1.toFree[k - n] == s.toFree[k];
    }
  }

  /** The holding was freed at this time by one of the first i operations. */
  ghost predicate FreedBefore(ops: seq<Op>, states: seq<State>, i: nat, h: Holding, time: int) {
    exists j {:trigger ops[j]} :: 0 <= j < i && j < |ops| && j < |states|
      && ops[j].DoFree? && ops[j].now == time && ops[j].id in states[j].live && states[j].live[ops[j].id] == h
  }

  /** Every entry of the quarantine was put there by a free, and carries the time of that free. */
  lemma {:induction false} EntriesCarryTimes(
    m: Machine, secondsBeforeFree: int, firstId: int, ops: seq<Op>, states: seq<State>, i: nat, k: nat)
    requires Run(m, secondsBeforeFree, firstId, ops, states) && i < |states| && k < |states[i].toFree|
    ensures FreedBefore(ops, states, i, states[i].toFree[k].holding, states[i].toFree[k].time)
  {
    if i > 0 {
      RunKeeps(m, secondsBeforeFree, firstId, ops, states, i - 1);
      var s, op := states[i - 1], ops[i - 1];
      assert Step(m, secondsBeforeFree, s, op, states[i]);
      if op.DoFree? {
        if k < |s.toFree| {
          EntriesCarryTimes(m, secondsBeforeFree, firstId, ops, states, i - 1, k);
        }
      } else {
        var n := QuarantineLoses(m, secondsBeforeFree, s, op, states[i]);
        EntriesCarryTimes(m, secondsBeforeFree, firstId, ops, states, i - 1, n + k);
      }
    }
  }

  /** The j-th operation frees an allocation. */
  ghost predicate FreesAt(m: Machine, secondsBeforeFree: int, firstId: int, ops: seq<Op>, states: seq<State>, j: nat) {
    Run(m, secondsBeforeFree, firstId, ops, states) && j < |ops| && ops[j].DoFree? && ops[j].id in states[j].live
  }

  /** Where in the quarantine a freed holding is while its time is not up. */
  lemma {:induction false} StillInQuarantine(
    m: Machine, secondsBeforeFree: int, firstId: int, ops: seq<Op>, states: seq<State>, j: nat, i: nat) returns (k: nat)
    requires FreesAt(m, secondsBeforeFree, firstId, ops, states, j) && j < i < |states|
    requires forall l :: j < l < i ==> ops[l].now - ops[j].now < secondsBeforeFree
    ensures var h := states[j].live[ops[j].id];
            && k < |states[i].toFree| && states[i].toFree[k].holding == h && states[i].toFree[k].time == ops[j].now
            && h in states[j].ledger && h in states[i].ledger && states[i].ledger[h] == states[j].ledger[h]
  {
    RunKeeps(m, secondsBeforeFree, firstId, ops, states, i - 1);
    var s, op := states[i - 1], ops[i - 1];
    assert Step(m, secondsBeforeFree, s, op, states[i]);
    assert ClaimsOk(s);
    if i == j + 1 {
      k := |s.toFree|;
    } else {
      k := StillInQuarantine(m, secondsBeforeFree, firstId, ops, states, j, i - 1);
      if !op.DoFree? {
        var n := QuarantineLoses(m, secondsBeforeFree, s, op, states[i]);
        k := k - n;
      }
    }
  }

  /**
   * Freed boards are kept back: as long as nothing is done at a time at which the quarantine, counted from the time of
   * the free, is over, they are held as they were. This is so whatever else happens, and whatever the clock does.
   */
  lemma FreedBoardsWait(
    m: Machine, secondsBeforeFree: int, firstId: int, ops: seq<Op>, states: seq<State>, j: nat, i: nat)
    requires FreesAt(m, secondsBeforeFree, firstId, ops, states, j) && j < i < |states|
    requires forall l :: j < l < i ==> ops[l].now - ops[j].now < secondsBeforeFree
    ensures var h := states[j].live[ops[j].id];
            h in states[j].ledger && h in states[i].ledger && states[i].ledger[h] == states[j].ledger[h]
  {
    var k := StillInQuarantine(m, secondsBeforeFree, firstId, ops, states, j, i);
  }

  /**
   * And no longer: with a clock that never goes back, the first check made when the quarantine is over gives them up,
   * whether it is made for its own sake or before an allocation.
   */
  lemma FreedBoardsReturn(
    m: Machine, secondsBeforeFree: int, firstId: int, ops: seq<Op>, states: seq<State>, j: nat, i: nat)
    requires FreesAt(m, secondsBeforeFree, firstId, ops, states, j) && j < i < |ops| && ClockMonotone(ops)
    requires forall l :: j < l < i ==> ops[l].now - ops[j].now < secondsBeforeFree
    requires !ops[i].DoFree? && ops[i].now - ops[j].now >= secondsBeforeFree
    ensures states[j].live[ops[j].id] !in CheckFree(m, secondsBeforeFree, states[i], ops[i].now).ledger
    ensures ops[i].DoCheck? ==> states[j].live[ops[j].id] !in states[i + 1].ledger
  {
    var k := StillInQuarantine(m, secondsBeforeFree, firstId, ops, states, j, i);
    RunKeeps(m, secondsBeforeFree, firstId, ops, states, i);
    QuarantineInOrder(m, secondsBeforeFree, firstId, ops, states, i);
    CheckFreeExact(m, secondsBeforeFree, states[i], ops[i].now, states[j].live[ops[j].id]);
    assert Step(m, secondsBeforeFree, states[i], ops[i], states[i + 1]);
  }
}
