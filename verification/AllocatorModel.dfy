/**
 * The board allocator as a state machine: what each operation does to the packing tree, the pools of
 * partly used triads and the quarantine, and the invariant every operation keeps.
 */
module AllocatorModel {
  import opened Wrappers
  import opened Coordinates
  import opened AreaToRect
  import opened PackTreeModel
  import opened CandidateFilter

  /** The two kinds of allocation: a block of triads, or one board. */
  datatype Kind = Triads | SingleBoard

  /** How an allocation is remembered: its kind and its bottom-left board. */
  datatype Holding = Holding(kind: Kind, at: Board)

  type Triad = (int, int)

  datatype Entry = Entry(time: int, holding: Holding)

  /** What a holding stands for: the rectangle it occupies in the tree and the boards its owner was given. */
  datatype Grip = Grip(rect: Rect, boards: set<Board>)

  /**
   * The allocator's state. The ledger is a record kept for the specification only: it has an entry for every
   * allocation that is live or in quarantine.
   */
  datatype State = State(
    nextId: int,
    tree: Tree,
    live: map<int, Holding>,
    toFree: seq<Entry>,
    pool: map<Triad, set<int>>,
    full: set<Triad>,
    ledger: map<Holding, Grip>)

  function Initial(m: Machine, nextId: int): State {
    State(nextId, Leaf(Rect(0, 0, m.width, m.height), false), map[], [], map[], {}, map[])
  }

  // ----- the invariant

  function Opened(s: State): set<Triad> {
    s.pool.Keys + s.full
  }

  /** The boards of a triad that are live or in quarantine as single boards. */
  function Out(s: State, t: Triad): set<int> {
    set z | 0 <= z < 3 && Holding(SingleBoard, Board(t.0, t.1, z)) in s.ledger
  }

  function Unused(s: State, t: Triad): set<int> {
    if t in s.pool then s.pool[t] else {}
  }

  ghost predicate TreeOk(m: Machine, s: State) {
    WellFormed(s.tree) && Canonical(s.tree) && s.tree.area == Rect(0, 0, m.width, m.height)
  }

  /** Live allocations and quarantine entries are in one-to-one correspondence with the ledger. */
  ghost predicate ClaimsOk(s: State) {
    && (forall id :: id in s.live ==> id < s.nextId && s.live[id] in s.ledger)
    && (forall k :: 0 <= k < |s.toFree| ==> s.toFree[k].holding in s.ledger)
    && (forall id, other :: id in s.live && other in s.live && id != other ==> s.live[id] != s.live[other])
    && (forall k, l :: 0 <= k < l < |s.toFree| ==> s.toFree[k].holding != s.toFree[l].holding)
    && (forall id, k :: id in s.live && 0 <= k < |s.toFree| ==> s.live[id] != s.toFree[k].holding)
    && (forall h {:trigger Claimed(s, h)} :: h in s.ledger ==> Claimed(s, h))
  }

  ghost predicate Claimed(s: State, h: Holding) {
    || (exists id :: id in s.live && s.live[id] == h)
    || (exists k :: 0 <= k < |s.toFree| && s.toFree[k].holding == h)
  }

  ghost predicate BlockOk(m: Machine, s: State, h: Holding, g: Grip) {
    && h.at == Board(g.rect.x, g.rect.y, 0) && g.rect in Busy(s.tree)
    && (h.at.x, h.at.y) !in Opened(s)
    && g.boards != {} && g.boards <= BoardsOf(g.rect) && g.boards !! m.deadBoards
  }

  ghost predicate SingleOk(m: Machine, s: State, h: Holding, g: Grip) {
    && 0 <= h.at.z < 3 && g == Grip(Cell(h.at.x, h.at.y), {h.at})
    && (h.at.x, h.at.y) in Opened(s) && h.at !in m.deadBoards
  }

  ghost predicate GripOk(m: Machine, s: State, h: Holding, g: Grip) {
    if h.kind.Triads? then BlockOk(m, s, h, g) else SingleOk(m, s, h, g)
  }

  ghost predicate LedgerOk(m: Machine, s: State) {
    forall h {:trigger GripOk(m, s, h, s.ledger[h])} :: h in s.ledger ==> GripOk(m, s, h, s.ledger[h])
  }

  /** Every allocated leaf is an opened triad or the rectangle of a block in the ledger. */
  ghost predicate LeafOk(s: State, r: Rect) {
    || ((r.x, r.y) in Opened(s) && r == Cell(r.x, r.y))
    || (Holding(Triads, Board(r.x, r.y, 0)) in s.ledger && s.ledger[Holding(Triads, Board(r.x, r.y, 0))].rect == r)
  }

  ghost predicate LeavesOk(s: State) {
    forall r {:trigger LeafOk(s, r)} :: r in Busy(s.tree) ==> LeafOk(s, r)
  }

  /** An opened triad is an allocated cell whose working boards are each unused or out, and never both. */
  ghost predicate TriadOk(m: Machine, s: State, t: Triad) {
    && Cell(t.0, t.1) in Busy(s.tree)
    && !(t in s.pool && t in s.full)
    && Unused(s, t) + Out(s, t) == Working(m.deadBoards, t.0, t.1)
    && Unused(s, t) !! Out(s, t)
    && (t in s.pool ==> s.pool[t] != {})
  }

  /** The invariant, but for one triad that may have been opened without a board having been taken from it. */
  ghost predicate InvBut(m: Machine, s: State, opening: Option<Triad>) {
    && m.Positive()
    && TreeOk(m, s) && ClaimsOk(s) && LedgerOk(m, s) && LeavesOk(s)
    && (forall t {:trigger TriadOk(m, s, t)} :: t in Opened(s) ==> TriadOk(m, s, t))
    && (forall t {:trigger Out(s, t)} :: t in Opened(s) && opening != Some(t) ==> Out(s, t) != {})
    && (opening.Some? ==> opening.value in s.pool && Out(s, opening.value) == {})
  }

  ghost predicate Inv(m: Machine, s: State) {
    InvBut(m, s, None)
  }

  lemma InitialHolds(m: Machine, nextId: int)
    requires m.Positive()
    ensures Inv(m, Initial(m, nextId))
  {
  }

  // ----- operations

  /** Record an allocation. */
  function Claim(s: State, h: Holding, g: Grip): State {
    s.(nextId := s.nextId + 1, live := s.live[s.nextId := h], ledger := s.ledger[h := g])
  }

  function GrantBlock(s: State, tree: Tree, rect: Rect, boards: set<Board>): State {
    Claim(s.(tree := tree), Holding(Triads, Board(rect.x, rect.y, 0)), Grip(rect, boards))
  }

  /** Make a whole triad available for single boards. */
  function OpenTriad(m: Machine, s: State, tree: Tree, t: Triad): State {
    s.(tree := tree, pool := s.pool[t := Working(m.deadBoards, t.0, t.1)])
  }

  function UseBoard(s: State, t: Triad, z: int): State
    requires t in s.pool
  {
    if s.pool[t] - {z} == {} then s.(pool := s.pool - {t}, full := s.full + {t})
    else s.(pool := s.pool[t := s.pool[t] - {z}])
  }

  /** Take an unused board of an opened triad. */
  function TakeBoard(s: State, t: Triad, z: int): State
    requires t in s.pool
  {
    var b := Board(t.0, t.1, z);
    Claim(UseBoard(s, t, z), Holding(SingleBoard, b), Grip(Cell(t.0, t.1), {b}))
  }

  /** Move an allocation to the end of the quarantine. */
  function Release(s: State, id: int, now: int): State
    requires id in s.live
  {
    s.(live := s.live - {id}, toFree := s.toFree + [Entry(now, s.live[id])])
  }

  /** Forget the first quarantine entry. */
  function Forget(s: State): State
    requires s.toFree != []
  {
    s.(toFree := s.toFree[1..], ledger := s.ledger - {s.toFree[0].holding})
  }

  /** Give a board back to its triad. */
  function ReturnBoard(s: State, t: Triad, z: int): State {
    s.(full := s.full - {t}, pool := s.pool[t := Unused(s, t) + {z}])
  }

  predicate FreeNextOk(m: Machine, s: State) {
    && s.toFree != []
    && var h := s.toFree[0].holding;
       var t := (h.at.x, h.at.y);
       if h.kind.Triads? then FreeAt(s.tree, h.at.x, h.at.y).Some?
       else
         && t in Opened(s)
         && (Unused(s, t) + {h.at.z} == Working(m.deadBoards, t.0, t.1) ==> FreeAt(s.tree, h.at.x, h.at.y).Some?)
  }

  /** Really free the first quarantine entry. */
  function FreeNext(m: Machine, s: State): State
    requires FreeNextOk(m, s)
  {
    var h := s.toFree[0].holding;
    var t := (h.at.x, h.at.y);
    var s1 := Forget(s);
    if h.kind.Triads? then s1.(tree := FreeAt(s.tree, h.at.x, h.at.y).value)
    else
      var s2 := ReturnBoard(s1, t, h.at.z);
      if s2.pool[t] == Working(m.deadBoards, t.0, t.1) then
        s2.(pool := s2.pool - {t}, tree := FreeAt(s.tree, h.at.x, h.at.y).value)
      else s2
  }

  predicate Due(s: State, secondsBeforeFree: int, now: int) {
    s.toFree != [] && now - s.toFree[0].time >= secondsBeforeFree
  }

  /** Free the quarantine entries at the front whose time is up. */
  function CheckFree(m: Machine, secondsBeforeFree: int, s: State, now: int): State
    decreases |s.toFree|
  {
    if Due(s, secondsBeforeFree, now) && FreeNextOk(m, s) then
      CheckFree(m, secondsBeforeFree, FreeNext(m, s), now)
    else s
  }

  // ----- every operation keeps the invariant

  /** No holding in the ledger lies on a rectangle that is not an allocated leaf. */
  lemma NotYetHeld(m: Machine, s: State, opening: Option<Triad>, tree: Tree, r: Rect)
    requires InvBut(m, s, opening) && Allocates(s.tree, tree, r)
    ensures (r.x, r.y) !in Opened(s)
    ensures forall z :: Holding(SingleBoard, Board(r.x, r.y, z)) !in s.ledger
    ensures Holding(Triads, Board(r.x, r.y, 0)) !in s.ledger
  {
    assert r in Busy(tree);
    if (r.x, r.y) in Opened(s) {
      assert TriadOk(m, s, (r.x, r.y));
      SameCorner(tree, r, Cell(r.x, r.y));
    }
    var h := Holding(Triads, Board(r.x, r.y, 0));
    if h in s.ledger {
      assert GripOk(m, s, h, s.ledger[h]);
      SameCorner(tree, r, s.ledger[h].rect);
    }
    forall z
      ensures Holding(SingleBoard, Board(r.x, r.y, z)) !in s.ledger
    {
      var k := Holding(SingleBoard, Board(r.x, r.y, z));
      assert k in s.ledger ==> GripOk(m, s, k, s.ledger[k]);
    }
  }

  /** Two leaves with the same corner are the same leaf. */
  lemma SameCorner(t: Tree, r: Rect, q: Rect)
    requires WellFormed(t) && r in Busy(t) && q in Busy(t) && r.x == q.x && r.y == q.y
    ensures r == q
  {
    if r != q {
      LeavesApart(t, r, q);
      LeavesInside(t, r);
      LeavesInside(t, q);
    }
  }

  lemma ClaimKeepsClaims(s: State, h: Holding, g: Grip)
    requires ClaimsOk(s) && h !in s.ledger
    ensures ClaimsOk(Claim(s, h, g))
  {
    var s' := Claim(s, h, g);
    forall k | k in s'.ledger
      ensures Claimed(s', k)
    {
      if k == h {
        assert s'.live[s.nextId] == h;
      } else {
        assert Claimed(s, k);
        if id :| id in s.live && s.live[id] == k {
          assert s'.live[id] == k;
        }
      }
    }
  }

  lemma GrantBlockKeeps(m: Machine, s: State, tree: Tree, rect: Rect, boards: set<Board>)
    requires Inv(m, s) && Allocates(s.tree, tree, rect)
    requires boards != {} && boards <= BoardsOf(rect) && boards !! m.deadBoards
    ensures Holding(Triads, Board(rect.x, rect.y, 0)) !in s.ledger
    ensures Inv(m, GrantBlock(s, tree, rect, boards))
  {
    NotYetHeld(m, s, None, tree, rect);
    var s' := GrantBlock(s, tree, rect, boards);
    var taken := Holding(Triads, Board(rect.x, rect.y, 0));
    ClaimsUnchanged(s, s.(tree := tree));
    ClaimKeepsClaims(s.(tree := tree), taken, Grip(rect, boards));
    forall h | h in s'.ledger
      ensures GripOk(m, s', h, s'.ledger[h])
    {
      assert h != taken ==> GripOk(m, s, h, s.ledger[h]);
    }
    forall r | r in Busy(s'.tree)
      ensures LeafOk(s', r)
    {
      assert r != rect ==> LeafOk(s, r);
    }
    forall t | t in Opened(s')
      ensures TriadOk(m, s', t) && Out(s', t) != {}
    {
      assert TriadOk(m, s, t);
      assert Out(s', t) == Out(s, t);
    }
  }

  lemma OpenTriadKeeps(m: Machine, s: State, tree: Tree, t: Triad)
    requires Inv(m, s) && Allocates(s.tree, tree, Cell(t.0, t.1))
    requires Working(m.deadBoards, t.0, t.1) != {}
    ensures InvBut(m, OpenTriad(m, s, tree, t), Some(t))
  {
    NotYetHeld(m, s, None, tree, Cell(t.0, t.1));
    var s' := OpenTriad(m, s, tree, t);
    forall h | h in s'.ledger
      ensures GripOk(m, s', h, s'.ledger[h])
    {
      assert GripOk(m, s, h, s.ledger[h]);
    }
    forall r | r in Busy(s'.tree)
      ensures LeafOk(s', r)
    {
      assert r != Cell(t.0, t.1) ==> LeafOk(s, r);
    }
    forall u | u in Opened(s')
      ensures TriadOk(m, s', u)
    {
      assert Out(s', u) == Out(s, u);
      assert u != t ==> TriadOk(m, s, u);
    }
    forall u | u in Opened(s') && u != t
      ensures Out(s', u) != {}
    {
      assert Out(s', u) == Out(s, u);
    }
    ClaimsUnchanged(s, s');
  }

  lemma ClaimsUnchanged(s: State, s': State)
    requires ClaimsOk(s)
    requires s'.live == s.live && s'.toFree == s.toFree && s'.ledger == s.ledger && s'.nextId == s.nextId
    ensures ClaimsOk(s')
  {
    forall h | h in s'.ledger
      ensures Claimed(s', h)
    {
      assert Claimed(s, h);
    }
  }

  lemma OutAfterClaim(s: State, t: Triad, z: int, u: Triad)
    requires t in s.pool && 0 <= z < 3
    ensures Out(TakeBoard(s, t, z), u) == if u == t then Out(s, u) + {z} else Out(s, u)
  {
  }

  lemma UnusedIsNotOut(m: Machine, s: State, opening: Option<Triad>, t: Triad, z: int)
    requires InvBut(m, s, opening) && t in s.pool && z in s.pool[t]
    ensures 0 <= z < 3 && Board(t.0, t.1, z) !in m.deadBoards
    ensures Holding(SingleBoard, Board(t.0, t.1, z)) !in s.ledger
  {
    assert TriadOk(m, s, t) && z in Unused(s, t) && z in Working(m.deadBoards, t.0, t.1);
    assert z !in Out(s, t);
  }

  lemma PoolNotEmpty(m: Machine, s: State, opening: Option<Triad>)
    requires InvBut(m, s, opening)
    ensures forall t :: t in s.pool ==> exists z :: z in s.pool[t]
  {
    forall t | t in s.pool
      ensures exists z :: z in s.pool[t]
    {
      assert TriadOk(m, s, t);
      assert s.pool[t] <= {0, 1, 2};
      assert 0 in s.pool[t] || 1 in s.pool[t] || 2 in s.pool[t];
    }
  }

  lemma TakeBoardLedger(m: Machine, s: State, opening: Option<Triad>, t: Triad, z: int)
    requires InvBut(m, s, opening) && t in s.pool && z in s.pool[t]
    ensures LedgerOk(m, TakeBoard(s, t, z)) && LeavesOk(TakeBoard(s, t, z))
  {
    UnusedIsNotOut(m, s, opening, t, z);
    var s' := TakeBoard(s, t, z);
    assert Opened(s') == Opened(s);
    forall h | h in s'.ledger
      ensures GripOk(m, s', h, s'.ledger[h])
    {
      assert h != Holding(SingleBoard, Board(t.0, t.1, z)) ==> GripOk(m, s, h, s.ledger[h]);
    }
    forall r | r in Busy(s'.tree)
      ensures LeafOk(s', r)
    {
      assert LeafOk(s, r);
    }
  }

  lemma TakeBoardTriads(m: Machine, s: State, opening: Option<Triad>, t: Triad, z: int, u: Triad)
    requires InvBut(m, s, opening) && (opening.Some? ==> opening.value == t)
    requires t in s.pool && z in s.pool[t] && u in Opened(TakeBoard(s, t, z))
    ensures TriadOk(m, TakeBoard(s, t, z), u) && Out(TakeBoard(s, t, z), u) != {}
  {
    UnusedIsNotOut(m, s, opening, t, z);
    OutAfterClaim(s, t, z, u);
    var s' := TakeBoard(s, t, z);
    assert TriadOk(m, s, u);
    assert Unused(s', u) == if u == t then Unused(s, u) - {z} else Unused(s, u);
  }

  lemma TakeBoardKeeps(m: Machine, s: State, opening: Option<Triad>, t: Triad, z: int)
    requires InvBut(m, s, opening) && (opening.Some? ==> opening.value == t)
    requires t in s.pool && z in s.pool[t]
    ensures Holding(SingleBoard, Board(t.0, t.1, z)) !in s.ledger && Board(t.0, t.1, z) !in m.deadBoards
    ensures Inv(m, TakeBoard(s, t, z))
  {
    UnusedIsNotOut(m, s, opening, t, z);
    var b := Board(t.0, t.1, z);
    ClaimsUnchanged(s, UseBoard(s, t, z));
    ClaimKeepsClaims(UseBoard(s, t, z), Holding(SingleBoard, b), Grip(Cell(t.0, t.1), {b}));
    TakeBoardLedger(m, s, opening, t, z);
    forall u | u in Opened(TakeBoard(s, t, z))
      ensures TriadOk(m, TakeBoard(s, t, z), u) && Out(TakeBoard(s, t, z), u) != {}
    {
      TakeBoardTriads(m, s, opening, t, z, u);
    }
  }

  lemma ReleaseKeepsClaims(s: State, id: int, now: int)
    requires ClaimsOk(s) && id in s.live
    ensures ClaimsOk(Release(s, id, now))
  {
    var s' := Release(s, id, now);
    forall h | h in s'.ledger
      ensures Claimed(s', h)
    {
      assert Claimed(s, h);
      if other :| other in s.live && s.live[other] == h {
        if other == id {
          assert s'.toFree[|s.toFree|].holding == h;
        } else {
          assert other in s'.live;
        }
      } else {
        var k :| 0 <= k < |s.toFree| && s.toFree[k].holding == h;
        assert s'.toFree[k].holding == h;
      }
    }
  }

  lemma ReleaseKeeps(m: Machine, s: State, id: int, now: int)
    requires Inv(m, s) && id in s.live
    ensures Inv(m, Release(s, id, now))
  {
    var s' := Release(s, id, now);
    ReleaseKeepsClaims(s, id, now);
    forall h | h in s'.ledger
      ensures GripOk(m, s', h, s'.ledger[h])
    {
      assert GripOk(m, s, h, s.ledger[h]);
    }
    forall r | r in Busy(s'.tree)
      ensures LeafOk(s', r)
    {
      assert LeafOk(s, r);
    }
    forall t | t in Opened(s')
      ensures TriadOk(m, s', t) && Out(s', t) != {}
    {
      assert TriadOk(m, s, t) && Out(s', t) == Out(s, t);
    }
  }

  lemma ForgetKeepsClaims(s: State)
    requires ClaimsOk(s) && s.toFree != []
    ensures ClaimsOk(Forget(s))
  {
    var s' := Forget(s);
    var gone := s.toFree[0].holding;
    forall h | h in s'.ledger
      ensures Claimed(s', h)
    {
      assert Claimed(s, h) && h != gone;
      if k :| 0 <= k < |s.toFree| && s.toFree[k].holding == h {
        assert s'.toFree[k - 1].holding == h;
      }
    }
    forall id | id in s'.live
      ensures s'.live[id] in s'.ledger
    {
      assert s.live[id] != s.toFree[0].holding;
    }
  }

  /** Under the invariant the first quarantine entry can always be freed: no error is ever raised. */
  lemma FreeNextPossible(m: Machine, s: State)
    requires Inv(m, s) && s.toFree != []
    ensures FreeNextOk(m, s)
  {
    var h := s.toFree[0].holding;
    assert GripOk(m, s, h, s.ledger[h]);
    FreeExact(s.tree, h.at.x, h.at.y);
    if h.kind.SingleBoard? {
      assert TriadOk(m, s, (h.at.x, h.at.y));
      assert Cell(h.at.x, h.at.y) in Busy(s.tree);
    } else {
      assert s.ledger[h].rect in Busy(s.tree);
    }
  }

  lemma FreeLeaf(t: Tree, r: Rect)
    requires WellFormed(t) && Canonical(t) && r in Busy(t)
    ensures FreeAt(t, r.x, r.y).Some?
    ensures var s := FreeAt(t, r.x, r.y).value;
            WellFormed(s) && Canonical(s) && s.area == t.area && Busy(s) == Busy(t) - {r}
  {
    FreeExact(t, r.x, r.y);
    forall q | q in Busy(t) && q.x == r.x && q.y == r.y
      ensures q == r
    {
      SameCorner(t, q, r);
    }
  }

  lemma FreeBlockKeeps(m: Machine, s: State)
    requires Inv(m, s) && FreeNextOk(m, s) && s.toFree[0].holding.kind.Triads?
    ensures Inv(m, FreeNext(m, s))
  {
    var gone := s.toFree[0].holding;
    var s' := FreeNext(m, s);
    assert GripOk(m, s, gone, s.ledger[gone]);
    var rect := s.ledger[gone].rect;
    FreeLeaf(s.tree, rect);
    ForgetKeepsClaims(s);
    ClaimsUnchanged(Forget(s), s');
    forall h | h in s'.ledger
      ensures GripOk(m, s', h, s'.ledger[h])
    {
      assert GripOk(m, s, h, s.ledger[h]);
      assert h.kind.Triads? ==> s.ledger[h].rect != rect;
    }
    forall r | r in Busy(s'.tree)
      ensures LeafOk(s', r)
    {
      assert LeafOk(s, r);
      if (r.x, r.y) !in Opened(s) {
        assert s.ledger[Holding(Triads, Board(r.x, r.y, 0))].rect == r;
      }
    }
    forall t | t in Opened(s')
      ensures TriadOk(m, s', t) && Out(s', t) != {}
    {
      assert TriadOk(m, s, t) && Out(s', t) == Out(s, t);
    }
  }

  lemma OutAfterForget(s: State, u: Triad)
    requires s.toFree != [] && s.toFree[0].holding.kind.SingleBoard?
    ensures var b := s.toFree[0].holding.at;
            Out(Forget(s), u) == if u == (b.x, b.y) then Out(s, u) - {b.z} else Out(s, u)
  {
  }

  /** The facts about the triad whose board is being freed. */
  lemma FreeBoardFacts(m: Machine, s: State)
    requires Inv(m, s) && FreeNextOk(m, s) && s.toFree[0].holding.kind.SingleBoard?
    ensures var b := s.toFree[0].holding.at;
            var t := (b.x, b.y);
            && t in Opened(s) && TriadOk(m, s, t) && b.z in Out(s, t)
            && (Unused(s, t) + {b.z} == Working(m.deadBoards, b.x, b.y) <==> Out(Forget(s), t) == {})
  {
    var gone := s.toFree[0].holding;
    assert GripOk(m, s, gone, s.ledger[gone]);
    OutAfterForget(s, (gone.at.x, gone.at.y));
  }

  /** Whether the triad closes, and what stays open. */
  lemma FreeBoardOpened(m: Machine, s: State)
    requires Inv(m, s) && FreeNextOk(m, s) && s.toFree[0].holding.kind.SingleBoard?
    ensures var b := s.toFree[0].holding.at;
            var t := (b.x, b.y);
            var closes := Out(Forget(s), t) == {};
            var s' := FreeNext(m, s);
            && Opened(s') == (if closes then Opened(s) - {t} else Opened(s))
            && s'.ledger == Forget(s).ledger && s'.live == s.live && s'.nextId == s.nextId && s'.toFree == s.toFree[1..]
            && WellFormed(s'.tree) && Canonical(s'.tree) && s'.tree.area == s.tree.area
            && Busy(s'.tree) == (if closes then Busy(s.tree) - {Cell(b.x, b.y)} else Busy(s.tree))
            && (!closes ==> t in s'.pool && t !in s'.full && s'.pool[t] == Unused(s, t) + {b.z})
            && (forall u :: u != t ==>
                  Unused(s', u) == Unused(s, u) && (u in s'.pool <==> u in s.pool) && (u in s'.full <==> u in s.full))
  {
    FreeBoardFacts(m, s);
    var b := s.toFree[0].holding.at;
    FreeLeaf(s.tree, Cell(b.x, b.y));
  }

  lemma FreeBoardTriads(m: Machine, s: State, u: Triad)
    requires Inv(m, s) && FreeNextOk(m, s) && s.toFree[0].holding.kind.SingleBoard?
    requires u in Opened(FreeNext(m, s))
    ensures TriadOk(m, FreeNext(m, s), u) && Out(FreeNext(m, s), u) != {}
  {
    FreeBoardFacts(m, s);
    FreeBoardOpened(m, s);
    OutAfterForget(s, u);
    var b := s.toFree[0].holding.at;
    var s' := FreeNext(m, s);
    assert TriadOk(m, s, u);
    OutDependsOnLedger(s', Forget(s), u);
    if u != (b.x, b.y) {
      OtherCells(u, (b.x, b.y));
      TriadUntouched(m, s, s', u);
    } else {
      TriadReceives(m, s, s', u, b.z);
    }
  }

  lemma OutDependsOnLedger(s: State, s': State, u: Triad)
    requires s.ledger == s'.ledger
    ensures Out(s, u) == Out(s', u)
  {
  }

  lemma TriadUntouched(m: Machine, s: State, s': State, u: Triad)
    requires TriadOk(m, s, u) && Cell(u.0, u.1) in Busy(s'.tree)
    requires Unused(s', u) == Unused(s, u) && Out(s', u) == Out(s, u)
    requires (u in s'.pool <==> u in s.pool) && (u in s'.full <==> u in s.full)
    ensures TriadOk(m, s', u)
  {
  }

  lemma TriadReceives(m: Machine, s: State, s': State, u: Triad, z: int)
    requires TriadOk(m, s, u) && Cell(u.0, u.1) in Busy(s'.tree)
    requires z in Out(s, u) && Out(s', u) == Out(s, u) - {z}
    requires u in s'.pool && u !in s'.full && s'.pool[u] == Unused(s, u) + {z}
    ensures TriadOk(m, s', u)
  {
  }

  lemma FreeBoardLedger(m: Machine, s: State)
    requires Inv(m, s) && FreeNextOk(m, s) && s.toFree[0].holding.kind.SingleBoard?
    ensures LedgerOk(m, FreeNext(m, s)) && LeavesOk(FreeNext(m, s))
  {
    FreeBoardFacts(m, s);
    FreeBoardOpened(m, s);
    var b := s.toFree[0].holding.at;
    var s' := FreeNext(m, s);
    forall h | h in s'.ledger
      ensures GripOk(m, s', h, s'.ledger[h])
    {
      assert GripOk(m, s, h, s.ledger[h]);
      if h.kind.SingleBoard? && (h.at.x, h.at.y) == (b.x, b.y) {
        assert h.at.z in Out(Forget(s), (b.x, b.y)) by {
          assert h == Holding(SingleBoard, Board(b.x, b.y, h.at.z));
        }
      }
    }
    forall r | r in Busy(s'.tree)
      ensures LeafOk(s', r)
    {
      assert LeafOk(s, r);
    }
  }

  lemma FreeBoardKeeps(m: Machine, s: State)
    requires Inv(m, s) && FreeNextOk(m, s) && s.toFree[0].holding.kind.SingleBoard?
    ensures Inv(m, FreeNext(m, s))
  {
    FreeBoardOpened(m, s);
    ForgetKeepsClaims(s);
    ClaimsUnchanged(Forget(s), FreeNext(m, s));
    FreeBoardLedger(m, s);
    forall u | u in Opened(FreeNext(m, s))
      ensures TriadOk(m, FreeNext(m, s), u) && Out(FreeNext(m, s), u) != {}
    {
      FreeBoardTriads(m, s, u);
    }
  }

  lemma OtherCells(u: Triad, t: Triad)
    requires u != t
    ensures Cell(u.0, u.1) != Cell(t.0, t.1)
  {
  }

  lemma FreeNextKeeps(m: Machine, s: State)
    requires Inv(m, s) && s.toFree != []
    ensures FreeNextOk(m, s) && Inv(m, FreeNext(m, s))
  {
    FreeNextPossible(m, s);
    if s.toFree[0].holding.kind.Triads? {
      FreeBlockKeeps(m, s);
    } else {
      FreeBoardKeeps(m, s);
    }
  }

  lemma {:induction false} CheckFreeKeeps(m: Machine, secondsBeforeFree: int, s: State, now: int)
    requires Inv(m, s)
    ensures Inv(m, CheckFree(m, secondsBeforeFree, s, now))
    decreases |s.toFree|
  {
    if Due(s, secondsBeforeFree, now) {
      FreeNextKeeps(m, s);
      CheckFreeKeeps(m, secondsBeforeFree, FreeNext(m, s), now);
    }
  }

  // ----- allocation

  /** What is asked for: any board, one particular board, at least so many boards, or a block of triads. */
  datatype Request =
    | AnyBoard
    | ThisBoard(at: Board)
    | Count(boards: int, ratio: real)
    | Block(width: int, height: int)
  {
    /** A count of one is a request for any board. */
    predicate ForOneBoard() {
      AnyBoard? || ThisBoard? || (Count? && boards == 1)
    }

    predicate RatioOk() {
      Count? && boards != 1 ==> ratio >= 0.0
    }

    /** A particular board is one of the three of its triad. */
    predicate OnTriad() {
      ThisBoard? ==> 0 <= at.z < 3
    }

    /** What alloc demands of its callers; alloc_possible answers no when the board is not on a triad. */
    predicate Sensible() {
      RatioOk() && OnTriad()
    }
  }

  datatype Demand = Demand(request: Request, limits: Limits)

  datatype Allocation = Allocation(id: int, boards: set<Board>, periphery: set<Port>, torus: WrapAround)

  /** How a block is looked for: the size wanted and the filter. */
  datatype Plan = Plan(wanted: Wanted, filter: FilterKind)

  /** The search for a block, or None when the demand cannot be met whatever is free. */
  function PlanFor(m: Machine, d: Demand): (p: Option<Plan>)
    ensures p.Some? && (d.request.Count? ==> d.request.ratio >= 0.0) ==> p.value.wanted.Sensible()
  {
    match d.request
    case Block(width, height) =>
      if d.limits.requireTorus && (width != m.width || height != m.height) then None
      else if width <= 0 || height <= 0 then None
      else Some(Plan(Size(width, height), Connected(m, d.limits, None)))
    case Count(boards, ratio) =>
      var triads := CeilDiv(boards, 3);
      if triads <= 0 then None
      else if d.limits.requireTorus && triads != m.width * m.height then None
      else Some(Plan(Wanted.Area(triads, ratio), Connected(m, d.limits, Some(boards))))
    case _ => None
  }

  ghost predicate Fails(s: State, s': State, r: Option<Allocation>) {
    s' == s && r == None
  }

  ghost function BlockAllocation(m: Machine, id: int, rect: Rect): Allocation
    requires m.Positive()
  {
    var boards := Region(m, rect);
    Allocation(id, boards, LinksOf(m, boards, Periphery), TorusOf(m, boards))
  }

  function BoardAllocation(id: int, b: Board): Allocation {
    Allocation(id, {b}, Ports({b}), NO_WRAP)
  }

  ghost predicate BlockOutcome(m: Machine, s: State, d: Demand, s': State, r: Option<Allocation>)
    requires m.Positive()
  {
    match PlanFor(m, d)
    case None => Fails(s, s', r)
    case Some(p) =>
      match Alloc(s.tree, p.wanted, AsFilter(p.filter))
      case Refused => Fails(s, s', r)
      case Granted(tree, rect) =>
        s' == GrantBlock(s, tree, rect, Region(m, rect)) && r == Some(BlockAllocation(m, s.nextId, rect))
  }

  ghost predicate Takes(s: State, t: Triad, z: int, s': State, r: Option<Allocation>) {
    && t in s.pool && z in s.pool[t]
    && s' == TakeBoard(s, t, z)
    && r == Some(BoardAllocation(s.nextId, Board(t.0, t.1, z)))
  }

  /** Any unused board of any opened triad may be the one that is given. */
  ghost predicate TakesAny(s: State, s': State, r: Option<Allocation>) {
    exists t, z :: Takes(s, t, z, s', r)
  }

  /**
   * A particular board comes from an opened triad, or from its own triad if that is free. A board numbered outside the
   * triad does not exist, but its triad is opened all the same.
   */
  ghost predicate ThisBoardOutcome(m: Machine, s: State, b: Board, s': State, r: Option<Allocation>)
    requires WellFormed(s.tree)
  {
    var t := (b.x, b.y);
    if b in m.deadBoards then Fails(s, s', r)
    else if b.z in Unused(s, t) then Takes(s, t, b.z, s', r)
    else
      match PackTreeModel.Request(s.tree, b.x, b.y)
      case None => Fails(s, s', r)
      case Some(tree) =>
        if 0 <= b.z < 3 then Takes(OpenTriad(m, s, tree, t), t, b.z, s', r)
        else s' == OpenTriad(m, s, tree, t) && r == None
  }

  ghost predicate AnyBoardOutcome(m: Machine, s: State, s': State, r: Option<Allocation>) {
    if s.pool != map[] then TakesAny(s, s', r)
    else
      match Alloc(s.tree, Size(1, 1), AsFilter(SomeBoardWorks(m.deadBoards)))
      case Refused => Fails(s, s', r)
      case Granted(tree, rect) => TakesAny(OpenTriad(m, s, tree, (rect.x, rect.y)), s', r)
  }

  /** What alloc may do, once expired quarantine entries have been freed. */
  ghost predicate Outcome(m: Machine, s: State, d: Demand, s': State, r: Option<Allocation>) {
    && m.Positive() && WellFormed(s.tree)
    && if d.request.ThisBoard? then ThisBoardOutcome(m, s, d.request.at, s', r)
       else if d.request.ForOneBoard() then AnyBoardOutcome(m, s, s', r)
       else BlockOutcome(m, s, d, s', r)
  }

  /** A successful allocation adds one entry to the ledger, with the boards that were returned. */
  ghost predicate Adds(m: Machine, s: State, s': State, r: Option<Allocation>) {
    match r
    case None => s' == s
    case Some(a) =>
      && a.id == s.nextId && s'.nextId == s.nextId + 1 && s'.toFree == s.toFree
      && a.id in s'.live && s'.live == s.live[a.id := s'.live[a.id]]
      && var h := s'.live[a.id];
         h !in s.ledger && h in s'.ledger && s'.ledger[h].boards == a.boards && s'.ledger == s.ledger[h := s'.ledger[h]]
  }

  lemma BlockOutcomeKeeps(m: Machine, s: State, d: Demand, s': State, r: Option<Allocation>)
    requires Inv(m, s) && (d.request.Count? ==> d.request.ratio >= 0.0) && BlockOutcome(m, s, d, s', r)
    ensures Inv(m, s') && Adds(m, s, s', r)
  {
    var p := PlanFor(m, d);
    if p.Some? && Alloc(s.tree, p.value.wanted, AsFilter(p.value.filter)).Granted? {
      AllocGrants(s.tree, p.value.wanted, AsFilter(p.value.filter));
      var g := Alloc(s.tree, p.value.wanted, AsFilter(p.value.filter));
      RegionHoldsStart(m, g.rect);
      GrantBlockKeeps(m, s, g.tree, g.rect, Region(m, g.rect));
    }
  }

  lemma TakesKeeps(m: Machine, s: State, opening: Option<Triad>, t: Triad, z: int, s': State, r: Option<Allocation>)
    requires InvBut(m, s, opening) && (opening.Some? ==> opening.value == t) && Takes(s, t, z, s', r)
    ensures Inv(m, s') && Adds(m, s, s', r)
  {
    TakeBoardKeeps(m, s, opening, t, z);
  }

  lemma ThisBoardOutcomeKeeps(m: Machine, s: State, b: Board, s': State, r: Option<Allocation>)
    requires Inv(m, s) && 0 <= b.z < 3 && ThisBoardOutcome(m, s, b, s', r)
    ensures Inv(m, s') && Adds(m, s, s', r)
  {
    var t := (b.x, b.y);
    if b !in m.deadBoards {
      if b.z in Unused(s, t) {
        TakesKeeps(m, s, None, t, b.z, s', r);
      } else {
        RequestExact(s.tree, b.x, b.y);
        var tree := PackTreeModel.Request(s.tree, b.x, b.y);
        if tree.Some? {
          assert b.z in Working(m.deadBoards, b.x, b.y);
          OpenTriadKeeps(m, s, tree.value, t);
          TakesKeeps(m, OpenTriad(m, s, tree.value, t), Some(t), t, b.z, s', r);
        }
      }
    }
  }

  lemma AnyBoardOutcomeKeeps(m: Machine, s: State, s': State, r: Option<Allocation>)
    requires Inv(m, s) && AnyBoardOutcome(m, s, s', r)
    ensures Inv(m, s') && Adds(m, s, s', r)
  {
    if s.pool != map[] {
      var t, z :| Takes(s, t, z, s', r);
      TakesKeeps(m, s, None, t, z, s', r);
    } else {
      var f := AsFilter(SomeBoardWorks(m.deadBoards));
      var g := Alloc(s.tree, Size(1, 1), f);
      if g.Granted? {
        AllocGrants(s.tree, Size(1, 1), f);
        GrantedCell(s.tree, f);
        var corner := (g.rect.x, g.rect.y);
        OpenTriadKeeps(m, s, g.tree, corner);
        var t, z :| Takes(OpenTriad(m, s, g.tree, corner), t, z, s', r);
        TakesKeeps(m, OpenTriad(m, s, g.tree, corner), Some(corner), t, z, s', r);
      }
    }
  }

  lemma GrantedCell(t: Tree, f: Filter)
    requires WellFormed(t) && Alloc(t, Size(1, 1), f).Granted?
    ensures Alloc(t, Size(1, 1), f).rect == Cell(Alloc(t, Size(1, 1), f).rect.x, Alloc(t, Size(1, 1), f).rect.y)
  {
    AllocGrants(t, Size(1, 1), f);
    var a :| a in Spare(t) && Choose(a, Size(1, 1), f) == Some(Alloc(t, Size(1, 1), f).rect);
    LeavesInside(t, a);
    ChooseGivesCorner(a, Size(1, 1), f);
  }

  lemma OutcomeKeeps(m: Machine, s: State, d: Demand, s': State, r: Option<Allocation>)
    requires Inv(m, s) && d.request.Sensible() && Outcome(m, s, d, s', r)
    ensures Inv(m, s') && Adds(m, s, s', r)
  {
    if d.request.ThisBoard? {
      ThisBoardOutcomeKeeps(m, s, d.request.at, s', r);
    } else if d.request.ForOneBoard() {
      AnyBoardOutcomeKeeps(m, s, s', r);
    } else {
      BlockOutcomeKeeps(m, s, d, s', r);
    }
  }
}
