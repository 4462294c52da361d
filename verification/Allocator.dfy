/** The mutable board allocator; every method does what the state machine in AllocatorModel says. */
module AllocatorClass {
  import opened Wrappers
  import opened Coordinates
  import opened AreaToRect
  import opened PackTreeModel
  import opened CandidateFilter
  import opened AllocatorModel
  import opened Oracle
  import opened PackTreeClass

  /** The two lookups from allocation identifiers, taken together. */
  function Paired(types: map<int, Kind>, places: map<int, Board>): map<int, Holding>
    requires types.Keys == places.Keys
  {
    map id | id in places :: Holding(types[id], places[id])
  }

  lemma PairedAdds(types: map<int, Kind>, places: map<int, Board>, id: int, h: Holding)
    requires types.Keys == places.Keys
    ensures types[id := h.kind].Keys == places[id := h.at].Keys
    ensures Paired(types[id := h.kind], places[id := h.at]) == Paired(types, places)[id := h]
  {
  }

  lemma PairedRemoves(types: map<int, Kind>, places: map<int, Board>, id: int)
    requires types.Keys == places.Keys
    ensures (types - {id}).Keys == (places - {id}).Keys
    ensures Paired(types - {id}, places - {id}) == Paired(types, places) - {id}
  {
  }

  class Allocator {
    const machine: Machine
    const secondsBeforeFree: int

    var nextId: int
    const packTree: PackTree

    // From live allocation identifiers to the type, and to the bottom-left board, of the allocation.
    var allocationTypes: map<int, Kind>
    var allocationBoard: map<int, Board>

    // Delayed frees, oldest first.
    var toFree: seq<Entry>

    // The unused working boards of triads opened for single boards, and the opened triads with none left.
    var singleBoardTriads: map<Triad, set<int>>
    var fullSingleBoardTriads: set<Triad>

    ghost var ledger: map<Holding, Grip>
    ghost var Repr: set<object>

    ghost predicate Shaped()
      reads this, Repr
      ensures Shaped() ==> this in Repr && packTree in Repr
    {
      && this in Repr && packTree in Repr && packTree.Repr < Repr && this !in packTree.Repr
      && Repr == {this} + packTree.Repr
      && packTree.Valid()
      && allocationTypes.Keys == allocationBoard.Keys
    }

    ghost function View(): State
      requires Shaped()
      reads this, Repr
    {
      State(nextId, packTree.shape, Paired(allocationTypes, allocationBoard), toFree,
        singleBoardTriads, fullSingleBoardTriads, ledger)
    }

    ghost predicate Valid()
      reads this, Repr
      ensures Valid() ==> this in Repr
    {
      Shaped() && Inv(machine, View())
    }

    constructor (machine: Machine, nextId: int, secondsBeforeFree: int)
      requires machine.Positive()
      ensures Valid() && fresh(Repr)
      ensures this.machine == machine && this.secondsBeforeFree == secondsBeforeFree
      ensures View() == Initial(machine, nextId)
    {
      this.machine, this.nextId, this.secondsBeforeFree := machine, nextId, secondsBeforeFree;
      packTree := new PackTree(0, 0, machine.width, machine.height);
      allocationTypes, allocationBoard, toFree := map[], map[], [];
      singleBoardTriads, fullSingleBoardTriads, ledger := map[], {}, map[];
      new;
      Repr := {this} + packTree.Repr;
      InitialHolds(machine, nextId);
    }

    /** Store a new allocation under the next identifier. */
    method Store(h: Holding, ghost g: Grip) returns (id: int)
      requires Shaped()
      modifies this
      ensures Shaped() && Repr == old(Repr)
      ensures id == old(nextId) && View() == Claim(old(View()), h, g)
    {
      PairedAdds(allocationTypes, allocationBoard, nextId, h);
      id := nextId;
      nextId := nextId + 1;
      allocationTypes := allocationTypes[id := h.kind];
      allocationBoard := allocationBoard[id := h.at];
      ledger := ledger[h := g];
    }

    method AllocTriads(w: int, h: int, limits: Limits) returns (r: Option<Allocation>)
      requires Valid()
      modifies Repr
      ensures Valid() && fresh(Repr - old(Repr))
      ensures BlockOutcome(machine, old(View()), Demand(Block(w, h), limits), View(), r)
    {
      if limits.requireTorus && (w != machine.width || h != machine.height) {
        return None;
      }
      if w <= 0 || h <= 0 {
        return None;
      }
      var cf := new CandidateFilter(Connected(machine, limits, None));
      r := AllocPlanned(Plan(Size(w, h), cf.kind), cf);
      BlockOutcomeKeeps(machine, old(View()), Demand(Block(w, h), limits), View(), r);
    }

    method AllocBoards(boards: int, ratio: real, limits: Limits) returns (r: Option<Allocation>)
      requires Valid() && ratio >= 0.0
      modifies Repr
      ensures Valid() && fresh(Repr - old(Repr))
      ensures BlockOutcome(machine, old(View()), Demand(Count(boards, ratio), limits), View(), r)
    {
      var triads := CeilDiv(boards, 3);
      if triads <= 0 {
        return None;
      }
      if limits.requireTorus && triads != machine.width * machine.height {
        return None;
      }
      var cf := new CandidateFilter(Connected(machine, limits, Some(boards)));
      r := AllocPlanned(Plan(Wanted.Area(triads, ratio), cf.kind), cf);
      BlockOutcomeKeeps(machine, old(View()), Demand(Count(boards, ratio), limits), View(), r);
    }

    /** Search the tree and store what is found, with the boards, periphery and torus the filter recorded. */
    method AllocPlanned(p: Plan, cf: CandidateFilter) returns (r: Option<Allocation>)
      requires Valid() && p.wanted.Sensible() && cf !in Repr
      requires cf.kind == p.filter && p.filter.Connected? && p.filter.machine == machine
      modifies Repr, cf
      ensures Shaped() && fresh(Repr - old(Repr))
      ensures Searched(old(View()), p, View(), r)
    {
      var rect := packTree.AllocWanted(p.wanted, cf);
      Repr := {this} + packTree.Repr;
      if rect.None? {
        return None;
      }
      var x, y := rect.value.x, rect.value.y;
      var id := Store(Holding(Triads, Board(x, y, 0)), Grip(rect.value, cf.boards));
      r := Some(Allocation(id, cf.boards, cf.periphery, cf.torus));
    }

    /** The outcome of a planned search. */
    ghost predicate Searched(s: State, p: Plan, s': State, r: Option<Allocation>)
      requires machine.Positive()
    {
      match PackTreeModel.Alloc(s.tree, p.wanted, AsFilter(p.filter))
      case Refused => Fails(s, s', r)
      case Granted(tree, rect) =>
        s' == GrantBlock(s, tree, rect, Region(machine, rect)) && r == Some(BlockAllocation(machine, s.nextId, rect))
    }

    /**
     * Allocate one board: a particular one, or any. After a board numbered outside the triad has been asked for, the
     * allocator need not be in order.
     */
    method AllocBoard(want: Option<Board>, ghost opening: Option<Triad>) returns (r: Option<Allocation>)
      requires Shaped() && (if OffTriad(want) && opening.Some? then Leaked(want.value) else InvBut(machine, View(), opening))
      requires opening.Some? && !OffTriad(want) ==> JustOpened(want, opening.value)
      modifies Repr
      ensures Shaped() && fresh(Repr - old(Repr))
      ensures !OffTriad(want) ==> Valid()
      ensures if OffTriad(want) && opening.Some? then View() == old(View()) && r == None
              else BoardOutcome(machine, old(View()), want, View(), r)
      decreases if opening.Some? then 0 else 1, 1
    {
      if want.Some? && want.value in machine.deadBoards {
        return None;
      }
      PoolsOnTriad(want, opening);
      if singleBoardTriads != map[] && (want.None? || want.value.z in Available(want.value)) {
        r := TakeFromPool(want, opening);
      } else {
        r := TakeFromTree(want, opening);
      }
    }

    /** Open a triad for the wanted board, or for any, and try again. */
    method TakeFromTree(want: Option<Board>, ghost opening: Option<Triad>) returns (r: Option<Allocation>)
      requires Shaped() && (if OffTriad(want) && opening.Some? then Leaked(want.value) else Inv(machine, View()))
      requires OffTriad(want) || opening.None?
      requires if want.Some? then want.value !in machine.deadBoards && want.value.z !in Available(want.value)
               else singleBoardTriads == map[]
      modifies Repr
      ensures Shaped() && fresh(Repr - old(Repr)) && (!OffTriad(want) ==> Valid())
      ensures if OffTriad(want) && opening.Some? then View() == old(View()) && r == None
              else BoardOutcome(machine, old(View()), want, View(), r)
      decreases if opening.Some? then 0 else 1, 0
    {
      var xy := OpenNewTriad(want, OffTriad(want) && opening.Some?);
      if xy.None? {
        return None;
      }
      r := AllocBoard(want, xy);
    }

    /** Give the wanted board, or any, from an opened triad. */
    method TakeFromPool(want: Option<Board>, ghost opening: Option<Triad>) returns (r: Option<Allocation>)
      requires Shaped() && InvBut(machine, View(), opening) && singleBoardTriads != map[]
      requires want.Some? ==> want.value !in machine.deadBoards && want.value.z in Available(want.value)
      requires opening.Some? ==> JustOpened(want, opening.value)
      modifies this
      ensures Valid() && Repr == old(Repr) && BoardOutcome(machine, old(View()), want, View(), r)
    {
      PoolNotEmpty(machine, View(), opening);
      var t, z := ChooseUnused(want);
      TakeBoardKeeps(machine, View(), opening, t, z);
      r := TakeUnused(t, z);
    }

    static predicate OffTriad(want: Option<Board>) {
      want.Some? && !(0 <= want.value.z < 3)
    }

    /** The triad of the board has been taken from the tree, and the board is not one of it. */
    ghost predicate Leaked(b: Board)
      requires Shaped()
      reads this, Repr
    {
      && WellFormed(View().tree) && PackTreeModel.Request(View().tree, b.x, b.y).None?
      && b.z !in Available(b) && b !in machine.deadBoards
    }

    /** No pool holds a board numbered outside the triad. */
    lemma PoolsOnTriad(want: Option<Board>, opening: Option<Triad>)
      requires Shaped() && (if OffTriad(want) && opening.Some? then Leaked(want.value) else InvBut(machine, View(), opening))
      ensures OffTriad(want) ==> want.value.z !in Available(want.value)
    {
      if OffTriad(want) && opening.None? && (want.value.x, want.value.y) in singleBoardTriads {
        assert TriadOk(machine, View(), (want.value.x, want.value.y));
      }
    }

    ghost predicate JustOpened(want: Option<Board>, t: Triad)
      reads this
    {
      match want
      case Some(b) => t == (b.x, b.y) && b !in machine.deadBoards && b.z in Available(b)
      case None => singleBoardTriads.Keys == {t} && singleBoardTriads[t] != {}
    }

    static ghost predicate BoardOutcome(m: Machine, s: State, want: Option<Board>, s': State, r: Option<Allocation>) {
      && WellFormed(s.tree)
      && match want
         case Some(b) => ThisBoardOutcome(m, s, b, s', r)
         case None => AnyBoardOutcome(m, s, s', r)
    }

    function Available(b: Board): set<int>
      reads this
    {
      if (b.x, b.y) in singleBoardTriads then singleBoardTriads[(b.x, b.y)] else {}
    }

    /** The wanted board, or any unused board of any opened triad. */
    method ChooseUnused(want: Option<Board>) returns (t: Triad, z: int)
      requires singleBoardTriads != map[] && forall u :: u in singleBoardTriads ==> exists k :: k in singleBoardTriads[u]
      requires want.Some? ==> want.value.z in Available(want.value)
      ensures t in singleBoardTriads && z in singleBoardTriads[t]
      ensures want.Some? ==> t == (want.value.x, want.value.y) && z == want.value.z
    {
      match want {
        case Some(b) =>
          t, z := (b.x, b.y), b.z;
        case None =>
          t :| t in singleBoardTriads;
          z :| z in singleBoardTriads[t];
      }
    }

    method TakeUnused(t: Triad, z: int) returns (r: Option<Allocation>)
      requires Shaped() && t in singleBoardTriads && z in singleBoardTriads[t]
      modifies this
      ensures Shaped() && Repr == old(Repr)
      ensures Takes(old(View()), t, z, View(), r)
    {
      var available := singleBoardTriads[t] - {z};
      if available == {} {
        singleBoardTriads := singleBoardTriads - {t};
        fullSingleBoardTriads := fullSingleBoardTriads + {t};
      } else {
        singleBoardTriads := singleBoardTriads[t := available];
      }
      var b := Board(t.0, t.1, z);
      var id := Store(Holding(SingleBoard, b), Grip(Cell(t.0, t.1), {b}));
      r := Some(Allocation(id, {b}, set link: Link :: (b, link), NO_WRAP));
      assert (set link: Link :: (b, link)) == Ports({b});
    }

    /** Take a triad from the tree and make its working boards available. */
    method OpenNewTriad(want: Option<Board>, ghost leaked: bool) returns (xy: Option<Triad>)
      requires Shaped() && (if leaked then OffTriad(want) && Leaked(want.value) else Inv(machine, View()))
      requires want.Some? ==> want.value !in machine.deadBoards
      requires want.None? ==> singleBoardTriads == map[]
      modifies Repr
      ensures Shaped() && fresh(Repr - old(Repr))
      ensures !OffTriad(want) ==> InvBut(machine, View(), xy) && (xy.Some? ==> JustOpened(want, xy.value))
      ensures OffTriad(want) && xy.Some? ==> Leaked(want.value)
      ensures xy.None? ==> View() == old(View())
      ensures xy == TriadFound(old(View()).tree, want).0
      ensures xy.Some? ==>
                View() == OpenTriad(machine, old(View()), TriadFound(old(View()).tree, want).1, xy.value)
    {
      ghost var before := View();
      xy := FindTriad(want);
      if xy.Some? {
        MakeAvailable(before, xy.value);
        if OffTriad(want) {
          TriadLeaks(before, want.value);
        } else {
          TriadOpens(before, want, xy.value);
        }
      }
    }

    /** With a triad opened for one of its boards, or for any board, all else is in order. */
    lemma TriadOpens(before: State, want: Option<Board>, t: Triad)
      requires Shaped() && Inv(machine, before) && !OffTriad(want) && TriadFound(before.tree, want).0 == Some(t)
      requires want.Some? ==> want.value !in machine.deadBoards
      requires View() == OpenTriad(machine, before, TriadFound(before.tree, want).1, t)
      requires want.None? ==> before.pool == map[]
      ensures InvBut(machine, View(), Some(t)) && JustOpened(want, t)
    {
      TriadFoundIsCell(before.tree, want);
      OpenTriadKeeps(machine, before, TriadFound(before.tree, want).1, t);
    }

    /** A triad opened for a board that does not exist cannot be requested again. */
    lemma TriadLeaks(before: State, b: Board)
      requires Shaped() && WellFormed(before.tree) && OffTriad(Some(b)) && b !in machine.deadBoards
      requires PackTreeModel.Request(before.tree, b.x, b.y).Some?
      requires View() == OpenTriad(machine, before, PackTreeModel.Request(before.tree, b.x, b.y).value, (b.x, b.y))
      ensures Leaked(b)
    {
      RequestedOnce(before.tree, b.x, b.y);
      assert View().pool[(b.x, b.y)] == Working(machine.deadBoards, b.x, b.y);
    }

    /** The triad the tree gives for a single board, and the tree without it. */
    ghost function TriadFound(t: Tree, want: Option<Board>): (Option<Triad>, Tree)
      requires WellFormed(t)
    {
      match want
      case Some(b) =>
        (match PackTreeModel.Request(t, b.x, b.y)
         case None => (None, t)
         case Some(tree) => (Some((b.x, b.y)), tree))
      case None =>
        (match PackTreeModel.Alloc(t, Size(1, 1), AsFilter(SomeBoardWorks(machine.deadBoards)))
         case Refused => (None, t)
         case Granted(tree, rect) => (Some((rect.x, rect.y)), tree))
    }

    lemma TriadFoundIsCell(t: Tree, want: Option<Board>)
      requires WellFormed(t) && TriadFound(t, want).0.Some?
      requires want.Some? ==> 0 <= want.value.z < 3 && want.value !in machine.deadBoards
      ensures var (xy, tree) := TriadFound(t, want);
              && Allocates(t, tree, Cell(xy.value.0, xy.value.1))
              && Working(machine.deadBoards, xy.value.0, xy.value.1) != {}
              && (want.Some? ==> want.value.z in Working(machine.deadBoards, xy.value.0, xy.value.1))
    {
      match want
      case Some(b) =>
        RequestExact(t, b.x, b.y);
        assert b.z in Working(machine.deadBoards, b.x, b.y);
      case None =>
        var f := AsFilter(SomeBoardWorks(machine.deadBoards));
        AllocGrants(t, Size(1, 1), f);
        GrantedCell(t, f);
    }

    method FindTriad(want: Option<Board>) returns (xy: Option<Triad>)
      requires Shaped() && WellFormed(packTree.shape)
      modifies Repr
      ensures Shaped() && fresh(Repr - old(Repr))
      ensures (xy, packTree.shape) == TriadFound(old(View()).tree, want)
      ensures View() == old(View()).(tree := packTree.shape)
    {
      match want {
        case Some(b) =>
          xy := packTree.Request(b.x, b.y);
        case None =>
          xy := FindWorkingTriad();
      }
      Repr := {this} + packTree.Repr;
    }

    method FindWorkingTriad() returns (xy: Option<Triad>)
      requires Shaped() && WellFormed(packTree.shape)
      modifies packTree.Repr
      ensures packTree.Valid() && this !in packTree.Repr && fresh(packTree.Repr - old(packTree.Repr))
      ensures (xy, packTree.shape) == TriadFound(old(packTree.shape), None)
    {
      var cf := new CandidateFilter(SomeBoardWorks(machine.deadBoards));
      var rect := packTree.Alloc(1, 1, cf);
      xy := if rect.Some? then Some((rect.value.x, rect.value.y)) else None;
    }

    method MakeAvailable(ghost before: State, t: Triad)
      requires Shaped() && View() == before.(tree := packTree.shape)
      modifies this`singleBoardTriads
      ensures Shaped() && View() == OpenTriad(machine, before, packTree.shape, t)
    {
      var working := set z | 0 <= z < 3 && Board(t.0, t.1, z) !in machine.deadBoards;
      assert working == Working(machine.deadBoards, t.0, t.1);
      singleBoardTriads := singleBoardTriads[t := working];
    }

    method AllocPossible(d: Demand) returns (ok: bool, valueError: bool)
      requires machine.Positive()
      ensures valueError <==> Raises(machine, d)
      ensures !valueError ==> ok == Possible(machine, d)
    {
      if d.request.ForOneBoard() {
        if d.limits.requireTorus {
          return false, true;
        }
        var b := if d.request.ThisBoard? then Some(d.request.at) else None;
        ok := AllocBoardPossible(b);
      } else {
        match d.request {
          case Block(w, h) => ok := AllocTriadsPossible(w, h, d.limits);
          case Count(boards, ratio) =>
            ok, valueError := AllocBoardsPossible(boards, ratio, d.limits);
            return;
        }
      }
      valueError := false;
    }

    method AllocBoardPossible(want: Option<Board>) returns (ok: bool)
      ensures var request := if want.Some? then ThisBoard(want.value) else AnyBoard;
              ok == Possible(machine, Demand(request, Limits(None, None, false)))
    {
      if want.Some? {
        var b := want.value;
        if !(0 <= b.x < machine.width && 0 <= b.y < machine.height && 0 <= b.z < 3) {
          return false;
        }
        if b in machine.deadBoards {
          return false;
        }
      }
      if |machine.deadBoards| >= machine.width * machine.height * 3 {
        return false;
      }
      ok := true;
    }

    method AllocTriadsPossible(w: int, h: int, limits: Limits) returns (ok: bool)
      requires machine.Positive()
      ensures ok == Possible(machine, Demand(Block(w, h), limits))
    {
      if w > machine.width || h > machine.height {
        return false;
      }
      if w <= 0 || h <= 0 {
        return false;
      }
      if limits.requireTorus && (w != machine.width || h != machine.height) {
        return false;
      }
      ok := CornerPossible(w, h, Connected(machine, limits, None));
    }

    method AllocBoardsPossible(boards: int, ratio: real, limits: Limits) returns (ok: bool, valueError: bool)
      requires machine.Positive()
      ensures boards != 1 ==> (valueError <==> Raises(machine, Demand(Count(boards, ratio), limits)))
      ensures boards != 1 && !valueError ==> ok == Possible(machine, Demand(Count(boards, ratio), limits))
    {
      var triads := CeilDiv(boards, 3);
      valueError := false;
      if triads <= 0 {
        return false, false;
      }
      if limits.requireTorus && triads != machine.width * machine.height {
        return false, false;
      }
      var size := AreaToRect.AreaToRect(triads, machine.width, machine.height, ratio);
      if !size.Fits? {
        return false, size.Invalid?;
      }
      RectForFits(triads, machine.width, machine.height, ratio);
      ok := CornerPossible(size.width, size.height, Connected(machine, limits, Some(boards)));
    }

    /** Try the four corners of the idle machine. */
    method CornerPossible(w: int, h: int, filter: FilterKind) returns (ok: bool)
      requires w >= 1 && h >= 1 && machine.Positive() && filter.Connected? && filter.machine == machine
      ensures ok == CornerAccepted(machine, w, h, filter)
    {
      var cf := new CandidateFilter(filter);
      var corners := Corners(Root(machine), w, h);
      var i := 0;
      while i < |corners|
        invariant 0 <= i <= |corners|
        invariant forall k :: 0 <= k < i ==> !Accepts(filter, corners[k])
      {
        var accepted := cf.Call(corners[i]);
        if accepted {
          return true;
        }
        i := i + 1;
      }
      ok := false;
    }

    /** Really free the first entry of the quarantine. */
    method FreeNext()
      requires Valid() && toFree != []
      modifies Repr
      ensures Valid() && fresh(Repr - old(Repr))
      ensures FreeNextOk(machine, old(View())) && View() == AllocatorModel.FreeNext(machine, old(View()))
    {
      FreeNextKeeps(machine, View());
      if toFree[0].holding.kind.SingleBoard? {
        FreeBoardFacts(machine, View());
      }
      var h := PopFirst();
      match h.kind {
        case Triads =>
          FreeInTree(h.at.x, h.at.y);
        case SingleBoard =>
          FreeBoard(h.at);
      }
    }

    method PopFirst() returns (h: Holding)
      requires Shaped() && toFree != []
      modifies this`toFree, this`ledger
      ensures Shaped() && h == old(toFree[0].holding) && View() == Forget(old(View()))
    {
      h := toFree[0].holding;
      toFree := toFree[1..];
      ledger := ledger - {h};
    }

    /** Return a board to its triad, and the triad to the tree if all its working boards are back. */
    method FreeBoard(b: Board)
      requires Shaped() && (b.x, b.y) in Opened(View())
      requires !((b.x, b.y) in singleBoardTriads && (b.x, b.y) in fullSingleBoardTriads)
      requires Unused(View(), (b.x, b.y)) + {b.z} == Working(machine.deadBoards, b.x, b.y) ==>
                 FreeAt(packTree.shape, b.x, b.y).Some?
      modifies Repr
      ensures Shaped() && fresh(Repr - old(Repr))
      ensures var t := (b.x, b.y);
              var s := ReturnBoard(old(View()), t, b.z);
              View() == if s.pool[t] == Working(machine.deadBoards, b.x, b.y)
                        then s.(pool := s.pool - {t}, tree := FreeAt(s.tree, b.x, b.y).value) else s
    {
      var t := (b.x, b.y);
      ReturnToPool(t, b.z);
      var working := set z | 0 <= z < 3 && Board(b.x, b.y, z) !in machine.deadBoards;
      assert working == Working(machine.deadBoards, b.x, b.y);
      if singleBoardTriads[t] == working {
        singleBoardTriads := singleBoardTriads - {t};
        FreeInTree(b.x, b.y);
      }
    }

    method ReturnToPool(t: Triad, z: int)
      requires Shaped() && t in Opened(View()) && !(t in singleBoardTriads && t in fullSingleBoardTriads)
      modifies this`singleBoardTriads, this`fullSingleBoardTriads
      ensures Shaped() && View() == ReturnBoard(old(View()), t, z)
    {
      if t in fullSingleBoardTriads {
        fullSingleBoardTriads := fullSingleBoardTriads - {t};
        singleBoardTriads := singleBoardTriads[t := {}];
      }
      singleBoardTriads := singleBoardTriads[t := singleBoardTriads[t] + {z}];
    }

    method FreeInTree(x: int, y: int)
      requires Shaped() && FreeAt(packTree.shape, x, y).Some?
      modifies Repr
      ensures Shaped() && fresh(Repr - old(Repr))
      ensures View() == old(View()).(tree := FreeAt(old(View()).tree, x, y).value)
    {
      var ok := packTree.Free(x, y);
      Repr := {this} + packTree.Repr;
    }

    /** Free the quarantine entries whose time is up; says whether any was freed. */
    method CheckFree(now: int) returns (changed: bool)
      requires Valid()
      modifies Repr
      ensures Valid() && fresh(Repr - old(Repr))
      ensures View() == AllocatorModel.CheckFree(machine, secondsBeforeFree, old(View()), now)
      ensures changed <==> |toFree| < |old(toFree)|
      ensures !changed ==> toFree == old(toFree)
    {
      changed := false;
      while toFree != []
        invariant Valid() && fresh(Repr - old(Repr))
        invariant AllocatorModel.CheckFree(machine, secondsBeforeFree, View(), now)
               == AllocatorModel.CheckFree(machine, secondsBeforeFree, old(View()), now)
        invariant |toFree| <= |old(toFree)| && (changed <==> |toFree| < |old(toFree)|)
        invariant !changed ==> toFree == old(toFree)
        decreases |toFree|
      {
        if now - toFree[0].time < secondsBeforeFree {
          break;
        }
        FreeNext();
        changed := true;
      }
    }

    /** Free an allocation: it goes to the quarantine. False stands for the error raised for an unknown identifier. */
    method Free(id: int, now: int) returns (ok: bool)
      requires Valid()
      modifies this
      ensures Valid() && Repr == old(Repr)
      ensures ok <==> id in old(View()).live
      ensures View() == if ok then Release(old(View()), id, now) else old(View())
    {
      if id !in allocationTypes {
        return false;
      }
      ReleaseKeeps(machine, View(), id, now);
      PairedRemoves(allocationTypes, allocationBoard, id);
      var h := Holding(allocationTypes[id], allocationBoard[id]);
      allocationTypes := allocationTypes - {id};
      allocationBoard := allocationBoard - {id};
      toFree := toFree + [Entry(now, h)];
      ok := true;
    }

    /**
     * Allocate, after freeing whatever can now be freed. After a board numbered outside its triad has been asked for,
     * the allocator need not be in order.
     */
    method Alloc(d: Demand, now: int) returns (r: Option<Allocation>, valueError: bool)
      requires Valid() && d.request.RatioOk()
      modifies Repr
      ensures Shaped() && fresh(Repr - old(Repr)) && (valueError || d.request.OnTriad() ==> Valid())
      ensures valueError <==> Rejected(d)
      ensures var s := AllocatorModel.CheckFree(machine, secondsBeforeFree, old(View()), now);
              if valueError then View() == s && r == None else Outcome(machine, s, d, View(), r)
    {
      var changed := CheckFree(now);
      if d.request.ForOneBoard() {
        if d.limits.requireTorus {
          return None, true;
        }
        r := AllocBoard(if d.request.ThisBoard? then Some(d.request.at) else None, None);
      } else {
        match d.request {
          case Block(w, h) => r := AllocTriads(w, h, d.limits);
          case Count(boards, ratio) => r := AllocBoards(boards, ratio, d.limits);
        }
      }
      valueError := false;
    }
  }
}
