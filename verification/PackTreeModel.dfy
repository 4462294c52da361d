/**
 * The packing tree as a value: a rectangle recursively split in two, whose leaves are allocated or free.
 * The operations here specify those of the mutable tree in PackTree.dfy.
 */
module PackTreeModel {
  import opened Wrappers
  import opened AreaToRect

  datatype Rect = Rect(x: int, y: int, w: int, h: int) {
    predicate Positive() {
      w >= 1 && h >= 1
    }

    predicate Has(px: int, py: int) {
      x <= px < x + w && y <= py < y + h
    }

    predicate Within(outer: Rect) {
      && outer.x <= x && x + w <= outer.x + outer.w
      && outer.y <= y && y + h <= outer.y + outer.h
    }

    predicate Apart(other: Rect) {
      x + w <= other.x || other.x + other.w <= x || y + h <= other.y || other.y + other.h <= y
    }

    predicate Fits(width: int, height: int) {
      width <= w && height <= h
    }
  }

  /** A caller's condition on candidate rectangles. */
  type Filter = Rect -> bool

  datatype Tree =
    | Leaf(area: Rect, taken: bool)
    | Node(area: Rect, first: Tree, second: Tree)

  /** The rectangles a horizontal cut before row y makes. */
  function Below(a: Rect, y: int): Rect { Rect(a.x, a.y, a.w, y - a.y) }
  function Above(a: Rect, y: int): Rect { Rect(a.x, y, a.w, a.h - (y - a.y)) }

  /** The rectangles a vertical cut before column x makes. */
  function LeftOf(a: Rect, x: int): Rect { Rect(a.x, a.y, x - a.x, a.h) }
  function RightOf(a: Rect, x: int): Rect { Rect(x, a.y, a.w - (x - a.x), a.h) }

  predicate Cut(a: Rect, b: Rect, c: Rect) {
    || (b == Below(a, c.y) && c == Above(a, c.y))
    || (b == LeftOf(a, c.x) && c == RightOf(a, c.x))
  }

  /** Every node is cut into two rectangles of positive size. */
  predicate WellFormed(t: Tree) {
    && t.area.Positive()
    && (t.Node? ==>
          && Cut(t.area, t.first.area, t.second.area) && t.first.area.Positive() && t.second.area.Positive()
          && WellFormed(t.first) && WellFormed(t.second))
  }

  predicate IsFree(t: Tree) {
    t.Leaf? && !t.taken
  }

  /** No node has two free leaves for children. */
  predicate Canonical(t: Tree) {
    t.Node? ==> !(IsFree(t.first) && IsFree(t.second)) && Canonical(t.first) && Canonical(t.second)
  }

  /** The allocated leaves and the free leaves. */
  function Busy(t: Tree): set<Rect> {
    match t
    case Leaf(area, taken) => if taken then {area} else {}
    case Node(_, first, second) => Busy(first) + Busy(second)
  }

  function Spare(t: Tree): set<Rect> {
    match t
    case Leaf(area, taken) => if taken then {} else {area}
    case Node(_, first, second) => Spare(first) + Spare(second)
  }

  function Leaves(t: Tree): set<Rect> {
    Busy(t) + Spare(t)
  }

  // ----- geometry

  lemma {:induction false} LeavesInside(t: Tree, r: Rect)
    requires WellFormed(t) && r in Leaves(t)
    ensures r.Positive() && r.Within(t.area)
  {
    if t.Node? {
      if r in Leaves(t.first) {
        LeavesInside(t.first, r);
      } else {
        LeavesInside(t.second, r);
      }
    }
  }

  lemma {:induction false} LeavesApart(t: Tree, r: Rect, q: Rect)
    requires WellFormed(t) && r in Leaves(t) && q in Leaves(t) && r != q
    ensures r.Apart(q)
  {
    if t.Node? {
      if r in Leaves(t.first) && q in Leaves(t.first) {
        LeavesApart(t.first, r, q);
      } else if r in Leaves(t.second) && q in Leaves(t.second) {
        LeavesApart(t.second, r, q);
      } else if r in Leaves(t.first) {
        LeavesInside(t.first, r);
        LeavesInside(t.second, q);
      } else {
        LeavesInside(t.second, r);
        LeavesInside(t.first, q);
      }
    }
  }

  lemma {:induction false} BusyNotSpare(t: Tree, r: Rect)
    requires WellFormed(t) && r in Busy(t)
    ensures r !in Spare(t)
  {
    if t.Node? {
      if r in Busy(t.first) {
        BusyNotSpare(t.first, r);
        LeavesInside(t.first, r);
        if r in Spare(t.second) {
          LeavesInside(t.second, r);
        }
      } else {
        BusyNotSpare(t.second, r);
        LeavesInside(t.second, r);
        if r in Spare(t.first) {
          LeavesInside(t.first, r);
        }
      }
    }
  }

  /** The leaf that holds a cell. */
  function LeafAt(t: Tree, px: int, py: int): Rect {
    match t
    case Leaf(area, _) => area
    case Node(_, first, second) => if first.area.Has(px, py) then LeafAt(first, px, py) else LeafAt(second, px, py)
  }

  lemma {:induction false} LeafAtHolds(t: Tree, px: int, py: int)
    requires WellFormed(t) && t.area.Has(px, py)
    ensures LeafAt(t, px, py) in Leaves(t) && LeafAt(t, px, py).Has(px, py)
  {
    if t.Node? {
      if t.first.area.Has(px, py) {
        LeafAtHolds(t.first, px, py);
      } else {
        LeafAtHolds(t.second, px, py);
      }
    }
  }

  /** The leaves partition the root: every cell of it lies in one leaf, which is either allocated or free, not both. */
  lemma LeavesPartition(t: Tree, px: int, py: int)
    requires WellFormed(t)
    ensures t.area.Has(px, py) <==> exists r :: r in Leaves(t) && r.Has(px, py)
    ensures forall r, q :: r in Leaves(t) && q in Leaves(t) && r.Has(px, py) && q.Has(px, py) ==> r == q
    ensures forall r :: r in Leaves(t) ==> (r in Busy(t) <==> r !in Spare(t))
  {
    if t.area.Has(px, py) {
      LeafAtHolds(t, px, py);
    }
    forall r | r in Leaves(t)
      ensures r.Within(t.area) && (r in Busy(t) <==> r !in Spare(t))
    {
      LeavesInside(t, r);
      if r in Busy(t) {
        BusyNotSpare(t, r);
      }
    }
    forall r, q | r in Leaves(t) && q in Leaves(t) && r.Has(px, py) && q.Has(px, py)
      ensures r == q
    {
      if r != q {
        LeavesApart(t, r, q);
      }
    }
  }

  // ----- alloc

  /** The result of an allocation: refused, or a new tree with one more allocated leaf. */
  datatype Grant = Refused | Granted(tree: Tree, rect: Rect)

  /** Where a rectangle of a given size can go in a free leaf: its four corners, in the order they are tried. */
  function Corners(a: Rect, width: int, height: int): seq<Rect> {
    var x', y' := a.x + (a.w - width), a.y + (a.h - height);
    [Rect(a.x, a.y, width, height), Rect(a.x, y', width, height),
     Rect(x', a.y, width, height), Rect(x', y', width, height)]
  }

  function FirstAccepted(candidates: seq<Rect>, f: Filter): Option<Rect> {
    if candidates == [] then None
    else if f(candidates[0]) then Some(candidates[0])
    else FirstAccepted(candidates[1..], f)
  }

  lemma {:induction false} FirstAcceptedExact(candidates: seq<Rect>, f: Filter)
    ensures FirstAccepted(candidates, f).None? <==> forall r :: r in candidates ==> !f(r)
    ensures FirstAccepted(candidates, f).Some? ==>
              FirstAccepted(candidates, f).value in candidates && f(FirstAccepted(candidates, f).value)
  {
    if candidates != [] {
      FirstAcceptedExact(candidates[1..], f);
      assert candidates == [candidates[0]] + candidates[1..];
    }
  }

  function FindAcceptable(a: Rect, width: int, height: int, f: Filter): Option<Rect> {
    FirstAccepted(Corners(a, width, height), f)
  }

  /** r is a corner of the free rectangle a. */
  predicate IsCorner(r: Rect, a: Rect) {
    && (r.x == a.x || r.x + r.w == a.x + a.w)
    && (r.y == a.y || r.y + r.h == a.y + a.h)
  }

  lemma FindAcceptableExact(a: Rect, width: int, height: int, f: Filter)
    ensures FindAcceptable(a, width, height, f).None?
        <==> forall r: Rect :: r.w == width && r.h == height && IsCorner(r, a) ==> !f(r)
    ensures FindAcceptable(a, width, height, f).Some?
        ==> var r := FindAcceptable(a, width, height, f).value;
            r.w == width && r.h == height && IsCorner(r, a) && f(r)
  {
    var corners := Corners(a, width, height);
    FirstAcceptedExact(corners, f);
    forall r: Rect
      ensures r.w == width && r.h == height && IsCorner(r, a) <==> r in corners
    {
      if r.w == width && r.h == height && IsCorner(r, a) {
        assert r == corners[0] || r == corners[1] || r == corners[2] || r == corners[3];
      }
    }
  }

  function CutAcross(a: Rect, y: int): Tree { Node(a, Leaf(Below(a, y), false), Leaf(Above(a, y), false)) }
  function CutDown(a: Rect, x: int): Tree { Node(a, Leaf(LeftOf(a, x), false), Leaf(RightOf(a, x), false)) }

  /** Cut a strip with the given rows, or columns, off a rectangle, at whichever end r lies, and put t there. */
  function StripRows(a: Rect, r: Rect, t: Tree): Tree {
    if r.y == a.y then Node(a, t, Leaf(Above(a, r.y + r.h), false))
    else Node(a, Leaf(Below(a, r.y), false), t)
  }

  function StripColumns(a: Rect, r: Rect, t: Tree): Tree {
    if r.x == a.x then Node(a, t, Leaf(RightOf(a, r.x + r.w), false))
    else Node(a, Leaf(LeftOf(a, r.x), false), t)
  }

  /** Allocate r in a free rectangle that is already as wide, or as high, as r. */
  function CarveStrip(a: Rect, r: Rect): Tree {
    if a.w != r.w then StripColumns(a, r, Leaf(r, true))
    else if a.h != r.h then StripRows(a, r, Leaf(r, true))
    else Leaf(a, true)
  }

  /** Slice the corner r out of the free rectangle a, first along the axis that keeps the largest free space. */
  function Carve(a: Rect, r: Rect): Tree {
    var dw, dh := a.w - r.w, a.h - r.h;
    if dw == 0 && dh == 0 then Leaf(a, true)
    else if dh > dw then StripRows(a, r, CarveStrip(Rect(a.x, r.y, a.w, r.h), r))
    else StripColumns(a, r, CarveStrip(Rect(r.x, a.y, r.w, a.h), r))
  }

  predicate SecondFirst(first: Tree, second: Tree) {
    second.area.w * second.area.h < first.area.w * first.area.h
  }

  /** What is wanted: a rectangle of an exact size, or one of at least an area and about a ratio. */
  datatype Wanted = Size(width: int, height: int) | Area(area: int, ratio: real) {
    predicate Sensible() {
      match this
      case Size(width, height) => width >= 1 && height >= 1
      case Area(area, ratio) => area >= 1 && ratio >= 0.0
    }
  }

  /** The quick test every node makes before it is searched. */
  predicate RoomFor(a: Rect, wanted: Wanted) {
    match wanted
    case Size(width, height) => a.Fits(width, height)
    case Area(area, _) => area <= a.w * a.h
  }

  /** The rectangle a free leaf would give. */
  function Choose(a: Rect, wanted: Wanted, f: Filter): Option<Rect> {
    if !RoomFor(a, wanted) then None
    else
      match wanted
      case Size(width, height) => FindAcceptable(a, width, height, f)
      case Area(area, ratio) =>
        var size := RectFor(area, a.w, a.h, ratio);
        if size.Fits? then FindAcceptable(a, size.width, size.height, f) else None
  }

  function Alloc(t: Tree, wanted: Wanted, f: Filter): Grant
    decreases t
  {
    match t
    case Leaf(a, taken) =>
      if taken then Refused
      else
        (match Choose(a, wanted, f)
         case None => Refused
         case Some(r) => Granted(Carve(a, r), r))
    case Node(a, first, second) =>
      if !RoomFor(a, wanted) then Refused
      else if SecondFirst(first, second) then
        (match Alloc(second, wanted, f)
         case Granted(s, r) => Granted(Node(a, first, s), r)
         case Refused =>
           (match Alloc(first, wanted, f)
            case Granted(s, r) => Granted(Node(a, s, second), r)
            case Refused => Refused))
      else
        (match Alloc(first, wanted, f)
         case Granted(s, r) => Granted(Node(a, s, second), r)
         case Refused =>
           (match Alloc(second, wanted, f)
            case Granted(s, r) => Granted(Node(a, first, s), r)
            case Refused => Refused))
  }

  // ----- free

  /** A node whose children have become two free leaves is a free leaf again. */
  function Merge(a: Rect, first: Tree, second: Tree): Tree {
    if IsFree(first) && IsFree(second) then Leaf(a, false) else Node(a, first, second)
  }

  /** None stands for the error raised when no allocated leaf has its corner at (x, y). */
  function FreeAt(t: Tree, x: int, y: int): Option<Tree> {
    match t
    case Leaf(a, taken) => if taken && x == a.x && y == a.y then Some(Leaf(a, false)) else None
    case Node(a, first, second) =>
      if first.area.Has(x, y) then
        (match FreeAt(first, x, y) case None => None case Some(s) => Some(Merge(a, s, second)))
      else if second.area.Has(x, y) then
        (match FreeAt(second, x, y) case None => None case Some(s) => Some(Merge(a, first, s)))
      else None
  }

  // ----- request

  function Max(a: int, b: int): int {
    if a >= b then a else b
  }

  /** Cut a rectangle beside the cell (x, y), on the side where most room is left. */
  function SplitBeside(a: Rect, x: int, y: int): Tree {
    var left, right := x - a.x, a.x + a.w - x - 1;
    var above, below := a.y + a.h - y - 1, y - a.y;
    var largest := Max(Max(left, right), Max(above, below));
    if left == largest then CutDown(a, x)
    else if right == largest then CutDown(a, x + 1)
    else if above == largest then CutAcross(a, y + 1)
    else CutAcross(a, y)
  }

  lemma SplitBesideShape(a: Rect, x: int, y: int)
    requires a.Positive() && a.Has(x, y) && !(a.w == 1 && a.h == 1)
    ensures var t := SplitBeside(a, x, y);
            && WellFormed(t) && t.area == a && t.first.Leaf? && t.second.Leaf?
            && (t.first.area.Has(x, y) <==> !t.second.area.Has(x, y))
            && t.first.area.w + t.first.area.h < a.w + a.h && t.second.area.w + t.second.area.h < a.w + a.h
  {
    var left, right := x - a.x, a.x + a.w - x - 1;
    var above, below := a.y + a.h - y - 1, y - a.y;
    var t := SplitBeside(a, x, y);
    if Max(left, right) >= Max(above, below) {
      assert Max(left, right) >= 1;
      assert t == CutDown(a, if left >= right then x else x + 1);
    } else {
      assert t == CutAcross(a, if above >= below then y + 1 else y);
    }
  }

  function Request(t: Tree, x: int, y: int): Option<Tree>
    requires WellFormed(t)
    decreases t.area.w + t.area.h, if t.Leaf? then 1 else 0
  {
    if !t.area.Has(x, y) then None
    else
      match t
      case Node(a, first, second) =>
        (match Request(first, x, y)
         case Some(s) => Some(Node(a, s, second))
         case None =>
           (match Request(second, x, y)
            case Some(s) => Some(Node(a, first, s))
            case None => None))
      case Leaf(a, taken) =>
        if taken then None
        else if a.w == 1 && a.h == 1 then Some(Leaf(a, true))
        else
          SplitBesideShape(a, x, y);
          Request(SplitBeside(a, x, y), x, y)
  }

  // ----- what the operations do to the leaves

  /** t' is t with the part r of a free leaf allocated. */
  ghost predicate Allocates(t: Tree, t': Tree, r: Rect) {
    && WellFormed(t') && t'.area == t.area
    && Busy(t') == Busy(t) + {r} && r !in Busy(t)
    && r.Positive() && r.Within(t.area)
    && (Canonical(t) ==> Canonical(t') && FreeAt(t', r.x, r.y) == Some(t))
  }

  lemma CarveAllocates(a: Rect, r: Rect)
    requires a.Positive() && r.Positive() && a.Fits(r.w, r.h) && IsCorner(r, a)
    ensures Allocates(Leaf(a, false), Carve(a, r), r)
  {
    var dw, dh := a.w - r.w, a.h - r.h;
    if dw == 0 && dh == 0 {
      assert r == a;
    } else if dh > dw {
      var strip := Rect(a.x, r.y, a.w, r.h);
      StripAllocates(strip, r);
      RowsAllocate(a, r, strip, CarveStrip(strip, r));
    } else {
      var strip := Rect(r.x, a.y, r.w, a.h);
      StripAllocates(strip, r);
      ColumnsAllocate(a, r, strip, CarveStrip(strip, r));
    }
  }

  lemma StripAllocates(a: Rect, r: Rect)
    requires a.Positive() && r.Positive() && a.Fits(r.w, r.h) && IsCorner(r, a)
    requires a.w == r.w || a.h == r.h
    ensures Allocates(Leaf(a, false), CarveStrip(a, r), r)
  {
    if a.w != r.w {
      ColumnsAllocate(a, r, r, Leaf(r, true));
    } else if a.h != r.h {
      RowsAllocate(a, r, r, Leaf(r, true));
    } else {
      assert r == a;
    }
  }

  /** Putting an allocated strip back at the end of a rectangle. */
  lemma RowsAllocate(a: Rect, r: Rect, strip: Rect, t: Tree)
    requires a.Positive() && r.h < a.h && IsCorner(r, a)
    requires strip == Rect(a.x, r.y, a.w, r.h)
    requires Allocates(Leaf(strip, false), t, r)
    ensures Allocates(Leaf(a, false), StripRows(a, r, t), r)
  {
  }

  lemma ColumnsAllocate(a: Rect, r: Rect, strip: Rect, t: Tree)
    requires a.Positive() && r.w < a.w && IsCorner(r, a)
    requires strip == Rect(r.x, a.y, r.w, a.h)
    requires Allocates(Leaf(strip, false), t, r)
    ensures Allocates(Leaf(a, false), StripColumns(a, r, t), r)
  {
  }

  /** Replacing a child by one that allocates r allocates r in the whole. */
  lemma FirstAllocates(t: Tree, s: Tree, r: Rect)
    requires t.Node? && WellFormed(t) && Allocates(t.first, s, r)
    ensures Allocates(t, Node(t.area, s, t.second), r)
  {
    if r in Busy(t.second) {
      LeavesInside(t.second, r);
    }
    ShapeAfterAllocation(t.first, s, r);
  }

  lemma SecondAllocates(t: Tree, s: Tree, r: Rect)
    requires t.Node? && WellFormed(t) && Allocates(t.second, s, r)
    ensures Allocates(t, Node(t.area, t.first, s), r)
  {
    if r in Busy(t.first) {
      LeavesInside(t.first, r);
    }
    ShapeAfterAllocation(t.second, s, r);
  }

  /** A tree with an allocation in it is not a free leaf. */
  lemma ShapeAfterAllocation(t: Tree, s: Tree, r: Rect)
    requires Allocates(t, s, r)
    ensures !IsFree(s)
  {
  }

  lemma ChooseGivesCorner(a: Rect, wanted: Wanted, f: Filter)
    requires a.Positive() && wanted.Sensible() && Choose(a, wanted, f).Some?
    ensures var r := Choose(a, wanted, f).value;
            && r.Positive() && a.Fits(r.w, r.h) && IsCorner(r, a) && f(r)
            && Suits(wanted, r) && r.Within(a)
            && (wanted.Area? ==> RectFor(wanted.area, a.w, a.h, wanted.ratio) == Fits(r.w, r.h))
  {
    match wanted
    case Size(width, height) => FindAcceptableExact(a, width, height, f);
    case Area(area, ratio) =>
      RectForFits(area, a.w, a.h, ratio);
      RectForRatio(area, a.w, a.h, ratio);
      RectForNoLarger(area, a.w, a.h, ratio);
      var size := RectFor(area, a.w, a.h, ratio);
      FindAcceptableExact(a, size.width, size.height, f);
  }

  /**
   * The rectangle is of the size wanted, or of at least the area, no larger than need be, and short of the ratio by less
   * than one unit.
   */
  predicate Suits(wanted: Wanted, r: Rect) {
    match wanted
    case Size(width, height) => r.w == width && r.h == height
    case Area(area, ratio) =>
      && r.w >= 1 && r.h >= 1 && ratio >= 0.0 && r.w * r.h >= area && NoLarger(r.w, r.h, area)
      && Proportionate(Longer(r.w, r.h), Shorter(r.w, r.h), Landscape(ratio))
  }

  /** An allocation marks one rectangle, cut from the corner of a free leaf and accepted by the filter, and nothing else. */
  lemma {:induction false} AllocGrants(t: Tree, wanted: Wanted, f: Filter)
    requires WellFormed(t) && wanted.Sensible() && Alloc(t, wanted, f).Granted?
    ensures var g := Alloc(t, wanted, f);
            && Allocates(t, g.tree, g.rect) && f(g.rect) && Suits(wanted, g.rect)
            && exists a :: a in Spare(t) && Choose(a, wanted, f) == Some(g.rect) && IsCorner(g.rect, a) && g.rect.Within(a)
    decreases t
  {
    match t
    case Leaf(a, taken) =>
      ChooseGivesCorner(a, wanted, f);
      CarveAllocates(a, Choose(a, wanted, f).value);
    case Node(a, first, second) =>
      var g := Alloc(t, wanted, f);
      if Alloc(first, wanted, f).Granted? && (SecondFirst(first, second) ==> Alloc(second, wanted, f).Refused?) {
        AllocGrants(first, wanted, f);
        FirstAllocates(t, Alloc(first, wanted, f).tree, g.rect);
      } else {
        AllocGrants(second, wanted, f);
        SecondAllocates(t, Alloc(second, wanted, f).tree, g.rect);
      }
  }

  lemma RoomShrinks(a: Rect, b: Rect, wanted: Wanted)
    requires b.Positive() && b.Within(a) && RoomFor(b, wanted)
    ensures RoomFor(a, wanted)
  {
    if wanted.Area? {
      MulMonotone(b.w, a.w, b.h);
      MulMonotone(b.h, a.h, a.w);
    }
  }

  // ----- which rectangle an allocation takes

  /** Of the accepted corners of a free leaf, the leftmost is taken, and of those the lowest. */
  lemma LowestLeftmost(a: Rect, width: int, height: int, f: Filter, q: Rect)
    requires a.Fits(width, height) && FindAcceptable(a, width, height, f).Some?
    requires q.w == width && q.h == height && IsCorner(q, a) && f(q)
    ensures var r := FindAcceptable(a, width, height, f).value; r.x < q.x || (r.x == q.x && r.y <= q.y)
  {
    var corners := Corners(a, width, height);
    assert q in corners by {
      assert q == corners[0] || q == corners[1] || q == corners[2] || q == corners[3];
    }
    FirstOfFour(corners, f);
  }

  lemma FirstOfFour(c: seq<Rect>, f: Filter)
    requires |c| == 4
    ensures FirstAccepted(c, f) ==
      if f(c[0]) then Some(c[0]) else if f(c[1]) then Some(c[1]) else if f(c[2]) then Some(c[2])
      else if f(c[3]) then Some(c[3]) else None
  {
    assert c[1..][1..] == c[2..] && c[2..][1..] == c[3..] && c[3..][1..] == [];
    assert FirstAccepted(c[3..], f) == if f(c[3]) then Some(c[3]) else None;
    assert FirstAccepted(c[2..], f) == if f(c[2]) then Some(c[2]) else FirstAccepted(c[3..], f);
  }

  /**
   * Small spaces are used first: of the two parts of a node that could both serve, the one of smaller area does, and the
   * first if they are equal.
   */
  lemma SmallerPartServes(t: Tree, wanted: Wanted, f: Filter)
    requires t.Node? && WellFormed(t) && wanted.Sensible()
    requires Alloc(t.first, wanted, f).Granted? && Alloc(t.second, wanted, f).Granted?
    ensures var g := Alloc(t, wanted, f); var a, b := t.first.area, t.second.area;
            g.Granted? && g.rect.Within(if b.w * b.h < a.w * a.h then b else a)
  {
    AllocRefuses(t, wanted, f);
    AllocRefuses(t.first, wanted, f);
    AllocRefuses(t.second, wanted, f);
    AllocGrants(t.first, wanted, f);
    AllocGrants(t.second, wanted, f);
  }

  // ----- the free space an allocation leaves

  /** The strip of full height beside the corner r of a, and the strip of full width above or below it. */
  function Beside(a: Rect, r: Rect): Rect {
    Rect(if r.x == a.x then r.x + r.w else a.x, a.y, a.w - r.w, a.h)
  }

  function Beyond(a: Rect, r: Rect): Rect {
    Rect(a.x, if r.y == a.y then r.y + r.h else a.y, a.w, a.h - r.h)
  }

  /** The deeper of the two strips, beside the corner if they are equal, and the rest of the other. */
  function Strip(a: Rect, r: Rect): Rect {
    if a.w - r.w >= a.h - r.h then Beside(a, r) else Beyond(a, r)
  }

  function Piece(a: Rect, r: Rect): Rect {
    if a.w - r.w >= a.h - r.h then Rect(r.x, Beyond(a, r).y, r.w, a.h - r.h) else Rect(Beside(a, r).x, r.y, a.w - r.w, r.h)
  }

  /** The free leaves left of a once its corner r is taken: these two, as far as they are not empty. */
  function Remains(a: Rect, r: Rect): set<Rect> {
    set q | q in {Strip(a, r), Piece(a, r)} && q.Positive()
  }

  lemma CarveLeaves(a: Rect, r: Rect)
    requires a.Positive() && r.Positive() && a.Fits(r.w, r.h) && IsCorner(r, a)
    ensures Spare(Carve(a, r)) == Remains(a, r)
  {
    var dw, dh := a.w - r.w, a.h - r.h;
    if dh > dw {
      assert Spare(CarveStrip(Rect(a.x, r.y, a.w, r.h), r)) == if dw > 0 then {Piece(a, r)} else {};
      assert Spare(Carve(a, r)) == {Strip(a, r)} + Spare(CarveStrip(Rect(a.x, r.y, a.w, r.h), r));
    } else if dw > 0 {
      assert Spare(CarveStrip(Rect(r.x, a.y, r.w, a.h), r)) == if dh > 0 then {Piece(a, r)} else {};
      assert Spare(Carve(a, r)) == {Strip(a, r)} + Spare(CarveStrip(Rect(r.x, a.y, r.w, a.h), r));
    }
  }

  /**
   * An allocation in a free leaf leaves of it the deeper of the strips beside and above or below it as one free leaf, and
   * at most one other; all other free leaves stay.
   */
  lemma {:induction false} AllocLeaves(t: Tree, wanted: Wanted, f: Filter) returns (a: Rect)
    requires WellFormed(t) && wanted.Sensible() && Alloc(t, wanted, f).Granted?
    ensures var g := Alloc(t, wanted, f);
            && a in Spare(t) && Choose(a, wanted, f) == Some(g.rect)
            && g.rect.Positive() && IsCorner(g.rect, a) && g.rect.Within(a)
            && Spare(g.tree) == (Spare(t) - {a}) + Remains(a, g.rect)
    decreases t
  {
    match t
    case Leaf(area, taken) =>
      a := area;
      ChooseGivesCorner(a, wanted, f);
      CarveLeaves(a, Choose(a, wanted, f).value);
    case Node(_, first, second) =>
      if Alloc(first, wanted, f).Granted? && (SecondFirst(first, second) ==> Alloc(second, wanted, f).Refused?) {
        a := AllocLeaves(first, wanted, f);
        NotInBoth(t, a);
      } else {
        a := AllocLeaves(second, wanted, f);
        NotInBoth(t, a);
      }
  }

  lemma NotInBoth(t: Tree, a: Rect)
    requires t.Node? && WellFormed(t)
    ensures !(a in Spare(t.first) && a in Spare(t.second))
  {
    if a in Spare(t.first) && a in Spare(t.second) {
      LeavesInside(t.first, a);
      LeavesInside(t.second, a);
    }
  }

  /** What remains is the leaf without the corner: every point of it is in the strip, in the piece, or in the corner. */
  lemma RemainsExactly(a: Rect, r: Rect, px: int, py: int)
    requires a.Positive() && r.Positive() && r.Within(a) && IsCorner(r, a)
    ensures a.Has(px, py) <==> r.Has(px, py) || Strip(a, r).Has(px, py) || Piece(a, r).Has(px, py)
    ensures !(r.Has(px, py) && Strip(a, r).Has(px, py)) && !(r.Has(px, py) && Piece(a, r).Has(px, py))
    ensures !(Strip(a, r).Has(px, py) && Piece(a, r).Has(px, py))
  {
  }

  /** So on a 3 by 2 machine a 1 by 1 block leaves room for a 2 by 2 block. */
  lemma RoomForAnother()
    ensures var g := Alloc(Leaf(Rect(0, 0, 3, 2), false), Size(1, 1), AnyRect());
            && g == Granted(g.tree, Rect(0, 0, 1, 1)) && Rect(1, 0, 2, 2) in Spare(g.tree)
            && Alloc(g.tree, Size(2, 2), AnyRect()).Granted?
  {
    var t := Leaf(Rect(0, 0, 3, 2), false);
    FirstOfFour(Corners(t.area, 1, 1), AnyRect());
    var a := AllocLeaves(t, Size(1, 1), AnyRect());
    AllocGrants(t, Size(1, 1), AnyRect());
    UnfilteredSucceeds(Alloc(t, Size(1, 1), AnyRect()).tree, Size(2, 2));
  }

  /** An allocation is refused exactly when no free leaf, anywhere in the tree, has an acceptable corner. */
  lemma {:induction false} AllocRefuses(t: Tree, wanted: Wanted, f: Filter)
    requires WellFormed(t)
    ensures Alloc(t, wanted, f).Refused? <==> forall a :: a in Spare(t) ==> Choose(a, wanted, f).None?
    decreases t
  {
    if t.Node? {
      AllocRefuses(t.first, wanted, f);
      AllocRefuses(t.second, wanted, f);
      if !RoomFor(t.area, wanted) {
        forall a | a in Spare(t)
          ensures Choose(a, wanted, f).None?
        {
          LeavesInside(t, a);
          if RoomFor(a, wanted) {
            RoomShrinks(t.area, a, wanted);
          }
        }
      }
    }
  }

  function AnyRect(): Filter {
    r => true
  }

  /**
   * Without a filter, and with no ratio to respect, an allocation succeeds exactly when some free leaf is large
   * enough: wide and high enough for a given size, or merely of at least the given area.
   */
  lemma UnfilteredSucceeds(t: Tree, wanted: Wanted)
    requires WellFormed(t) && wanted.Sensible() && (wanted.Area? ==> wanted.ratio == 0.0)
    ensures Alloc(t, wanted, AnyRect()).Granted? <==> exists a :: a in Spare(t) && RoomFor(a, wanted)
  {
    AllocRefuses(t, wanted, AnyRect());
    forall a | a in Spare(t)
      ensures Choose(a, wanted, AnyRect()).Some? <==> RoomFor(a, wanted)
    {
      LeavesInside(t, a);
      if wanted.Area? && RoomFor(a, wanted) {
        RectForAnyShape(wanted.area, a.w, a.h);
      }
    }
  }

  /** Freeing succeeds exactly when an allocated leaf has its corner there, and frees that leaf alone. */
  lemma {:induction false} FreeExact(t: Tree, x: int, y: int)
    requires WellFormed(t)
    ensures FreeAt(t, x, y).Some? <==> exists r :: r in Busy(t) && r.x == x && r.y == y
    ensures FreeAt(t, x, y).Some? ==>
              var s := FreeAt(t, x, y).value;
              && WellFormed(s) && s.area == t.area && (Canonical(t) ==> Canonical(s))
              && Busy(s) == set r | r in Busy(t) && !(r.x == x && r.y == y)
    decreases t
  {
    if t.Node? {
      FreeExact(t.first, x, y);
      FreeExact(t.second, x, y);
      forall r | r in Busy(t)
        ensures r.x == x && r.y == y ==> (r in Busy(t.first) <==> t.first.area.Has(x, y))
      {
        if r in Busy(t.first) {
          LeavesInside(t.first, r);
        }
        if r in Busy(t.second) {
          LeavesInside(t.second, r);
        }
      }
    }
  }

  /** A canonical tree with nothing allocated is a single free leaf. */
  lemma {:induction false} EmptyCollapses(t: Tree)
    requires Canonical(t) && Busy(t) == {}
    ensures t == Leaf(t.area, false)
  {
    if t.Node? {
      EmptyCollapses(t.first);
      EmptyCollapses(t.second);
    }
  }

  function Cell(x: int, y: int): Rect {
    Rect(x, y, 1, 1)
  }

  /** A request inside a free rectangle is always met, and undone by freeing the cell. */
  lemma {:induction false} RequestInFree(a: Rect, x: int, y: int)
    requires a.Positive() && a.Has(x, y)
    ensures Request(Leaf(a, false), x, y).Some?
    ensures Allocates(Leaf(a, false), Request(Leaf(a, false), x, y).value, Cell(x, y))
    decreases a.w + a.h
  {
    if a.w == 1 && a.h == 1 {
      assert a == Cell(x, y);
    } else {
      SplitBesideShape(a, x, y);
      var t := SplitBeside(a, x, y);
      if t.first.area.Has(x, y) {
        RequestInFree(t.first.area, x, y);
        assert Request(t, x, y) == Some(Node(a, Request(t.first, x, y).value, t.second));
        FirstAllocatesFresh(t, Request(t.first, x, y).value, Cell(x, y));
      } else {
        RequestInFree(t.second.area, x, y);
        assert Request(t.first, x, y).None?;
        assert Request(t, x, y) == Some(Node(a, t.first, Request(t.second, x, y).value));
        SecondAllocatesFresh(t, Request(t.second, x, y).value, Cell(x, y));
      }
    }
  }

  /** Allocating in one half of a rectangle that was cut for the purpose. */
  lemma FirstAllocatesFresh(t: Tree, s: Tree, r: Rect)
    requires t.Node? && WellFormed(t) && IsFree(t.first) && IsFree(t.second)
    requires Allocates(t.first, s, r)
    ensures Allocates(Leaf(t.area, false), Node(t.area, s, t.second), r)
  {
  }

  lemma SecondAllocatesFresh(t: Tree, s: Tree, r: Rect)
    requires t.Node? && WellFormed(t) && IsFree(t.first) && IsFree(t.second)
    requires Allocates(t.second, s, r)
    ensures Allocates(Leaf(t.area, false), Node(t.area, t.first, s), r)
  {
  }

  /** A request is met exactly when the leaf holding the cell is free; it allocates that cell alone. */
  lemma {:induction false} RequestExact(t: Tree, x: int, y: int)
    requires WellFormed(t)
    ensures Request(t, x, y).Some? <==> t.area.Has(x, y) && LeafAt(t, x, y) in Spare(t)
    ensures Request(t, x, y).Some? ==> Allocates(t, Request(t, x, y).value, Cell(x, y))
    decreases t
  {
    if t.area.Has(x, y) {
      match t
      case Leaf(a, taken) =>
        if !taken {
          RequestInFree(a, x, y);
        }
      case Node(a, first, second) =>
        if first.area.Has(x, y) {
          RequestExact(first, x, y);
          RequestElsewhere(first, second, x, y);
          if Request(first, x, y).Some? {
            FirstAllocates(t, Request(first, x, y).value, Cell(x, y));
          }
        } else {
          RequestExact(second, x, y);
          RequestElsewhere(second, first, x, y);
          if Request(second, x, y).Some? {
            SecondAllocates(t, Request(second, x, y).value, Cell(x, y));
          }
        }
    }
  }

  /** The strips of a rectangle to the left and right of a cell, of full height, and above and below it, of full width. */
  function Strips(a: Rect, x: int, y: int): seq<Rect> {
    [Rect(a.x, a.y, x - a.x, a.h), Rect(x + 1, a.y, a.x + a.w - x - 1, a.h),
     Rect(a.x, y + 1, a.w, a.y + a.h - y - 1), Rect(a.x, a.y, a.w, y - a.y)]
  }

  /** How deep these strips are. */
  function Depths(a: Rect, x: int, y: int): seq<int> {
    [x - a.x, a.x + a.w - x - 1, a.y + a.h - y - 1, y - a.y]
  }

  /** The first of the deepest strips. */
  function Deepest(a: Rect, x: int, y: int): (k: nat)
    ensures k < 4
    ensures forall j :: 0 <= j < 4 ==> Depths(a, x, y)[j] <= Depths(a, x, y)[k]
    ensures forall j :: 0 <= j < k ==> Depths(a, x, y)[j] < Depths(a, x, y)[k]
  {
    var d := Depths(a, x, y);
    if d[1] <= d[0] && d[2] <= d[0] && d[3] <= d[0] then 0
    else if d[2] <= d[1] && d[3] <= d[1] then 1
    else if d[3] <= d[2] then 2
    else 3
  }

  /** The rectangle without strip k. */
  function Without(a: Rect, x: int, y: int, k: nat): Rect {
    if k == 0 then Rect(x, a.y, a.x + a.w - x, a.h)
    else if k == 1 then Rect(a.x, a.y, x + 1 - a.x, a.h)
    else if k == 2 then Rect(a.x, a.y, a.w, y + 1 - a.y)
    else Rect(a.x, y, a.w, a.y + a.h - y)
  }

  /** What a request for a cell leaves of a free rectangle: the deepest strip beside the cell, and then that of the rest. */
  function Offcuts(a: Rect, x: int, y: int): set<Rect>
    requires a.Positive() && a.Has(x, y)
    decreases a.w + a.h
  {
    if a.w == 1 && a.h == 1 then {}
    else
      var k := Deepest(a, x, y);
      assert Depths(a, x, y)[0] + Depths(a, x, y)[1] == a.w - 1 && Depths(a, x, y)[2] + Depths(a, x, y)[3] == a.h - 1;
      {Strips(a, x, y)[k]} + Offcuts(Without(a, x, y, k), x, y)
  }

  lemma SplitAtDeepest(a: Rect, x: int, y: int)
    requires a.Positive() && a.Has(x, y) && !(a.w == 1 && a.h == 1)
    ensures var k := Deepest(a, x, y); var t := SplitBeside(a, x, y);
            && Without(a, x, y, k).Positive() && Without(a, x, y, k).Has(x, y)
            && Without(a, x, y, k).w + Without(a, x, y, k).h < a.w + a.h
            && (t == Node(a, Leaf(Strips(a, x, y)[k], false), Leaf(Without(a, x, y, k), false))
                || t == Node(a, Leaf(Without(a, x, y, k), false), Leaf(Strips(a, x, y)[k], false)))
            && !Strips(a, x, y)[k].Has(x, y)
  {
    SplitBesideShape(a, x, y);
  }

  lemma {:induction false} RequestInLeafLeaves(a: Rect, x: int, y: int)
    requires a.Positive() && a.Has(x, y)
    ensures Request(Leaf(a, false), x, y).Some?
    ensures Spare(Request(Leaf(a, false), x, y).value) == Offcuts(a, x, y)
    decreases a.w + a.h
  {
    if !(a.w == 1 && a.h == 1) {
      SplitAtDeepest(a, x, y);
      SplitBesideShape(a, x, y);
      var t, rest := SplitBeside(a, x, y), Without(a, x, y, Deepest(a, x, y));
      RequestInLeafLeaves(rest, x, y);
      assert Request(Leaf(a, false), x, y) == Request(t, x, y);
      if t.first == Leaf(rest, false) {
        assert Request(t, x, y) == Some(Node(a, Request(t.first, x, y).value, t.second));
      } else {
        assert Request(t.first, x, y).None?;
        assert Request(t, x, y) == Some(Node(a, t.first, Request(t.second, x, y).value));
      }
    }
  }

  /** A request leaves of the free leaf that holds the cell the deepest strips beside the cell; all other free leaves stay. */
  lemma {:induction false} RequestLeaves(t: Tree, x: int, y: int)
    requires WellFormed(t) && Request(t, x, y).Some?
    ensures var a := LeafAt(t, x, y);
            && a in Spare(t) && a.Positive() && a.Has(x, y)
            && Spare(Request(t, x, y).value) == (Spare(t) - {a}) + Offcuts(a, x, y)
    decreases t
  {
    RequestExact(t, x, y);
    match t
    case Leaf(a, taken) => RequestInLeafLeaves(a, x, y);
    case Node(a, first, second) =>
      NotInBoth(t, LeafAt(t, x, y));
      if first.area.Has(x, y) {
        RequestElsewhere(first, second, x, y);
        RequestLeaves(first, x, y);
      } else {
        RequestElsewhere(second, first, x, y);
        RequestLeaves(second, x, y);
      }
  }

  /** A cell that has been requested cannot be requested again. */
  lemma RequestedOnce(t: Tree, x: int, y: int)
    requires WellFormed(t) && Request(t, x, y).Some?
    ensures WellFormed(Request(t, x, y).value) && Request(Request(t, x, y).value, x, y).None?
  {
    var t' := Request(t, x, y).value;
    RequestExact(t, x, y);
    RequestExact(t', x, y);
    LeavesPartition(t', x, y);
    if t'.area.Has(x, y) {
      LeafAtHolds(t', x, y);
      assert Cell(x, y).Has(x, y);
    }
  }

  /** The sibling of the child that holds a cell plays no part in its request. */
  lemma RequestElsewhere(t: Tree, sibling: Tree, x: int, y: int)
    requires WellFormed(t) && WellFormed(sibling) && t.area.Has(x, y) && !sibling.area.Has(x, y)
    ensures Request(sibling, x, y).None?
    ensures LeafAt(t, x, y) !in Leaves(sibling)
  {
    LeafAtHolds(t, x, y);
    if LeafAt(t, x, y) in Leaves(sibling) {
      LeavesInside(sibling, LeafAt(t, x, y));
    }
  }

  /**
   * Exact undo: freeing what alloc or request has just allocated restores the identical tree.
   */
  lemma {:induction false} AllocThenFree(t: Tree, wanted: Wanted, f: Filter)
    requires WellFormed(t) && Canonical(t) && wanted.Sensible() && Alloc(t, wanted, f).Granted?
    ensures var g := Alloc(t, wanted, f); FreeAt(g.tree, g.rect.x, g.rect.y) == Some(t)
  {
    AllocGrants(t, wanted, f);
  }

  lemma {:induction false} RequestThenFree(t: Tree, x: int, y: int)
    requires WellFormed(t) && Canonical(t) && Request(t, x, y).Some?
    ensures FreeAt(Request(t, x, y).value, x, y) == Some(t)
  {
    RequestExact(t, x, y);
  }

  /** Free a list of corners, one after another. */
  function FreeAll(t: Tree, corners: seq<(int, int)>): Option<Tree>
    decreases |corners|
  {
    if corners == [] then Some(t)
    else
      match FreeAt(t, corners[0].0, corners[0].1)
      case None => None
      case Some(s) => FreeAll(s, corners[1..])
  }

  /** Freeing every allocated leaf, each once and in any order, leaves a single free leaf. */
  lemma {:induction false} FreeAllCollapses(t: Tree, corners: seq<(int, int)>)
    requires WellFormed(t) && Canonical(t)
    requires forall i, j :: 0 <= i < j < |corners| ==> corners[i] != corners[j]
    requires (set r | r in Busy(t) :: (r.x, r.y)) == set c | c in corners
    ensures FreeAll(t, corners) == Some(Leaf(t.area, false))
    decreases |corners|
  {
    var marks := set r | r in Busy(t) :: (r.x, r.y);
    if corners == [] {
      assert forall r :: r in Busy(t) ==> (r.x, r.y) in marks;
      EmptyCollapses(t);
    } else {
      var c := corners[0];
      assert c in marks;
      FreeExact(t, c.0, c.1);
      var s := FreeAt(t, c.0, c.1).value;
      var rest := corners[1..];
      var left := set r | r in Busy(s) :: (r.x, r.y);
      forall d: (int, int)
        ensures d in left <==> d in rest
      {
        if d in left {
          assert d in marks && d != c;
        }
        if d in rest {
          var k :| 0 <= k < |rest| && rest[k] == d;
          assert corners[k + 1] == d && d != c;
          assert d in marks;
          var r :| r in Busy(t) && (r.x, r.y) == d;
          assert r in Busy(s);
        }
      }
      FreeAllCollapses(s, rest);
    }
  }
}
