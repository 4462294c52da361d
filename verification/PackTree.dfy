/** The mutable packing tree; every operation is proved to do what PackTreeModel says of the tree's shape. */
module PackTreeClass {
  import opened Wrappers
  import opened AreaToRect
  import opened PackTreeModel
  import opened CandidateFilter

  class PackTree {
    const x: int
    const y: int
    const width: int
    const height: int

    // Has this region been allocated?
    var taken: bool

    // Either empty (a leaf) or the two children.
    var children: seq<PackTree>

    // The tree this object stands for, and the objects it is made of.
    ghost var shape: Tree
    ghost var Repr: set<object>

    function Area(): Rect {
      Rect(x, y, width, height)
    }

    ghost predicate Valid()
      reads this, Repr
      ensures Valid() ==> this in Repr && shape.area == Area() && (shape.Leaf? <==> children == [])
      decreases Repr
    {
      && this in Repr
      && (children == [] ==> shape == Leaf(Area(), taken) && Repr == {this})
      && (children != [] ==>
            && |children| == 2 && !taken
            && children[0] in Repr && children[1] in Repr
            && children[0].Repr < Repr && children[1].Repr < Repr
            && this !in children[0].Repr && this !in children[1].Repr
            && children[0].Repr !! children[1].Repr
            && children[0].Valid() && children[1].Valid()
            && Repr == {this} + children[0].Repr + children[1].Repr
            && shape == Node(Area(), children[0].shape, children[1].shape))
    }

    constructor (x: int, y: int, width: int, height: int)
      ensures Valid() && fresh(Repr)
      ensures shape == Leaf(Rect(x, y, width, height), false)
      ensures this.x == x && this.y == y && this.width == width && this.height == height
    {
      this.x, this.y, this.width, this.height := x, y, width, height;
      taken, children := false, [];
      shape := Leaf(Rect(x, y, width, height), false);
      Repr := {this};
    }

    predicate Contains(px: int, py: int) {
      x <= px < x + width && y <= py < y + height
    }

    /** Recompute the ghost fields of a node whose children have changed. */
    ghost method Rejoin()
      requires |children| == 2 && !taken
      requires children[0].Valid() && children[1].Valid()
      requires this !in children[0].Repr && this !in children[1].Repr && children[0].Repr !! children[1].Repr
      modifies this`shape, this`Repr
      ensures Valid() && shape == Node(Area(), children[0].shape, children[1].shape)
      ensures Repr == {this} + children[0].Repr + children[1].Repr
    {
      shape := Node(Area(), children[0].shape, children[1].shape);
      Repr := {this} + children[0].Repr + children[1].Repr;
    }

    method HSplit(cut: int)
      requires Valid() && IsFree(shape)
      modifies this
      ensures Valid() && fresh(Repr - {this})
      ensures shape == CutAcross(Area(), cut)
    {
      var below := new PackTree(x, y, width, cut - y);
      var above := new PackTree(x, cut, width, height - (cut - y));
      children := [below, above];
      Rejoin();
    }

    method VSplit(cut: int)
      requires Valid() && IsFree(shape)
      modifies this
      ensures Valid() && fresh(Repr - {this})
      ensures shape == CutDown(Area(), cut)
    {
      var left := new PackTree(x, y, cut - x, height);
      var right := new PackTree(cut, y, width - (cut - x), height);
      children := [left, right];
      Rejoin();
    }

    method Take()
      requires Valid() && IsFree(shape)
      modifies this
      ensures Valid() && shape == Leaf(Area(), true) && Repr == old(Repr)
    {
      taken := true;
      shape := Leaf(Area(), true);
    }

    method FindAcceptable(w: int, h: int, filter: CandidateFilter) returns (r: Option<Rect>)
      requires filter.Usable() && w >= 1 && h >= 1
      modifies filter
      ensures r == PackTreeModel.FindAcceptable(Area(), w, h, AsFilter(filter.kind))
      ensures r.Some? ==> filter.Describes(r.value)
      ensures r.None? ==> unchanged(filter)
    {
      var tried: set<Rect> := {};
      var corners := Corners(Area(), w, h);
      var i := 0;
      while i < |corners|
        invariant 0 <= i <= |corners|
        invariant unchanged(filter)
        invariant forall c :: c in tried ==> !AsFilter(filter.kind)(c)
        invariant FirstAccepted(corners, AsFilter(filter.kind)) == FirstAccepted(corners[i..], AsFilter(filter.kind))
      {
        var c := corners[i];
        if c !in tried {
          var ok := filter.Call(c);
          if ok {
            return Some(c);
          }
          tried := tried + {c};
        }
        assert corners[i..][1..] == corners[i + 1..];
        i := i + 1;
      }
      r := None;
    }

    /** Allocate a corner of this free leaf, which is already as wide or as high as wanted. */
    method AllocStrip(r: Rect)
      requires Valid() && IsFree(shape) && IsCorner(r, Area()) && (r.w == width || r.h == height)
      modifies this
      ensures Valid() && fresh(Repr - {this})
      ensures shape == CarveStrip(Area(), r)
    {
      if width != r.w {
        VSplit(if r.x != x then r.x else r.x + r.w);
        var grandchild := if r.x == x then children[0] else children[1];
        grandchild.Take();
        Rejoin();
      } else if height != r.h {
        HSplit(if r.y != y then r.y else r.y + r.h);
        var grandchild := if r.y == y then children[0] else children[1];
        grandchild.Take();
        Rejoin();
      } else {
        Take();
      }
    }

    /** Allocate a corner of this free leaf. */
    method AllocCorner(r: Rect)
      requires Valid() && IsFree(shape) && IsCorner(r, Area())
      modifies this
      ensures Valid() && fresh(Repr - {this})
      ensures shape == Carve(Area(), r)
    {
      if r.w == width && r.h == height {
        Take();
        return;
      }
      var dw := width - r.w;
      var dh := height - r.h;
      if dh > dw {
        AllocRows(r);
      } else {
        AllocColumns(r);
      }
    }

    method AllocRows(r: Rect)
      requires Valid() && IsFree(shape) && IsCorner(r, Area())
      modifies this
      ensures Valid() && fresh(Repr - {this})
      ensures shape == StripRows(Area(), r, CarveStrip(Rect(x, r.y, width, r.h), r))
    {
      HSplit(if r.y != y then r.y else r.y + r.h);
      var child := if r.y == y then children[0] else children[1];
      child.AllocStrip(r);
      Rejoin();
    }

    method AllocColumns(r: Rect)
      requires Valid() && IsFree(shape) && IsCorner(r, Area())
      modifies this
      ensures Valid() && fresh(Repr - {this})
      ensures shape == StripColumns(Area(), r, CarveStrip(Rect(r.x, y, r.w, height), r))
    {
      VSplit(if r.x != x then r.x else r.x + r.w);
      var child := if r.x == x then children[0] else children[1];
      child.AllocStrip(r);
      Rejoin();
    }

    /** The tree and the answer that an allocation should give. */
    static ghost predicate Answers(g: Grant, before: Tree, after: Tree, r: Option<Rect>) {
      match g
      case Refused => r == None && after == before
      case Granted(t, rect) => r == Some(rect) && after == t
    }

    method Alloc(w: int, h: int, filter: CandidateFilter) returns (r: Option<Rect>)
      requires Valid() && filter.Usable() && filter !in Repr && w >= 1 && h >= 1
      modifies Repr, filter
      ensures Valid() && fresh(Repr - old(Repr))
      ensures Answers(PackTreeModel.Alloc(old(shape), Size(w, h), AsFilter(filter.kind)), old(shape), shape, r)
      ensures if r.Some? then filter.Describes(r.value) else unchanged(filter)
      decreases shape, 3
    {
      if taken {
        return None;
      }
      if w > width || h > height {
        return None;
      }
      if children != [] {
        r := AllocInChildren(Size(w, h), filter);
        return;
      }
      r := FindAcceptable(w, h, filter);
      if r.None? {
        return;
      }
      FindAcceptableExact(Area(), w, h, AsFilter(filter.kind));
      AllocCorner(r.value);
    }

    method AllocArea(area: int, ratio: real, filter: CandidateFilter) returns (r: Option<Rect>)
      requires Valid() && filter.Usable() && filter !in Repr && area >= 1 && ratio >= 0.0
      modifies Repr, filter
      ensures Valid() && fresh(Repr - old(Repr))
      ensures Answers(PackTreeModel.Alloc(old(shape), Wanted.Area(area, ratio), AsFilter(filter.kind)), old(shape), shape, r)
      ensures if r.Some? then filter.Describes(r.value) else unchanged(filter)
      decreases shape, 3
    {
      if taken {
        return None;
      }
      if area > width * height {
        return None;
      }
      if children != [] {
        r := AllocInChildren(Wanted.Area(area, ratio), filter);
        return;
      }
      var size := AreaToRect.AreaToRect(area, width, height, ratio);
      if !size.Fits? {
        return None;
      }
      RectForFits(area, width, height, ratio);
      r := FindAcceptable(size.width, size.height, filter);
      if r.None? {
        return;
      }
      FindAcceptableExact(Area(), size.width, size.height, AsFilter(filter.kind));
      AllocCorner(r.value);
    }

    /** Try the smaller child first. */
    method AllocInChildren(wanted: Wanted, filter: CandidateFilter) returns (r: Option<Rect>)
      requires Valid() && shape.Node? && wanted.Sensible()
      requires filter.Usable() && filter !in Repr && RoomFor(Area(), wanted)
      modifies Repr, filter
      ensures Valid() && fresh(Repr - old(Repr))
      ensures Answers(PackTreeModel.Alloc(old(shape), wanted, AsFilter(filter.kind)), old(shape), shape, r)
      ensures if r.Some? then filter.Describes(r.value) else unchanged(filter)
      decreases shape, 2
    {
      var secondFirst := children[1].width * children[1].height < children[0].width * children[0].height;
      InTurn(shape, wanted, AsFilter(filter.kind));
      if secondFirst {
        r := AllocInSecond(wanted, filter);
        if r.None? {
          r := AllocInFirst(wanted, filter);
        }
      } else {
        r := AllocInFirst(wanted, filter);
        if r.None? {
          r := AllocInSecond(wanted, filter);
        }
      }
    }

    method AllocInFirst(wanted: Wanted, filter: CandidateFilter) returns (r: Option<Rect>)
      requires Valid() && shape.Node? && wanted.Sensible()
      requires filter.Usable() && filter !in Repr
      modifies Repr, filter
      ensures Valid() && fresh(Repr - old(Repr))
      ensures Answers(AllocIn(old(shape), 0, wanted, AsFilter(filter.kind)), old(shape), shape, r)
      ensures if r.Some? then filter.Describes(r.value) else unchanged(filter)
      decreases shape, 0
    {
      r := children[0].AllocWanted(wanted, filter);
      Rejoin();
    }

    method AllocInSecond(wanted: Wanted, filter: CandidateFilter) returns (r: Option<Rect>)
      requires Valid() && shape.Node? && wanted.Sensible()
      requires filter.Usable() && filter !in Repr
      modifies Repr, filter
      ensures Valid() && fresh(Repr - old(Repr))
      ensures Answers(AllocIn(old(shape), 1, wanted, AsFilter(filter.kind)), old(shape), shape, r)
      ensures if r.Some? then filter.Describes(r.value) else unchanged(filter)
      decreases shape, 0
    {
      r := children[1].AllocWanted(wanted, filter);
      Rejoin();
    }

    method AllocWanted(wanted: Wanted, filter: CandidateFilter) returns (r: Option<Rect>)
      requires Valid() && wanted.Sensible() && filter.Usable() && filter !in Repr
      modifies Repr, filter
      ensures Valid() && fresh(Repr - old(Repr))
      ensures Answers(PackTreeModel.Alloc(old(shape), wanted, AsFilter(filter.kind)), old(shape), shape, r)
      ensures if r.Some? then filter.Describes(r.value) else unchanged(filter)
      decreases shape, 4
    {
      match wanted
      case Size(w, h) => r := Alloc(w, h, filter);
      case Area(area, ratio) => r := AllocArea(area, ratio, filter);
    }

    static lemma InTurn(t: Tree, wanted: Wanted, f: Filter)
      requires t.Node? && RoomFor(t.area, wanted)
      ensures PackTreeModel.Alloc(t, wanted, f)
           == var k := if SecondFirst(t.first, t.second) then 1 else 0;
              if AllocIn(t, k, wanted, f).Granted? then AllocIn(t, k, wanted, f) else AllocIn(t, 1 - k, wanted, f)
    {
    }

    /** Allocating in one child of a node. */
    static ghost function AllocIn(t: Tree, k: nat, wanted: Wanted, f: Filter): Grant
      requires t.Node? && k < 2
    {
      match PackTreeModel.Alloc(if k == 0 then t.first else t.second, wanted, f)
      case Refused => Refused
      case Granted(s, r) => Granted(Replace(t, k, s), r)
    }

    /** Request one particular cell; None unless it is free. */
    method Request(px: int, py: int) returns (r: Option<(int, int)>)
      requires Valid() && WellFormed(shape)
      modifies Repr
      ensures Valid() && fresh(Repr - old(Repr))
      ensures match PackTreeModel.Request(old(shape), px, py)
              case None => r == None && shape == old(shape)
              case Some(t) => r == Some((px, py)) && shape == t
      decreases width + height, if children == [] then 1 else 0
    {
      if !Contains(px, py) {
        return None;
      }
      if children != [] {
        r := RequestInChild(0, px, py);
        if r.None? {
          r := RequestInChild(1, px, py);
        }
        return;
      }
      if taken {
        return None;
      }
      if width == 1 && height == 1 {
        Take();
        return Some((x, y));
      }
      SplitBesideCell(px, py);
      assert PackTreeModel.Request(old(shape), px, py) == PackTreeModel.Request(shape, px, py);
      RequestInFree(Area(), px, py);
      r := Request(px, py);
    }

    /** Divide this free leaf on the side of the cell where there is most room. */
    method SplitBesideCell(px: int, py: int)
      requires Valid() && WellFormed(shape) && IsFree(shape) && Contains(px, py) && !(width == 1 && height == 1)
      modifies this
      ensures Valid() && fresh(Repr - {this})
      ensures WellFormed(shape) && shape == SplitBeside(Area(), px, py)
    {
      SplitBesideShape(Area(), px, py);
      var left := px - x;
      var right := (x + width) - px - 1;
      var above := (y + height) - py - 1;
      var below := py - y;
      var largest := Max(Max(left, right), Max(above, below));
      if left == largest {
        VSplit(px);
      } else if right == largest {
        VSplit(px + 1);
      } else if above == largest {
        HSplit(py + 1);
      } else {
        HSplit(py);
      }
    }

    method RequestInChild(k: nat, px: int, py: int) returns (r: Option<(int, int)>)
      requires Valid() && WellFormed(shape) && shape.Node? && k < 2
      modifies Repr
      ensures Valid() && fresh(Repr - old(Repr))
      ensures match PackTreeModel.Request(if k == 0 then old(shape).first else old(shape).second, px, py)
              case None => r == None && shape == old(shape)
              case Some(t) => r == Some((px, py)) && shape == Replace(old(shape), k, t)
      decreases width + height, 0, 0
    {
      var child, sibling := children[k], children[1 - k];
      r := child.Request(px, py);
      assert sibling.Valid() && sibling.shape == old(sibling.shape) && sibling.Repr == old(sibling.Repr);
      Rejoin();
    }

    static function Replace(t: Tree, k: nat, child: Tree): Tree
      requires t.Node? && k < 2
    {
      if k == 0 then Node(t.area, child, t.second) else Node(t.area, t.first, child)
    }

    /** Free an earlier allocation; false stands for the error raised when there is none at this corner. */
    method Free(px: int, py: int) returns (ok: bool)
      requires Valid()
      modifies Repr
      ensures Valid() && fresh(Repr - old(Repr))
      ensures match FreeAt(old(shape), px, py)
              case None => !ok && shape == old(shape)
              case Some(t) => ok && shape == t
      decreases shape, 1
    {
      if children == [] && px == x && py == y {
        if !taken {
          return false;
        }
        taken := false;
        shape := Leaf(Area(), false);
        return true;
      }
      if children != [] {
        if children[0].Contains(px, py) {
          ok := FreeInChild(0, px, py);
          return;
        }
        if children[1].Contains(px, py) {
          ok := FreeInChild(1, px, py);
          return;
        }
      }
      ok := false;
    }

    /** Free in a child; if both children are then empty leaves, this node becomes a leaf again. */
    method FreeInChild(k: nat, px: int, py: int) returns (ok: bool)
      requires Valid() && shape.Node? && k < 2
      modifies Repr
      ensures Valid() && fresh(Repr - old(Repr))
      ensures match FreeAt(if k == 0 then old(shape).first else old(shape).second, px, py)
              case None => !ok && shape == old(shape)
              case Some(t) => ok && shape == MergeIfEmpty(Replace(old(shape), k, t))
      decreases shape, 0
    {
      var child, sibling := children[k], children[1 - k];
      ok := child.Free(px, py);
      assert sibling.Valid() && sibling.shape == old(sibling.shape) && sibling.Repr == old(sibling.Repr);
      Rejoin();
      if ok {
        DropEmptyChildren();
      }
    }

    static function MergeIfEmpty(t: Tree): Tree
      requires t.Node?
    {
      Merge(t.area, t.first, t.second)
    }

    method DropEmptyChildren()
      requires Valid() && shape.Node?
      modifies this
      ensures Valid() && Repr <= old(Repr)
      ensures shape == MergeIfEmpty(old(shape))
    {
      if !children[0].taken && children[0].children == [] && !children[1].taken && children[1].children == [] {
        children := [];
        shape := Leaf(Area(), false);
        Repr := {this};
      }
    }
  }
}
