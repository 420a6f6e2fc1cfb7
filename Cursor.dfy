/**
 * The custom cursor: the pointer coordinates, a neon trail of the most
 * recent pointer positions capped at twelve, the hover classification of the
 * element under the pointer, and the pressed flag.
 */
module Cursor {
  import opened Wrappers
  import opened Text

  const TrailCap: nat := 12

  /** A trail point; `id` comes from a counter bumped on every append. */
  datatype Point = Point(x: int, y: int, id: nat)

  /** One append: the new point goes last and, past the cap, the oldest is shifted out. */
  function Pushed(trail: seq<Point>, p: Point): (r: seq<Point>)
    ensures |r| > 0 && r[|r| - 1] == p
    ensures |trail| < TrailCap ==> r == trail + [p]
    ensures |trail| >= TrailCap ==> r == trail[1..] + [p]
    ensures |trail| <= TrailCap ==> |r| <= TrailCap
  {
    var t := trail + [p];
    if |t| > TrailCap then t[1..] else t
  }

  predicate IdsIncreasing(trail: seq<Point>) {
    forall i, j :: 0 <= i < j < |trail| ==> trail[i].id < trail[j].id
  }

  predicate IdsBelow(trail: seq<Point>, counter: nat) {
    forall i :: 0 <= i < |trail| ==> trail[i].id < counter
  }

  /** An append with the next counter value keeps the ids strictly increasing and below the bumped counter. */
  lemma PushedKeepsIdsIncreasing(trail: seq<Point>, x: int, y: int, counter: nat)
    requires IdsIncreasing(trail) && IdsBelow(trail, counter)
    ensures IdsIncreasing(Pushed(trail, Point(x, y, counter)))
    ensures IdsBelow(Pushed(trail, Point(x, y, counter)), counter + 1)
  {
  }

  /** The last `n` elements of `s`, or all of them when there are fewer. */
  function LastN<T>(s: seq<T>, n: nat): (r: seq<T>)
    ensures |r| == if |s| <= n then |s| else n
    ensures r == s[|s| - |r|..]
  {
    if |s| <= n then s else s[|s| - n..]
  }

  /** The points the moves `ms` append, numbered from `counter` on. */
  function Stamped(ms: seq<(int, int)>, counter: nat): (r: seq<Point>)
    ensures |r| == |ms|
    ensures forall i :: 0 <= i < |ms| ==> r[i] == Point(ms[i].0, ms[i].1, counter + i)
  {
    seq(|ms|, i requires 0 <= i < |ms| => Point(ms[i].0, ms[i].1, counter + i))
  }

  /** The trail and counter after the pointer moved through `ms` with the trail active. */
  function Moves(trail: seq<Point>, counter: nat, ms: seq<(int, int)>): (seq<Point>, nat)
    decreases |ms|
  {
    if ms == [] then (trail, counter)
    else Moves(Pushed(trail, Point(ms[0].0, ms[0].1, counter)), counter + 1, ms[1..])
  }

  /** Keeping the last `n` before or after one more append gives the same last `n`. */
  lemma LastNPushed(s: seq<Point>, p: Point)
    ensures Pushed(LastN(s, TrailCap), p) == LastN(s + [p], TrailCap)
  {
    var t := LastN(s, TrailCap);
    if |s| > TrailCap {
      assert t[1..] + [p] == (s + [p])[|s + [p]| - TrailCap..];
    }
  }

  lemma AppendAssoc<T>(a: seq<T>, b: seq<T>, c: seq<T>)
    ensures a + (b + c) == (a + b) + c
  {
  }

  lemma StampedCons(ms: seq<(int, int)>, counter: nat)
    requires ms != []
    ensures Stamped(ms, counter) == [Point(ms[0].0, ms[0].1, counter)] + Stamped(ms[1..], counter + 1)
  {
  }

  /**
   * From a trail that is the last twelve points of a history `h`, any run of
   * moves leaves the last twelve points of `h` followed by the new points,
   * oldest first, and advances the counter once per move.
   */
  lemma {:induction false} MovesKeepMostRecent(h: seq<Point>, counter: nat, ms: seq<(int, int)>)
    ensures Moves(LastN(h, TrailCap), counter, ms).0 == LastN(h + Stamped(ms, counter), TrailCap)
    ensures Moves(LastN(h, TrailCap), counter, ms).1 == counter + |ms|
    decreases |ms|
  {
    if ms == [] {
      assert h + Stamped(ms, counter) == h;
    } else {
      var p := Point(ms[0].0, ms[0].1, counter);
      var rest := Stamped(ms[1..], counter + 1);
      var m := Moves(LastN(h, TrailCap), counter, ms);
      assert m == Moves(Pushed(LastN(h, TrailCap), p), counter + 1, ms[1..]);
      LastNPushed(h, p);
      assert m == Moves(LastN(h + [p], TrailCap), counter + 1, ms[1..]);
      MovesKeepMostRecent(h + [p], counter + 1, ms[1..]);
      assert m.0 == LastN((h + [p]) + rest, TrailCap);
      StampedCons(ms, counter);
      AppendAssoc(h, [p], rest);
    }
  }

  /** In particular, from the empty trail the trail is the last twelve of all points ever appended. */
  lemma TrailIsMostRecentPoints(ms: seq<(int, int)>)
    ensures Moves([], 0, ms).0 == LastN(Stamped(ms, 0), TrailCap)
  {
    MovesKeepMostRecent([], 0, ms);
    assert [] + Stamped(ms, 0) == Stamped(ms, 0);
  }

  /** An element under the pointer: its tag name and its classes. */
  datatype Element = Element(tagName: string, classes: set<string>)

  /** The three selectors the hover classification uses: `.cursor-pointer`, `button`, `a`. */
  datatype Selector = ClassSel(name: string) | TagSel(name: string)

  /** Selector matching; type selectors ignore ASCII case, as in HTML documents. */
  predicate Matches(e: Element, sel: Selector) {
    match sel
    case ClassSel(name) => name in e.classes
    case TagSel(name) => Lower(e.tagName) == name
  }

  /**
   * `target.closest(sel)` over `path`, the target followed by its ancestors:
   * the position of the first element that matches, if any.
   */
  function Closest(path: seq<Element>, sel: Selector): (r: Option<nat>)
    ensures r.Some? ==> r.value < |path| && Matches(path[r.value], sel)
    ensures r.Some? ==> forall j :: 0 <= j < r.value ==> !Matches(path[j], sel)
    ensures r.None? ==> forall j :: 0 <= j < |path| ==> !Matches(path[j], sel)
    decreases |path|
  {
    if path == [] then None
    else if Matches(path[0], sel) then Some(0)
    else
      match Closest(path[1..], sel)
      case None => None
      case Some(k) => Some(k + 1)
  }

  const PointerSel: Selector := ClassSel("cursor-pointer")
  const ButtonSel: Selector := TagSel("button")
  const LinkSel: Selector := TagSel("a")

  /**
   * The `isHoverable` expression of the mouse-over handler: a target that is
   * itself a button, a link or marked `.cursor-pointer` is hoverable, and so
   * is one inside such an element (the full statement is `HoverableIff`).
   */
  predicate Hoverable(path: seq<Element>)
    requires |path| > 0
    ensures Matches(path[0], PointerSel) || Matches(path[0], ButtonSel) || Matches(path[0], LinkSel) ==> Hoverable(path)
    ensures (exists k :: 0 <= k < |path| && Matches(path[k], PointerSel)) ==> Hoverable(path)
  {
    || Lower(path[0].tagName) == "button"
    || Lower(path[0].tagName) == "a"
    || Closest(path, PointerSel).Some?
    || Closest(path, ButtonSel).Some?
    || Closest(path, LinkSel).Some?
  }

  /** Hovered iff the target or one of its ancestors is a button, a link or marked `.cursor-pointer`. */
  lemma HoverableIff(path: seq<Element>)
    requires |path| > 0
    ensures Hoverable(path) <==>
      exists k :: 0 <= k < |path| && (Matches(path[k], PointerSel) || Matches(path[k], ButtonSel) || Matches(path[k], LinkSel))
  {
    if Hoverable(path) {
      if Lower(path[0].tagName) == "button" {
        assert Matches(path[0], ButtonSel);
      } else if Lower(path[0].tagName) == "a" {
        assert Matches(path[0], LinkSel);
      } else if Closest(path, PointerSel).Some? {
        assert Matches(path[Closest(path, PointerSel).value], PointerSel);
      } else if Closest(path, ButtonSel).Some? {
        assert Matches(path[Closest(path, ButtonSel).value], ButtonSel);
      } else {
        assert Matches(path[Closest(path, LinkSel).value], LinkSel);
      }
    }
  }

  class CustomCursor {
    var cursorX: int
    var cursorY: int
    var trail: seq<Point>
    /** `trailIdCounter.current`. */
    var counter: nat
    var hovered: bool
    var clicked: bool

    predicate Valid()
      reads this
    {
      |trail| <= TrailCap && IdsIncreasing(trail) && IdsBelow(trail, counter)
    }

    constructor ()
      ensures Valid()
      ensures cursorX == -100 && cursorY == -100 && trail == [] && counter == 0 && !hovered && !clicked
    {
      cursorX, cursorY := -100, -100;
      trail := [];
      counter := 0;
      hovered, clicked := false, false;
    }

    /** `moveCursor`; `trailActive` is the `isTrailActive` prop. */
    method MouseMove(x: int, y: int, trailActive: bool)
      requires Valid()
      modifies this
      ensures Valid()
      ensures cursorX == x && cursorY == y && hovered == old(hovered) && clicked == old(clicked)
      ensures !trailActive ==> trail == old(trail) && counter == old(counter)
      ensures trailActive ==> trail == Pushed(old(trail), Point(x, y, old(counter))) && counter == old(counter) + 1
    {
      cursorX := x;
      cursorY := y;
      if trailActive {
        var newTrail := trail + [Point(x, y, counter)];
        counter := counter + 1;
        if |newTrail| > TrailCap {
          newTrail := newTrail[1..];
        }
        trail := newTrail;
      }
    }

    /** `handleMouseOver`; `path` is the event target followed by its ancestors. */
    method MouseOver(path: seq<Element>)
      requires |path| > 0
      modifies this
      ensures hovered == Hoverable(path)
      ensures cursorX == old(cursorX) && cursorY == old(cursorY) && trail == old(trail)
      ensures counter == old(counter) && clicked == old(clicked)
    {
      var tag := Lower(path[0].tagName);
      var isHoverable := tag == "button" || tag == "a" || Closest(path, PointerSel).Some?
        || Closest(path, ButtonSel).Some? || Closest(path, LinkSel).Some?;
      hovered := isHoverable;
    }

    method MouseDown()
      modifies this
      ensures clicked && hovered == old(hovered) && trail == old(trail) && counter == old(counter)
      ensures cursorX == old(cursorX) && cursorY == old(cursorY)
    {
      clicked := true;
    }

    method MouseUp()
      modifies this
      ensures !clicked && hovered == old(hovered) && trail == old(trail) && counter == old(counter)
      ensures cursorX == old(cursorX) && cursorY == old(cursorY)
    {
      clicked := false;
    }
  }
}
