/**
 * The project carousel: a cyclic index over the three project cards, moved by
 * dragging the active card past a threshold, and the choice of which cards
 * are rendered around it.
 */
module Carousel {
  import opened Wrappers

  datatype Project = Project(title: string, tag: string, img: string, desc: string)

  const Projects: seq<Project> := [
    Project("Quantum Flux", "3D Experiment", "https://picsum.photos/800/600?random=1",
            "Physics driven particle system exploring entropy and flow."),
    Project("Zenith Core", "E-Commerce", "https://picsum.photos/800/600?random=2",
            "Ultra-high performance shopping experience for high-end gear."),
    Project("Obsidian UI", "Design System", "https://picsum.photos/800/600?random=3",
            "The architecture behind the dark aesthetic of the future.")
  ]

  /** Drag offsets at or beyond this distance move the carousel by one card. */
  const SwipeThreshold: real := 100.0

  /**
   * JavaScript's `a % n`: the remainder truncated toward zero, so it takes the
   * sign of `a`; on `[0, 2n)` it subtracts `n` at most once.
   */
  function JsRem(a: int, n: int): (r: int)
    requires n > 0
    ensures a >= 0 ==> 0 <= r < n
    ensures a < 0 ==> -n < r <= 0
    ensures 0 <= a < n ==> r == a
    ensures n <= a < 2 * n ==> r == a - n
  {
    if a >= 0 then ModSmall(a, n); a % n else -((-a) % n)
  }

  lemma ModSmall(a: int, n: int)
    requires 0 <= a && n > 0
    ensures a < n ==> a % n == a
    ensures n <= a < 2 * n ==> a % n == a - n
  {
    if a < n { assert a % n == a; }
    if n <= a < 2 * n { assert a % n == a - n; }
  }

  /** `(i + 1) % n`: the card after `i`, wrapping from the last card to the first. */
  function Next(i: int, n: int): (r: int)
    requires 0 <= i < n
    ensures 0 <= r < n
    ensures i < n - 1 ==> r == i + 1
    ensures i == n - 1 ==> r == 0
  {
    JsRem(i + 1, n)
  }

  /** `(i - 1 + n) % n`: the card before `i`, wrapping from the first card to the last. */
  function Prev(i: int, n: int): (r: int)
    requires 0 <= i < n
    ensures 0 <= r < n
    ensures i > 0 ==> r == i - 1
    ensures i == 0 ==> r == n - 1
  {
    JsRem(i - 1 + n, n)
  }

  /** Next and Prev undo each other. */
  lemma NextPrevInverse(i: int, n: int)
    requires 0 <= i < n
    ensures Prev(Next(i, n), n) == i
    ensures Next(Prev(i, n), n) == i
  {
  }

  /** The index after a drag of the active card ends at offset `x`. */
  function DragTarget(index: int, x: real, n: int): (r: int)
    requires 0 <= index < n
    ensures 0 <= r < n
    ensures x <= -SwipeThreshold ==> r == Next(index, n)
    ensures SwipeThreshold <= x ==> r == Prev(index, n)
    ensures -SwipeThreshold < x < SwipeThreshold ==> r == index
  {
    if x <= -SwipeThreshold then JsRem(index + 1, n)
    else if x >= SwipeThreshold then JsRem(index - 1 + n, n)
    else index
  }

  /** The part a card plays around the active index; Hidden cards are not rendered. */
  datatype Role = Active | NextCard | PrevCard | Hidden

  /** The expressions `isActive`, `isNext`, `isPrev`, checked in that order. */
  function RoleOf(i: int, index: int, n: int): (r: Role)
    requires 0 <= index < n
    ensures r == Active <==> i == index
    ensures r == NextCard <==> i != index && i == Next(index, n)
    ensures r == PrevCard <==> i != index && i != Next(index, n) && i == Prev(index, n)
  {
    if i == index then Active
    else if i == JsRem(index + 1, n) then NextCard
    else if i == JsRem(index - 1 + n, n) then PrevCard
    else Hidden
  }

  /** The card is drawn at all: the active card always is, and only cards of the carousel are. */
  predicate Rendered(i: int, index: int, n: int)
    requires 0 <= index < n
    ensures i == index ==> Rendered(i, index, n)
    ensures Rendered(i, index, n) ==> 0 <= i < n
  {
    RoleOf(i, index, n) != Hidden
  }

  /** A card is rendered iff it is the active one or a single step away from it. */
  lemma RenderedIff(i: int, index: int, n: int)
    requires 0 <= index < n
    ensures Rendered(i, index, n) <==> i == index || i == Next(index, n) || i == Prev(index, n)
  {
  }

  /** With at least three cards the active, next and previous cards are three different cards. */
  lemma RolesDistinct(index: int, n: int)
    requires 3 <= n && 0 <= index < n
    ensures index != Next(index, n) && index != Prev(index, n) && Next(index, n) != Prev(index, n)
    ensures RoleOf(Next(index, n), index, n) == NextCard
    ensures RoleOf(Prev(index, n), index, n) == PrevCard
  {
  }

  /** With exactly three cards every card is rendered, each in a role of its own. */
  lemma ThreeCardsAllRendered(index: int)
    requires 0 <= index < |Projects|
    ensures forall i :: 0 <= i < |Projects| ==> Rendered(i, index, |Projects|)
    ensures forall i, j :: 0 <= i < j < |Projects| ==> RoleOf(i, index, |Projects|) != RoleOf(j, index, |Projects|)
  {
    RolesDistinct(index, |Projects|);
  }

  class ProjectCarousel {
    var index: int
    /** The `dragX` motion value bound to the active card's horizontal offset. */
    var dragX: real

    predicate Valid()
      reads this
    {
      0 <= index < |Projects|
    }

    constructor ()
      ensures Valid() && index == 0 && dragX == 0.0
    {
      index := 0;
      dragX := 0.0;
    }

    /** The drag gesture on the active card moves the `dragX` motion value. */
    method Drag(x: real)
      modifies this
      ensures index == old(index) && dragX == x
    {
      dragX := x;
    }

    /**
     * `onDragEnd` for `card`. In zero-gravity any rendered card can be dragged
     * and dropping it on the portal (`inPortal`, the distance test) hands it
     * out; otherwise only the active card is draggable, it moves the index by
     * the drag offset and the offset springs back to 0.
     */
    method DragEnd(zeroGravity: bool, inPortal: bool, card: int) returns (dropped: Option<Project>)
      requires Valid()
      requires 0 <= card < |Projects| && Rendered(card, index, |Projects|)
      requires !zeroGravity ==> card == index
      modifies this
      ensures Valid()
      ensures zeroGravity ==> index == old(index) && dragX == old(dragX)
      ensures zeroGravity ==> dropped == if inPortal then Some(Projects[card]) else None
      ensures !zeroGravity ==> dropped == None && dragX == 0.0
      ensures !zeroGravity ==> index == DragTarget(old(index), old(dragX), |Projects|)
    {
      if zeroGravity {
        dropped := if inPortal then Some(Projects[card]) else None;
        return;
      }
      dropped := None;
      var x := dragX;
      if x <= -SwipeThreshold {
        index := JsRem(index + 1, |Projects|);
      } else if x >= SwipeThreshold {
        index := JsRem(index - 1 + |Projects|, |Projects|);
      }
      dragX := 0.0;
    }
  }
}
