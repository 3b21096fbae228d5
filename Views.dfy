/** Navigation between the views of the room: turning left or right follows
    the current view's neighbour links, zooming in pushes the current view on
    a stack and returning pops it. The visibility of the three navigation
    buttons is derived from the current view. Instantiating and destroying
    the view prefabs is not modelled. */
module Views {

  /** A view asset: its neighbours (which may form a cycle of walls) and
      whether it is a zoomed-in close-up. */
  class ViewData {
    var viewName: string
    var leftView: ViewData?
    var rightView: ViewData?
    var isZoomView: bool

    constructor (viewName: string, leftView: ViewData?, rightView: ViewData?, isZoomView: bool)
      ensures this.viewName == viewName && this.leftView == leftView
      ensures this.rightView == rightView && this.isZoomView == isZoomView
    {
      this.viewName := viewName;
      this.leftView := leftView;
      this.rightView := rightView;
      this.isZoomView := isZoomView;
    }
  }

  /** The navigation state: the current view (null before the first view is
      shown) and the zoom stack, whose top is its last element. */
  datatype Nav = Nav(current: ViewData?, stack: seq<ViewData>)

  /** Zooming in makes the target current and pushes the old current view
      exactly when there was one. */
  function ZoomedIn(n: Nav, v: ViewData?): (r: Nav)
    ensures r.current == v
    ensures n.current != null ==> r.stack == n.stack + [n.current]
    ensures n.current == null ==> r.stack == n.stack
  {
    Nav(v, if n.current != null then n.stack + [n.current] else n.stack)
  }

  /** Returning on an empty stack changes nothing; otherwise it pops exactly
      one view and makes it current. */
  function Returned(n: Nav): (r: Nav)
    ensures n.stack == [] ==> r == n
    ensures n.stack != [] ==> r.stack + [r.current] == n.stack && |r.stack| == |n.stack| - 1
  {
    if |n.stack| > 0 then Nav(n.stack[|n.stack| - 1], n.stack[..|n.stack| - 1]) else n
  }

  /** Turning right never touches the zoom stack, and moves only along an
      existing link. */
  function TurnedRight(n: Nav): (r: Nav)
    reads n.current
    ensures r.stack == n.stack
    ensures r != n ==> n.current != null && n.current.rightView != null && r.current == n.current.rightView
    ensures n.current != null && n.current.rightView != null ==> r.current == n.current.rightView
  {
    if n.current != null && n.current.rightView != null then Nav(n.current.rightView, n.stack) else n
  }

  /** Turning left never touches the zoom stack, and moves only along an
      existing link. */
  function TurnedLeft(n: Nav): (r: Nav)
    reads n.current
    ensures r.stack == n.stack
    ensures r != n ==> n.current != null && n.current.leftView != null && r.current == n.current.leftView
    ensures n.current != null && n.current.leftView != null ==> r.current == n.current.leftView
  {
    if n.current != null && n.current.leftView != null then Nav(n.current.leftView, n.stack) else n
  }

  /** Whether the left, right and back buttons are shown. */
  datatype Buttons = Buttons(left: bool, right: bool, back: bool)

  /** The visibility rules applied after every view change. */
  function ButtonsFor(v: ViewData?): (b: Buttons)
    reads v
    ensures b.back <==> v != null && v.isZoomView
    ensures b.left <==> v != null && !v.isZoomView && v.leftView != null
    ensures b.right <==> v != null && !v.isZoomView && v.rightView != null
  {
    var isZoomed := v != null && v.isZoomView;
    Buttons(!isZoomed && v != null && v.leftView != null,
            !isZoomed && v != null && v.rightView != null,
            isZoomed)
  }

  class ViewManager {
    var initialView: ViewData?
    var viewStack: seq<ViewData>
    var currentViewData: ViewData?
    var buttons: Buttons

    function State(): Nav
      reads this
    {
      Nav(currentViewData, viewStack)
    }

    constructor (initialView: ViewData?, buttons: Buttons)
      ensures this.initialView == initialView && this.buttons == buttons
      ensures State() == Nav(null, [])
    {
      this.initialView := initialView;
      this.buttons := buttons;
      viewStack := [];
      currentViewData := null;
    }

    method ShowView(viewData: ViewData?)
      modifies this
      ensures State() == Nav(viewData, old(viewStack))
      ensures buttons == ButtonsFor(viewData)
      ensures initialView == old(initialView)
    {
      currentViewData := viewData;
      UpdateUI();
    }

    method UpdateUI()
      modifies this
      ensures buttons == ButtonsFor(currentViewData)
      ensures State() == old(State()) && initialView == old(initialView)
    {
      var isZoomed := currentViewData != null && currentViewData.isZoomView;
      buttons := Buttons(!isZoomed && currentViewData != null && currentViewData.leftView != null,
                         !isZoomed && currentViewData != null && currentViewData.rightView != null,
                         isZoomed);
    }

    method Start()
      modifies this
      ensures initialView != null ==> State() == Nav(initialView, old(viewStack)) && buttons == ButtonsFor(initialView)
      ensures initialView == null ==> State() == old(State()) && buttons == old(buttons)
      ensures initialView == old(initialView)
    {
      if initialView != null {
        ShowView(initialView);
      }
    }

    method TurnRight()
      modifies this
      ensures State() == TurnedRight(old(State()))
      ensures buttons == if old(currentViewData) != null && old(currentViewData.rightView) != null
                         then ButtonsFor(currentViewData) else old(buttons)
      ensures initialView == old(initialView)
    {
      if currentViewData != null && currentViewData.rightView != null {
        ShowView(currentViewData.rightView);
      }
    }

    method TurnLeft()
      modifies this
      ensures State() == TurnedLeft(old(State()))
      ensures buttons == if old(currentViewData) != null && old(currentViewData.leftView) != null
                         then ButtonsFor(currentViewData) else old(buttons)
      ensures initialView == old(initialView)
    {
      if currentViewData != null && currentViewData.leftView != null {
        ShowView(currentViewData.leftView);
      }
    }

    method ZoomIn(viewData: ViewData?)
      modifies this
      ensures State() == ZoomedIn(old(State()), viewData)
      ensures buttons == ButtonsFor(viewData)
      ensures initialView == old(initialView)
    {
      if currentViewData != null {
        viewStack := viewStack + [currentViewData];
      }
      ShowView(viewData);
    }

    method Return()
      modifies this
      ensures State() == Returned(old(State()))
      ensures buttons == if |old(viewStack)| > 0 then ButtonsFor(currentViewData) else old(buttons)
      ensures initialView == old(initialView)
    {
      if |viewStack| > 0 {
        var previousView := viewStack[|viewStack| - 1];
        viewStack := viewStack[..|viewStack| - 1];
        ShowView(previousView);
      }
    }
  }

  /** Returning right after zooming in from a view restores that view and the stack. */
  lemma ReturnUndoesZoomIn(n: Nav, v: ViewData?)
    requires n.current != null
    ensures Returned(ZoomedIn(n, v)) == n
  {
  }

  /** Turning right then left comes back when the two views link to each other. */
  lemma TurnLeftUndoesTurnRight(n: Nav)
    requires n.current != null && n.current.rightView != null
    requires n.current.rightView.leftView == n.current
    ensures TurnedLeft(TurnedRight(n)) == n
  {
  }

  /** A view zoomed into after each of the views of vs, in order. */
  function ZoomAll(n: Nav, vs: seq<ViewData>): (r: Nav)
    ensures vs == [] ==> r == n
    ensures vs != [] ==> r.current == vs[|vs| - 1]
    decreases |vs|
  {
    if vs == [] then n else ZoomedIn(ZoomAll(n, vs[..|vs| - 1]), vs[|vs| - 1])
  }

  function ReturnTimes(n: Nav, k: nat): Nav
    decreases k
  {
    if k == 0 then n else ReturnTimes(Returned(n), k - 1)
  }

  /** The zoom stack is last-in first-out: from a shown view, any number of
      zooms followed by as many returns comes back to the same view and stack. */
  lemma {:induction false} ReturnsUndoZooms(n: Nav, vs: seq<ViewData>)
    requires n.current != null
    ensures ReturnTimes(ZoomAll(n, vs), |vs|) == n
    decreases |vs|
  {
    if vs != [] {
      var init := vs[..|vs| - 1];
      var m := ZoomAll(n, init);
      assert m.current != null;
      ReturnUndoesZoomIn(m, vs[|vs| - 1]);
      ReturnsUndoZooms(n, init);
    }
  }

  /** The back button and the turn buttons are never shown together. */
  lemma BackExcludesTurns(v: ViewData?)
    ensures var b := ButtonsFor(v); !(b.back && (b.left || b.right))
  {
  }
}
