/** Views and the navigation stack (src/view.rs). */
module Views {

  /** Where the user is in the hierarchy profile → project → target → service → schema.
      Each level carries exactly the identifiers needed to fetch it and the level below;
      the chosen profile lives in the session state, not in `Projects`. */
  datatype ViewType =
    | ProfileSelect
    | Projects
    | Targets(project: string)
    | Services(project: string, target: string)
    | Schema(project: string, target: string, service: string)
  {
    /** How deep below the root this level lies. */
    function Depth(): (d: nat)
      ensures d <= 4
      ensures d == 0 <==> ProfileSelect?
    {
      match this
      case ProfileSelect => 0
      case Projects => 1
      case Targets(_) => 2
      case Services(_, _) => 3
      case Schema(_, _, _) => 4
    }

    /** The views a user passes through, root first, to reach this one by descending one
        level at a time: every ancestor carries the identifiers this view carries. */
    function Path(): seq<ViewType> {
      match this
      case ProfileSelect => []
      case Projects => [ProfileSelect]
      case Targets(p) => [ProfileSelect, Projects]
      case Services(p, t) => [ProfileSelect, Projects, Targets(p)]
      case Schema(p, t, s) => [ProfileSelect, Projects, Targets(p), Services(p, t)]
    }

    /** The identifiers this view carries, outermost first. */
    function Identifiers(): (r: seq<string>)
      ensures |r| + 1 == Depth() || ProfileSelect?
    {
      match this
      case ProfileSelect => []
      case Projects => []
      case Targets(p) => [p]
      case Services(p, t) => [p, t]
      case Schema(p, t, s) => [p, t, s]
    }

    /** The view one level below this one that selecting `item` here leads to: the
        identifiers of this view are carried forward and `item` is added (the chosen
        profile is kept in the session state instead). */
    function Child(item: string): (c: ViewType)
      requires !Schema?
      ensures c.Depth() == Depth() + 1
      ensures c.Path() == Path() + [this]
      ensures ProfileSelect? ==> c == Projects
      ensures !ProfileSelect? ==> c.Identifiers() == Identifiers() + [item]
    {
      match this
      case ProfileSelect => Projects
      case Projects => Targets(item)
      case Targets(p) => Services(p, item)
      case Services(p, t) => Schema(p, t, item)
    }
  }

  /** The value held by a NavigationStack: the history, oldest first, and the current view. */
  datatype Nav = Nav(stack: seq<ViewType>, current: ViewType)
  {
    /** `can_go_back`: there is an earlier view to return to. */
    predicate CanGoBack() {
      stack != []
    }

    /** `push`: the current view goes on top of the history and `v` becomes current. */
    function Push(v: ViewType): (r: Nav)
      ensures |r.stack| == |stack| + 1
      ensures r.stack[..|stack|] == stack && r.stack[|stack|] == current
      ensures r.current == v
      ensures r.CanGoBack()
    {
      Nav(stack + [current], v)
    }

    /** `pop`: returns whether there was an earlier view, and the stack afterwards. */
    function Pop(): (r: (bool, Nav))
      ensures r.0 <==> CanGoBack()
      ensures !r.0 ==> r.1 == this
      ensures r.0 ==> (|r.1.stack| + 1 == |stack|
                       && r.1.stack == stack[..|stack| - 1]
                       && r.1.current == stack[|stack| - 1])
    {
      if stack == [] then (false, this)
      else (true, Nav(stack[..|stack| - 1], stack[|stack| - 1]))
    }
  }

  /** `NavigationStack::new`: at the root with no history. */
  function Root(): (n: Nav)
    ensures n.current == ProfileSelect && n.stack == []
    ensures !n.CanGoBack()
  {
    Nav([], ProfileSelect)
  }

  /** A push followed by a pop reports success and restores the stack exactly. */
  lemma PushThenPop(n: Nav, v: ViewType)
    ensures n.Push(v).Pop() == (true, n)
  {
    var pushed := n.Push(v);
    assert pushed.stack[..|pushed.stack| - 1] == n.stack;
  }

  /** With no history, pop fails and changes nothing, however often it is repeated. */
  lemma PopAtRootIsIdempotent(n: Nav)
    requires !n.CanGoBack()
    ensures n.Pop() == (false, n)
    ensures n.Pop().1.Pop() == n.Pop()
  {
  }

  /** Pushes `vs` in order. */
  function PushAll(n: Nav, vs: seq<ViewType>): Nav
    decreases |vs|
  {
    if vs == [] then n else PushAll(n.Push(vs[0]), vs[1..])
  }

  /** Pops `k` times, ignoring the results. */
  function PopTimes(n: Nav, k: nat): Nav {
    if k == 0 then n else PopTimes(n, k - 1).Pop().1
  }

  /** Pushing views one after another grows the history by exactly that many views, and the
      last one pushed is current. */
  lemma {:induction false} PushAllGrows(n: Nav, vs: seq<ViewType>)
    ensures |PushAll(n, vs).stack| == |n.stack| + |vs|
    ensures vs != [] ==> PushAll(n, vs).current == vs[|vs| - 1]
    decreases |vs|
  {
    if vs != [] {
      PushAllGrows(n.Push(vs[0]), vs[1..]);
      if |vs| > 1 {
        assert vs[1..][|vs[1..]| - 1] == vs[|vs| - 1];
      }
    }
  }

  /** After n pushes and n pops the stack is exactly what it was before the pushes: in
      particular `current` is back, and from the root `can_go_back` is false again. */
  lemma {:induction false} PushAllThenPopAll(n: Nav, vs: seq<ViewType>)
    ensures PopTimes(PushAll(n, vs), |vs|) == n
    ensures n == Root() ==> !PopTimes(PushAll(n, vs), |vs|).CanGoBack()
    decreases |vs|
  {
    if vs != [] {
      var m := n.Push(vs[0]);
      PushAllThenPopAll(m, vs[1..]);
      calc {
        PopTimes(PushAll(n, vs), |vs|);
        PopTimes(PushAll(m, vs[1..]), |vs[1..]|).Pop().1;
        m.Pop().1;
        { PushThenPop(n, vs[0]); }
        n;
      }
    }
  }

  /** The navigation stack the controller owns. The history is held in `stack`, private in
      the source and a plain field here so that contracts can speak about it. */
  class NavigationStack {
    var stack: seq<ViewType>
    var current: ViewType

    /** The value this object currently holds. */
    function Model(): Nav
      reads this
    {
      Nav(stack, current)
    }

    constructor ()
      ensures Model() == Root()
    {
      stack := [];
      current := ProfileSelect;
    }

    method Push(view: ViewType)
      modifies this
      ensures Model() == old(Model()).Push(view)
    {
      stack := stack + [current];
      current := view;
    }

    method Pop() returns (popped: bool)
      modifies this
      ensures (popped, Model()) == old(Model()).Pop()
    {
      if stack == [] {
        popped := false;
      } else {
        current := stack[|stack| - 1];
        stack := stack[..|stack| - 1];
        popped := true;
      }
    }

    function CanGoBack(): (b: bool)
      reads this
      ensures b == Model().CanGoBack()
    {
      stack != []
    }
  }
}
