/**
  The bounded search for a provider error in an arbitrary, possibly cyclic error graph
  (driver/acp/turn.go, safeACPErrorDetail): an explicit stack with limits on visits, depth and
  fan-out. Within the limits it is proved to be plain recursion.
 */
module ErrorSearch {
  import opened Options

  const MAX_DEPTH: nat := 32
  const MAX_NODES: nat := 128
  const MAX_CHILDREN: nat := 64

  /** The fields of a provider error. */
  datatype Detail = Detail(code: int, message: string)

  datatype Wraps = Nothing | Single(child: nat) | Many(children: seq<nat>)

  /**
    What looking an error up among those seen does: it works, it is left out because the error's
    type is not comparable, or it panics because the type is but the value holds one that is not.
   */
  datatype Hash = Hashable | Unhashable | Unsound

  /** An error value, up to Go equality. */
  datatype Info = Nil | Error(hash: Hash, acp: Option<Detail>, wraps: Wraps)

  /** How the search may end at an error. */
  datatype End = Found(detail: Detail) | Panicked

  type Graph = nat -> Info

  datatype Node = Node(err: nat, depth: nat)

  /** How the search ends, unless it comes to nothing, and how many errors it visited. */
  datatype Result = Result(end: Option<End>, visited: nat)

  /** The lookup comes before the provider's fields are looked at. */
  function EndAt(info: Info): Option<End>
    requires info.Error?
  {
    if info.hash.Unsound? then Some(Panicked)
    else if info.acp.Some? then Some(Found(info.acp.value))
    else None
  }

  function Kids(w: Wraps): seq<nat> {
    match w
    case Nothing => []
    case Single(child) => [child]
    case Many(children) => children
  }

  function Bounded(children: seq<nat>): seq<nat> {
    if |children| > MAX_CHILDREN then children[..MAX_CHILDREN] else children
  }

  /** The children that are searched: a list is cut off, a single child is not a list. */
  function Searched(info: Info, depth: nat): seq<nat>
    requires info.Error?
  {
    if depth >= MAX_DEPTH then [] else Bounded(Kids(info.wraps))
  }

  /** Pushed last to first, so that the first child is on top. */
  function Push(pending: seq<Node>, children: seq<nat>, depth: nat): seq<Node>
    decreases |children|
  {
    if children == [] then pending
    else Push(pending + [Node(children[|children| - 1], depth)], children[..|children| - 1], depth)
  }

  predicate Skipped(g: Graph, seen: set<nat>, err: nat) {
    g(err).Nil? || (g(err).hash.Hashable? && err in seen)
  }

  function Mark(g: Graph, seen: set<nat>, err: nat): set<nat> {
    if g(err).Error? && g(err).hash.Hashable? then seen + {err} else seen
  }

  function Search(g: Graph, pending: seq<Node>, seen: set<nat>, visited: nat): (r: Result)
    requires visited <= MAX_NODES
    ensures visited <= r.visited <= MAX_NODES
    decreases MAX_NODES - visited, |pending|
  {
    if pending == [] || visited == MAX_NODES then Result(None, visited)
    else
      var current, rest := pending[|pending| - 1], pending[..|pending| - 1];
      if Skipped(g, seen, current.err) then Search(g, rest, seen, visited)
      else
        var info := g(current.err);
        if EndAt(info).Some? then Result(EndAt(info), if info.hash.Unsound? then visited else visited + 1)
        else
          var next := Push(rest, Searched(info, current.depth), current.depth + 1);
          Search(g, next, Mark(g, seen, current.err), visited + 1)
  }

  /**
    safeACPErrorDetail. It ends on every graph, after at most MAX_NODES visits; the detail it finds,
    or the lookup it panics in, is that of an error the given one really wraps.
   */
  method SafeErrorDetail(g: Graph, err: nat) returns (end: Option<End>, visited: nat)
    ensures g(err).Nil? ==> end == None && visited == 0
    ensures !g(err).Nil? ==> Result(end, visited) == Search(g, [Node(err, 0)], {}, 0)
    ensures visited <= MAX_NODES
    ensures end.Some? ==> Wrapped(g, err, end)
  {
    if g(err).Nil? {
      return None, 0;
    }
    FoundFromRoot(g, err);
    end, visited := Walk(g, err);
  }

  /** markACPErrorSeen: whether the error was met before, unless the lookup panics. */
  method MarkSeen(g: Graph, seen: set<nat>, err: nat) returns (was: bool, panicked: bool, now: set<nat>)
    requires g(err).Error?
    ensures panicked == g(err).hash.Unsound?
    ensures !panicked ==> was == Skipped(g, seen, err) && now == (if was then seen else Mark(g, seen, err))
    ensures panicked ==> !Skipped(g, seen, err)
  {
    was, panicked, now := false, false, seen;
    match g(err).hash {
      case Unhashable =>
      case Unsound => panicked := true;
      case Hashable =>
        if err in seen {
          was := true;
        } else {
          now := seen + {err};
        }
    }
  }

  /** The loop over the stack. */
  method Walk(g: Graph, err: nat) returns (end: Option<End>, visited: nat)
    ensures Result(end, visited) == Search(g, [Node(err, 0)], {}, 0)
  {
    visited := 0;
    hide Search, Push, Kids, Bounded, Searched, Mark, Skipped;
    var pending := [Node(err, 0)];
    var seen: set<nat> := {};
    while pending != [] && visited < MAX_NODES
      invariant visited <= MAX_NODES
      invariant Search(g, pending, seen, visited) == Search(g, [Node(err, 0)], {}, 0)
      decreases MAX_NODES - visited, |pending|
    {
      TurnOfSearch(g, pending, seen, visited);
      var current := pending[|pending| - 1];
      pending := pending[..|pending| - 1];
      var info := g(current.err);
      if info.Nil? {
        NilIsSkipped(g, seen, current.err);
        continue;
      }
      var was, panicked, now := MarkSeen(g, seen, current.err);
      if panicked {
        return Some(Panicked), visited;
      }
      seen := now;
      if was {
        continue;
      }
      visited := visited + 1;
      if info.acp.Some? {
        return Some(Found(info.acp.value)), visited;
      }
      pending := Expand(g, pending, current);
    }
    SearchEnds(g, pending, seen, visited);
    end := None;
  }

  /** What the error wraps goes on the stack, unless it is too deep. */
  method Expand(g: Graph, pending: seq<Node>, current: Node) returns (r: seq<Node>)
    requires g(current.err).Error?
    ensures r == Push(pending, Searched(g(current.err), current.depth), current.depth + 1)
  {
    if current.depth >= MAX_DEPTH {
      NothingPushed(g, current.err, pending, current.depth);
      return pending;
    }
    r := PushAll(pending, Searched(g(current.err), current.depth), current.depth + 1);
  }

  lemma NilIsSkipped(g: Graph, seen: set<nat>, err: nat)
    requires g(err).Nil?
    ensures Skipped(g, seen, err)
  {
  }

  lemma TurnOfSearch(g: Graph, pending: seq<Node>, seen: set<nat>, visited: nat)
    requires pending != [] && visited < MAX_NODES
    ensures
      var current, rest := pending[|pending| - 1], pending[..|pending| - 1];
      var info, depth := g(current.err), current.depth;
      Search(g, pending, seen, visited) ==
        if Skipped(g, seen, current.err) then Search(g, rest, seen, visited)
        else if EndAt(info).Some? then Result(EndAt(info), if info.hash.Unsound? then visited else visited + 1)
        else Search(g, Push(rest, Searched(info, depth), depth + 1), Mark(g, seen, current.err), visited + 1)
  {
  }

  lemma SearchEnds(g: Graph, pending: seq<Node>, seen: set<nat>, visited: nat)
    requires pending == [] || visited == MAX_NODES
    requires visited <= MAX_NODES
    ensures Search(g, pending, seen, visited) == Result(None, visited)
  {
  }

  lemma NothingPushed(g: Graph, err: nat, pending: seq<Node>, depth: nat)
    requires g(err).Error? && depth >= MAX_DEPTH
    ensures Push(pending, Searched(g(err), depth), depth + 1) == pending
  {
  }

  method PushAll(pending: seq<Node>, children: seq<nat>, depth: nat) returns (r: seq<Node>)
    ensures r == Push(pending, children, depth)
  {
    r := pending;
    var index := |children|;
    assert children[..index] == children;
    while index > 0
      invariant 0 <= index <= |children|
      invariant Push(r, children[..index], depth) == Push(pending, children, depth)
    {
      index := index - 1;
      assert children[..index + 1][..index] == children[..index];
      r := r + [Node(children[index], depth)];
    }
  }

  // ---------------------------------------------------------------- on every graph

  /** `err` is `depth` unwrappings below `root`. */
  ghost predicate Below(g: Graph, root: nat, err: nat, depth: nat)
    decreases depth
  {
    if depth == 0 then err == root
    else exists parent :: Below(g, root, parent, depth - 1) && g(parent).Error? && err in Kids(g(parent).wraps)
  }

  ghost predicate AllBelow(g: Graph, root: nat, pending: seq<Node>) {
    forall n :: n in pending ==> Below(g, root, n.err, n.depth) && n.depth <= MAX_DEPTH
  }

  lemma {:induction false} PushedBelow(
    g: Graph, root: nat, parent: nat, depth: nat, pending: seq<Node>, children: seq<nat>)
    requires AllBelow(g, root, pending) && Below(g, root, parent, depth) && depth < MAX_DEPTH && g(parent).Error?
    requires forall c :: c in children ==> c in Kids(g(parent).wraps)
    ensures AllBelow(g, root, Push(pending, children, depth + 1))
    decreases |children|
  {
    hide Below;
    if children != [] {
      var last := children[|children| - 1];
      assert last in children;
      ChildBelow(g, root, parent, last, depth);
      PushedBelow(g, root, parent, depth, pending + [Node(last, depth + 1)], children[..|children| - 1]);
    }
  }

  lemma ChildBelow(g: Graph, root: nat, parent: nat, child: nat, depth: nat)
    requires Below(g, root, parent, depth) && g(parent).Error? && child in Kids(g(parent).wraps)
    ensures Below(g, root, child, depth + 1)
  {
  }

  /** The search may end so at an error really wrapped by the root, within the depth limit. */
  ghost predicate Wrapped(g: Graph, root: nat, end: Option<End>) {
    exists err: nat, depth: nat ::
      depth <= MAX_DEPTH && Below(g, root, err, depth) && g(err).Error? && EndAt(g(err)) == end
  }

  lemma WrappedHere(g: Graph, root: nat, pending: seq<Node>, n: Node)
    requires AllBelow(g, root, pending) && n in pending && g(n.err).Error?
    ensures Wrapped(g, root, EndAt(g(n.err)))
  {
    assert Below(g, root, n.err, n.depth);
  }

  lemma FewerBelow(g: Graph, root: nat, pending: seq<Node>, rest: seq<Node>)
    requires AllBelow(g, root, pending) && forall n :: n in rest ==> n in pending
    ensures AllBelow(g, root, rest)
  {
    hide Below;
  }

  lemma ExpandedBelow(g: Graph, root: nat, pending: seq<Node>, current: Node, rest: seq<Node>)
    requires AllBelow(g, root, pending) && current in pending && g(current.err).Error?
    requires forall n :: n in rest ==> n in pending
    ensures AllBelow(g, root, Push(rest, Searched(g(current.err), current.depth), current.depth + 1))
  {
    if current.depth < MAX_DEPTH {
      PushedBelow(g, root, current.err, current.depth, rest, Searched(g(current.err), current.depth));
    }
  }

  /** Whatever is found, on any graph, the root wraps. */
  lemma {:induction false} FoundIsWrapped(g: Graph, root: nat, pending: seq<Node>, seen: set<nat>, visited: nat)
    requires visited <= MAX_NODES && AllBelow(g, root, pending)
    ensures
      var end := Search(g, pending, seen, visited).end;
      end.Some? ==> Wrapped(g, root, end)
    decreases MAX_NODES - visited, |pending|
  {
    hide Search, AllBelow, Wrapped, Searched, Push, Mark;
    if pending == [] || visited == MAX_NODES {
      SearchEnds(g, pending, seen, visited);
    } else {
      TurnOfSearch(g, pending, seen, visited);
      var current, rest := pending[|pending| - 1], pending[..|pending| - 1];
      if Skipped(g, seen, current.err) {
        FewerBelow(g, root, pending, rest);
        FoundIsWrapped(g, root, rest, seen, visited);
      } else if EndAt(g(current.err)).Some? {
        WrappedHere(g, root, pending, current);
      } else {
        ExpandedBelow(g, root, pending, current, rest);
        var next := Push(rest, Searched(g(current.err), current.depth), current.depth + 1);
        FoundIsWrapped(g, root, next, Mark(g, seen, current.err), visited + 1);
      }
    }
  }

  /** The whole search: wherever it ends, the root wraps. */
  lemma FoundFromRoot(g: Graph, root: nat)
    ensures
      var end := Search(g, [Node(root, 0)], {}, 0).end;
      end.Some? ==> Wrapped(g, root, end)
  {
    FoundIsWrapped(g, root, [Node(root, 0)], {}, 0);
  }

  /** The lookup of an unsound error does panic, whatever the error provides. */
  lemma UnsoundRootPanics(g: Graph, root: nat)
    requires g(root).Error? && g(root).hash.Unsound?
    ensures Search(g, [Node(root, 0)], {}, 0) == Result(Some(Panicked), 0)
  {
  }

  // ---------------------------------------------------------------- within the limits

  /** A finite error tree, and a list of them. */
  datatype Tree = Missing(err: nat) | Present(err: nat, end: Option<End>, children: Trees)
  datatype Trees = Empty | Cons(head: Tree, tail: Trees)

  function Roots(ts: Trees): seq<nat> {
    match ts
    case Empty => []
    case Cons(t, more) => [t.err] + Roots(more)
  }

  predicate Shows(g: Graph, t: Tree) {
    match t
    case Missing(err) => g(err).Nil?
    case Present(err, end, children) =>
      g(err).Error? && EndAt(g(err)) == end && Kids(g(err).wraps) == Roots(children) && ShowsAll(g, children)
  }

  predicate ShowsAll(g: Graph, ts: Trees) {
    ts.Cons? ==> Shows(g, ts.head) && ShowsAll(g, ts.tail)
  }

  /** The first provider or unsound error in preorder, by plain recursion. */
  function First(t: Tree): Option<End> {
    match t
    case Missing(_) => None
    case Present(_, end, children) => if end.Some? then end else FirstOf(children)
  }

  function FirstOf(ts: Trees): Option<End> {
    match ts
    case Empty => None
    case Cons(t, more) => if First(t).Some? then First(t) else FirstOf(more)
  }

  function Count(t: Tree): nat {
    match t
    case Missing(_) => 0
    case Present(_, _, children) => 1 + CountAll(children)
  }

  function CountAll(ts: Trees): nat {
    match ts
    case Empty => 0
    case Cons(t, more) => Count(t) + CountAll(more)
  }

  /** Every error in the tree is at most `room` unwrappings deep, and wraps no more than are searched. */
  predicate Fits(t: Tree, room: int) {
    match t
    case Missing(_) => true
    case Present(_, _, children) => 0 <= room && |Roots(children)| <= MAX_CHILDREN && AllFit(children, room - 1)
  }

  predicate AllFit(ts: Trees, room: int) {
    ts.Cons? ==> Fits(ts.head, room) && AllFit(ts.tail, room)
  }

  function Errors(t: Tree): set<nat> {
    match t
    case Missing(_) => {}
    case Present(err, _, children) => {err} + ErrorsOf(children)
  }

  function ErrorsOf(ts: Trees): set<nat> {
    match ts
    case Empty => {}
    case Cons(t, more) => Errors(t) + ErrorsOf(more)
  }

  predicate Distinct(t: Tree) {
    match t
    case Missing(_) => true
    case Present(err, _, children) => err !in ErrorsOf(children) && DistinctAll(children)
  }

  predicate DistinctAll(ts: Trees) {
    ts.Cons? ==> Distinct(ts.head) && Errors(ts.head) !! ErrorsOf(ts.tail) && DistinctAll(ts.tail)
  }

  function Size(t: Tree): nat {
    match t
    case Missing(_) => 1
    case Present(_, _, children) => 1 + SizeAll(children)
  }

  function SizeAll(ts: Trees): nat {
    match ts
    case Empty => 0
    case Cons(t, more) => Size(t) + SizeAll(more)
  }

  /** The trees still to be searched, next one first, with their depths. */
  datatype Forest = Done | Next(tree: Tree, depth: nat, rest: Forest)

  /** What the search of a forest comes to, and what it goes through. */
  datatype Totals = Totals(first: Option<End>, count: nat, size: nat, errors: set<nat>)

  function TotalsOf(f: Forest): Totals {
    match f
    case Done => Totals(None, 0, 0, {})
    case Next(t, _, rest) =>
      var r := TotalsOf(rest);
      Totals(if First(t).Some? then First(t) else r.first, Count(t) + r.count, Size(t) + r.size, Errors(t) + r.errors)
  }

  /** Every tree shows the graph within the limits, and no error is met twice. */
  predicate Ready(g: Graph, f: Forest) {
    match f
    case Done => true
    case Next(t, depth, rest) =>
      && depth <= MAX_DEPTH + 1 && Shows(g, t) && Fits(t, MAX_DEPTH - depth) && Distinct(t)
      && Errors(t) !! TotalsOf(rest).errors && Ready(g, rest)
  }

  function StackOf(f: Forest): seq<Node> {
    match f
    case Done => []
    case Next(t, depth, rest) => StackOf(rest) + [Node(t.err, depth)]
  }

  function Before(ts: Trees, depth: nat, rest: Forest): Forest {
    match ts
    case Empty => rest
    case Cons(t, more) => Next(t, depth, Before(more, depth, rest))
  }

  lemma {:induction false} PushFirst(pending: seq<Node>, c: nat, cs: seq<nat>, depth: nat)
    ensures Push(pending, [c] + cs, depth) == Push(pending, cs, depth) + [Node(c, depth)]
    decreases |cs|
  {
    var all := [c] + cs;
    if cs == [] {
      assert all == [c] && all[..|all| - 1] == [];
    } else {
      assert all[..|all| - 1] == [c] + cs[..|cs| - 1];
      PushFirst(pending + [Node(cs[|cs| - 1], depth)], c, cs[..|cs| - 1], depth);
    }
  }

  /** Pushing the children last to first puts them on the stack in order. */
  lemma {:induction false} PushIsInOrder(ts: Trees, depth: nat, rest: Forest)
    ensures Push(StackOf(rest), Roots(ts), depth) == StackOf(Before(ts, depth, rest))
  {
    match ts {
      case Empty =>
      case Cons(t, more) =>
        PushIsInOrder(more, depth, rest);
        PushFirst(StackOf(rest), t.err, Roots(more), depth);
    }
  }

  lemma {:induction false} TotalsBefore(ts: Trees, depth: nat, rest: Forest)
    ensures
      var r := TotalsOf(rest);
      TotalsOf(Before(ts, depth, rest)) ==
        Totals(if FirstOf(ts).Some? then FirstOf(ts) else r.first, CountAll(ts) + r.count, SizeAll(ts) + r.size,
               ErrorsOf(ts) + r.errors)
  {
    match ts {
      case Empty =>
      case Cons(t, more) => TotalsBefore(more, depth, rest);
    }
  }

  lemma {:induction false} ReadyBefore(g: Graph, ts: Trees, depth: nat, rest: Forest)
    requires Ready(g, rest) && depth <= MAX_DEPTH + 1
    requires ShowsAll(g, ts) && AllFit(ts, MAX_DEPTH - depth) && DistinctAll(ts)
    requires ErrorsOf(ts) !! TotalsOf(rest).errors
    ensures Ready(g, Before(ts, depth, rest))
  {
    match ts {
      case Empty =>
      case Cons(t, more) =>
        ReadyBefore(g, more, depth, rest);
        TotalsBefore(more, depth, rest);
    }
  }

  lemma {:induction false} TooDeepIsMissing(ts: Trees)
    requires AllFit(ts, -1)
    ensures FirstOf(ts) == None && CountAll(ts) == 0 && ErrorsOf(ts) == {}
  {
    match ts {
      case Empty =>
      case Cons(t, more) => TooDeepIsMissing(more);
    }
  }

  lemma {:induction false} NothingCounted(f: Forest)
    ensures TotalsOf(f).count == 0 ==> TotalsOf(f).first == None
  {
    match f {
      case Done =>
      case Next(t, _, rest) =>
        NothingCounted(rest);
        if t.Present? {
        } else {
        }
    }
  }

  /** What is left to search after an error that wraps others. */
  function Expanded(f: Forest): Forest
    requires f.Next? && f.tree.Present?
  {
    if f.depth >= MAX_DEPTH then f.rest else Before(f.tree.children, f.depth + 1, f.rest)
  }

  /** `two` is what `one` comes to without the error `err`, which provides no detail. */
  predicate OneLess(err: nat, one: Totals, two: Totals) {
    && err !in two.errors && two.errors <= one.errors
    && two.first == one.first && two.count + 1 == one.count && two.size < one.size
  }

  lemma ExpandedTotals(g: Graph, f: Forest)
    requires Ready(g, f) && f.Next? && f.tree.Present? && f.tree.end.None?
    ensures Ready(g, Expanded(f)) && OneLess(f.tree.err, TotalsOf(f), TotalsOf(Expanded(f)))
  {
    WithoutRoot(g, f);
    hide Shows, Fits, Distinct, ShowsAll, AllFit, DistinctAll, TotalsOf, FirstOf, CountAll, ErrorsOf, SizeAll, Ready,
         OneLess;
    if f.depth >= MAX_DEPTH {
      assert Expanded(f) == f.rest;
      DeepTotals(g, f);
    } else {
      assert Expanded(f) == Before(f.tree.children, f.depth + 1, f.rest);
      ReadyBefore(g, f.tree.children, f.depth + 1, f.rest);
      ShallowTotals(g, f);
    }
  }

  lemma DeepTotals(g: Graph, f: Forest)
    requires Ready(g, f) && f.Next? && f.tree.Present? && f.tree.end.None? && f.depth >= MAX_DEPTH
    ensures OneLess(f.tree.err, TotalsOf(f), TotalsOf(f.rest))
  {
    WithoutRoot(g, f);
    TooDeepIsMissing(f.tree.children);
    hide Shows, Fits, Distinct, ShowsAll, AllFit, DistinctAll, TotalsOf, FirstOf, CountAll, ErrorsOf, SizeAll, Ready;
  }

  lemma ShallowTotals(g: Graph, f: Forest)
    requires Ready(g, f) && f.Next? && f.tree.Present? && f.tree.end.None? && f.depth < MAX_DEPTH
    ensures OneLess(f.tree.err, TotalsOf(f), TotalsOf(Before(f.tree.children, f.depth + 1, f.rest)))
  {
    WithoutRoot(g, f);
    TotalsBefore(f.tree.children, f.depth + 1, f.rest);
    hide Shows, Fits, Distinct, ShowsAll, AllFit, DistinctAll, TotalsOf, FirstOf, CountAll, ErrorsOf, SizeAll, Ready;
  }

  lemma WithoutRoot(g: Graph, f: Forest)
    requires Ready(g, f) && f.Next? && f.tree.Present? && f.tree.end.None?
    ensures
      var children, all, r := f.tree.children, TotalsOf(f), TotalsOf(f.rest);
      && f.depth <= MAX_DEPTH && ShowsAll(g, children) && AllFit(children, MAX_DEPTH - f.depth - 1)
      && DistinctAll(children)
      && Ready(g, f.rest)
      && all.errors == {f.tree.err} + ErrorsOf(children) + r.errors
      && f.tree.err !in ErrorsOf(children) && f.tree.err !in r.errors && ErrorsOf(children) !! r.errors
      && all.first == (if FirstOf(children).Some? then FirstOf(children) else r.first)
      && all.count == 1 + CountAll(children) + r.count
      && all.size == 1 + SizeAll(children) + r.size
  {
    assert f.tree.err in Errors(f.tree);
  }

  /** One turn of the search loop on an error that wraps others. */
  lemma SearchExpands(g: Graph, f: Forest, seen: set<nat>, visited: nat)
    requires Ready(g, f) && f.Next? && f.tree.Present? && f.tree.end.None? && f.tree.err !in seen && visited < MAX_NODES
    ensures
      Search(g, StackOf(f), seen, visited) ==
        Search(g, StackOf(Expanded(f)), Mark(g, seen, f.tree.err), visited + 1)
  {
    hide TotalsOf, Push, Search;
    var stack := StackOf(f);
    TurnOfSearch(g, stack, seen, visited);
    assert stack[..|stack| - 1] == StackOf(f.rest) && stack[|stack| - 1] == Node(f.tree.err, f.depth);
    var kids := Searched(g(f.tree.err), f.depth);
    if f.depth >= MAX_DEPTH {
      NothingPushed(g, f.tree.err, StackOf(f.rest), f.depth);
    } else {
      assert kids == Roots(f.tree.children);
      PushIsInOrder(f.tree.children, f.depth + 1, f.rest);
    }
  }

  lemma SearchSkips(g: Graph, f: Forest, seen: set<nat>, visited: nat)
    requires f.Next? && g(f.tree.err).Nil? && visited < MAX_NODES
    ensures Search(g, StackOf(f), seen, visited) == Search(g, StackOf(f.rest), seen, visited)
  {
    var stack := StackOf(f);
    assert stack[..|stack| - 1] == StackOf(f.rest) && stack[|stack| - 1] == Node(f.tree.err, f.depth);
  }

  lemma SearchFinds(g: Graph, f: Forest, seen: set<nat>, visited: nat)
    requires f.Next? && g(f.tree.err).Error? && EndAt(g(f.tree.err)).Some? && f.tree.err !in seen && visited < MAX_NODES
    ensures Search(g, StackOf(f), seen, visited).end == EndAt(g(f.tree.err))
  {
    var stack := StackOf(f);
    assert stack[|stack| - 1] == Node(f.tree.err, f.depth);
  }

  /** The stack search over any forest within the limits is the recursive one. */
  lemma {:induction false} SearchIsRecursive(g: Graph, f: Forest, seen: set<nat>, visited: nat)
    requires Ready(g, f) && TotalsOf(f).errors !! seen && visited + TotalsOf(f).count <= MAX_NODES
    ensures Search(g, StackOf(f), seen, visited).end == TotalsOf(f).first
    decreases TotalsOf(f).size
  {
    NothingCounted(f);
    if f.Next? && visited < MAX_NODES {
      hide Search, Expanded, Mark, StackOf;
      var t := f.tree;
      if t.Missing? {
        SearchSkips(g, f, seen, visited);
        SearchIsRecursive(g, f.rest, seen, visited);
      } else if t.end.Some? {
        SearchFinds(g, f, seen, visited);
      } else {
        ExpandedTotals(g, f);
        SearchExpands(g, f, seen, visited);
        MarkAdds(g, seen, t.err);
        SearchIsRecursive(g, Expanded(f), Mark(g, seen, t.err), visited + 1);
      }
    }
  }

  lemma MarkAdds(g: Graph, seen: set<nat>, err: nat)
    ensures Mark(g, seen, err) <= seen + {err}
  {
  }

  /**
    On a tree of distinct errors within the node, depth and fan-out limits, the bounded search
    ends exactly at the first error in preorder that provides a detail or cannot be looked up.
   */
  lemma WithinLimitsIsPreorder(g: Graph, t: Tree)
    requires Shows(g, t) && t.Present? && Distinct(t) && Fits(t, MAX_DEPTH) && Count(t) <= MAX_NODES
    ensures Search(g, [Node(t.err, 0)], {}, 0).end == First(t)
  {
    var f := Next(t, 0, Done);
    assert StackOf(f) == [Node(t.err, 0)];
    SearchIsRecursive(g, f, {}, 0);
  }
}
