/** PUCT tree search over a policy and value network (internal/engine/mcts.go).

    Chess and the network are parameters. `calls` numbers the network's answers, so the network may
    answer the same position differently, or fail, at any time. */
module Mcts {
  import opened Options
  import opened Reals

  datatype Status = Going | Checkmate | Stalemate

  datatype Chess = Chess(legal: string -> seq<string>, play: (string, string) -> string, status: string -> Status)

  /** A position is over exactly when there is no legal move. */
  ghost predicate Proper(c: Chess) {
    forall pos :: c.legal(pos) == [] <==> c.status(pos) != Going
  }

  datatype Evaluation = Evaluation(logit: string -> real, value: real)

  type Network = (string, nat) -> Option<Evaluation>

  /** The value head ends in a tanh. */
  ghost predicate Bounded(net: Network) {
    forall pos, k :: net(pos, k).Some? ==> -1.0 <= net(pos, k).value.value <= 1.0
  }

  function TerminalValue(c: Chess, pos: string): (r: Option<real>)
    ensures r.Some? <==> c.status(pos) != Going
  {
    match c.status(pos)
    case Checkmate => Some(-1.0)
    case Stalemate => Some(0.0)
    case Going => None
  }

  class Node {
    const prior: real
    var visits: nat
    var valueSum: real
    var moves: seq<string>
    var children: seq<Node>
    /** Where the node hangs, and the position it stands for. */
    ghost const pos: string
    ghost const depth: nat
    ghost const parent: Node?
    ghost const slot: nat
    /** The value head's estimate when the node was expanded. */
    ghost var own: real

    constructor (prior: real, ghost pos: string, ghost parent: Node?, ghost slot: nat)
      ensures this.prior == prior && visits == 0 && valueSum == 0.0 && moves == [] && children == []
      ensures this.pos == pos && this.parent == parent && this.slot == slot
      ensures depth == if parent == null then 0 else parent.depth + 1
    {
      this.prior, visits, valueSum, moves, children := prior, 0, 0.0, [], [];
      this.pos, this.parent, this.slot := pos, parent, slot;
      depth := if parent == null then 0 else parent.depth + 1;
    }

    function Q(): real
      reads this
    {
      if visits == 0 then 0.0 else valueSum / visits as real
    }
  }

  function Visits(nodes: seq<Node>): (r: seq<nat>)
    reads nodes`visits
    ensures |r| == |nodes| && forall i | 0 <= i < |r| :: r[i] == nodes[i].visits
  {
    if nodes == [] then [] else Visits(nodes[..|nodes| - 1]) + [nodes[|nodes| - 1].visits]
  }

  function Values(nodes: seq<Node>): (r: seq<real>)
    reads nodes`valueSum
    ensures |r| == |nodes| && forall i | 0 <= i < |r| :: r[i] == nodes[i].valueSum
  {
    if nodes == [] then [] else Values(nodes[..|nodes| - 1]) + [nodes[|nodes| - 1].valueSum]
  }

  function Priors(nodes: seq<Node>): (r: seq<real>)
    ensures |r| == |nodes| && forall i | 0 <= i < |r| :: r[i] == nodes[i].prior
  {
    if nodes == [] then [] else Priors(nodes[..|nodes| - 1]) + [nodes[|nodes| - 1].prior]
  }

  // ---- The tree ---------------------------------------------------------------------------------

  /** Who hangs below whom. A node with none is a leaf. */
  type Kids = map<Node, seq<Node>>

  /** The heap holds this tree, with the legal moves beside the children. */
  ghost predicate Holds(c: Chess, kids: Kids)
    reads kids.Keys
  {
    forall n | n in kids :: Shows(c, kids, n)
  }

  ghost predicate Shows(c: Chess, kids: Kids, n: Node)
    requires n in kids
    reads n`children, n`moves
  {
    n.children == kids[n] && n.moves == if kids[n] == [] then [] else c.legal(n.pos)
  }

  ghost predicate Hangs(c: Chess, kids: Kids, n: Node, i: nat)
    requires n in kids && i < |kids[n]| <= |c.legal(n.pos)|
  {
    var child := kids[n][i];
    && child in kids && child.parent == n && child.slot == i && child.depth == n.depth + 1
    && child.pos == c.play(n.pos, c.legal(n.pos)[i])
  }

  /** Sibling priors are a distribution with no zero. */
  ghost predicate Weighted(nodes: seq<Node>) {
    && (forall i | 0 <= i < |nodes| :: nodes[i].prior > 0.0)
    && (nodes != [] ==> Sum(Priors(nodes)) == 1.0)
  }

  ghost predicate InSlot(kids: Kids, n: Node) {
    && n.parent != null && n.parent in kids
    && n.slot < |kids[n.parent]| && kids[n.parent][n.slot] == n
  }

  /** An expanded node is no finished game and has one child a legal move, one move further on;
      every node but the root is one of those children. */
  ghost predicate Tidy(c: Chess, kids: Kids, root: Node, deepest: nat, n: Node)
    requires n in kids
  {
    && (kids[n] != [] ==> c.status(n.pos) == Going && |kids[n]| == |c.legal(n.pos)|)
    && (forall i | 0 <= i < |kids[n]| :: Hangs(c, kids, n, i))
    && Weighted(kids[n])
    && n.depth <= deepest
    && (n != root ==> InSlot(kids, n))
  }

  /** `deepest` bounds the walk down. */
  ghost predicate Neat(c: Chess, kids: Kids, root: Node, deepest: nat) {
    && root in kids && root.parent == null && kids[root] != []
    && (forall n | n in kids :: Tidy(c, kids, root, deepest, n))
  }

  /** Statistics that add up: a leaf's are its visits times the result of the game, or nothing; an
      expanded node was visited once to be expanded and once for every visit below it, and the value
      of each of those is negated on the way up. The root counts every simulation and keeps no value. */
  predicate AddsUp(end: Option<real>, root: bool, own: real, visits: int, value: real,
                   below: seq<nat>, values: seq<real>)
  {
    if below == [] then
      match end
      case Some(t) => value == visits as real * t
      case None => visits == 0 && value == 0.0
    else
      && visits == (if root then 0 else 1) + Count(below)
      && (!root ==> value == own - Sum(values))
  }

  /** The statistics of n, once `more` visits and a value of `owed` are added to it. */
  ghost predicate BooksWith(c: Chess, kids: Kids, n: Node, more: int, owed: real)
    requires n in kids
    reads n, kids[n]
  {
    AddsUp(TerminalValue(c, n.pos), n.parent == null, n.own, n.visits + more, n.valueSum + owed,
           Visits(kids[n]), Values(kids[n]))
  }

  ghost predicate Books(c: Chess, kids: Kids, n: Node)
    requires n in kids
    reads n, kids[n]
  {
    BooksWith(c, kids, n, 0, 0.0)
  }

  ghost predicate Fair(n: Node)
    reads n
  {
    -(n.visits as real) <= n.valueSum <= n.visits as real
  }

  ghost predicate Closed(kids: Kids) {
    forall n, m | n in kids && m in kids[n] :: m in kids
  }

  /** What the search keeps: the shape, the statistics, the priors, and averages in [-1, 1]. */
  ghost predicate Tree(c: Chess, kids: Kids, root: Node, deepest: nat)
    reads kids.Keys
  {
    && Closed(kids) && Neat(c, kids, root, deepest) && Holds(c, kids)
    && (forall n | n in kids :: Books(c, kids, n))
    && (forall n | n in kids :: Fair(n))
  }

  /** The same, but for a leaf that is one visit and `owed` behind. */
  ghost predicate Owing(c: Chess, kids: Kids, root: Node, deepest: nat, leaf: Node, owed: real)
    reads kids.Keys
  {
    && Closed(kids) && Neat(c, kids, root, deepest) && Holds(c, kids)
    && (forall n | n in kids && n != leaf :: Books(c, kids, n))
    && (forall n | n in kids :: Fair(n))
    && leaf in kids && BooksWith(c, kids, leaf, 1, owed)
  }

  // ---- Who is whose child -----------------------------------------------------------------------

  lemma ChildrenHang(c: Chess, kids: Kids, root: Node, deepest: nat, n: Node)
    requires Neat(c, kids, root, deepest) && n in kids
    ensures forall m | m in kids[n] :: m in kids && m.parent == n && m.depth == n.depth + 1
    ensures forall i | 0 <= i < |kids[n]| :: kids[n][i].slot == i
  {
    assert Tidy(c, kids, root, deepest, n);
    forall m | m in kids[n] ensures m in kids && m.parent == n && m.depth == n.depth + 1 {
      var i :| 0 <= i < |kids[n]| && kids[n][i] == m;
      assert Hangs(c, kids, n, i);
    }
    forall i | 0 <= i < |kids[n]| ensures kids[n][i].slot == i {
      assert Hangs(c, kids, n, i);
    }
  }

  lemma ParentAbove(c: Chess, kids: Kids, root: Node, deepest: nat, n: Node)
    requires Neat(c, kids, root, deepest) && n in kids && n != root
    ensures root in kids && root.parent == null && InSlot(kids, n)
    ensures n !in kids[n] && n.parent != n
    ensures forall q | q in kids && q != n.parent :: n !in kids[q]
    ensures forall i | 0 <= i < |kids[n.parent]| :: kids[n.parent][i] == n <==> i == n.slot
  {
    assert Tidy(c, kids, root, deepest, n);
    ChildrenHang(c, kids, root, deepest, n);
    ChildrenHang(c, kids, root, deepest, n.parent);
    forall q | q in kids && q != n.parent ensures n !in kids[q] {
      ChildrenHang(c, kids, root, deepest, q);
    }
  }

  lemma RootAbove(c: Chess, kids: Kids, root: Node, deepest: nat)
    requires Neat(c, kids, root, deepest)
    ensures root in kids && root.parent == null && kids[root] != [] && root.depth <= deepest
    ensures forall q | q in kids :: root !in kids[q]
  {
    assert Tidy(c, kids, root, deepest, root);
    forall q | q in kids ensures root !in kids[q] {
      ChildrenHang(c, kids, root, deepest, q);
    }
  }

  // ---- Backpropagation --------------------------------------------------------------------------

  /** The walk from the root to a leaf. */
  ghost predicate Path(kids: Kids, root: Node, path: seq<Node>) {
    && (forall i | 0 <= i < |path| :: path[i] in kids && path[i] != root)
    && (forall i {:trigger Above(root, path, i)} | 0 <= i < |path| :: path[i].parent == Above(root, path, i))
    && (forall i | 0 <= i < |path| :: path[i].depth == root.depth + 1 + i)
  }

  function Above(root: Node, path: seq<Node>, i: nat): Node
    requires i < |path|
  {
    if i == 0 then root else path[i - 1]
  }

  /** One more visit with this value, seen from the sums over siblings. */
  method Bump(ghost kids: Kids, p: Node, v: real)
    requires p in kids && InSlot(kids, p)
    requires forall q | q in kids && q != p.parent :: p !in kids[q]
    requires forall i | 0 <= i < |kids[p.parent]| :: kids[p.parent][i] == p <==> i == p.slot
    modifies p`visits, p`valueSum
    ensures p.visits == old(p.visits) + 1 && p.valueSum == old(p.valueSum) + v
    ensures forall q | q in kids && q != p.parent ::
      Visits(kids[q]) == old(Visits(kids[q])) && Values(kids[q]) == old(Values(kids[q]))
    ensures Visits(kids[p.parent]) == old(Visits(kids[p.parent]))[p.slot := old(p.visits) + 1]
    ensures Values(kids[p.parent]) == old(Values(kids[p.parent]))[p.slot := old(p.valueSum) + v]
  {
    hide Visits, Values;
    p.visits := p.visits + 1;
    p.valueSum := p.valueSum + v;
    forall q | q in kids && q != p.parent
      ensures Visits(kids[q]) == old(Visits(kids[q])) && Values(kids[q]) == old(Values(kids[q]))
    {
      assert forall i | 0 <= i < |kids[q]| :: kids[q][i] in kids[q];
    }
  }

  lemma FallsBehind(end: Option<real>, root: bool, own: real, visits: int, value: real,
                    below: seq<nat>, values: seq<real>, k: nat, v: real)
    requires AddsUp(end, root, own, visits, value, below, values) && k < |below| == |values|
    ensures AddsUp(end, root, own, visits + 1, value - v, below[k := below[k] + 1], values[k := values[k] + v])
  {
    CountUpdate(below, k, below[k] + 1);
    SumUpdate(values, k, values[k] + v);
  }

  lemma ParentFallsBehind(c: Chess, kids: Kids, p: Node, v: real, more: int)
    requires p in kids && InSlot(kids, p) && BooksWith(c, kids, p.parent, more, 0.0)
    ensures var n := p.parent;
      AddsUp(TerminalValue(c, n.pos), n.parent == null, n.own, n.visits + (more + 1), n.valueSum + -v,
             Visits(kids[n])[p.slot := p.visits + 1], Values(kids[n])[p.slot := p.valueSum + v])
  {
    hide AddsUp, TerminalValue, Visits, Values;
    var n := p.parent;
    FallsBehind(TerminalValue(c, n.pos), n.parent == null, n.own, n.visits + more, n.valueSum + 0.0,
                Visits(kids[n]), Values(kids[n]), p.slot, v);
  }

  /** A node that is one visit and a value of v behind catches up, and its parent falls behind by one
      visit and the negated value. `more` is what the parent was behind before. */
  method CatchUp(ghost c: Chess, ghost kids: Kids, ghost root: Node, ghost deepest: nat, p: Node, v: real,
                 ghost more: int)
    requires Neat(c, kids, root, deepest) && p in kids && p != root && InSlot(kids, p)
    requires BooksWith(c, kids, p, 1, v) && BooksWith(c, kids, p.parent, more, 0.0)
    modifies p`visits, p`valueSum
    ensures p.visits == old(p.visits) + 1 && p.valueSum == old(p.valueSum) + v
    ensures Books(c, kids, p) && BooksWith(c, kids, p.parent, more + 1, -v)
    ensures forall q | q in kids && q != p.parent ::
      Visits(kids[q]) == old(Visits(kids[q])) && Values(kids[q]) == old(Values(kids[q]))
  {
    hide Neat, InSlot, Visits, Values, TerminalValue, AddsUp, Count, Sum;
    ParentAbove(c, kids, root, deepest, p);
    ParentFallsBehind(c, kids, p, v, more);
    Bump(kids, p, v);
    assert Books(c, kids, p);
    assert BooksWith(c, kids, p.parent, more + 1, -v);
  }

  /** The same for the whole tree: the rest of it stays as it was. */
  method StepUp(ghost c: Chess, ghost kids: Kids, ghost root: Node, ghost deepest: nat, p: Node, v: real)
    requires Neat(c, kids, root, deepest) && p in kids && p != root && -1.0 <= v <= 1.0
    requires root in kids && BooksWith(c, kids, p, 1, v) && BooksWith(c, kids, root, -1, 0.0)
    requires forall q | q in kids && q != p && q != root :: Books(c, kids, q)
    requires forall q | q in kids :: Fair(q)
    modifies p`visits, p`valueSum
    ensures p.visits == old(p.visits) + 1 && p.valueSum == old(p.valueSum) + v
    ensures forall q | q in kids && q != p.parent && q != root :: Books(c, kids, q)
    ensures p.parent != null && p.parent in kids && (p.parent != root ==> BooksWith(c, kids, p.parent, 1, -v))
    ensures BooksWith(c, kids, root, if p.parent == root then 0 else -1, 0.0)
    ensures forall q | q in kids :: Fair(q)
  {
    hide Neat, Visits, Values, TerminalValue;
    ParentAbove(c, kids, root, deepest, p);
    CatchUp(c, kids, root, deepest, p, v, if p.parent == root then -1 else 0);
    forall q | q in kids && q != p.parent && q != p && old(Books(c, kids, q)) ensures Books(c, kids, q) {
    }
  }

  lemma OwingParts(c: Chess, kids: Kids, root: Node, deepest: nat, leaf: Node, owed: real)
    requires Owing(c, kids, root, deepest, leaf, owed)
    ensures Neat(c, kids, root, deepest) && Holds(c, kids) && Closed(kids)
    ensures (forall n | n in kids :: Fair(n)) && forall n | n in kids && n != leaf :: Books(c, kids, n)
    ensures leaf in kids && BooksWith(c, kids, leaf, 1, owed) && root in kids
  {
    hide BooksWith, Fair;
  }

  lemma PathStep(kids: Kids, root: Node, path: seq<Node>, i: nat)
    requires Path(kids, root, path) && i < |path|
    ensures path[i] in kids && path[i] != root && path[i].parent == Above(root, path, i)
    ensures Above(root, path, i) == root <==> i == 0
  {
    assert path[i].parent == Above(root, path, i);
  }

  /** The walk up has still to update path[i] and what is above it. */
  ghost predicate Rising(c: Chess, kids: Kids, root: Node, path: seq<Node>, i: int, v: real)
    requires Closed(kids) && root in kids && Path(kids, root, path) && -1 <= i < |path|
    reads kids.Keys
  {
    && -1.0 <= v <= 1.0 && Holds(c, kids)
    && (forall n | n in kids && n != root && (i < 0 || n != path[i]) :: Books(c, kids, n))
    && (i >= 0 ==> BooksWith(c, kids, path[i], 1, v))
    && BooksWith(c, kids, root, if i >= 0 then -1 else 0, 0.0)
    && (forall n | n in kids :: Fair(n))
  }

  method CountOne(ghost c: Chess, ghost kids: Kids, root: Node, ghost deepest: nat)
    requires Neat(c, kids, root, deepest) && root in kids && Books(c, kids, root) && Fair(root)
    modifies root`visits
    ensures root.visits == old(root.visits) + 1 && BooksWith(c, kids, root, -1, 0.0) && Fair(root)
    ensures forall q | q in kids ::
      Visits(kids[q]) == old(Visits(kids[q])) && Values(kids[q]) == old(Values(kids[q]))
  {
    hide Neat, Visits, Values, TerminalValue, AddsUp;
    RootAbove(c, kids, root, deepest);
    root.visits := root.visits + 1;
    forall q | q in kids
      ensures Visits(kids[q]) == old(Visits(kids[q])) && Values(kids[q]) == old(Values(kids[q]))
    {
      assert forall i | 0 <= i < |kids[q]| :: kids[q][i] in kids[q];
    }
    assert BooksWith(c, kids, root, -1, 0.0);
  }

  method CountSimulation(ghost c: Chess, ghost kids: Kids, root: Node, ghost deepest: nat,
                         ghost leaf: Node, ghost value: real)
    requires Neat(c, kids, root, deepest) && Holds(c, kids)
    requires root in kids && leaf in kids && leaf != root
    requires forall n | n in kids && n != leaf :: Books(c, kids, n)
    requires BooksWith(c, kids, leaf, 1, value) && forall n | n in kids :: Fair(n)
    modifies root`visits
    ensures root.visits == old(root.visits) + 1 && Holds(c, kids)
    ensures forall n | n in kids && n != root && n != leaf :: Books(c, kids, n)
    ensures BooksWith(c, kids, leaf, 1, value) && BooksWith(c, kids, root, -1, 0.0)
    ensures forall n | n in kids :: Fair(n)
  {
    hide Neat, Visits, Values, TerminalValue, AddsUp, Shows, Fair;
    CountOne(c, kids, root, deepest);
  }

  lemma RisingParts(c: Chess, kids: Kids, root: Node, path: seq<Node>, i: nat, v: real)
    requires Closed(kids) && root in kids && Path(kids, root, path) && i < |path|
    requires Rising(c, kids, root, path, i, v)
    ensures -1.0 <= v <= 1.0 && Holds(c, kids) && BooksWith(c, kids, root, -1, 0.0)
    ensures path[i] in kids && path[i] != root && BooksWith(c, kids, path[i], 1, v)
    ensures forall n | n in kids && n != root && n != path[i] :: Books(c, kids, n)
    ensures forall n | n in kids :: Fair(n)
  {
    hide BooksWith, Fair, Shows;
  }

  lemma KeepsRising(c: Chess, kids: Kids, root: Node, path: seq<Node>, i: nat, v: real)
    requires Closed(kids) && root in kids && Path(kids, root, path) && i < |path|
    requires -1.0 <= v <= 1.0 && Holds(c, kids)
    requires var above := Above(root, path, i);
      && (forall n | n in kids && n != root && n != above :: Books(c, kids, n))
      && above in kids && (above != root ==> BooksWith(c, kids, above, 1, -v))
      && BooksWith(c, kids, root, if above == root then 0 else -1, 0.0)
    requires forall n | n in kids :: Fair(n)
    ensures Rising(c, kids, root, path, i - 1, -v)
  {
    PathStep(kids, root, path, i);
    hide BooksWith, Fair, Shows;
  }

  method RiseOne(ghost c: Chess, ghost kids: Kids, ghost root: Node, ghost deepest: nat,
                 ghost path: seq<Node>, ghost i: nat, p: Node, v: real)
    requires Closed(kids) && Neat(c, kids, root, deepest) && root in kids
    requires Path(kids, root, path) && i < |path| && path[i] == p && Rising(c, kids, root, path, i, v)
    modifies p`visits, p`valueSum
    ensures p != root && Rising(c, kids, root, path, i - 1, -v)
    ensures p.visits == old(p.visits) + 1 && p.valueSum == old(p.valueSum) + v
  {
    PathStep(kids, root, path, i);
    hide Neat, Closed, Path, BooksWith, Books, Fair, Shows, Rising;
    RisingParts(c, kids, root, path, i, v);
    StepUp(c, kids, root, deepest, p, v);
    KeepsRising(c, kids, root, path, i, v);
  }

  lemma PathApart(kids: Kids, root: Node, path: seq<Node>)
    requires Path(kids, root, path)
    ensures forall i, j | 0 <= i < j < |path| :: path[i] != path[j]
    ensures forall i | 0 <= i < |path| :: path[i] in kids && path[i] != root
  {
  }

  /** The value of the leaf as seen k plies above it. */
  function SeenFrom(value: real, k: int): real {
    if k % 2 == 0 then value else -value
  }

  /** Visits and values before the walk back up. */
  type Before = map<Node, (nat, real)>

  /** Of the nodes there were before, those of the path below the i-th have their visit and value, the root
      its visit, and the rest is as it was. */
  ghost predicate Counted(was: Before, root: Node, path: seq<Node>, value: real, i: int)
    requires root in was && -1 <= i < |path| && forall k | 0 <= k < |path| :: path[k] in was
    reads was.Keys
  {
    && root.visits == was[root].0 + 1 && root.valueSum == was[root].1
    && (forall k | i < k < |path| :: Gained(was, path[k], SeenFrom(value, |path| - 1 - k)))
    && (forall n | n in was && n != root && Beside(path, i, n) :: Untouched(was, n))
  }

  /** Not a node of the path below the i-th. */
  ghost predicate Beside(path: seq<Node>, i: int, n: Node)
    requires -1 <= i
  {
    forall k | i < k < |path| :: path[k] != n
  }

  ghost predicate Gained(was: Before, n: Node, v: real)
    requires n in was
    reads n
  {
    n.visits == was[n].0 + 1 && n.valueSum == was[n].1 + v
  }

  ghost predicate Untouched(was: Before, n: Node)
    requires n in was
    reads n
  {
    n.visits == was[n].0 && n.valueSum == was[n].1
  }

  /** One step of the walk back up, its place in the path and in the books. */
  method RiseCounted(ghost c: Chess, ghost kids: Kids, ghost root: Node, ghost deepest: nat, ghost was: Before,
                     ghost path: seq<Node>, ghost i: nat, p: Node, v: real, ghost value: real)
    requires Closed(kids) && Neat(c, kids, root, deepest) && root in kids && kids.Keys == was.Keys
    requires Path(kids, root, path) && i < |path| && path[i] == p && Rising(c, kids, root, path, i, v)
    requires (forall k | 0 <= k < |path| :: path[k] in was && path[k] != root)
    requires forall k, l | 0 <= k < l < |path| :: path[k] != path[l]
    requires Counted(was, root, path, value, i) && v == SeenFrom(value, |path| - 1 - i)
    modifies p`visits, p`valueSum
    ensures Rising(c, kids, root, path, i - 1, -v)
    ensures Counted(was, root, path, value, i - 1)
  {
    hide Neat, Closed, Path, Above, Rising, SeenFrom, Sum;
    assert Beside(path, i, p) && Untouched(was, p);
    RiseOne(c, kids, root, deepest, path, i, p, v);
    assert Gained(was, p, v);
    forall n | n in was && n != root && Beside(path, i - 1, n) ensures Untouched(was, n) {
      assert Beside(path, i, n) && n != p;
    }
  }

  /** The walk back up: each node of the path gains one visit and the value as seen from there, the root a
      visit, and nothing else changes; after it every node's statistics add up again. */
  method Backpropagate(ghost c: Chess, ghost kids: Kids, root: Node, ghost deepest: nat,
                       path: seq<Node>, value: real)
    requires path != [] && Path(kids, root, path) && -1.0 <= value <= 1.0
    requires Owing(c, kids, root, deepest, path[|path| - 1], value)
    modifies kids.Keys`visits, kids.Keys`valueSum
    ensures Tree(c, kids, root, deepest)
    ensures root.visits == old(root.visits) + 1 && root.valueSum == old(root.valueSum)
    ensures forall k | 0 <= k < |path| ::
      && path[k].visits == old(path[k].visits) + 1
      && path[k].valueSum == old(path[k].valueSum) + if (|path| - 1 - k) % 2 == 0 then value else -value
    ensures forall n | n in kids && n != root && n !in path ::
      n.visits == old(n.visits) && n.valueSum == old(n.valueSum)
  {
    hide Neat, Closed, Path, Above, Rising, Owing, Tree, Books, BooksWith, Fair, Holds, SeenFrom, Counted;
    OwingParts(c, kids, root, deepest, path[|path| - 1], value);
    PathStep(kids, root, path, |path| - 1);
    PathApart(kids, root, path);
    ghost var was := map n | n in kids :: (n.visits, n.valueSum);
    CountSimulation(c, kids, root, deepest, path[|path| - 1], value);
    StartsRising(c, kids, root, path, value);
    StartsCounted(was, root, path, value);
    RiseAll(c, kids, root, deepest, was, path, value);
    AllCounted(was, root, path, value);
  }

  /** The loop over the path. */
  method RiseAll(ghost c: Chess, ghost kids: Kids, ghost root: Node, ghost deepest: nat, ghost was: Before,
                 path: seq<Node>, value: real)
    requires Closed(kids) && Neat(c, kids, root, deepest) && root in kids && kids.Keys == was.Keys
    requires Path(kids, root, path) && path != [] && Rising(c, kids, root, path, |path| - 1, value)
    requires (forall k | 0 <= k < |path| :: path[k] in was && path[k] != root)
    requires forall k, l | 0 <= k < l < |path| :: path[k] != path[l]
    requires Counted(was, root, path, value, |path| - 1)
    modifies kids.Keys`visits, kids.Keys`valueSum
    ensures Tree(c, kids, root, deepest) && Counted(was, root, path, value, -1)
  {
    hide Neat, Closed, Path, Above, Rising, Tree, SeenFrom, Counted;
    var v := value;
    var i := |path| - 1;
    SeenFurther(value, 0);
    while i >= 0
      invariant -1 <= i < |path|
      invariant Rising(c, kids, root, path, i, v)
      invariant v == SeenFrom(value, |path| - 1 - i) && Counted(was, root, path, value, i)
    {
      RiseCounted(c, kids, root, deepest, was, path, i, path[i], v, value);
      SeenFurther(value, |path| - 1 - i);
      v := -v;
      i := i - 1;
    }
    Risen(c, kids, root, deepest, path, v);
  }

  lemma SeenFurther(value: real, k: nat)
    ensures SeenFrom(value, 0) == value && SeenFrom(value, k + 1) == -SeenFrom(value, k)
  {
  }

  lemma StartsCounted(was: Before, root: Node, path: seq<Node>, value: real)
    requires root in was && (forall k | 0 <= k < |path| :: path[k] in was) && path != []
    requires root.visits == was[root].0 + 1 && root.valueSum == was[root].1
    requires forall n | n in was && n != root :: Untouched(was, n)
    ensures Counted(was, root, path, value, |path| - 1) && SeenFrom(value, 0) == value
  {
  }

  lemma AllCounted(was: Before, root: Node, path: seq<Node>, value: real)
    requires root in was && (forall k | 0 <= k < |path| :: path[k] in was)
    requires Counted(was, root, path, value, -1)
    ensures root.visits == was[root].0 + 1 && root.valueSum == was[root].1
    ensures forall k | 0 <= k < |path| ::
      && path[k].visits == was[path[k]].0 + 1
      && path[k].valueSum == was[path[k]].1 + if (|path| - 1 - k) % 2 == 0 then value else -value
    ensures forall n | n in was && n != root && n !in path :: n.visits == was[n].0 && n.valueSum == was[n].1
  {
    forall n | n in was && n != root && n !in path ensures Untouched(was, n) {
      assert Beside(path, -1, n);
    }
  }

  lemma StartsRising(c: Chess, kids: Kids, root: Node, path: seq<Node>, v: real)
    requires Closed(kids) && root in kids && Path(kids, root, path) && path != []
    requires -1.0 <= v <= 1.0 && Holds(c, kids)
    requires forall n | n in kids && n != root && n != path[|path| - 1] :: Books(c, kids, n)
    requires BooksWith(c, kids, path[|path| - 1], 1, v) && BooksWith(c, kids, root, -1, 0.0)
    requires forall n | n in kids :: Fair(n)
    ensures Rising(c, kids, root, path, |path| - 1, v)
  {
    hide Closed, Path, BooksWith, Fair, Holds;
  }

  lemma Risen(c: Chess, kids: Kids, root: Node, deepest: nat, path: seq<Node>, v: real)
    requires Closed(kids) && Neat(c, kids, root, deepest) && root in kids && Path(kids, root, path)
    requires Rising(c, kids, root, path, -1, v)
    ensures Tree(c, kids, root, deepest)
  {
    hide Neat, Closed, Path, BooksWith, Fair, Holds;
  }

  // ---- Expansion --------------------------------------------------------------------------------

  /** The weights the softmax normalizes, with nothing subtracted. */
  function Weights(m: Maths, logits: seq<real>): (r: seq<real>)
    ensures |r| == |logits| && forall i | 0 <= i < |r| :: r[i] == m.exp(logits[i])
  {
    seq(|logits|, i requires 0 <= i < |logits| => m.exp(logits[i]))
  }

  function Logits(e: Evaluation, moves: seq<string>): (r: seq<real>)
    ensures |r| == |moves| && forall i | 0 <= i < |r| :: r[i] == e.logit(moves[i])
  {
    seq(|moves|, i requires 0 <= i < |moves| => e.logit(moves[i]))
  }

  function Portion(x: real, total: real): real
    requires total != 0.0
  {
    x / total
  }

  /** Subtracting the largest logit first changes no prior. */
  lemma ShiftCancels(m: Maths, logits: seq<real>, shift: real, shifted: seq<real>, i: nat)
    requires Sound(m) && i < |logits| == |shifted|
    requires forall j | 0 <= j < |logits| :: shifted[j] == m.exp(logits[j] - shift)
    ensures Sum(shifted) > 0.0 && Sum(Weights(m, logits)) > 0.0
    ensures Portion(shifted[i], Sum(shifted)) == Portion(m.exp(logits[i]), Sum(Weights(m, logits)))
  {
    hide Sound, Sum;
    var w, k := Weights(m, logits), m.exp(shift);
    ExpIsPositive(m, shift);
    forall j | 0 <= j < |logits| ensures w[j] == k * shifted[j] && w[j] > 0.0 && shifted[j] > 0.0 {
      ExpAdds(m, logits[j] - shift, shift);
      ExpIsPositive(m, logits[j] - shift);
      assert logits[j] - shift + shift == logits[j];
    }
    SumScaled(shifted, w, k);
    SumPositive(shifted);
    SumPositive(w);
    Cancels(shifted[i], Sum(shifted), k);
  }

  lemma Cancels(x: real, y: real, k: real)
    requires y > 0.0 && k > 0.0
    ensures k * y > 0.0 && x / y == (k * x) / (k * y)
  {
    var q := x / y;
    assert q * y == x;
    assert k * x == q * (k * y);
  }

  lemma SharesSumToOne(s: seq<real>, t: seq<real>)
    requires |s| == |t| && Sum(s) > 0.0 && forall i | 0 <= i < |s| :: t[i] == Portion(s[i], Sum(s))
    ensures Sum(t) == 1.0
  {
    var k := 1.0 / Sum(s);
    assert k * Sum(s) == 1.0;
    forall i | 0 <= i < |s| ensures t[i] == k * s[i] {
      assert s[i] / Sum(s) * Sum(s) == s[i];
      assert k * s[i] * Sum(s) == s[i];
    }
    SumScaled(s, t, k);
  }

  /** The two passes over the logits. */
  method Exponentials(m: Maths, e: Evaluation, moves: seq<string>) returns (exps: array<real>, sum: real)
    requires Sound(m) && moves != []
    ensures exps.Length == |moves| && sum == Sum(exps[..]) && sum > 0.0
    ensures fresh(exps) && Sum(Weights(m, Logits(e, moves))) > 0.0
    ensures forall i | 0 <= i < |moves| ::
      exps[i] > 0.0 && Portion(exps[i], sum) == Portion(m.exp(e.logit(moves[i])), Sum(Weights(m, Logits(e, moves))))
  {
    hide Sound, Weights, Logits, Portion;
    // None is minus infinity.
    var top: Option<real> := None;
    for i := 0 to |moves|
      invariant i > 0 ==> top.Some?
    {
      var l := e.logit(moves[i]);
      if top.None? || l > top.value { top := Some(l); }
    }
    exps, sum := new real[|moves|], 0.0;
    for i := 0 to |moves|
      invariant forall j | 0 <= j < i :: exps[j] == m.exp(e.logit(moves[j]) - top.value)
      invariant sum == Sum(exps[..i])
    {
      exps[i] := m.exp(e.logit(moves[i]) - top.value);
      sum := sum + exps[i];
      assert exps[..i + 1][..i] == exps[..i];
    }
    assert exps[..] == exps[..|moves|];
    SharesAgree(m, Logits(e, moves), top.value, exps[..]);
  }

  lemma SharesAgree(m: Maths, logits: seq<real>, shift: real, shifted: seq<real>)
    requires Sound(m) && |logits| == |shifted| > 0
    requires forall j | 0 <= j < |logits| :: shifted[j] == m.exp(logits[j] - shift)
    ensures Sum(shifted) > 0.0 && Sum(Weights(m, logits)) > 0.0
    ensures forall i | 0 <= i < |logits| ::
      shifted[i] > 0.0 && Portion(shifted[i], Sum(shifted)) == Portion(m.exp(logits[i]), Sum(Weights(m, logits)))
  {
    hide Sound, Weights, Portion, Sum;
    ShiftCancels(m, logits, shift, shifted, 0);
    forall i | 0 <= i < |logits|
      ensures shifted[i] > 0.0
      ensures Portion(shifted[i], Sum(shifted)) == Portion(m.exp(logits[i]), Sum(Weights(m, logits)))
    {
      ExpIsPositive(m, logits[i] - shift);
      ShiftCancels(m, logits, shift, shifted, i);
    }
  }

  /** Where a new child hangs. */
  ghost predicate Child(c: Chess, n: Node, child: Node, i: nat)
    requires i < |c.legal(n.pos)|
  {
    && child.parent == n && child.slot == i && child.depth == n.depth + 1
    && child.pos == c.play(n.pos, c.legal(n.pos)[i])
  }

  ghost predicate Blank(n: Node)
    reads n
  {
    n.children == [] && n.moves == [] && n.visits == 0 && n.valueSum == 0.0
  }

  ghost function Members(nodes: seq<Node>): (r: set<Node>)
    ensures (forall n | n in nodes :: n in r) && (forall n | n in r :: n in nodes)
  {
    set n | n in nodes
  }

  method Branch(c: Chess, n: Node, pos: string, exps: array<real>, sum: real)
    requires n.children == [] && n.pos == pos && n.moves == c.legal(pos)
    requires exps.Length == |n.moves| && sum != 0.0
    modifies n`children
    ensures |n.children| == |n.moves| && fresh(Members(n.children))
    ensures forall i | 0 <= i < |n.children| ::
      Child(c, n, n.children[i], i) && Blank(n.children[i]) && n.children[i].prior == Portion(exps[i], sum)
  {
    for i := 0 to |n.moves|
      invariant |n.children| == i && fresh(Members(n.children))
      invariant forall j | 0 <= j < i ::
        Child(c, n, n.children[j], j) && Blank(n.children[j]) && n.children[j].prior == Portion(exps[j], sum)
    {
      var child := new Node(Portion(exps[i], sum), c.play(pos, n.moves[i]), n, i);
      assert Members(n.children + [child]) == Members(n.children) + {child};
      n.children := n.children + [child];
    }
  }

  lemma PriorsAreShares(exps: seq<real>, nodes: seq<Node>)
    requires |exps| == |nodes| && Sum(exps) > 0.0
    requires forall i | 0 <= i < |exps| :: exps[i] > 0.0 && nodes[i].prior == Portion(exps[i], Sum(exps))
    ensures Weighted(nodes)
  {
    forall i | 0 <= i < |nodes| ensures nodes[i].prior > 0.0 {
      assert exps[i] / Sum(exps) * Sum(exps) == exps[i];
    }
    SharesSumToOne(exps, Priors(nodes));
  }

  /** One blank child a legal move, its prior the softmax of the moves' logits. */
  ghost predicate Fanned(m: Maths, c: Chess, e: Evaluation, n: Node)
    reads n`children, n.children
  {
    var w := Weights(m, Logits(e, c.legal(n.pos)));
    && Sum(w) > 0.0 && |n.children| == |w|
    && (forall i | 0 <= i < |n.children| :: Child(c, n, n.children[i], i))
    && (forall i | 0 <= i < |n.children| :: Blank(n.children[i]) && n.children[i].prior == Portion(w[i], Sum(w)))
  }

  /** The priors are the softmax of the legal moves' logits; nothing happens when the network
      fails. */
  method Expand(m: Maths, c: Chess, net: Network, n: Node, pos: string, k: nat) returns (value: Option<real>)
    requires Sound(m) && n.children == [] && n.pos == pos && c.legal(pos) != []
    modifies n`moves, n`children, n`own
    ensures value.Some? <==> net(pos, k).Some?
    ensures value.None? ==> n.moves == old(n.moves) && n.children == [] && n.own == old(n.own)
    ensures value.Some? ==>
      && value.value == net(pos, k).value.value == n.own
      && n.moves == c.legal(pos) && |n.children| == |n.moves| && fresh(Members(n.children))
      && Weighted(n.children)
    ensures value.Some? ==> Fanned(m, c, net(pos, k).value, n)
  {
    hide Sound, Weighted, Sum, Weights, Logits, Child, Blank, Portion, Fanned;
    var answer := net(pos, k);
    if answer.None? { return None; }
    var moves := c.legal(pos);
    var exps, sum := Exponentials(m, answer.value, moves);
    n.moves := moves;
    n.own := answer.value.value;
    Branch(c, n, pos, exps, sum);
    PriorsAreShares(exps[..], n.children);
    IsFanned(m, c, answer.value, n, exps[..]);
    return Some(answer.value.value);
  }

  lemma IsFanned(m: Maths, c: Chess, e: Evaluation, n: Node, exps: seq<real>)
    requires |n.children| == |exps| == |c.legal(n.pos)| && Sum(exps) > 0.0
    requires Sum(Weights(m, Logits(e, c.legal(n.pos)))) > 0.0
    requires forall i | 0 <= i < |exps| ::
      Portion(exps[i], Sum(exps))
      == Portion(m.exp(e.logit(c.legal(n.pos)[i])), Sum(Weights(m, Logits(e, c.legal(n.pos)))))
    requires forall i | 0 <= i < |exps| ::
      Child(c, n, n.children[i], i) && Blank(n.children[i]) && n.children[i].prior == Portion(exps[i], Sum(exps))
    ensures Fanned(m, c, e, n)
  {
    hide Sum, Portion, Child, Blank;
  }

  // ---- The tree after an expansion ----------------------------------------------------------------

  /** The leaf's new children, leaves themselves. */
  ghost function Sprouted(kids: Kids, leaf: Node, children: seq<Node>): Kids {
    map n | n in kids.Keys + Members(children) ::
      if n == leaf then children else if n in kids then kids[n] else []
  }

  ghost predicate Sprouts(c: Chess, kids: Kids, root: Node, deepest: nat, leaf: Node, children: seq<Node>) {
    && Closed(kids) && Neat(c, kids, root, deepest)
    && leaf in kids && leaf != root && kids[leaf] == [] && c.status(leaf.pos) == Going
    && |children| == |c.legal(leaf.pos)| && Weighted(children)
    && (forall i | 0 <= i < |children| :: Child(c, leaf, children[i], i))
    && (forall n | n in children :: n !in kids)
  }

  lemma LeafSprouts(c: Chess, kids: Kids, root: Node, deepest: nat, leaf: Node, children: seq<Node>)
    requires Sprouts(c, kids, root, deepest, leaf, children)
    ensures Tidy(c, Sprouted(kids, leaf, children), root, deepest + 1, leaf)
  {
    var grown := Sprouted(kids, leaf, children);
    hide Weighted, Neat, Closed;
    assert Tidy(c, kids, root, deepest, leaf) by { TidyAt(c, kids, root, deepest, leaf); }
    forall i | 0 <= i < |grown[leaf]| ensures Hangs(c, grown, leaf, i) {
      assert Child(c, leaf, children[i], i);
    }
  }

  lemma TidyAt(c: Chess, kids: Kids, root: Node, deepest: nat, n: Node)
    requires Neat(c, kids, root, deepest) && n in kids
    ensures Tidy(c, kids, root, deepest, n) && root in kids && root.parent == null && kids[root] != []
  {
    hide Tidy;
  }

  lemma OthersStayTidy(c: Chess, kids: Kids, root: Node, deepest: nat, leaf: Node, children: seq<Node>, n: Node)
    requires Sprouts(c, kids, root, deepest, leaf, children) && n in kids && n != leaf
    ensures Tidy(c, Sprouted(kids, leaf, children), root, deepest + 1, n)
  {
    var grown := Sprouted(kids, leaf, children);
    hide Weighted, Neat, Closed, Child;
    TidyAt(c, kids, root, deepest, n);
    forall i | 0 <= i < |grown[n]| ensures Hangs(c, grown, n, i) {
      assert Hangs(c, kids, n, i);
    }
  }

  lemma ChildIsTidy(c: Chess, kids: Kids, root: Node, deepest: nat, leaf: Node, children: seq<Node>, i: nat)
    requires Sprouts(c, kids, root, deepest, leaf, children) && i < |children|
    ensures children[i] in Sprouted(kids, leaf, children)
    ensures Tidy(c, Sprouted(kids, leaf, children), root, deepest + 1, children[i])
  {
    hide Neat, Closed;
    TidyAt(c, kids, root, deepest, leaf);
    assert Child(c, leaf, children[i], i);
  }

  lemma SproutedNeat(c: Chess, kids: Kids, root: Node, deepest: nat, leaf: Node, children: seq<Node>)
    requires Sprouts(c, kids, root, deepest, leaf, children)
    ensures Neat(c, Sprouted(kids, leaf, children), root, deepest + 1) && Closed(Sprouted(kids, leaf, children))
  {
    var grown := Sprouted(kids, leaf, children);
    forall n | n in grown ensures Tidy(c, grown, root, deepest + 1, n) {
      hide Tidy, Child, Weighted, Neat, Closed;
      if n == leaf {
        LeafSprouts(c, kids, root, deepest, leaf, children);
      } else if n in kids {
        OthersStayTidy(c, kids, root, deepest, leaf, children, n);
      } else {
        var i :| 0 <= i < |children| && children[i] == n;
        ChildIsTidy(c, kids, root, deepest, leaf, children, i);
      }
    }
    TidyAt(c, kids, root, deepest, root);
    hide Tidy, Child, Weighted;
  }

  /** A leaf just expanded is one visit and its estimate behind. */
  lemma LeafIsBehind(c: Chess, kids: Kids, leaf: Node)
    requires leaf in kids && kids[leaf] != [] && leaf.parent != null
    requires leaf.visits == 0 && leaf.valueSum == 0.0 && forall n | n in kids[leaf] :: Blank(n)
    ensures BooksWith(c, kids, leaf, 1, leaf.own)
  {
    forall i | 0 <= i < |kids[leaf]| ensures Visits(kids[leaf])[i] == 0 && Values(kids[leaf])[i] == 0.0 {
      assert Blank(kids[leaf][i]);
    }
    CountZero(Visits(kids[leaf]));
    SumZero(Values(kids[leaf]));
  }

  lemma BlankIsInOrder(c: Chess, kids: Kids, n: Node)
    requires n in kids && kids[n] == [] && Blank(n)
    ensures Shows(c, kids, n) && Books(c, kids, n) && Fair(n)
  {
  }

  lemma UnvisitedLeaf(c: Chess, kids: Kids, leaf: Node)
    requires Proper(c) && leaf in kids && kids[leaf] == [] && c.status(leaf.pos) == Going
    requires Shows(c, kids, leaf) && Books(c, kids, leaf)
    ensures leaf.visits == 0 && leaf.valueSum == 0.0 && c.legal(leaf.pos) != [] && leaf.children == []
  {
  }

  /** The heap between an expansion and the addition of the children to the tree. */
  ghost predicate Expanded(c: Chess, kids: Kids, leaf: Node, value: real)
    requires leaf in kids
    reads leaf, kids.Keys, leaf.children
  {
    && (forall n | n in kids && n != leaf :: Shows(c, kids, n))
    && leaf.moves == c.legal(leaf.pos) && leaf.own == value
    && leaf.visits == 0 && leaf.valueSum == 0.0
    && forall n | n in leaf.children :: Blank(n)
  }

  lemma GrownIsOwing(c: Chess, kids: Kids, grown: Kids, root: Node, deepest: nat, leaf: Node, value: real)
    requires Sprouts(c, kids, root, deepest, leaf, leaf.children)
    requires grown == Sprouted(kids, leaf, leaf.children) && leaf.children != []
    requires Expanded(c, kids, leaf, value)
    requires forall n | n in kids && n != leaf :: Books(c, kids, n)
    requires forall n | n in kids :: Fair(n)
    ensures Owing(c, grown, root, deepest + 1, leaf, value)
  {
    SproutedNeat(c, kids, root, deepest, leaf, leaf.children);
    LeafIsBehind(c, grown, leaf) by { TidyAt(c, kids, root, deepest, leaf); }
    hide Neat, Closed, Sprouts, Sprouted, BooksWith, Expanded, Books, Fair, Shows;
    forall n | n in grown ensures Shows(c, grown, n) && Fair(n) && (n != leaf ==> Books(c, grown, n)) {
      GrownNode(c, kids, leaf, value, n);
    }
  }

  lemma GrownNode(c: Chess, kids: Kids, leaf: Node, value: real, n: Node)
    requires leaf in kids && Expanded(c, kids, leaf, value) && leaf.children != []
    requires n in Sprouted(kids, leaf, leaf.children)
    requires forall m | m in kids && m != leaf :: Books(c, kids, m)
    requires forall m | m in kids :: Fair(m)
    ensures var grown := Sprouted(kids, leaf, leaf.children);
      Shows(c, grown, n) && Fair(n) && (n != leaf ==> Books(c, grown, n))
  {
    hide Visits, Values, AddsUp, TerminalValue;
    if n !in kids {
      BlankIsInOrder(c, Sprouted(kids, leaf, leaf.children), n);
    } else if n != leaf {
      assert Shows(c, kids, n) && Books(c, kids, n);
    }
  }

  lemma SproutedKeys(kids: Kids, leaf: Node, children: seq<Node>)
    ensures Sprouted(kids, leaf, children).Keys == kids.Keys + Members(children)
  {
  }

  method ExpandIn(m: Maths, c: Chess, net: Network, ghost kids: Kids, ghost root: Node, ghost deepest: nat,
                  leaf: Node, pos: string, k: nat)
    returns (value: Option<real>)
    requires Sound(m) && Proper(c) && Tree(c, kids, root, deepest)
    requires leaf in kids && leaf != root && kids[leaf] == [] && leaf.pos == pos && c.status(pos) == Going
    modifies leaf`moves, leaf`children, leaf`own
    ensures value.Some? <==> net(pos, k).Some?
    ensures value.Some? ==>
      && value.value == net(pos, k).value.value
      && Sprouts(c, kids, root, deepest, leaf, leaf.children) && leaf.children != []
      && Expanded(c, kids, leaf, value.value) && fresh(Members(leaf.children))
  {
    hide Books, BooksWith, Fair, Tree, Neat, Closed, Shows, Sound, Proper, Weighted, Fanned;
    hide Sprouts, Expanded, Members;
    TreeParts(c, kids, root, deepest);
    UnvisitedLeaf(c, kids, leaf);
    value := Expand(m, c, net, leaf, pos, k);
    if value.Some? {
      NowSprouts(m, c, net(pos, k).value, kids, root, deepest, leaf);
      NowExpanded(m, c, net(pos, k).value, kids, leaf, value.value);
    }
  }

  lemma NowSprouts(m: Maths, c: Chess, e: Evaluation, kids: Kids, root: Node, deepest: nat, leaf: Node)
    requires Closed(kids) && Neat(c, kids, root, deepest)
    requires leaf in kids && leaf != root && kids[leaf] == [] && c.status(leaf.pos) == Going
    requires |leaf.children| == |c.legal(leaf.pos)| && Weighted(leaf.children)
    requires Fanned(m, c, e, leaf)
    requires kids.Keys !! Members(leaf.children)
    ensures Sprouts(c, kids, root, deepest, leaf, leaf.children)
  {
    hide Neat, Closed, Weighted, Child;
    assert forall n | n in leaf.children :: n in Members(leaf.children);
  }

  lemma NowExpanded(m: Maths, c: Chess, e: Evaluation, kids: Kids, leaf: Node, value: real)
    requires leaf in kids && leaf.moves == c.legal(leaf.pos) && leaf.own == value
    requires leaf.visits == 0 && leaf.valueSum == 0.0
    requires forall n | n in kids && n != leaf :: Shows(c, kids, n)
    requires Fanned(m, c, e, leaf)
    ensures Expanded(c, kids, leaf, value)
  {
    hide Shows, Blank;
  }

  method Grow(m: Maths, c: Chess, net: Network, ghost kids: Kids, ghost root: Node, ghost deepest: nat,
              leaf: Node, pos: string, k: nat)
    returns (value: Option<real>, ghost grown: Kids)
    requires Sound(m) && Proper(c) && Tree(c, kids, root, deepest)
    requires leaf in kids && leaf != root && kids[leaf] == [] && leaf.pos == pos && c.status(pos) == Going
    modifies leaf`moves, leaf`children, leaf`own
    ensures value.Some? <==> net(pos, k).Some?
    ensures value.Some? ==>
      && value.value == net(pos, k).value.value
      && kids.Keys <= grown.Keys && fresh(grown.Keys - kids.Keys)
      && Owing(c, grown, root, deepest + 1, leaf, value.value)
  {
    grown := kids;
    hide Tree, Neat, Closed, Shows, Sound, Proper, Weighted, Child, Blank, Weights, Logits, Sum, Sprouted;
    hide Visits, Values, AddsUp, TerminalValue;
    TreeParts(c, kids, root, deepest);
    value := ExpandIn(m, c, net, kids, root, deepest, leaf, pos, k);
    if value.Some? {
      grown := Sprouted(kids, leaf, leaf.children);
      SproutedKeys(kids, leaf, leaf.children);
      GrownIsOwing(c, kids, grown, root, deepest, leaf, value.value);
    }
  }

  lemma TreeParts(c: Chess, kids: Kids, root: Node, deepest: nat)
    requires Tree(c, kids, root, deepest)
    ensures Closed(kids) && Neat(c, kids, root, deepest)
    ensures forall n | n in kids :: Shows(c, kids, n) && Books(c, kids, n) && Fair(n)
  {
    hide Neat, BooksWith, Fair, Shows;
  }

  // ---- Selection --------------------------------------------------------------------------------

  /** The child's average negated, it is from the child mover's view, plus the exploration bonus. */
  function Score(m: Maths, cPuct: real, n: Node, child: Node): real
    reads n, child
  {
    -child.Q() + cPuct * child.prior * m.sqrt(n.visits as real + 1.0) / (1 + child.visits) as real
  }

  /** PUCT ranks the child at most as high as the other: Q + U over the numbers on the nodes, Q the mean
      value for the side to choose (the sign turned, 0 when unvisited), U the bonus. */
  ghost predicate RanksAtMost(m: Maths, cPuct: real, visits: nat, child: Node, other: Node)
    reads child, other
  {
    cPuct * child.prior * m.sqrt(visits as real + 1.0) / (1 + child.visits) as real
      - (if child.visits == 0 then 0.0 else child.valueSum / child.visits as real)
    <= cPuct * other.prior * m.sqrt(visits as real + 1.0) / (1 + other.visits) as real
      - (if other.visits == 0 then 0.0 else other.valueSum / other.visits as real)
  }

  /** Where two children differ in one number alone: the one preferred is the one worse for whoever moves
      there, the one of the greater prior, and the one visited less. */
  ghost predicate Preferred(best: Node, other: Node)
    reads best, other
  {
    && (best.prior == other.prior && best.visits == other.visits > 0 ==> best.valueSum <= other.valueSum)
    && (best.visits == other.visits && best.valueSum == other.valueSum ==> best.prior >= other.prior)
    && (best.prior == other.prior > 0.0 && best.Q() == other.Q() ==> best.visits <= other.visits)
  }

  lemma ScoreRanks(m: Maths, cPuct: real, n: Node, child: Node, other: Node)
    ensures Score(m, cPuct, n, child) <= Score(m, cPuct, n, other)
       <==> RanksAtMost(m, cPuct, n.visits, child, other)
  {
  }

  lemma RootIsPositive(m: Maths, n: nat)
    requires Sound(m)
    ensures m.sqrt(n as real + 1.0) > 0.0
  {
    var s := m.sqrt(n as real + 1.0);
    assert s * s > 0.0;
  }

  lemma ScoreParts(m: Maths, cPuct: real, n: Node, child: Node)
    ensures Score(m, cPuct, n, child)
         == Times(child.prior, Times(cPuct, m.sqrt(n.visits as real + 1.0))) / (1 + child.visits) as real - child.Q()
  {
    var root := m.sqrt(n.visits as real + 1.0);
    assert cPuct * child.prior * root == child.prior * (cPuct * root);
  }

  lemma LowerSumLowerQ(best: Node, other: Node)
    requires best.visits == other.visits > 0 && best.Q() <= other.Q()
    ensures best.valueSum <= other.valueSum
  {
    QuotientOrder(best.valueSum, other.valueSum, best.visits as real);
  }

  lemma ScorePrefers(m: Maths, cPuct: real, n: Node, best: Node, other: Node)
    requires Sound(m) && cPuct > 0.0 && Score(m, cPuct, n, other) <= Score(m, cPuct, n, best)
    ensures Preferred(best, other)
  {
    ScoreParts(m, cPuct, n, best);
    ScoreParts(m, cPuct, n, other);
    RootIsPositive(m, n.visits);
    var k := Times(cPuct, m.sqrt(n.visits as real + 1.0));
    hide Sound, Times, Score, Node.Q;
    var u, u' := Times(best.prior, k) / (1 + best.visits) as real, Times(other.prior, k) / (1 + other.visits) as real;
    assert u' - other.Q() <= u - best.Q();
    if u' <= u { BonusOrder(k, best.prior, other.prior, 1 + best.visits, 1 + other.visits); }
    if best.visits == other.visits {
      if best.visits > 0 && best.prior == other.prior { LowerSumLowerQ(best, other); }
      if best.valueSum == other.valueSum { SameSumSameQ(best, other); }
    }
  }

  lemma SameSumSameQ(best: Node, other: Node)
    requires best.visits == other.visits && best.valueSum == other.valueSum
    ensures best.Q() == other.Q()
  {
  }

  /** The bonus grows with the prior and falls with the visits. */
  lemma BonusOrder(k: real, p: real, p': real, n: nat, n': nat)
    requires k > 0.0 && n > 0 && n' > 0 && Times(p', k) / n' as real <= Times(p, k) / n as real
    ensures n == n' ==> p' <= p
    ensures p == p' > 0.0 ==> n <= n'
  {
    if n == n' {
      QuotientOrder(Times(p', k), Times(p, k), n as real);
      TimesMonotone(p, p', k);
    }
    if p == p' > 0.0 {
      DivisorOrder(Times(p, k), n' as real, n as real);
    }
  }

  /** The first of the children that rank highest. */
  method BestChild(m: Maths, cPuct: real, n: Node) returns (best: nat)
    requires n.children != []
    ensures best < |n.children|
    ensures forall j | 0 <= j < |n.children| ::
      RanksAtMost(m, cPuct, n.visits, n.children[j], n.children[best])
    ensures forall j | 0 <= j < best ::
      !RanksAtMost(m, cPuct, n.visits, n.children[best], n.children[j])
    ensures Sound(m) && cPuct > 0.0 ==> forall j | 0 <= j < |n.children| ::
      Preferred(n.children[best], n.children[j])
  {
    hide Score, RanksAtMost, Preferred, Sound;
    best := 0;
    // None is minus infinity.
    var bestScore: Option<real> := None;
    for i := 0 to |n.children|
      invariant best < |n.children|
      invariant bestScore == if i == 0 then None else Some(Score(m, cPuct, n, n.children[best]))
      invariant i > 0 ==> best < i
      invariant forall j | 0 <= j < i ::
        Score(m, cPuct, n, n.children[j]) <= Score(m, cPuct, n, n.children[best])
      invariant forall j | 0 <= j < best ::
        Score(m, cPuct, n, n.children[j]) < Score(m, cPuct, n, n.children[best])
    {
      var score := Score(m, cPuct, n, n.children[i]);
      if bestScore.None? || score > bestScore.value {
        best, bestScore := i, Some(score);
      }
    }
    forall j | 0 <= j < |n.children|
      ensures RanksAtMost(m, cPuct, n.visits, n.children[j], n.children[best])
      ensures j < best ==> !RanksAtMost(m, cPuct, n.visits, n.children[best], n.children[j])
      ensures Sound(m) && cPuct > 0.0 ==> Preferred(n.children[best], n.children[j])
    {
      ScoreRanks(m, cPuct, n, n.children[j], n.children[best]);
      ScoreRanks(m, cPuct, n, n.children[best], n.children[j]);
      if Sound(m) && cPuct > 0.0 { ScorePrefers(m, cPuct, n, n.children[best], n.children[j]); }
    }
  }

  lemma ChildIsBelow(c: Chess, kids: Kids, root: Node, deepest: nat, n: Node, i: nat)
    requires Tree(c, kids, root, deepest) && n in kids && i < |n.children|
    ensures |n.moves| == |n.children|
    ensures var child := n.children[i];
      && child in kids && child != root && child.parent == n
      && child.depth == n.depth + 1 <= deepest && child.pos == c.play(n.pos, n.moves[i])
  {
    TreeParts(c, kids, root, deepest);
    assert Shows(c, kids, n);
    hide Tree, Closed, BooksWith;
    TidyAt(c, kids, root, deepest, n);
    assert Hangs(c, kids, n, i);
    TidyAt(c, kids, root, deepest, kids[n][i]);
  }

  lemma RootIsIn(c: Chess, kids: Kids, root: Node, deepest: nat)
    requires Tree(c, kids, root, deepest)
    ensures root in kids && root.children != [] && root.depth <= deepest
    ensures forall n | n in kids :: n.children == kids[n]
  {
    TreeParts(c, kids, root, deepest);
    TidyAt(c, kids, root, deepest, root);
    forall n | n in kids ensures n.children == kids[n] {
      assert Shows(c, kids, n);
    }
  }

  lemma PathInMore(kids: Kids, more: Kids, root: Node, path: seq<Node>)
    requires Path(kids, root, path) && kids.Keys <= more.Keys
    ensures Path(more, root, path)
  {
  }

  lemma PathGrows(kids: Kids, root: Node, path: seq<Node>, n: Node)
    requires Path(kids, root, path) && n in kids && n != root
    requires n.parent == (if path == [] then root else path[|path| - 1])
    requires n.depth == root.depth + 1 + |path|
    ensures Path(kids, root, path + [n])
  {
    var more := path + [n];
    forall i | 0 <= i < |more| ensures more[i].parent == Above(root, more, i) {
      if i < |path| { assert path[i].parent == Above(root, path, i); }
    }
  }

  /** Nothing below n ranks above this child. */
  ghost predicate Favourite(m: Maths, cPuct: real, n: Node, child: Node)
    reads n, n.children, child
  {
    && child in n.children
    && forall i | 0 <= i < |n.children| :: RanksAtMost(m, cPuct, n.visits, n.children[i], child)
  }

  lemma IsFavourite(m: Maths, cPuct: real, n: Node, best: nat)
    requires best < |n.children|
    requires forall j | 0 <= j < |n.children| :: RanksAtMost(m, cPuct, n.visits, n.children[j], n.children[best])
    ensures Favourite(m, cPuct, n, n.children[best])
  {
  }

  lemma AboveMore(root: Node, path: seq<Node>, n: Node)
    ensures forall i | 0 <= i < |path| ::
      (path + [n])[i] == path[i] && Above(root, path + [n], i) == Above(root, path, i)
    ensures Above(root, path + [n], |path|) == if path == [] then root else path[|path| - 1]
  {
  }

  /** The walk down follows PUCT and ends at a leaf of the tree, at most `deepest` moves on. */
  method Walk(m: Maths, c: Chess, cPuct: real, ghost kids: Kids, root: Node, rootPos: string, ghost deepest: nat)
    returns (path: seq<Node>, leaf: Node, pos: string)
    requires Tree(c, kids, root, deepest) && root.pos == rootPos
    ensures path != [] && leaf == path[|path| - 1] && Path(kids, root, path) && |path| <= deepest
    ensures leaf in kids && leaf != root && leaf.children == [] && leaf.pos == pos
    ensures forall i | 0 <= i < |path| :: Favourite(m, cPuct, Above(root, path, i), path[i])
  {
    hide Tree, Above, Favourite, RanksAtMost, Preferred;
    RootIsIn(c, kids, root, deepest);
    var n := root;
    pos := rootPos;
    path := [];
    while n.children != []
      invariant n in kids && n.pos == pos && Path(kids, root, path)
      invariant n == (if path == [] then root else path[|path| - 1])
      invariant n.depth <= deepest
      invariant |path| == n.depth - root.depth
      invariant forall i | 0 <= i < |path| :: Favourite(m, cPuct, Above(root, path, i), path[i])
      decreases deepest - n.depth
    {
      var best := BestChild(m, cPuct, n);
      IsFavourite(m, cPuct, n, best);
      AboveMore(root, path, n.children[best]);
      ChildIsBelow(c, kids, root, deepest, n, best);
      pos := c.play(pos, n.moves[best]);
      PathGrows(kids, root, path, n.children[best]);
      n := n.children[best];
      path := path + [n];
    }
    leaf := n;
  }

  // ---- The search -------------------------------------------------------------------------------

  lemma EndedLeafOwes(c: Chess, kids: Kids, root: Node, deepest: nat, leaf: Node, t: real)
    requires Tree(c, kids, root, deepest) && leaf in kids && kids[leaf] == []
    requires TerminalValue(c, leaf.pos) == Some(t)
    ensures Owing(c, kids, root, deepest, leaf, t)
  {
    TreeParts(c, kids, root, deepest);
    EndedLeafIsBehind(c, kids, leaf, t);
    hide Neat, Closed, Fair, Tree, BooksWith, Shows;
  }

  lemma EndedLeafIsBehind(c: Chess, kids: Kids, leaf: Node, t: real)
    requires leaf in kids && Books(c, kids, leaf) && kids[leaf] == [] && TerminalValue(c, leaf.pos) == Some(t)
    ensures BooksWith(c, kids, leaf, 1, t)
  {
  }

  /** Expand and evaluate, or the result of the game. None when the network fails. */
  method Evaluate(m: Maths, c: Chess, net: Network, ghost kids: Kids, ghost root: Node, ghost deepest: nat,
                  leaf: Node, pos: string, k: nat)
    returns (value: Option<real>, asked: nat, ghost grown: Kids, ghost deeper: nat)
    requires Sound(m) && Proper(c) && Bounded(net) && Tree(c, kids, root, deepest)
    requires leaf in kids && leaf != root && kids[leaf] == [] && leaf.pos == pos
    modifies leaf`moves, leaf`children, leaf`own
    ensures value.Some? ==>
      && -1.0 <= value.value <= 1.0
      && kids.Keys <= grown.Keys && fresh(grown.Keys - kids.Keys)
      && Owing(c, grown, root, deeper, leaf, value.value)
    ensures k <= asked <= k + 1 && (value.None? ==> asked == k + 1 && exists pos :: net(pos, k).None?)
  {
    hide Tree, Owing, Sound, Proper;
    var end := TerminalValue(c, pos);
    if end.Some? {
      EndedLeafOwes(c, kids, root, deepest, leaf, end.value);
      return end, k, kids, deepest;
    }
    value, grown := Grow(m, c, net, kids, root, deepest, leaf, pos, k);
    asked, deeper := k + 1, deepest + 1;
  }

  /** Select, evaluate, back up: the root and the nodes of a path down by PUCT, to a leaf, are visited once
      more. */
  method Simulate(m: Maths, c: Chess, net: Network, cPuct: real, ghost kids: Kids, root: Node,
                  rootPos: string, ghost deepest: nat, k: nat)
    returns (ok: bool, asked: nat, ghost grown: Kids, ghost deeper: nat, ghost path: seq<Node>)
    requires Sound(m) && Proper(c) && Bounded(net) && Tree(c, kids, root, deepest) && root.pos == rootPos
    modifies kids.Keys
    ensures ok ==> path != [] && Path(kids, root, path) && old(path[|path| - 1].children) == []
    ensures ok ==> forall i | 0 <= i < |path| :: old(Favourite(m, cPuct, Above(root, path, i), path[i]))
    ensures ok ==> forall n | n in kids :: n.visits == old(n.visits) + if n == root || n in path then 1 else 0
    ensures ok ==> Tree(c, grown, root, deeper) && kids.Keys <= grown.Keys && fresh(grown.Keys - kids.Keys)
    ensures ok ==> root.visits == old(root.visits) + 1
    ensures k <= asked <= k + 1 && (!ok ==> asked == k + 1 && exists pos :: net(pos, k).None?)
  {
    hide Tree, Owing, Sound, Proper, Bounded, Path, Favourite, Above;
    RootIsIn(c, kids, root, deepest);
    var nodes, leaf, pos := Walk(m, c, cPuct, kids, root, rootPos, deepest);
    path := nodes;
    PathApart(kids, root, path);
    var value;
    value, asked, grown, deeper := Evaluate(m, c, net, kids, root, deepest, leaf, pos, k);
    if value.None? { return false, asked, grown, deeper, path; }
    PathInMore(kids, grown, root, path);
    Backpropagate(c, grown, root, deeper, nodes, value.value);
    ok := true;
  }

  ghost function Planted(root: Node, children: seq<Node>): Kids {
    map n | n in {root} + Members(children) :: if n == root then children else []
  }

  lemma PlantedNeat(c: Chess, root: Node, children: seq<Node>)
    requires root.parent == null && root.depth == 0 && children != [] && c.status(root.pos) == Going
    requires |children| == |c.legal(root.pos)| && Weighted(children)
    requires forall i | 0 <= i < |children| :: Child(c, root, children[i], i)
    ensures Neat(c, Planted(root, children), root, 1) && Closed(Planted(root, children))
  {
    var kids := Planted(root, children);
    forall n | n in kids ensures Tidy(c, kids, root, 1, n) {
      if n == root {
        hide Weighted;
        assert root !in children;
        forall i | 0 <= i < |kids[n]| ensures Hangs(c, kids, n, i) {
          assert Child(c, root, children[i], i);
        }
      } else {
        var i :| 0 <= i < |children| && children[i] == n;
        assert Child(c, root, children[i], i);
      }
    }
    hide Tidy, Child, Weighted;
  }

  lemma RootAddsUp(c: Chess, kids: Kids, root: Node)
    requires root in kids && kids[root] != [] && root.parent == null && root.visits == 0
    requires forall i | 0 <= i < |kids[root]| :: Blank(kids[root][i])
    ensures Books(c, kids, root)
  {
    forall i | 0 <= i < |kids[root]| ensures Visits(kids[root])[i] == 0 {
      assert Blank(kids[root][i]);
    }
    CountZero(Visits(kids[root]));
  }

  lemma PlantedKeys(root: Node, children: seq<Node>)
    ensures root in Planted(root, children)
    ensures forall n | n in Planted(root, children) && n != root :: n in Members(children)
  {
  }

  lemma PlantedTree(m: Maths, c: Chess, e: Evaluation, root: Node)
    requires root.parent == null && root.depth == 0 && root.children != [] && c.status(root.pos) == Going
    requires root.moves == c.legal(root.pos) && |root.children| == |root.moves| && Weighted(root.children)
    requires root.visits == 0 && root.valueSum == 0.0
    requires Fanned(m, c, e, root)
    ensures Tree(c, Planted(root, root.children), root, 1)
  {
    hide Weighted, Child, Blank, Neat, Closed, BooksWith, Books, Shows, Fair;
    var kids := Planted(root, root.children);
    PlantedNeat(c, root, root.children);
    RootAddsUp(c, kids, root);
    forall n | n in kids ensures Shows(c, kids, n) && Books(c, kids, n) && Fair(n) {
      if n == root { RootIsInOrder(c, kids, root); } else { BlankIsInOrder(c, kids, n); }
    }
  }

  lemma RootIsInOrder(c: Chess, kids: Kids, root: Node)
    requires root in kids && kids[root] == root.children != [] && root.moves == c.legal(root.pos)
    requires root.visits == 0 && root.valueSum == 0.0
    ensures Shows(c, kids, root) && Fair(root)
  {
  }

  lemma MovesMeanGoing(c: Chess, pos: string)
    requires Proper(c) && c.legal(pos) != []
    ensures c.status(pos) == Going
  {
  }

  method Plant(m: Maths, c: Chess, net: Network, root: Node, rootPos: string, k: nat)
    returns (ok: bool, ghost kids: Kids)
    requires Sound(m) && Proper(c) && c.legal(rootPos) != []
    requires root.parent == null && root.depth == 0 && root.pos == rootPos && Blank(root)
    modifies root
    ensures ok <==> net(rootPos, k).Some?
    ensures ok ==>
      Tree(c, kids, root, 1) && root in kids && root.visits == 0 && forall n | n in kids && n != root :: fresh(n)
  {
    hide Sound, Proper, Weighted, Fanned, Tree, Planted, Members;
    kids := map[];
    MovesMeanGoing(c, rootPos);
    var value := Expand(m, c, net, root, rootPos, k);
    ok := value.Some?;
    if ok {
      kids := Planted(root, root.children);
      PlantedTree(m, c, net(rootPos, k).value, root);
      PlantedKeys(root, root.children);
    }
  }

  /** `sims` simulations from a fresh root; null when the network failed. */
  method RunSimulations(m: Maths, c: Chess, net: Network, cPuct: real, rootPos: string, sims: int)
    returns (root: Node?, ghost kids: Kids, ghost deepest: nat)
    requires Sound(m) && Proper(c) && Bounded(net) && c.legal(rootPos) != []
    ensures root == null ==> exists pos, k :: net(pos, k).None?
    ensures root != null ==>
      && Tree(c, kids, root, deepest) && fresh(kids.Keys) && root.pos == rootPos
      && root.visits == if sims < 0 then 0 else sims
  {
    hide Tree, Sound, Proper, Bounded;
    deepest := 1;
    var node := new Node(1.0, rootPos, null, 0);
    var ok;
    ok, kids := Plant(m, c, net, node, rootPos, 0);
    if !ok { return null, kids, deepest; }
    root := node;
    var asked := 1;
    var s := 0;
    while s < sims
      invariant 0 <= s && (s <= sims || s == 0)
      invariant root != null && Tree(c, kids, root, deepest) && fresh(kids.Keys) && root.pos == rootPos
      invariant root.visits == s
    {
      RootIsIn(c, kids, root, deepest);
      ghost var path;
      ok, asked, kids, deepest, path := Simulate(m, c, net, cPuct, kids, root, rootPos, deepest, asked);
      if !ok { return null, kids, deepest; }
      s := s + 1;
    }
  }

  // ---- The move played --------------------------------------------------------------------------

  /** math.Pow, as far as it matters: positive on a positive base. */
  ghost predicate Powers(pow: (real, real) -> real) {
    forall x, y :: x > 0.0 ==> pow(x, y) > 0.0
  }

  /** What a child weighs at a temperature above zero. */
  function Weight(pow: (real, real) -> real, temp: real, child: Node): real
    requires temp > 0.0
    reads child
  {
    pow(child.visits as real + 1.0, 1.0 / temp)
  }

  function RootWeights(pow: (real, real) -> real, temp: real, nodes: seq<Node>): (r: seq<real>)
    requires temp > 0.0
    reads nodes
    ensures |r| == |nodes| && forall i | 0 <= i < |r| :: r[i] == Weight(pow, temp, nodes[i])
  {
    if nodes == [] then []
    else RootWeights(pow, temp, nodes[..|nodes| - 1]) + [Weight(pow, temp, nodes[|nodes| - 1])]
  }

  method MostVisitedChild(root: Node) returns (best: nat)
    requires root.children != []
    ensures best < |root.children|
    ensures forall j | 0 <= j < |root.children| :: root.children[j].visits <= root.children[best].visits
    ensures forall j | 0 <= j < best :: root.children[j].visits < root.children[best].visits
  {
    best := 0;
    for i := 0 to |root.children|
      invariant best < |root.children| && (i > 0 ==> best < i) && (i == 0 ==> best == 0)
      invariant forall j | 0 <= j < i :: root.children[j].visits <= root.children[best].visits
      invariant forall j | 0 <= j < best :: root.children[j].visits < root.children[best].visits
    {
      if root.children[i].visits > root.children[best].visits { best := i; }
    }
  }

  method Weigh(pow: (real, real) -> real, root: Node, temp: real, ghost w: seq<real>)
    returns (weights: array<real>, total: real)
    requires temp > 0.0 && w == RootWeights(pow, temp, root.children)
    ensures fresh(weights) && weights[..] == w && total == Sum(w)
  {
    hide RootWeights, Sum;
    weights, total := new real[|root.children|], 0.0;
    assert Sum(w[..0]) == 0.0 by { SumOfNone(w[..0]); }
    for i := 0 to |root.children|
      invariant forall j | 0 <= j < i :: weights[j] == w[j]
      invariant total == Sum(w[..i])
    {
      weights[i] := pow(root.children[i].visits as real + 1.0, 1.0 / temp);
      assert weights[i] == Weight(pow, temp, root.children[i]);
      total := total + weights[i];
      SumStep(w, i);
    }
    assert weights[..] == w && w[..|w|] == w;
  }

  lemma WeightsArePositive(pow: (real, real) -> real, temp: real, nodes: seq<Node>)
    requires Powers(pow) && temp > 0.0 && nodes != []
    ensures Sum(RootWeights(pow, temp, nodes)) > 0.0
  {
    SumPositive(RootWeights(pow, temp, nodes));
  }

  method PickByWeight(pow: (real, real) -> real, root: Node, temp: real, draw: real) returns (pick: nat)
    requires Powers(pow) && root.children != [] && 0.0 <= draw < 1.0 && temp > 0.0
    ensures pick < |root.children|
    ensures var w := RootWeights(pow, temp, root.children);
      Sum(w[..pick]) <= Share(draw, Sum(w)) < Sum(w[..pick + 1])
  {
    WeightsArePositive(pow, temp, root.children);
    ghost var w := RootWeights(pow, temp, root.children);
    hide RootWeights, Powers, Weight;
    var weights, total := Weigh(pow, root, temp, w);
    hide Share;
    pick := Into(weights, Share(draw, total));
  }

  /** The loop that walks the draw into the weights. */
  method Into(weights: array<real>, draw: real) returns (pick: nat)
    requires 0.0 <= draw < Sum(weights[..])
    ensures pick < weights.Length
    ensures Sum(weights[..][..pick]) <= draw < Sum(weights[..][..pick + 1])
  {
    ghost var w := weights[..];
    assert Sum(w[..0]) == 0.0 by { SumOfNone(w[..0]); }
    assert w[..weights.Length] == w;
    hide Sum;
    var r := draw;
    for i := 0 to weights.Length
      invariant r == draw - Sum(w[..i]) && r >= 0.0
    {
      SumStep(w, i);
      if r < weights[i] { return i; }
      r := r - weights[i];
    }
    assert false;
  }

  lemma SumOfNone(s: seq<real>)
    requires s == []
    ensures Sum(s) == 0.0
  {
  }

  /** How far into the total weight a draw from [0, 1) reaches. */
  function Share(draw: real, total: real): (r: real)
    ensures 0.0 <= draw < 1.0 && total > 0.0 ==> 0.0 <= r < total
  {
    Fraction(draw, total);
    draw * total
  }

  lemma Fraction(x: real, s: real)
    ensures 0.0 <= x < 1.0 && s > 0.0 ==> 0.0 <= x * s < s
  {
    if 0.0 <= x < 1.0 && s > 0.0 { assert (1.0 - x) * s > 0.0; }
  }

  /** The first most-visited child at temperature zero; above it the child whose share of the total
      weight the draw falls into, so the fallback after the loop is never reached. */
  method PickRoot(pow: (real, real) -> real, root: Node, temp: real, draw: real) returns (pick: nat)
    requires Powers(pow) && root.children != [] && 0.0 <= draw < 1.0
    ensures pick < |root.children|
    ensures temp <= 0.0 ==> forall j | 0 <= j < |root.children| ::
      root.children[j].visits <= root.children[pick].visits
    ensures temp <= 0.0 ==> forall j | 0 <= j < pick ::
      root.children[j].visits < root.children[pick].visits
    ensures temp > 0.0 ==>
      var w := RootWeights(pow, temp, root.children);
      Sum(w[..pick]) <= draw * Sum(w) < Sum(w[..pick + 1])
  {
    hide RootWeights, Sum, Powers;
    if temp <= 0.0 {
      pick := MostVisitedChild(root);
    } else {
      pick := PickByWeight(pow, root, temp, draw);
    }
  }

  ghost predicate MatesNow(c: Chess, pos: string, move: string) {
    move in c.legal(pos) && c.status(c.play(pos, move)) == Checkmate
  }

  /** The probe before the search. */
  method MateInOne(c: Chess, pos: string) returns (move: Option<string>)
    ensures move.Some? ==> MatesNow(c, pos, move.value)
    ensures move.None? ==> forall mv :: !MatesNow(c, pos, mv)
  {
    var moves := c.legal(pos);
    for i := 0 to |moves|
      invariant forall j | 0 <= j < i :: c.status(c.play(pos, moves[j])) != Checkmate
    {
      if c.status(c.play(pos, moves[i])) == Checkmate { return Some(moves[i]); }
    }
    return None;
  }

  /** A search tree of exactly this many simulations from this position. */
  ghost predicate Searched(c: Chess, kids: Kids, root: Node, pos: string, sims: nat)
    reads kids.Keys, root
  {
    && root in kids && root.pos == pos && root.visits == sims
    && (exists deepest: nat :: Tree(c, kids, root, deepest))
  }

  /** The move is a most visited one, with at least its share of the simulations. */
  ghost predicate MostVisited(root: Node, sims: nat, move: string)
    reads root, root.children
  {
    exists pick: nat ::
      && pick < |root.children| == |root.moves| && move == root.moves[pick]
      && (forall j | 0 <= j < |root.children| :: root.children[j].visits <= root.children[pick].visits)
      && root.children[pick].visits * |root.moves| >= sims
  }

  /** The draw falls into the move's share of the weights. */
  ghost predicate Sampled(pow: (real, real) -> real, root: Node, temp: real, draw: real, move: string)
    requires temp > 0.0
    reads root, root.children
  {
    var w := RootWeights(pow, temp, root.children);
    exists pick: nat ::
      && pick < |w| == |root.moves| && move == root.moves[pick]
      && Sum(w[..pick]) <= draw * Sum(w) < Sum(w[..pick + 1])
  }

  /** The root's simulations are shared out among its moves. */
  lemma RootSharesVisits(c: Chess, kids: Kids, root: Node, deepest: nat)
    requires Tree(c, kids, root, deepest)
    ensures root in kids && root.moves == c.legal(root.pos) && |root.children| == |root.moves|
    ensures root.visits == Count(Visits(root.children))
    ensures forall n | n in root.children :: n in kids
  {
    TreeParts(c, kids, root, deepest);
    TidyAt(c, kids, root, deepest, root);
    assert Shows(c, kids, root) && Books(c, kids, root);
  }

  lemma IsMostVisited(c: Chess, kids: Kids, root: Node, deepest: nat, sims: nat, pick: nat)
    requires Tree(c, kids, root, deepest) && root.visits == sims && pick < |root.children| == |root.moves|
    requires forall j | 0 <= j < |root.children| :: root.children[j].visits <= root.children[pick].visits
    ensures MostVisited(root, sims, root.moves[pick])
  {
    hide Tree, Count;
    RootSharesVisits(c, kids, root, deepest);
    CountAtMost(Visits(root.children), root.children[pick].visits);
  }

  method SearchOn(m: Maths, c: Chess, net: Network, pow: (real, real) -> real, cPuct: real, pos: string,
                  sims: nat, temp: real, draw: real)
    returns (move: Option<string>, ghost kids: Kids, ghost root: Node?)
    requires Sound(m) && Proper(c) && Bounded(net) && Powers(pow) && 0.0 <= draw < 1.0 && c.legal(pos) != []
    ensures move.Some? ==> move.value in c.legal(pos)
    ensures move.None? ==> exists p, k :: net(p, k).None?
    ensures move.Some? ==>
      && root != null && Searched(c, kids, root, pos, sims)
      && if temp <= 0.0 then MostVisited(root, sims, move.value) else Sampled(pow, root, temp, draw, move.value)
  {
    hide Tree, Sound, Proper, Bounded, Powers, RootWeights, Sum, Visits, Count, MostVisited, Share;
    var node: Node?;
    ghost var deepest;
    node, kids, deepest := RunSimulations(m, c, net, cPuct, pos, sims);
    root := node;
    if node == null { return None, kids, root; }
    RootSharesVisits(c, kids, node, deepest);
    var pick := PickRoot(pow, node, temp, draw);
    if temp <= 0.0 {
      IsMostVisited(c, kids, node, deepest, sims, pick);
    } else {
      assert Sampled(pow, node, temp, draw, node.moves[pick]);
    }
    move := Some(node.moves[pick]);
  }

  /** A legal move, or None for a finished position or a failing network. A mate in one is always
      found; otherwise the search tree is one of `sims` simulations and the move is a most visited one
      of it, or above temperature zero the one the draw falls to. */
  method Search(m: Maths, c: Chess, net: Network, pow: (real, real) -> real, cPuct: real, pos: string,
                sims: nat, temp: real, draw: real)
    returns (move: Option<string>, ghost kids: Kids, ghost root: Node?)
    requires Sound(m) && Proper(c) && Bounded(net) && Powers(pow) && 0.0 <= draw < 1.0
    ensures move.Some? ==> move.value in c.legal(pos)
    ensures (exists mv :: MatesNow(c, pos, mv)) ==> move.Some? && MatesNow(c, pos, move.value)
    ensures move.None? ==> c.legal(pos) == [] || exists p, k :: net(p, k).None?
    ensures move.Some? && !MatesNow(c, pos, move.value) ==>
      && root != null && Searched(c, kids, root, pos, sims)
      && if temp <= 0.0 then MostVisited(root, sims, move.value) else Sampled(pow, root, temp, draw, move.value)
  {
    kids, root := map[], null;
    hide Tree, Sound, Proper, Bounded, Powers, MostVisited, Sampled, Searched;
    if |c.legal(pos)| == 0 { return None, kids, root; }
    move := MateInOne(c, pos);
    if move.Some? { return; }
    move, kids, root := SearchOn(m, c, net, pow, cPuct, pos, sims, temp, draw);
  }

  // ---- What the statistics mean -----------------------------------------------------------------

  /** In every tree the search makes: the root's visits are its children's; an expanded node below
      it was visited once more than its children together and holds its own estimate less their
      values; a finished game holds its result once a visit; an unvisited node holds nothing; and
      every average is in [-1, 1]. */
  lemma StatisticsAddUp(c: Chess, kids: Kids, root: Node, deepest: nat, n: Node)
    requires Tree(c, kids, root, deepest) && n in kids
    ensures Statistics(c, root, n)
  {
    hide Neat, Closed, Tree, Hangs;
    TreeParts(c, kids, root, deepest);
    TidyAt(c, kids, root, deepest, n);
    assert Shows(c, kids, n) && Books(c, kids, n);
    assert n.parent == null <==> n == root;
    AverageIsFair(n);
    hide Visits, Values, Sum, Count, InSlot;
  }

  ghost predicate Statistics(c: Chess, root: Node, n: Node)
    reads n, n.children
  {
    && (n.children != [] && n == root ==> n.visits == Count(Visits(n.children)))
    && (n.children != [] && n != root ==>
          && n.visits == 1 + Count(Visits(n.children))
          && n.valueSum == n.own - Sum(Values(n.children)))
    && (n.children == [] ==>
          match c.status(n.pos)
          case Checkmate => n.valueSum == -(n.visits as real)
          case Stalemate => n.valueSum == 0.0
          case Going => n.visits == 0 && n.valueSum == 0.0)
    && -1.0 <= n.Q() <= 1.0
    && (forall i | 0 <= i < |n.children| :: n.children[i].prior > 0.0)
    && (n.children != [] ==> Sum(Priors(n.children)) == 1.0)
  }

  lemma AverageIsFair(n: Node)
    requires Fair(n)
    ensures -1.0 <= n.Q() <= 1.0
  {
    if n.visits != 0 {
      var q, v := n.Q(), n.visits as real;
      assert q * v == n.valueSum;
      assert (q - 1.0) * v <= 0.0;
      assert (q + 1.0) * v >= 0.0;
    }
  }
}
