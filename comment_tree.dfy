/** The comment tree as it is composed on screen: every comment is its own card with its own
    remembered state, and a card draws its replies, one level deeper, only while it is not
    collapsed. The replies of a collapsed card leave the composition (AnimatedVisibility removes
    them once its exit animation ends), so their remembered state is dropped and they are
    composed afresh from the server response when the card is expanded again. Nodes are
    addressed by their path of child indices, because ids need not be distinct. */
module CommentTree {
  import opened Votes
  import opened CommentCards

  /** A comment: its id, the vote and score the server delivered for it (what its card is
      composed with), the state its card remembers now, and its replies. */
  datatype Comment = Comment(id: string, server: VoteView, card: CardView, children: seq<Comment>)

  type Path = seq<nat>

  predicate ValidPath(t: Comment, p: Path)
    decreases |p|
  {
    p == [] || (p[0] < |t.children| && ValidPath(t.children[p[0]], p[1..]))
  }

  function NodeAt(t: Comment, p: Path): Comment
    requires ValidPath(t, p)
    decreases |p|
  {
    if p == [] then t else NodeAt(t.children[p[0]], p[1..])
  }

  /** No card strictly above the node at `p` is collapsed. */
  predicate Shown(t: Comment, p: Path)
    requires ValidPath(t, p)
    decreases |p|
  {
    p == [] || (!t.card.collapsed && Shown(t.children[p[0]], p[1..]))
  }

  /** The subtree `t` as it is composed from the server response: every card built from its
      server pair, expanded, menu closed. */
  function Compose(t: Comment): Comment
    decreases t, 1
  {
    Comment(t.id, t.server, InitialCard(t.server), ComposeAll(t.children))
  }

  function ComposeAll(cs: seq<Comment>): (rs: seq<Comment>)
    ensures |rs| == |cs| && forall i :: 0 <= i < |cs| ==> rs[i] == Compose(cs[i])
    decreases cs, 0
  {
    seq(|cs|, i requires 0 <= i < |cs| => Compose(cs[i]))
  }

  /** Every card of `t` is as it was composed from the server response. */
  predicate Fresh(t: Comment)
    decreases t
  {
    t.card == InitialCard(t.server) && forall i :: 0 <= i < |t.children| ==> Fresh(t.children[i])
  }

  /** The trees the screen can reach: the replies of a collapsed card are out of the
      composition, so they hold nothing but what the server sent. */
  predicate Settled(t: Comment)
    decreases t
  {
    (t.card.collapsed ==> forall i :: 0 <= i < |t.children| ==> Fresh(t.children[i]))
    && forall i :: 0 <= i < |t.children| ==> Settled(t.children[i])
  }

  /** Composing a subtree composes every node in it, and keeps its shape. */
  lemma {:induction false} ComposedAt(t: Comment, q: Path)
    requires ValidPath(t, q)
    ensures ValidPath(Compose(t), q) && NodeAt(Compose(t), q) == Compose(NodeAt(t, q))
    decreases |q|
  {
    if q != [] {
      ComposedAt(t.children[q[0]], q[1..]);
    }
  }

  /** A freshly composed tree is fresh, and a fresh tree composes to itself. */
  lemma {:induction false} ComposeIsFresh(t: Comment)
    ensures Fresh(Compose(t))
    ensures Fresh(t) ==> Compose(t) == t
    decreases t
  {
    var cs := ComposeAll(t.children);
    forall i | 0 <= i < |t.children|
      ensures Fresh(cs[i]) && (Fresh(t.children[i]) ==> cs[i] == t.children[i])
    {
      ComposeIsFresh(t.children[i]);
    }
    if Fresh(t) {
      assert cs == t.children;
    }
  }

  /** A fresh tree is a reachable one: nothing in it is collapsed. */
  lemma {:induction false} FreshIsSettled(t: Comment)
    requires Fresh(t)
    ensures Settled(t)
    decreases t
  {
    forall i | 0 <= i < |t.children|
      ensures Settled(t.children[i])
    {
      FreshIsSettled(t.children[i]);
    }
  }

  lemma {:induction false} SettledAt(t: Comment, p: Path)
    requires Settled(t) && ValidPath(t, p)
    ensures Settled(NodeAt(t, p))
    decreases |p|
  {
    if p != [] {
      SettledAt(t.children[p[0]], p[1..]);
    }
  }

  /** The tree with the node at `p` replaced by `n`. */
  function ReplaceAt(t: Comment, p: Path, n: Comment): (r: Comment)
    requires ValidPath(t, p)
    ensures ValidPath(r, p) && NodeAt(r, p) == n
    ensures p != [] ==> r.id == t.id && r.server == t.server && r.card == t.card
                        && |r.children| == |t.children|
    decreases |p|
  {
    if p == [] then n
    else t.(children := t.children[p[0] := ReplaceAt(t.children[p[0]], p[1..], n)])
  }

  /** Replacing the node at `p` changes nothing outside its subtree: every node not below `p`
      keeps its id, server pair and card, and every node that is neither above nor below `p`
      keeps its whole subtree. */
  lemma {:induction false} ReplaceAtLeavesOutside(t: Comment, p: Path, n: Comment, q: Path)
    requires ValidPath(t, p) && ValidPath(t, q) && !(p <= q)
    ensures ValidPath(ReplaceAt(t, p, n), q)
    ensures NodeAt(ReplaceAt(t, p, n), q).id == NodeAt(t, q).id
    ensures NodeAt(ReplaceAt(t, p, n), q).server == NodeAt(t, q).server
    ensures NodeAt(ReplaceAt(t, p, n), q).card == NodeAt(t, q).card
    ensures |NodeAt(ReplaceAt(t, p, n), q).children| == |NodeAt(t, q).children|
    ensures !(q <= p) ==> NodeAt(ReplaceAt(t, p, n), q) == NodeAt(t, q)
    decreases |q|
  {
    if q != [] && p[0] == q[0] {
      assert p == [p[0]] + p[1..] && q == [q[0]] + q[1..];
      ReplaceAtLeavesOutside(t.children[p[0]], p[1..], n, q[1..]);
    }
  }

  lemma {:induction false} ReplaceAtSame(t: Comment, p: Path)
    requires ValidPath(t, p)
    ensures ReplaceAt(t, p, NodeAt(t, p)) == t
    decreases |p|
  {
    if p != [] {
      ReplaceAtSame(t.children[p[0]], p[1..]);
      assert t.children[p[0] := t.children[p[0]]] == t.children;
    }
  }

  /** Replacing a drawn node by a reachable one keeps the tree reachable. */
  lemma {:induction false} ReplaceAtKeepsSettled(t: Comment, p: Path, n: Comment)
    requires Settled(t) && ValidPath(t, p) && Shown(t, p) && Settled(n)
    ensures Settled(ReplaceAt(t, p, n))
    decreases |p|
  {
    if p != [] {
      var i := p[0];
      ReplaceAtKeepsSettled(t.children[i], p[1..], n);
      var r := ReplaceAt(t, p, n);
      forall j | 0 <= j < |r.children|
        ensures Settled(r.children[j])
      {
        if j != i {
          assert r.children[j] == t.children[j];
        }
      }
    }
  }

  /** The card at `p` after a press, with its replies: a press that collapses the card drops
      its replies from the composition, so they go back to what the server sent; any other
      press leaves them composed as they are. */
  function Pressed(node: Comment, heldMs: int, released: bool): (n: Comment)
    ensures n.id == node.id && n.server == node.server && |n.children| == |node.children|
    ensures n.card == PressEffect(node.card, heldMs, released)
    ensures n.card.collapsed && !node.card.collapsed ==>
              forall i :: 0 <= i < |n.children| ==> n.children[i] == Compose(node.children[i])
    ensures !(n.card.collapsed && !node.card.collapsed) ==> n.children == node.children
  {
    var c := PressEffect(node.card, heldMs, released);
    Comment(node.id, node.server, c,
            if c.collapsed && !node.card.collapsed then ComposeAll(node.children) else node.children)
  }

  /** A press on the card at `p`. */
  function PressAt(t: Comment, p: Path, heldMs: int, released: bool): (r: Comment)
    requires ValidPath(t, p)
    ensures ValidPath(r, p) && NodeAt(r, p).card == PressEffect(NodeAt(t, p).card, heldMs, released)
  {
    ReplaceAt(t, p, Pressed(NodeAt(t, p), heldMs, released))
  }

  /** A long press that collapses a card disposes every descendant: each node below `p` is
      replaced by its subtree as composed from the server response. */
  lemma CollapseDisposesReplies(t: Comment, p: Path, heldMs: int, released: bool, q: Path)
    requires ValidPath(t, p) && heldMs >= HoldDuration && !NodeAt(t, p).card.collapsed
    requires ValidPath(NodeAt(t, p), q) && q != []
    ensures var below := NodeAt(PressAt(t, p, heldMs, released), p);
            ValidPath(below, q) && NodeAt(below, q) == Compose(NodeAt(NodeAt(t, p), q))
            && NodeAt(below, q).card == InitialCard(NodeAt(NodeAt(t, p), q).server)
  {
    var node := NodeAt(t, p);
    var i := q[0];
    ComposedAt(node.children[i], q[1..]);
  }

  /** A short press (it only toggles the menu) and a press that expands a collapsed card leave
      every node below the pressed card as it was. */
  lemma PressKeepsReplies(t: Comment, p: Path, heldMs: int, released: bool, q: Path)
    requires ValidPath(t, p) && (heldMs < HoldDuration || NodeAt(t, p).card.collapsed)
    requires ValidPath(NodeAt(t, p), q)
    ensures var below := NodeAt(PressAt(t, p, heldMs, released), p);
            q != [] ==> ValidPath(below, q) && NodeAt(below, q) == NodeAt(NodeAt(t, p), q)
  {
  }

  /** A press changes nothing outside the pressed card's subtree. */
  lemma PressAtLeavesOutside(t: Comment, p: Path, heldMs: int, released: bool, q: Path)
    requires ValidPath(t, p) && ValidPath(t, q) && !(p <= q)
    ensures ValidPath(PressAt(t, p, heldMs, released), q)
    ensures NodeAt(PressAt(t, p, heldMs, released), q).card == NodeAt(t, q).card
    ensures !(q <= p) ==> NodeAt(PressAt(t, p, heldMs, released), q) == NodeAt(t, q)
  {
    ReplaceAtLeavesOutside(t, p, Pressed(NodeAt(t, p), heldMs, released), q);
  }

  /** Collapsing and then expanding a card gives back the original tree with every descendant
      of that card composed afresh from the server response; the card itself is as it was. */
  lemma CollapseThenExpand(t: Comment, p: Path, heldMs: int, released: bool)
    requires ValidPath(t, p) && heldMs >= HoldDuration && !NodeAt(t, p).card.collapsed
    ensures PressAt(PressAt(t, p, heldMs, released), p, heldMs, released)
            == ReplaceAt(t, p, NodeAt(t, p).(children := ComposeAll(NodeAt(t, p).children)))
  {
  }

  /** When the card's replies hold nothing but what the server sent, collapsing and then
      expanding it restores the whole tree. */
  lemma CollapseThenExpandFresh(t: Comment, p: Path, heldMs: int, released: bool)
    requires ValidPath(t, p) && heldMs >= HoldDuration && !NodeAt(t, p).card.collapsed
    requires forall i :: 0 <= i < |NodeAt(t, p).children| ==> Fresh(NodeAt(t, p).children[i])
    ensures PressAt(PressAt(t, p, heldMs, released), p, heldMs, released) == t
  {
    var node := NodeAt(t, p);
    CollapseThenExpand(t, p, heldMs, released);
    forall i | 0 <= i < |node.children|
      ensures Compose(node.children[i]) == node.children[i]
    {
      ComposeIsFresh(node.children[i]);
    }
    assert ComposeAll(node.children) == node.children;
    assert node.(children := node.children) == node;
    ReplaceAtSame(t, p);
  }

  /** A short press (it only toggles the menu) twice on the same card restores the whole tree. */
  lemma ShortPressTwiceRestores(t: Comment, p: Path, heldMs: int, released: bool)
    requires ValidPath(t, p) && heldMs < HoldDuration
    ensures PressAt(PressAt(t, p, heldMs, released), p, heldMs, released) == t
  {
  }

  /** Pressing a drawn card keeps the tree reachable: the replies of every collapsed card
      still hold nothing but what the server sent. */
  lemma PressKeepsSettled(t: Comment, p: Path, heldMs: int, released: bool)
    requires Settled(t) && ValidPath(t, p) && Shown(t, p)
    ensures Settled(PressAt(t, p, heldMs, released))
  {
    var node := NodeAt(t, p);
    var n := Pressed(node, heldMs, released);
    SettledAt(t, p);
    if n.card.collapsed && !node.card.collapsed {
      forall i | 0 <= i < |n.children|
        ensures Fresh(n.children[i]) && Settled(n.children[i])
      {
        ComposeIsFresh(node.children[i]);
        FreshIsSettled(n.children[i]);
      }
    }
    assert Settled(n);
    ReplaceAtKeepsSettled(t, p, n);
  }

  /** One drawn card: where it sits in the tree, its id, its indentation level and its state. */
  datatype Row = Row(path: Path, id: string, level: int, card: CardView)

  /** The cards drawn for the subtree `t`, which sits at `at` and is drawn at `level`, in
      drawing order: the card itself, then each reply at `level + 1` unless it is collapsed. */
  function Render(t: Comment, level: int, at: Path): (rows: seq<Row>)
    ensures forall k :: 0 <= k < |rows| ==> rows[k].level >= level && at <= rows[k].path
    decreases t, 1
  {
    [Row(at, t.id, level, t.card)]
      + (if t.card.collapsed then [] else RenderChildren(t.children, level + 1, at, 0))
  }

  /** The cards drawn for replies `cs[from..]` of the node at `at`. */
  function RenderChildren(cs: seq<Comment>, level: int, at: Path, from: nat): (rows: seq<Row>)
    requires from <= |cs|
    ensures forall k :: 0 <= k < |rows| ==> rows[k].level >= level && at < rows[k].path
    decreases cs, 0, |cs| - from
  {
    if from == |cs| then []
    else Render(cs[from], level, at + [from]) + RenderChildren(cs, level, at, from + 1)
  }

  lemma {:induction false} RenderChildrenContains(cs: seq<Comment>, level: int, at: Path, from: nat, i: nat)
    requires from <= i < |cs|
    ensures forall row :: row in Render(cs[i], level, at + [i]) ==> row in RenderChildren(cs, level, at, from)
    decreases i - from
  {
    if from < i {
      RenderChildrenContains(cs, level, at, from + 1, i);
    }
  }

  lemma {:induction false} RowInChildren(cs: seq<Comment>, level: int, at: Path, from: nat, row: Row) returns (i: nat)
    requires from <= |cs| && row in RenderChildren(cs, level, at, from)
    ensures from <= i < |cs| && row in Render(cs[i], level, at + [i])
    decreases |cs| - from
  {
    if row in Render(cs[from], level, at + [from]) {
      i := from;
    } else {
      i := RowInChildren(cs, level, at, from + 1, row);
    }
  }

  /** Every card with no collapsed card above it is drawn, at its depth below `level`. */
  lemma {:induction false} ShownIsRendered(t: Comment, level: int, at: Path, p: Path)
    requires ValidPath(t, p) && Shown(t, p)
    ensures Row(at + p, NodeAt(t, p).id, level + |p|, NodeAt(t, p).card) in Render(t, level, at)
    decreases |p|
  {
    if p == [] {
      assert at + p == at;
      assert Render(t, level, at)[0] == Row(at, t.id, level, t.card);
    } else {
      var i := p[0];
      ShownIsRendered(t.children[i], level + 1, at + [i], p[1..]);
      assert (at + [i]) + p[1..] == at + p;
      RenderChildrenContains(t.children, level + 1, at, 0, i);
    }
  }

  /** Walking one step down from the root to reply `i`. */
  lemma StepDown(t: Comment, i: nat, rel: Path)
    requires i < |t.children| && ValidPath(t.children[i], rel)
    ensures ValidPath(t, [i] + rel)
    ensures NodeAt(t, [i] + rel) == NodeAt(t.children[i], rel)
    ensures Shown(t, [i] + rel) <==> !t.card.collapsed && Shown(t.children[i], rel)
  {
    assert ([i] + rel)[0] == i && ([i] + rel)[1..] == rel;
  }

  lemma NotHeadIsReply(t: Comment, level: int, at: Path, row: Row)
    requires row in Render(t, level, at) && row != Row(at, t.id, level, t.card)
    ensures !t.card.collapsed && row in RenderChildren(t.children, level + 1, at, 0)
  {
  }

  /** A row drawn for reply `i` at `below` is the row of the node at `[i] + below`. */
  lemma LiftRow(t: Comment, level: int, at: Path, i: nat, below: Path, row: Row)
    requires i < |t.children| && !t.card.collapsed
    requires ValidPath(t.children[i], below) && Shown(t.children[i], below)
    requires row == Row((at + [i]) + below, NodeAt(t.children[i], below).id, level + 1 + |below|,
                        NodeAt(t.children[i], below).card)
    ensures ValidPath(t, [i] + below) && Shown(t, [i] + below) && row.path == at + ([i] + below)
    ensures row == Row(at + ([i] + below), NodeAt(t, [i] + below).id, level + |[i] + below|,
                       NodeAt(t, [i] + below).card)
  {
    StepDown(t, i, below);
    assert at + ([i] + below) == (at + [i]) + below;
  }

  /** Every drawn card is a node of the tree with no collapsed card above it, drawn with that
      node's id and state at its depth below `level`; `rel` is its path below `at`. */
  lemma {:induction false} RenderedIsShown(t: Comment, level: int, at: Path, row: Row) returns (rel: Path)
    requires row in Render(t, level, at)
    ensures row.path == at + rel && ValidPath(t, rel) && Shown(t, rel)
    ensures row == Row(at + rel, NodeAt(t, rel).id, level + |rel|, NodeAt(t, rel).card)
    decreases t
  {
    if row == Row(at, t.id, level, t.card) {
      rel := [];
      assert at + rel == at;
    } else {
      NotHeadIsReply(t, level, at, row);
      var i := RowInChildren(t.children, level + 1, at, 0, row);
      var below := RenderedIsShown(t.children[i], level + 1, at + [i], row);
      rel := [i] + below;
      LiftRow(t, level, at, i, below, row);
    }
  }

  /** A node is drawn if and only if no card above it is collapsed. */
  lemma RenderedIff(t: Comment, level: int, at: Path, p: Path)
    ensures (exists row :: row in Render(t, level, at) && row.path == at + p)
            <==> ValidPath(t, p) && Shown(t, p)
  {
    if ValidPath(t, p) && Shown(t, p) {
      ShownIsRendered(t, level, at, p);
    }
    forall row | row in Render(t, level, at) && row.path == at + p
      ensures ValidPath(t, p) && Shown(t, p)
    {
      var rel := RenderedIsShown(t, level, at, row);
      assert rel == row.path[|at|..] == p;
    }
  }

  /** A collapsed card is not shown above any node strictly below it. */
  lemma {:induction false} CollapsedAncestorHides(t: Comment, p: Path, r: Path)
    requires ValidPath(t, p) && NodeAt(t, p).card.collapsed
    requires ValidPath(t, r) && Shown(t, r)
    ensures !(p < r)
    decreases |p|
  {
    if p != [] && r != [] && p[0] == r[0] {
      CollapsedAncestorHides(t.children[p[0]], p[1..], r[1..]);
      assert p == [p[0]] + p[1..] && r == [r[0]] + r[1..];
    }
  }

  /** A collapsed card hides all its descendants, at every depth. */
  lemma CollapsedHidesDescendants(t: Comment, level: int, at: Path, p: Path, q: Path)
    requires ValidPath(t, p) && NodeAt(t, p).card.collapsed && q != []
    ensures forall row :: row in Render(t, level, at) ==> row.path != at + p + q
  {
    forall row | row in Render(t, level, at)
      ensures row.path != at + p + q
    {
      var rel := RenderedIsShown(t, level, at, row);
      CollapsedAncestorHides(t, p, rel);
      assert rel == row.path[|at|..];
    }
  }

  /** A collapsed card draws itself alone. */
  lemma CollapsedDrawsOnlyItself(t: Comment, level: int, at: Path)
    requires t.card.collapsed
    ensures Render(t, level, at) == [Row(at, t.id, level, t.card)]
  {
  }
}
