/** The enter/leave event stream the handlers are driven by, the depth-first
    walk that produces it from a document tree, and a dispatcher that sends
    each event to its handler. The balance results say that a walked tree
    leaves the container stack as deep as it found it, and that no leave
    event ever finds only the root frame. */
module Traversal {

  import opened Layout
  import opened Render

  /** The container nodes, with the node data their handlers read. */
  datatype NodeKind =
    | ListNode(ordered: bool, definition: bool)
    | ItemNode
    | EmphNode
    | StrongNode
    | LinkNode(destination: string)
    | ImageNode
    | ParagraphNode
    | BlockQuoteNode
    | HeadingNode(level: int)
    | TableNode
    | TableHeadNode
    | TableBodyNode
    | TableRowNode
    | TableCellNode(isHeader: bool)

  /** The nodes without children. `headingId` is the heading id stored on the
      text node's parent: the heading's own id when the parent is a heading,
      and empty when it is any other node, such as an emphasis inside a heading. */
  datatype Leaf =
    | TextLeaf(literal: string, headingId: string)
    | CodeLeaf(literal: string)
    | CodeBlockLeaf(literal: string)
    | HTMLBlockLeaf(literal: string)
    | HorizontalRuleLeaf

  datatype Event = Enter(kind: NodeKind) | Leave(kind: NodeKind) | Visit(leaf: Leaf)

  /** A document tree. */
  datatype Node = Container(kind: NodeKind, children: seq<Node>) | LeafNode(leaf: Leaf)

  /** Whether entering a node pushes a frame: the style, image and paragraph
      handlers never do, and a heading does only for the levels that have a style. */
  predicate PushesOnEnter(k: NodeKind)
  {
    match k
    case EmphNode => false
    case StrongNode => false
    case ImageNode => false
    case ParagraphNode => false
    case HeadingNode(level) => 1 <= level <= 6
    case _ => true
  }

  /** Whether leaving a node pops a frame: a heading pops at every level. */
  predicate PopsOnLeave(k: NodeKind)
  {
    !(k.EmphNode? || k.StrongNode? || k.ImageNode? || k.ParagraphNode?)
  }

  predicate Pops(e: Event)
  {
    e.Leave? && PopsOnLeave(e.kind)
  }

  /** The change of stack depth one event causes. */
  function Delta(e: Event): (d: int)
    ensures -1 <= d <= 1
    ensures d == -1 <==> Pops(e)
    ensures d == 1 <==> e.Enter? && PushesOnEnter(e.kind)
  {
    match e
    case Enter(k) => if PushesOnEnter(k) then 1 else 0
    case Leave(k) => if PopsOnLeave(k) then -1 else 0
    case Visit(_) => 0
  }

  /** The change of stack depth a sequence of events causes. */
  function Net(es: seq<Event>): int
  {
    if es == [] then 0 else Delta(es[0]) + Net(es[1..])
  }

  /** Started at depth `d`, every pop of `es` finds at least two frames. */
  predicate SafeFrom(d: int, es: seq<Event>)
    decreases |es|
  {
    es == [] || ((Pops(es[0]) ==> d >= 2) && SafeFrom(d + Delta(es[0]), es[1..]))
  }

  /** The events of a depth-first walk: a container is entered, its children
      are walked in order, and it is left. */
  function Walk(n: Node): seq<Event>
    decreases n, 1
  {
    match n
    case LeafNode(l) => [Visit(l)]
    case Container(k, cs) => [Enter(k)] + WalkAll(cs) + [Leave(k)]
  }

  function WalkAll(ns: seq<Node>): seq<Event>
    decreases ns, 0
  {
    if ns == [] then [] else Walk(ns[0]) + WalkAll(ns[1..])
  }

  /** Whether an event is not the enter or leave of a list item. */
  predicate ItemFree(e: Event)
  {
    e.Visit? || !e.kind.ItemNode?
  }

  /** The tree holds no list item. */
  predicate NoItems(n: Node)
    decreases n, 1
  {
    match n
    case LeafNode(_) => true
    case Container(k, cs) => !k.ItemNode? && AllNoItems(cs)
  }

  predicate AllNoItems(ns: seq<Node>)
    decreases ns, 0
  {
    ns == [] || (NoItems(ns[0]) && AllNoItems(ns[1..]))
  }

  /** A walk of trees without items has no item event. */
  lemma {:induction false} WalkItemFree(n: Node)
    requires NoItems(n)
    ensures forall e :: e in Walk(n) ==> ItemFree(e)
    decreases n, 1
  {
    match n
    case LeafNode(_) =>
    case Container(k, cs) =>
      WalkAllItemFree(cs);
  }

  lemma {:induction false} WalkAllItemFree(ns: seq<Node>)
    requires AllNoItems(ns)
    ensures forall e :: e in WalkAll(ns) ==> ItemFree(e)
    decreases ns, 0
  {
    if ns != [] {
      WalkItemFree(ns[0]);
      WalkAllItemFree(ns[1..]);
    }
  }

  /** Every heading of the tree has a level between 1 and 6. */
  predicate HeadingsInRange(n: Node)
    decreases n, 1
  {
    match n
    case LeafNode(_) => true
    case Container(k, cs) => (k.HeadingNode? ==> 1 <= k.level <= 6) && AllHeadingsInRange(cs)
  }

  predicate AllHeadingsInRange(ns: seq<Node>)
    decreases ns, 0
  {
    ns == [] || (HeadingsInRange(ns[0]) && AllHeadingsInRange(ns[1..]))
  }

  lemma {:induction false} NetAppend(a: seq<Event>, b: seq<Event>)
    ensures Net(a + b) == Net(a) + Net(b)
  {
    if a == [] {
      assert a + b == b;
    } else {
      assert (a + b)[0] == a[0] && (a + b)[1..] == a[1..] + b;
      NetAppend(a[1..], b);
    }
  }

  /** Safety of a concatenation is safety of the first part and of the second
      part from the depth the first part leaves. */
  lemma {:induction false} SafeAppend(d: int, a: seq<Event>, b: seq<Event>)
    requires SafeFrom(d, a) && SafeFrom(d + Net(a), b)
    ensures SafeFrom(d, a + b)
    decreases |a|
  {
    if a == [] {
      assert a + b == b;
    } else {
      assert (a + b)[0] == a[0] && (a + b)[1..] == a[1..] + b;
      SafeAppend(d + Delta(a[0]), a[1..], b);
    }
  }

  /** Stack balance: walking a tree whose headings have styled levels, from
      any depth of at least one, changes the depth by nothing and never pops
      the root frame. */
  lemma {:induction false} WalkBalanced(n: Node, d: int)
    requires HeadingsInRange(n) && d >= 1
    ensures Net(Walk(n)) == 0 && SafeFrom(d, Walk(n))
    decreases n, 1
  {
    match n
    case LeafNode(l) =>
      assert Walk(n) == [Visit(l)];
      assert Walk(n)[1..] == [];
    case Container(k, cs) =>
      var inner := if PushesOnEnter(k) then d + 1 else d;
      WalkAllBalanced(cs, inner);
      var e := [Enter(k)];
      var l := [Leave(k)];
      assert e[0] == Enter(k) && e[1..] == [] && l[0] == Leave(k) && l[1..] == [];
      assert Net(e[1..]) == 0 && Net(l[1..]) == 0;
      assert Net(e) == Delta(e[0]) + Net(e[1..]) == inner - d;
      assert Net(l) == Delta(l[0]) + Net(l[1..]) == Delta(Leave(k));
      assert SafeFrom(d, e) && SafeFrom(inner, l);
      NetAppend(e, WalkAll(cs));
      NetAppend(e + WalkAll(cs), l);
      SafeAppend(d, e, WalkAll(cs));
      SafeAppend(d, e + WalkAll(cs), l);
  }

  lemma {:induction false} WalkAllBalanced(ns: seq<Node>, d: int)
    requires AllHeadingsInRange(ns) && d >= 1
    ensures Net(WalkAll(ns)) == 0 && SafeFrom(d, WalkAll(ns))
    decreases ns, 0
  {
    if ns != [] {
      WalkBalanced(ns[0], d);
      WalkAllBalanced(ns[1..], d);
      NetAppend(Walk(ns[0]), WalkAll(ns[1..]));
      SafeAppend(d, Walk(ns[0]), WalkAll(ns[1..]));
    }
  }

  /** Why the level bound is needed: a heading of level 7 pushes nothing but
      still pops, so its walk takes one frame too many. */
  lemma UnstyledHeadingUnbalanced()
    ensures Net(Walk(Container(HeadingNode(7), []))) == -1
    ensures !SafeFrom(1, Walk(Container(HeadingNode(7), [])))
  {
    var es := Walk(Container(HeadingNode(7), []));
    assert es == [Enter(HeadingNode(7)), Leave(HeadingNode(7))];
    assert es[1..] == [Leave(HeadingNode(7))] && es[1..][1..] == [];
  }

  /** How handling an event ended: a pop that would remove the root frame,
      or body-cell text past the recorded columns (an index panic in Go), stops
      the rendering. */
  datatype Status = Done | PopAtRoot | ColumnOutOfRange

  /** Send one event to its handler. */
  method Dispatch(r: Renderer, e: Event) returns (st: Status)
    requires r.Valid()
    modifies r, r.pdf
    ensures r.Valid()
    ensures st == PopAtRoot <==> Pops(e) && |old(r.stack)| < 2
    ensures st == ColumnOutOfRange <==>
              e.Visit? && e.leaf.TextLeaf? && old(BodyCellOverflow(r))
    ensures st != Done ==> unchanged(r) && unchanged(r.pdf)
    ensures st == Done ==> |r.stack| == |old(r.stack)| + Delta(e)
    // the frames below the top are kept, apart from those an item leave touches
    ensures st == Done && !Pops(e) ==> r.stack[..|old(r.stack)| - 1] == old(r.stack)[..|old(r.stack)| - 1]
    ensures st == Done && Pops(e) && ItemFree(e) ==> r.stack == old(r.stack)[..|old(r.stack)| - 1]
    ensures st == Done && ItemFree(e) ==> AddsNoMark(old(r.pdf.log), r.pdf.log)
  {
    if Pops(e) && |r.stack| < 2 {
      return PopAtRoot;
    }
    match e
    case Enter(k) =>
      ContainerEvent(r, k, true);
      st := Done;
    case Leave(k) =>
      ContainerEvent(r, k, false);
      st := Done;
    case Visit(l) =>
      st := LeafEvent(r, l);
  }

  /** The handler of a container node, on entering or leaving it. */
  method ContainerEvent(r: Renderer, k: NodeKind, entering: bool)
    requires r.Valid()
    requires !entering && PopsOnLeave(k) ==> |r.stack| >= 2
    modifies r, r.pdf
    ensures r.Valid()
    ensures |r.stack| == |old(r.stack)| + Delta(if entering then Enter(k) else Leave(k))
    ensures entering || !PopsOnLeave(k) ==> r.stack[..|old(r.stack)| - 1] == old(r.stack)[..|old(r.stack)| - 1]
    ensures !entering && PopsOnLeave(k) && !k.ItemNode? ==> r.stack == old(r.stack)[..|old(r.stack)| - 1]
    ensures !k.ItemNode? ==> AddsNoMark(old(r.pdf.log), r.pdf.log)
  {
    if entering {
      EnterContainer(r, k);
    } else {
      LeaveContainer(r, k);
    }
  }

  /** The enter handler of a container node: it pushes at most one frame and
      keeps every frame below the old top. */
  method EnterContainer(r: Renderer, k: NodeKind)
    requires r.Valid()
    modifies r, r.pdf
    ensures r.Valid()
    ensures |r.stack| == |old(r.stack)| + (if PushesOnEnter(k) then 1 else 0)
    ensures r.stack[..|old(r.stack)| - 1] == old(r.stack)[..|old(r.stack)| - 1]
    ensures !k.ItemNode? ==> AddsNoMark(old(r.pdf.log), r.pdf.log)
  {
    if IsTablePart(k) {
      EnterTablePart(r, k);
    } else if IsInline(k) {
      EnterInline(r, k);
    } else {
      EnterBlock(r, k);
    }
  }

  predicate IsTablePart(k: NodeKind)
  {
    k.TableNode? || k.TableHeadNode? || k.TableBodyNode? || k.TableRowNode? || k.TableCellNode?
  }

  predicate IsInline(k: NodeKind)
  {
    k.EmphNode? || k.StrongNode? || k.LinkNode? || k.ImageNode?
  }

  method EnterTablePart(r: Renderer, k: NodeKind)
    requires r.Valid() && IsTablePart(k)
    modifies r, r.pdf
    ensures r.Valid()
    ensures |r.stack| == |old(r.stack)| + 1
    ensures r.stack[..|old(r.stack)| - 1] == old(r.stack)[..|old(r.stack)| - 1]
    ensures AddsNoMark(old(r.pdf.log), r.pdf.log)
  {
    if k.TableNode? {
      r.ProcessTable(true);
    } else if k.TableHeadNode? {
      r.ProcessTableHead(true);
    } else if k.TableBodyNode? {
      r.ProcessTableBody(true);
    } else if k.TableRowNode? {
      r.ProcessTableRow(true);
    } else {
      r.ProcessTableCell(k.isHeader, true);
    }
  }

  method EnterInline(r: Renderer, k: NodeKind)
    requires r.Valid() && IsInline(k)
    modifies r, r.pdf
    ensures r.Valid()
    ensures |r.stack| == |old(r.stack)| + (if k.LinkNode? then 1 else 0)
    ensures r.stack[..|old(r.stack)| - 1] == old(r.stack)[..|old(r.stack)| - 1]
    ensures AddsNoMark(old(r.pdf.log), r.pdf.log)
  {
    if k.EmphNode? {
      r.ProcessEmph(true);
    } else if k.StrongNode? {
      r.ProcessStrong(true);
    } else if k.LinkNode? {
      r.ProcessLink(k.destination, true);
    } else {
      r.ProcessImage(true);
    }
  }

  method EnterBlock(r: Renderer, k: NodeKind)
    requires r.Valid() && !IsTablePart(k) && !IsInline(k)
    modifies r, r.pdf
    ensures r.Valid()
    ensures |r.stack| == |old(r.stack)| + (if PushesOnEnter(k) then 1 else 0)
    ensures r.stack[..|old(r.stack)| - 1] == old(r.stack)[..|old(r.stack)| - 1]
    ensures !k.ItemNode? ==> AddsNoMark(old(r.pdf.log), r.pdf.log)
  {
    if k.ListNode? {
      r.ProcessList(k.ordered, k.definition, true);
    } else if k.ItemNode? {
      r.ProcessItem(true);
    } else if k.ParagraphNode? {
      r.ProcessParagraph(true);
    } else if k.BlockQuoteNode? {
      r.ProcessBlockQuote(true);
    } else {
      r.ProcessHeading(k.level, true);
    }
  }

  /** The leave handler of a container node: a popping one removes the top
      frame and, unless it is an item, nothing else; the others keep every
      frame below the top. */
  method LeaveContainer(r: Renderer, k: NodeKind)
    requires r.Valid()
    requires PopsOnLeave(k) ==> |r.stack| >= 2
    modifies r, r.pdf
    ensures r.Valid()
    ensures |r.stack| == |old(r.stack)| - (if PopsOnLeave(k) then 1 else 0)
    ensures !PopsOnLeave(k) ==> r.stack[..|old(r.stack)| - 1] == old(r.stack)[..|old(r.stack)| - 1]
    ensures PopsOnLeave(k) && !k.ItemNode? ==> r.stack == old(r.stack)[..|old(r.stack)| - 1]
    ensures !k.ItemNode? ==> AddsNoMark(old(r.pdf.log), r.pdf.log)
  {
    match k
    case ListNode(ordered, definition) => r.ProcessList(ordered, definition, false);
    case ItemNode => r.ProcessItem(false);
    case EmphNode => r.ProcessEmph(false);
    case StrongNode => r.ProcessStrong(false);
    case LinkNode(destination) => r.ProcessLink(destination, false);
    case ImageNode => r.ProcessImage(false);
    case ParagraphNode => r.ProcessParagraph(false);
    case BlockQuoteNode => r.ProcessBlockQuote(false);
    case HeadingNode(level) => r.ProcessHeading(level, false);
    case TableNode => r.ProcessTable(false);
    case TableHeadNode => r.ProcessTableHead(false);
    case TableBodyNode => r.ProcessTableBody(false);
    case TableRowNode => r.ProcessTableRow(false);
    case TableCellNode(isHeader) => r.ProcessTableCell(isHeader, false);
  }

  /** Body-cell text would read a column width that was never recorded (an
      index panic in Go). */
  predicate BodyCellOverflow(r: Renderer)
    reads r
    requires |r.stack| >= 1
  {
    !r.isInImage && r.Top().kind == TableCell && !r.Top().isHeader && r.curDataCell >= |r.cellWidths|
  }

  /** The handler of a leaf node. */
  method LeafEvent(r: Renderer, l: Leaf) returns (st: Status)
    requires r.Valid()
    modifies r, r.pdf
    ensures r.Valid() && r.stack == old(r.stack)
    ensures st != PopAtRoot
    ensures st == ColumnOutOfRange <==> l.TextLeaf? && old(BodyCellOverflow(r))
    ensures st != Done ==> unchanged(r) && unchanged(r.pdf)
    ensures AddsNoMark(old(r.pdf.log), r.pdf.log)
  {
    st := Done;
    match l
    case TextLeaf(literal, headingId) => st := TextEvent(r, literal, headingId);
    case CodeLeaf(literal) => r.ProcessCode(literal);
    case CodeBlockLeaf(literal) => r.ProcessCodeblock(literal);
    case HTMLBlockLeaf(literal) => r.ProcessHTMLBlock(literal);
    case HorizontalRuleLeaf => r.ProcessHorizontalRule();
  }

  /** A text node, unless it is body-cell text without a recorded column width. */
  method TextEvent(r: Renderer, literal: string, headingId: string) returns (st: Status)
    requires r.Valid()
    modifies r, r.pdf
    ensures r.Valid() && r.stack == old(r.stack)
    ensures st == (if old(BodyCellOverflow(r)) then ColumnOutOfRange else Done)
    ensures st != Done ==> unchanged(r) && unchanged(r.pdf)
    ensures AddsNoMark(old(r.pdf.log), r.pdf.log)
  {
    if BodyCellOverflow(r) {
      return ColumnOutOfRange;
    }
    r.ProcessText(literal, headingId);
    st := Done;
  }

  /** Handle events in order until one fails. `n` events were handled; the
      depth moved by their net change; a stream safe from the starting depth
      never stops at a pop. */
  method RenderEvents(r: Renderer, es: seq<Event>) returns (st: Status, n: nat)
    requires r.Valid()
    modifies r, r.pdf
    ensures r.Valid()
    ensures n <= |es| && (st == Done <==> n == |es|)
    ensures |r.stack| == |old(r.stack)| + Net(es[..n])
    ensures SafeFrom(|old(r.stack)|, es) ==> st != PopAtRoot
  {
    ghost var d0 := |r.stack|;
    n := 0;
    st := Done;
    while n < |es|
      invariant r.Valid()
      invariant n <= |es|
      invariant |r.stack| + Net(es[n..]) == d0 + Net(es)
      invariant SafeFrom(d0, es) ==> SafeFrom(|r.stack|, es[n..])
      decreases |es| - n
    {
      assert es[n..][0] == es[n] && es[n..][1..] == es[n + 1..];
      var s := Dispatch(r, es[n]);
      if s != Done {
        st := s;
        break;
      }
      n := n + 1;
    }
    NetAppend(es[..n], es[n..]);
    assert es[..n] + es[n..] == es;
  }

  /** Rendering a whole document tree from the root frame alone never pops
      the root, and when it completes the root frame is alone again. */
  method RenderTree(r: Renderer, tree: Node) returns (st: Status)
    requires r.Valid() && |r.stack| == 1 && HeadingsInRange(tree)
    modifies r, r.pdf
    ensures r.Valid()
    ensures st != PopAtRoot
    ensures st == Done ==> |r.stack| == 1
  {
    WalkBalanced(tree, 1);
    var n;
    st, n := RenderEvents(r, Walk(tree));
    if st == Done {
      assert Walk(tree)[..n] == Walk(tree);
    }
  }
}
