/** The values the renderer works with: styles, container frames, the style
    slots configured before rendering, the commands sent to the canvas, the
    margin relation that holds between neighbouring frames, and the total width
    of a table's columns. */
module Layout {

  import Text

  datatype Option<T> = None | Some(value: T)

  /** A style slot: the font style letters ("b", "i", ...), size and spacing. */
  datatype Styler = Styler(style: string, size: real, spacing: real)

  /** The styles, em width and indent step fixed before rendering begins. */
  datatype Theme = Theme(
    normal: Styler, link: Styler, blockquote: Styler, backtick: Styler,
    tHeader: Styler, tBody: Styler,
    h1: Styler, h2: Styler, h3: Styler, h4: Styler, h5: Styler, h6: Styler,
    em: real, indent: real)

  /** The style of a heading level; levels outside 1..6 have none. */
  function HeadingStyle(theme: Theme, level: int): (r: Option<Styler>)
    ensures r.Some? <==> 1 <= level <= 6
    ensures level == 1 ==> r == Some(theme.h1)
    ensures level == 2 ==> r == Some(theme.h2)
    ensures level == 3 ==> r == Some(theme.h3)
    ensures level == 4 ==> r == Some(theme.h4)
    ensures level == 5 ==> r == Some(theme.h5)
    ensures level == 6 ==> r == Some(theme.h6)
  {
    match level
    case 1 => Some(theme.h1)
    case 2 => Some(theme.h2)
    case 3 => Some(theme.h3)
    case 4 => Some(theme.h4)
    case 5 => Some(theme.h5)
    case 6 => Some(theme.h6)
    case _ => None
  }

  /** The node kind that pushed a frame; `Document` is the root frame. */
  datatype ContainerType =
    | Document | List | Item | Link | Heading | BlockQuote
    | Table | TableHead | TableBody | TableRow | TableCell

  datatype ListKind = NotList | Unordered | Ordered | Definition

  /** The kind of a list from its two flags: definition wins over ordered,
      and a list with neither flag is unordered. */
  function ListKindOf(ordered: bool, definition: bool): (k: ListKind)
    ensures k != NotList
    ensures k == Definition <==> definition
    ensures k == Ordered <==> ordered && !definition
    ensures k == Unordered <==> !ordered && !definition
  {
    if definition then Definition else if ordered then Ordered else Unordered
  }

  /** One formatting scope on the container stack. */
  datatype Frame = Frame(
    kind: ContainerType,
    textStyle: Styler,
    leftMargin: real,
    listKind: ListKind,
    itemNumber: nat,
    firstParagraph: bool,
    destination: string,
    isHeader: bool)

  /** A frame with the defaults of a Go composite literal for the omitted fields. */
  function NewFrame(kind: ContainerType, style: Styler, leftMargin: real): (f: Frame)
    ensures f.kind == kind && f.textStyle == style && f.leftMargin == leftMargin
    ensures f.listKind == NotList && f.itemNumber == 0 && !f.firstParagraph
    ensures f.destination == "" && !f.isHeader
  {
    Frame(kind, style, leftMargin, NotList, 0, false, "", false)
  }

  /** The frame with letter `c` added to its style string; nothing else of
      the frame changes. */
  function WithFlag(f: Frame, c: char): (g: Frame)
    ensures g.(textStyle := f.textStyle) == f
    ensures g.textStyle.size == f.textStyle.size && g.textStyle.spacing == f.textStyle.spacing
    ensures c in g.textStyle.style
    ensures forall d :: d != c ==> (d in g.textStyle.style <==> d in f.textStyle.style)
  {
    f.(textStyle := f.textStyle.(style := Text.AddFlag(f.textStyle.style, c)))
  }

  /** The frame with every letter `c` removed from its style string; nothing
      else of the frame changes. */
  function WithoutFlag(f: Frame, c: char): (g: Frame)
    ensures g.(textStyle := f.textStyle) == f
    ensures g.textStyle.size == f.textStyle.size && g.textStyle.spacing == f.textStyle.spacing
    ensures c !in g.textStyle.style
    ensures forall d :: d != c ==> (d in g.textStyle.style <==> d in f.textStyle.style)
  {
    f.(textStyle := f.textStyle.(style := Text.RemoveAll(f.textStyle.style, c)))
  }

  /** One abstract canvas operation. `Cr`, `Write`, `WriteLink`,
      `WriteAnchorLink`, `MultiCell` and `Rule` stand for renderer helpers or
      drawing sequences whose insides are not modelled. */
  datatype Command =
    | SetFont(styler: Styler)
    | SetLeftMargin(margin: real)
    | SetX(x: real)
    | Cr
    | Ln
    | Write(styler: Styler, text: string)
    | WriteLink(styler: Styler, text: string, url: string)
    | WriteAnchorLink(styler: Styler, text: string, link: int)
    | AddLink(link: int)
    | SetLink(link: int, page: int)
    | Cell(width: real, height: real, text: string, border: string, ln: int, align: string, fill: bool)
    | MultiCell(styler: Styler, text: string)
    | SetDrawColor(red: int, green: int, blue: int)
    | SetLineWidth(width: real)
    | Rule

  /** A right-bottom aligned cell: the way a list item draws its bullet or number. */
  predicate IsMark(c: Command)
  {
    c.Cell? && c.align == "RB"
  }

  /** `after` is `before` followed by commands none of which is an item mark. */
  predicate AddsNoMark(before: seq<Command>, after: seq<Command>)
  {
    before <= after && forall c :: c in after[|before|..] ==> !IsMark(c)
  }

  /** How a frame's margin relates to the frame below it when it is pushed:
      a list indents by one step, a block quote takes the canvas margin (no
      relation to the frame below), every other frame keeps the margin below. */
  predicate MarginFollows(below: Frame, f: Frame, indent: real)
  {
    match f.kind
    case List => f.leftMargin == below.leftMargin + indent
    case BlockQuote => true
    case Document => true
    case _ => f.leftMargin == below.leftMargin
  }

  /** Every frame of the stack stands in the push relation to the one below it. */
  predicate Chained(stack: seq<Frame>, indent: real)
  {
    forall i :: 0 < i < |stack| ==> MarginFollows(stack[i - 1], stack[i], indent)
  }

  lemma ChainedPush(stack: seq<Frame>, f: Frame, indent: real)
    requires Chained(stack, indent) && |stack| >= 1
    requires MarginFollows(stack[|stack| - 1], f, indent)
    ensures Chained(stack + [f], indent)
  {
    var s := stack + [f];
    forall i | 0 < i < |s| ensures MarginFollows(s[i - 1], s[i], indent) {
      if i < |stack| {
        assert s[i - 1] == stack[i - 1] && s[i] == stack[i];
      }
    }
  }

  lemma ChainedPop(stack: seq<Frame>, indent: real)
    requires Chained(stack, indent) && |stack| >= 1
    ensures Chained(stack[..|stack| - 1], indent)
  {
  }

  /** Replacing the top frame by one with the same kind and margin keeps the chain. */
  lemma ChainedReplaceTop(stack: seq<Frame>, f: Frame, indent: real)
    requires Chained(stack, indent) && |stack| >= 1
    requires f.kind == stack[|stack| - 1].kind && f.leftMargin == stack[|stack| - 1].leftMargin
    ensures Chained(stack[..|stack| - 1] + [f], indent)
  {
    var s := stack[..|stack| - 1] + [f];
    forall i | 0 < i < |s| ensures MarginFollows(s[i - 1], s[i], indent) {
      assert s[i - 1] == stack[i - 1];
      if i < |s| - 1 {
        assert s[i] == stack[i];
      } else {
        assert MarginFollows(stack[i - 1], stack[i], indent);
      }
    }
  }

  /** Leaving a list frame that sits on the chain returns its margin minus one
      indent step, which is exactly the margin of the frame below it. */
  lemma ListLeaveRestores(stack: seq<Frame>, indent: real)
    requires Chained(stack, indent) && |stack| >= 2
    requires stack[|stack| - 1].kind == List
    ensures stack[|stack| - 1].leftMargin - indent == stack[|stack| - 2].leftMargin
  {
    assert MarginFollows(stack[|stack| - 2], stack[|stack| - 1], indent);
  }

  /** The total of a sequence of column widths, added left to right. */
  function Sum(ws: seq<real>): real
  {
    if ws == [] then 0.0 else Sum(ws[..|ws| - 1]) + ws[|ws| - 1]
  }

  lemma {:induction false} SumAppend(a: seq<real>, b: seq<real>)
    ensures Sum(a + b) == Sum(a) + Sum(b)
    decreases |b|
  {
    if b == [] {
      assert a + b == a;
    } else {
      assert (a + b)[..|a + b| - 1] == a + b[..|b| - 1];
      SumAppend(a, b[..|b| - 1]);
    }
  }

  /** Non-negative widths add up to at least each of them. */
  lemma {:induction false} SumBounds(ws: seq<real>, k: nat)
    requires forall j :: 0 <= j < |ws| ==> ws[j] >= 0.0
    requires k < |ws|
    ensures Sum(ws) >= ws[k] >= 0.0
  {
    var init := ws[..|ws| - 1];
    if k < |ws| - 1 {
      SumBounds(init, k);
    } else {
      SumNonNegative(init);
    }
  }

  lemma {:induction false} SumNonNegative(ws: seq<real>)
    requires forall j :: 0 <= j < |ws| ==> ws[j] >= 0.0
    ensures Sum(ws) >= 0.0
  {
    if ws != [] {
      SumNonNegative(ws[..|ws| - 1]);
    }
  }

  /** The width-summing loop of the table handler. */
  method SumWidths(ws: seq<real>) returns (total: real)
    ensures total == Sum(ws)
  {
    total := 0.0;
    for i := 0 to |ws|
      invariant total == Sum(ws[..i])
    {
      assert ws[..i + 1][..i] == ws[..i];
      total := total + ws[i];
    }
    assert ws[..|ws|] == ws;
  }
}
