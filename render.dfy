/** The container-stack renderer: one method per node kind, called on the enter
    and leave events of a depth-first walk. The methods share a stack of
    formatting frames, a handful of flags, the anchor registry and the table
    layout state, and they issue commands to the canvas. */
module Render {

  import opened Layout
  import opened Text
  import opened Canvas
  import Anchors

  /** The bullet or ordinal an item frame draws when entered: a `*` for an
      unordered list, the running number and a dot for an ordered one, nothing
      for a definition list. */
  function Marker(theme: Theme, item: Frame): (cs: seq<Command>)
    ensures item.listKind == Unordered ==> cs == [Cell(3.0 * theme.em, theme.normal.size + theme.normal.spacing, "*", "", 0, "RB", false)]
    ensures item.listKind == Ordered ==> cs == [Cell(3.0 * theme.em, theme.normal.size + theme.normal.spacing, Ordinal(item.itemNumber), "", 0, "RB", false)]
    ensures item.listKind == Definition || item.listKind == NotList ==> cs == []
  {
    var h := theme.normal.size + theme.normal.spacing;
    match item.listKind
    case Unordered => [Cell(3.0 * theme.em, h, "*", "", 0, "RB", false)]
    case Ordered => [Cell(3.0 * theme.em, h, Ordinal(item.itemNumber), "", 0, "RB", false)]
    case _ => []
  }

  /** The `AddLink` a lookup issues, if it had to allocate. */
  function NewLinkCommands(r: Anchors.Resolution): seq<Command>
  {
    if r.isNew then [AddLink(r.id)] else []
  }

  /** Frame kinds whose text the text handler draws specially. */
  predicate HasOwnText(k: ContainerType)
  {
    k == Link || k == Heading || k == TableCell
  }

  /** Link, heading and cell frames are never list scopes, so the bold lead-in
      rule can only fire for text drawn as plain text. */
  predicate OwnTextOutsideLists(stack: seq<Frame>)
  {
    forall i :: 0 <= i < |stack| ==> HasOwnText(stack[i].kind) ==> stack[i].listKind == NotList
  }

  class Renderer {
    const theme: Theme
    /** Whether a destination carries a URL scheme (`zhttp.HasURLScheme`). */
    const hasURLScheme: string -> bool
    const pdf: Pdf

    /** The container stack, bottom first; the root frame is never popped. */
    var stack: seq<Frame>
    var isInText: bool
    var isInImage: bool
    var trimNext: bool
    var strongOn: bool
    var paragraphUnprocessed: bool
    /** The style of the heading being rendered, if any (`CurrentHeaderStyler`). */
    var currentHeaderStyler: Option<Styler>
    var anchorLinks: map<string, int>
    /** Table layout state: column widths, current column, row shading. */
    var cellWidths: seq<real>
    var curDataCell: nat
    var fill: bool

    ghost predicate Valid()
      reads this`stack, this`anchorLinks, pdf`nextLink
    {
      |stack| >= 1 && Chained(stack, theme.indent) && OwnTextOutsideLists(stack)
      && Anchors.AllBelow(anchorLinks, pdf.nextLink) && Anchors.Injective(anchorLinks)
    }

    function Top(): Frame
      reads this`stack
      requires |stack| >= 1
    {
      stack[|stack| - 1]
    }

    /** A fresh renderer: only the root frame, at the canvas's margin, in the body style. */
    constructor (theme: Theme, hasURLScheme: string -> bool, pdf: Pdf)
      ensures Valid()
      ensures this.theme == theme && this.hasURLScheme == hasURLScheme && this.pdf == pdf
      ensures stack == [NewFrame(Document, theme.normal, pdf.leftMargin)]
      ensures !isInText && !isInImage && !trimNext && !strongOn && !paragraphUnprocessed
      ensures currentHeaderStyler == None && anchorLinks == map[]
      ensures cellWidths == [] && curDataCell == 0 && !fill
    {
      this.theme := theme;
      this.hasURLScheme := hasURLScheme;
      this.pdf := pdf;
      stack := [NewFrame(Document, theme.normal, pdf.leftMargin)];
      isInText, isInImage, trimNext, strongOn, paragraphUnprocessed := false, false, false, false, false;
      currentHeaderStyler := None;
      anchorLinks := map[];
      cellWidths, curDataCell, fill := [], 0, false;
    }

    // ---- the container stack ----

    method Push(f: Frame)
      requires Valid() && MarginFollows(Top(), f, theme.indent)
      requires HasOwnText(f.kind) ==> f.listKind == NotList
      modifies this`stack
      ensures Valid() && stack == old(stack) + [f]
    {
      ChainedPush(stack, f, theme.indent);
      stack := stack + [f];
    }

    method Pop()
      requires Valid() && |stack| >= 2
      modifies this`stack
      ensures Valid() && stack == old(stack)[..|old(stack)| - 1]
    {
      ChainedPop(stack, theme.indent);
      stack := stack[..|stack| - 1];
    }

    /** Replace the top frame in place by one of the same kind and margin. */
    method SetTop(f: Frame)
      requires Valid() && f.kind == Top().kind && f.leftMargin == Top().leftMargin && f.listKind == Top().listKind
      modifies this`stack
      ensures Valid() && stack == old(stack)[..|old(stack)| - 1] + [f]
    {
      ChainedReplaceTop(stack, f, theme.indent);
      stack := stack[..|stack| - 1] + [f];
    }

    // ---- renderer helpers ----

    method Cr()
      modifies pdf`log
      ensures pdf.log == old(pdf.log) + [Command.Cr]
    {
      pdf.Record(Command.Cr);
    }

    method SetStyler(st: Styler)
      modifies pdf`log, pdf`font
      ensures pdf.log == old(pdf.log) + [SetFont(st)] && pdf.font == st
    {
      pdf.SetFont(st);
    }

    /** The link id of an anchor target, handed out on its first use. */
    method AnchorFor(key: string) returns (id: int)
      requires Valid()
      modifies this`anchorLinks, pdf`nextLink, pdf`log
      ensures Valid()
      ensures var r := Anchors.Resolve(old(anchorLinks), old(pdf.nextLink), key);
              id == r.id && anchorLinks == r.links
              && pdf.nextLink == Anchors.NextAfter(r, old(pdf.nextLink))
              && pdf.log == old(pdf.log) + NewLinkCommands(r)
    {
      Anchors.ResolveKeepsInvariant(anchorLinks, pdf.nextLink, key);
      var got := key in anchorLinks;
      if got {
        id := anchorLinks[key];
      } else {
        id := pdf.AddLink();
        anchorLinks := anchorLinks[key := id];
      }
    }

    // ---- text ----

    /** Whether text `s` is the first text of a paragraph inside a list,
        the case that ends the "paragraph unprocessed" state. */
    predicate FirstListText(s: string)
      reads this`paragraphUnprocessed, this`stack
      requires |stack| >= 1
    {
      paragraphUnprocessed && Top().listKind != NotList && s != []
    }

    /** A text node. `headingId` is the heading id stored on the text node's
        parent node: the heading's id when the text sits directly in a heading,
        empty when it sits in an emphasis or strong inside one, so that
        such text looks up the anchor key "#". The frame on top decides how the
        text is drawn. */
    method ProcessText(literal: string, headingId: string)
      requires Valid()
      requires !isInImage && Top().kind == TableCell && !Top().isHeader ==> curDataCell < |cellWidths|
      modifies this`isInText, this`trimNext, this`paragraphUnprocessed, this`anchorLinks,
               this`cellWidths, pdf`log, pdf`font, pdf`nextLink
      ensures Valid()
      ensures old(isInImage) ==> unchanged(this, pdf)
      ensures AddsNoMark(old(pdf.log), pdf.log)
      // the style, the trimming rule and the bold lead-in rule, for every frame kind
      ensures !old(isInImage) ==>
                pdf.font == Top().textStyle
                && paragraphUnprocessed == (old(paragraphUnprocessed) && !old(FirstListText(Cleaned(literal, trimNext))))
                && trimNext == old(FirstListText(Cleaned(literal, trimNext)) && strongOn)
      // a link frame: an internal destination goes through the anchor registry
      ensures !old(isInImage) && Top().kind == Link ==>
                var st, s := Top().textStyle, old(Cleaned(literal, trimNext));
                var dest := Top().destination;
                var r := Anchors.Resolve(old(anchorLinks), old(pdf.nextLink), dest);
                !isInText && cellWidths == old(cellWidths)
                && (!hasURLScheme(dest) ==>
                      anchorLinks == r.links && pdf.nextLink == Anchors.NextAfter(r, old(pdf.nextLink))
                      && pdf.log == old(pdf.log) + [SetFont(st)] + NewLinkCommands(r) + [WriteAnchorLink(st, s, r.id)])
                && (hasURLScheme(dest) ==>
                      anchorLinks == old(anchorLinks) && pdf.nextLink == old(pdf.nextLink)
                      && pdf.log == old(pdf.log) + [SetFont(st)] + [WriteLink(st, s, dest)])
      // a heading frame: the heading's anchor is bound to the current page
      ensures !old(isInImage) && Top().kind == Heading ==>
                var st, s := Top().textStyle, old(Cleaned(literal, trimNext));
                var r := Anchors.Resolve(old(anchorLinks), old(pdf.nextLink), "#" + headingId);
                isInText && cellWidths == old(cellWidths)
                && anchorLinks == r.links && pdf.nextLink == Anchors.NextAfter(r, old(pdf.nextLink))
                && pdf.log == old(pdf.log) + [SetFont(st)] + NewLinkCommands(r) + [SetLink(r.id, pdf.pageNo)] + [Write(st, s)]
      // a header cell: its measured width becomes the next column width
      ensures !old(isInImage) && Top().kind == TableCell && Top().isHeader ==>
                var st, s := Top().textStyle, old(Cleaned(literal, trimNext));
                var hw := pdf.stringWidth(st, s) + 2.0 * theme.em;
                isInText && cellWidths == old(cellWidths) + [hw]
                && anchorLinks == old(anchorLinks) && pdf.nextLink == old(pdf.nextLink)
                && pdf.log == old(pdf.log) + [SetFont(st)] + [SetFont(st)] + [Cell(hw, pdf.fontSize(st) + st.spacing, s, "1", 0, "C", true)]
      // a body cell: drawn at the width recorded for its column
      ensures !old(isInImage) && Top().kind == TableCell && !Top().isHeader ==>
                var st, s := Top().textStyle, old(Cleaned(literal, trimNext));
                isInText && cellWidths == old(cellWidths)
                && anchorLinks == old(anchorLinks) && pdf.nextLink == old(pdf.nextLink)
                && pdf.log == old(pdf.log) + [SetFont(st)] + [SetFont(st)]
                                + [Cell(cellWidths[curDataCell], st.size + st.spacing, s, "LR", 0, "", fill)]
      // any other frame: plain styled text, then the bold lead-in line break
      ensures !old(isInImage) && !HasOwnText(Top().kind) ==>
                var st, s := Top().textStyle, old(Cleaned(literal, trimNext));
                isInText == (s != []) && cellWidths == old(cellWidths)
                && anchorLinks == old(anchorLinks) && pdf.nextLink == old(pdf.nextLink)
                && (old(FirstListText(s) && strongOn) ==> pdf.log == old(pdf.log) + [SetFont(st)] + [Write(st, s)] + [Command.Cr])
                && (!old(FirstListText(s) && strongOn) ==> pdf.log == old(pdf.log) + [SetFont(st)] + [Write(st, s)])
    {
      if isInImage {
        return;
      }
      var kind := Top().kind;
      if kind == Link {
        LinkText(literal);
      } else if kind == Heading {
        HeadingText(literal, headingId);
      } else if kind == TableCell && Top().isHeader {
        HeaderCellText(literal);
      } else if kind == TableCell {
        BodyCellText(literal);
      } else {
        PlainText(literal);
      }
    }

    /** The start every text node shares: the top frame's style is selected,
        the literal is cleaned and the trim-next flag is consumed. */
    method BeginText(literal: string) returns (st: Styler, s: string)
      requires |stack| >= 1
      modifies this`isInText, this`trimNext, pdf`log, pdf`font
      ensures st == Top().textStyle && s == Cleaned(literal, old(trimNext))
      ensures !isInText && !trimNext
      ensures pdf.font == st && pdf.log == old(pdf.log) + [SetFont(st)]
    {
      isInText := false;
      st := Top().textStyle;
      SetStyler(st);
      s := Cleaned(literal, trimNext);
      trimNext := false;
    }

    /** Text inside a link: an internal destination goes through the anchor
        registry, an external one is written as a URL link. */
    method LinkText(literal: string)
      requires Valid() && Top().kind == Link
      modifies this`isInText, this`trimNext, this`paragraphUnprocessed, this`anchorLinks,
               pdf`log, pdf`font, pdf`nextLink
      ensures Valid() && pdf.font == Top().textStyle && !isInText
      ensures AddsNoMark(old(pdf.log), pdf.log)
      ensures paragraphUnprocessed == (old(paragraphUnprocessed) && !old(FirstListText(Cleaned(literal, trimNext))))
      ensures trimNext == old(FirstListText(Cleaned(literal, trimNext)) && strongOn)
      ensures var st, s := Top().textStyle, old(Cleaned(literal, trimNext));
              var dest := Top().destination;
              var r := Anchors.Resolve(old(anchorLinks), old(pdf.nextLink), dest);
              (!hasURLScheme(dest) ==>
                  anchorLinks == r.links && pdf.nextLink == Anchors.NextAfter(r, old(pdf.nextLink))
                  && pdf.log == old(pdf.log) + [SetFont(st)] + NewLinkCommands(r) + [WriteAnchorLink(st, s, r.id)])
              && (hasURLScheme(dest) ==>
                  anchorLinks == old(anchorLinks) && pdf.nextLink == old(pdf.nextLink)
                  && pdf.log == old(pdf.log) + [SetFont(st)] + [WriteLink(st, s, dest)])
    {
      assert HasOwnText(stack[|stack| - 1].kind);
      var st, s := BeginText(literal);
      var dest := Top().destination;
      if !hasURLScheme(dest) {
        var id := AnchorFor(dest);
        pdf.Record(WriteAnchorLink(st, s, id));
      } else {
        pdf.Record(WriteLink(st, s, dest));
      }
      FinishListParagraph(s);
    }

    /** Text inside a heading: the heading's anchor is bound to the current page. */
    method HeadingText(literal: string, headingId: string)
      requires Valid() && Top().kind == Heading
      modifies this`isInText, this`trimNext, this`paragraphUnprocessed, this`anchorLinks,
               pdf`log, pdf`font, pdf`nextLink
      ensures Valid() && pdf.font == Top().textStyle && isInText
      ensures AddsNoMark(old(pdf.log), pdf.log)
      ensures paragraphUnprocessed == (old(paragraphUnprocessed) && !old(FirstListText(Cleaned(literal, trimNext))))
      ensures trimNext == old(FirstListText(Cleaned(literal, trimNext)) && strongOn)
      ensures var st, s := Top().textStyle, old(Cleaned(literal, trimNext));
              var r := Anchors.Resolve(old(anchorLinks), old(pdf.nextLink), "#" + headingId);
              anchorLinks == r.links && pdf.nextLink == Anchors.NextAfter(r, old(pdf.nextLink))
              && pdf.log == old(pdf.log) + [SetFont(st)] + NewLinkCommands(r) + [SetLink(r.id, pdf.pageNo)] + [Write(st, s)]
    {
      assert HasOwnText(stack[|stack| - 1].kind);
      var st, s := BeginText(literal);
      isInText := true;
      var id := AnchorFor("#" + headingId);
      pdf.Record(SetLink(id, pdf.pageNo));
      pdf.Record(Write(st, s));
      FinishListParagraph(s);
    }

    /** Text inside a header cell: its measured width becomes the next column width. */
    method HeaderCellText(literal: string)
      requires Valid() && Top().kind == TableCell && Top().isHeader
      modifies this`isInText, this`trimNext, this`paragraphUnprocessed, this`cellWidths,
               pdf`log, pdf`font
      ensures Valid() && pdf.font == Top().textStyle && isInText
      ensures AddsNoMark(old(pdf.log), pdf.log)
      ensures paragraphUnprocessed == (old(paragraphUnprocessed) && !old(FirstListText(Cleaned(literal, trimNext))))
      ensures trimNext == old(FirstListText(Cleaned(literal, trimNext)) && strongOn)
      ensures var st, s := Top().textStyle, old(Cleaned(literal, trimNext));
              var hw := pdf.stringWidth(st, s) + 2.0 * theme.em;
              cellWidths == old(cellWidths) + [hw]
              && pdf.log == old(pdf.log) + [SetFont(st)] + [SetFont(st)] + [Cell(hw, pdf.fontSize(st) + st.spacing, s, "1", 0, "C", true)]
    {
      assert HasOwnText(stack[|stack| - 1].kind);
      var st, s := BeginText(literal);
      isInText := true;
      SetStyler(st);
      var hw := pdf.GetStringWidth(s) + 2.0 * theme.em;
      cellWidths := cellWidths + [hw];
      var h := pdf.GetFontSize() + st.spacing;
      pdf.Record(Cell(hw, h, s, "1", 0, "C", true));
      FinishListParagraph(s);
    }

    /** Text inside a body cell: drawn at the width recorded for its column. */
    method BodyCellText(literal: string)
      requires Valid() && Top().kind == TableCell && !Top().isHeader
      requires curDataCell < |cellWidths|
      modifies this`isInText, this`trimNext, this`paragraphUnprocessed, pdf`log, pdf`font
      ensures Valid() && pdf.font == Top().textStyle && isInText
      ensures AddsNoMark(old(pdf.log), pdf.log)
      ensures paragraphUnprocessed == (old(paragraphUnprocessed) && !old(FirstListText(Cleaned(literal, trimNext))))
      ensures trimNext == old(FirstListText(Cleaned(literal, trimNext)) && strongOn)
      ensures var st, s := Top().textStyle, old(Cleaned(literal, trimNext));
              pdf.log == old(pdf.log) + [SetFont(st)] + [SetFont(st)]
                           + [Cell(cellWidths[curDataCell], st.size + st.spacing, s, "LR", 0, "", fill)]
    {
      assert HasOwnText(stack[|stack| - 1].kind);
      var st, s := BeginText(literal);
      isInText := true;
      SetStyler(st);
      var hw := cellWidths[curDataCell];
      var h := st.size + st.spacing;
      pdf.Record(Cell(hw, h, s, "LR", 0, "", fill));
      FinishListParagraph(s);
    }

    /** Text in any other frame: written in the frame's style, followed by the
        bold lead-in line break when it opens a list paragraph. */
    method PlainText(literal: string)
      requires Valid()
      modifies this`isInText, this`trimNext, this`paragraphUnprocessed, pdf`log, pdf`font
      ensures Valid() && pdf.font == Top().textStyle
      ensures AddsNoMark(old(pdf.log), pdf.log)
      ensures paragraphUnprocessed == (old(paragraphUnprocessed) && !old(FirstListText(Cleaned(literal, trimNext))))
      ensures trimNext == old(FirstListText(Cleaned(literal, trimNext)) && strongOn)
      ensures var st, s := Top().textStyle, old(Cleaned(literal, trimNext));
              isInText == (s != [])
              && (old(FirstListText(s) && strongOn) ==> pdf.log == old(pdf.log) + [SetFont(st)] + [Write(st, s)] + [Command.Cr])
              && (!old(FirstListText(s) && strongOn) ==> pdf.log == old(pdf.log) + [SetFont(st)] + [Write(st, s)])
    {
      var st, s := BeginText(literal);
      isInText := |s| != 0;
      pdf.Record(Write(st, s));
      FinishListParagraph(s);
    }

    /** The bold lead-in rule: the first text of a paragraph in a list ends the
        "paragraph unprocessed" state, and breaks the line first when bold is on. */
    method FinishListParagraph(s: string)
      requires |stack| >= 1
      modifies this`trimNext, this`paragraphUnprocessed, pdf`log
      ensures paragraphUnprocessed == (old(paragraphUnprocessed) && !old(FirstListText(s)))
      ensures trimNext == if old(FirstListText(s)) && strongOn then true else old(trimNext)
      ensures old(FirstListText(s)) && strongOn ==> pdf.log == old(pdf.log) + [Command.Cr]
      ensures !(old(FirstListText(s)) && strongOn) ==> pdf.log == old(pdf.log)
    {
      if paragraphUnprocessed && Top().listKind != NotList && s != "" {
        if strongOn {
          trimNext := true;
          Cr();
        }
        paragraphUnprocessed := false;
      }
    }

    /** Inline code. */
    method ProcessCode(literal: string)
      modifies pdf`log, pdf`font
      ensures pdf.font == theme.backtick
      ensures pdf.log == old(pdf.log) + [SetFont(theme.backtick), Write(theme.backtick, literal)]
    {
      SetStyler(theme.backtick);
      pdf.Record(Write(theme.backtick, literal));
    }

    /** A fenced or indented code block, drawn line by line by the canvas. */
    method ProcessCodeblock(literal: string)
      modifies pdf`log, pdf`font
      ensures pdf.font == theme.backtick
      ensures pdf.log == old(pdf.log) + [SetFont(theme.backtick), Command.Cr, MultiCell(theme.backtick, literal)]
    {
      SetStyler(theme.backtick);
      Cr();
      pdf.Record(MultiCell(theme.backtick, literal));
    }

    /** A raw HTML block, drawn as one cell spanning the line. */
    method ProcessHTMLBlock(literal: string)
      modifies pdf`log, pdf`font
      ensures pdf.font == theme.backtick
      ensures pdf.log == old(pdf.log) + [Command.Cr, SetFont(theme.backtick),
                Cell(0.0, theme.backtick.size, literal, "", 1, "LT", true), Command.Cr]
    {
      Cr();
      SetStyler(theme.backtick);
      pdf.Record(Cell(0.0, theme.backtick.size, literal, "", 1, "LT", true));
      Cr();
    }

    /** A horizontal rule between two line breaks. */
    method ProcessHorizontalRule()
      modifies pdf`log
      ensures pdf.log == old(pdf.log) + [Command.Cr, Rule, Command.Cr]
    {
      Cr();
      pdf.Record(Rule);
      Cr();
    }

    // ---- lists ----

    /** A list: entering indents by one step and pushes a list frame whose
        counter starts at 0; leaving undoes the indent and pops. */
    method ProcessList(ordered: bool, definition: bool, entering: bool)
      requires Valid()
      requires !entering ==> |stack| >= 2
      modifies this`stack, pdf`log, pdf`font, pdf`leftMargin
      ensures Valid()
      ensures pdf.font == theme.normal
      ensures entering ==>
                var m := old(Top().leftMargin) + theme.indent;
                stack == old(stack) + [Frame(List, theme.normal, m, ListKindOf(ordered, definition), 0, false, "", false)]
                && pdf.leftMargin == m
                && pdf.log == old(pdf.log) + [SetFont(theme.normal), SetLeftMargin(m)]
      ensures !entering ==>
                var m := old(Top().leftMargin) - theme.indent;
                stack == old(stack)[..|old(stack)| - 1]
                && pdf.leftMargin == m
                && pdf.log == old(pdf.log) + [SetFont(theme.normal), SetLeftMargin(m)]
                                + (if |stack| < 2 then [Command.Cr] else [])
      ensures !entering && old(Top().kind) == List ==> pdf.leftMargin == Top().leftMargin
    {
      var kind := ListKindOf(ordered, definition);
      SetStyler(theme.normal);
      if entering {
        var m := Top().leftMargin + theme.indent;
        pdf.SetLeftMargin(m);
        Push(Frame(List, theme.normal, m, kind, 0, false, "", false));
      } else {
        if Top().kind == List {
          ListLeaveRestores(stack, theme.indent);
        }
        pdf.SetLeftMargin(Top().leftMargin - theme.indent);
        Pop();
        if |stack| < 2 {
          Cr();
        }
      }
    }

    /** A list item: entering breaks the line, pushes an item frame numbered one
        past the list's counter, draws its marker and moves the margin past it;
        leaving restores the margin, breaks the line, bumps the list's counter
        and pops. */
    method ProcessItem(entering: bool)
      requires Valid()
      requires !entering ==> |stack| >= 2
      modifies this`stack, pdf`log, pdf`leftMargin
      ensures Valid()
      ensures entering ==>
                var list := old(Top());
                var item := Frame(Item, theme.normal, list.leftMargin, list.listKind, list.itemNumber + 1, true, "", false);
                var m := list.leftMargin + 4.0 * theme.em;
                stack == old(stack) + [item]
                && pdf.leftMargin == m
                && pdf.log == old(pdf.log) + [Command.Cr] + Marker(theme, item) + [SetLeftMargin(m), SetX(m)]
      ensures !entering ==>
                var n := |old(stack)|;
                var list := old(stack)[n - 2];
                stack == old(stack)[..n - 2] + [list.(itemNumber := list.itemNumber + 1)]
                && pdf.leftMargin == old(Top().leftMargin)
                && pdf.log == old(pdf.log) + [SetLeftMargin(old(Top().leftMargin)), Command.Cr]
      ensures !entering && old(Top().kind) == Item ==> pdf.leftMargin == Top().leftMargin
    {
      if entering {
        Cr();
        var list := Top();
        var item := Frame(Item, theme.normal, list.leftMargin, list.listKind, list.itemNumber + 1, true, "", false);
        Push(item);
        pdf.log := pdf.log + Marker(theme, item);
        var m := Top().leftMargin + 4.0 * theme.em;
        pdf.SetLeftMargin(m);
        pdf.Record(SetX(m));
      } else {
        var item := Top();
        assert item.kind == Item ==> MarginFollows(stack[|stack| - 2], item, theme.indent);
        pdf.SetLeftMargin(item.leftMargin);
        Cr();
        Pop();
        SetTop(Top().(itemNumber := Top().itemNumber + 1));
      }
    }

    // ---- inline styles ----

    /** Emphasis: entering adds `i` to the top frame's style, leaving removes it. */
    method ProcessEmph(entering: bool)
      requires Valid()
      modifies this`stack
      ensures Valid()
      ensures stack == old(stack)[..|old(stack)| - 1]
                       + [if entering then WithFlag(old(Top()), 'i') else WithoutFlag(old(Top()), 'i')]
    {
      if entering {
        SetTop(WithFlag(Top(), 'i'));
      } else {
        SetTop(WithoutFlag(Top(), 'i'));
      }
    }

    /** Strong: as emphasis with `b`, and it records whether bold is active. */
    method ProcessStrong(entering: bool)
      requires Valid()
      modifies this`stack, this`strongOn
      ensures Valid()
      ensures strongOn == entering
      ensures stack == old(stack)[..|old(stack)| - 1]
                       + [if entering then WithFlag(old(Top()), 'b') else WithoutFlag(old(Top()), 'b')]
    {
      strongOn := entering;
      if entering {
        SetTop(WithFlag(Top(), 'b'));
      } else {
        SetTop(WithoutFlag(Top(), 'b'));
      }
    }

    /** The style of a link: the link slot, at the heading's size inside a heading. */
    function LinkStyle(): (st: Styler)
      reads this`currentHeaderStyler
      ensures st.style == theme.link.style && st.spacing == theme.link.spacing
      ensures st.size == if currentHeaderStyler.Some? then currentHeaderStyler.value.size else theme.link.size
    {
      if currentHeaderStyler.Some? then theme.link.(size := currentHeaderStyler.value.size) else theme.link
    }

    /** A link: a frame carrying the destination, for the text inside to use. */
    method ProcessLink(destination: string, entering: bool)
      requires Valid()
      requires !entering ==> |stack| >= 2
      modifies this`stack
      ensures Valid()
      ensures entering ==>
                stack == old(stack) + [Frame(Link, LinkStyle(), old(Top().leftMargin), NotList, 0, false, destination, false)]
      ensures !entering ==> stack == old(stack)[..|old(stack)| - 1]
    {
      if entering {
        Push(Frame(Link, LinkStyle(), Top().leftMargin, NotList, 0, false, destination, false));
      } else {
        Pop();
      }
    }

    /** An image: only the flag that silences text beneath it is modelled. */
    method ProcessImage(entering: bool)
      modifies this`isInImage
      ensures isInImage == entering
    {
      isInImage := entering;
    }

    // ---- block structure ----

    /** A paragraph: a line break on each side, except around the first
        paragraph of a list item, whose leave marks it used. */
    method ProcessParagraph(entering: bool)
      requires Valid()
      modifies this`stack, this`paragraphUnprocessed, this`trimNext, pdf`log, pdf`font
      ensures Valid()
      ensures paragraphUnprocessed && !trimNext && pdf.font == theme.normal
      ensures old(Top().kind) != Item ==>
                stack == old(stack) && pdf.log == old(pdf.log) + [SetFont(theme.normal), Command.Cr]
      ensures old(Top().kind) == Item && old(Top().listKind) == NotList ==>
                stack == old(stack) && pdf.log == old(pdf.log) + [SetFont(theme.normal)]
      ensures old(Top().kind) == Item && old(Top().listKind) != NotList ==>
                pdf.log == old(pdf.log) + [SetFont(theme.normal)]
                              + (if old(Top().firstParagraph) then [] else [Command.Cr])
                && stack == if !entering && old(Top().firstParagraph)
                            then old(stack)[..|old(stack)| - 1] + [old(Top()).(firstParagraph := false)]
                            else old(stack)
    {
      SetStyler(theme.normal);
      paragraphUnprocessed := true;
      trimNext := false;
      if Top().kind == Item {
        var t := Top().listKind;
        if t == Unordered || t == Ordered || t == Definition {
          if Top().firstParagraph {
            if !entering {
              SetTop(Top().(firstParagraph := false));
            }
          } else {
            Cr();
          }
        }
        return;
      }
      Cr();
    }

    /** A block quote: indents from the canvas's current margin. */
    method ProcessBlockQuote(entering: bool)
      requires Valid()
      requires !entering ==> |stack| >= 2
      modifies this`stack, pdf`log, pdf`leftMargin
      ensures Valid()
      ensures entering ==>
                var m := old(pdf.leftMargin) + theme.indent;
                stack == old(stack) + [NewFrame(BlockQuote, theme.blockquote, m)]
                && pdf.leftMargin == m && pdf.log == old(pdf.log) + [SetLeftMargin(m)]
      ensures !entering ==>
                var m := old(pdf.leftMargin) - theme.indent;
                stack == old(stack)[..|old(stack)| - 1]
                && pdf.leftMargin == m && pdf.log == old(pdf.log) + [SetLeftMargin(m), Command.Cr]
    {
      if entering {
        var cur := pdf.leftMargin;
        Push(NewFrame(BlockQuote, theme.blockquote, cur + theme.indent));
        pdf.SetLeftMargin(cur + theme.indent);
      } else {
        var cur := pdf.leftMargin;
        pdf.SetLeftMargin(cur - theme.indent);
        Pop();
        Cr();
      }
    }

    /** A heading: levels 1 to 6 push a frame in their style and become the
        current heading style; any other level pushes nothing. Leaving always pops. */
    method ProcessHeading(level: int, entering: bool)
      requires Valid()
      requires !entering ==> |stack| >= 2
      modifies this`stack, this`currentHeaderStyler, pdf`log
      ensures Valid()
      ensures pdf.log == old(pdf.log) + [Command.Cr]
      ensures entering && 1 <= level <= 6 ==>
                currentHeaderStyler == HeadingStyle(theme, level)
                && stack == old(stack) + [NewFrame(Heading, HeadingStyle(theme, level).value, old(Top().leftMargin))]
      ensures entering && !(1 <= level <= 6) ==>
                currentHeaderStyler == old(currentHeaderStyler) && stack == old(stack)
      ensures !entering ==> currentHeaderStyler == None && stack == old(stack)[..|old(stack)| - 1]
    {
      if entering {
        Cr();
        var h := HeadingStyle(theme, level);
        if h.Some? {
          currentHeaderStyler := h;
          Push(NewFrame(Heading, h.value, Top().leftMargin));
        }
      } else {
        currentHeaderStyler := None;
        Cr();
        Pop();
      }
    }

    // ---- tables ----

    /** A table: entering resets the row shading; leaving draws a closing top
        border as wide as all the columns together. */
    method ProcessTable(entering: bool)
      requires Valid()
      requires !entering ==> |stack| >= 2
      modifies this`stack, this`fill, pdf`log
      ensures Valid()
      ensures entering ==>
                stack == old(stack) + [NewFrame(Table, theme.tHeader, old(Top().leftMargin))]
                && !fill && pdf.log == old(pdf.log) + [Command.Cr]
      ensures !entering ==>
                stack == old(stack)[..|old(stack)| - 1] && fill == old(fill)
                && pdf.log == old(pdf.log) + [Cell(Sum(cellWidths), 0.0, "", "T", 0, "", false), Command.Cr]
    {
      if entering {
        var x := NewFrame(Table, theme.tHeader, Top().leftMargin);
        Cr();
        Push(x);
        fill := false;
      } else {
        var wSum := SumWidths(cellWidths);
        pdf.Record(Cell(wSum, 0.0, "", "T", 0, "", false));
        Pop();
        Cr();
      }
    }

    /** A table head: entering starts a new, empty list of column widths. */
    method ProcessTableHead(entering: bool)
      requires Valid()
      requires !entering ==> |stack| >= 2
      modifies this`stack, this`cellWidths
      ensures Valid()
      ensures entering ==>
                stack == old(stack) + [NewFrame(TableHead, theme.tHeader, old(Top().leftMargin))] && cellWidths == []
      ensures !entering ==> stack == old(stack)[..|old(stack)| - 1] && cellWidths == old(cellWidths)
    {
      if entering {
        Push(NewFrame(TableHead, theme.tHeader, Top().leftMargin));
        cellWidths := [];
      } else {
        Pop();
      }
    }

    method ProcessTableBody(entering: bool)
      requires Valid()
      requires !entering ==> |stack| >= 2
      modifies this`stack, pdf`log
      ensures Valid()
      ensures entering ==>
                stack == old(stack) + [NewFrame(TableBody, theme.tBody, old(Top().leftMargin))]
                && pdf.log == old(pdf.log)
      ensures !entering ==> stack == old(stack)[..|old(stack)| - 1] && pdf.log == old(pdf.log) + [Ln]
    {
      if entering {
        Push(NewFrame(TableBody, theme.tBody, Top().leftMargin));
      } else {
        Pop();
        pdf.Record(Ln);
      }
    }

    /** A table row: entering starts at column 0 on a new line; leaving flips
        the shading for the next row. */
    method ProcessTableRow(entering: bool)
      requires Valid()
      requires !entering ==> |stack| >= 2
      modifies this`stack, this`curDataCell, this`fill, pdf`log
      ensures Valid()
      ensures entering ==>
                var st := if old(Top().isHeader) then theme.tHeader else theme.tBody;
                stack == old(stack) + [NewFrame(TableRow, st, old(Top().leftMargin))]
                && curDataCell == 0 && fill == old(fill) && pdf.log == old(pdf.log) + [Ln]
      ensures !entering ==>
                stack == old(stack)[..|old(stack)| - 1]
                && curDataCell == old(curDataCell) && fill == !old(fill) && pdf.log == old(pdf.log)
    {
      if entering {
        var x := NewFrame(TableRow, theme.tBody, Top().leftMargin);
        if Top().isHeader {
          x := x.(textStyle := theme.tHeader);
        }
        pdf.Record(Ln);
        curDataCell := 0;
        Push(x);
      } else {
        Pop();
        fill := !fill;
      }
    }

    /** A table cell: a header cell gets the header style and border colour;
        leaving a cell moves to the next column. */
    method ProcessTableCell(isHeader: bool, entering: bool)
      requires Valid()
      requires !entering ==> |stack| >= 2
      modifies this`stack, this`curDataCell, pdf`log, pdf`font
      ensures Valid()
      ensures entering && isHeader ==>
                stack == old(stack) + [NewFrame(TableCell, theme.tHeader, old(Top().leftMargin)).(isHeader := true)]
                && curDataCell == old(curDataCell) && pdf.font == theme.tHeader
                && pdf.log == old(pdf.log) + [SetDrawColor(128, 0, 0), SetLineWidth(0.3), SetFont(theme.tHeader)]
      ensures entering && !isHeader ==>
                stack == old(stack) + [NewFrame(TableCell, theme.tBody, old(Top().leftMargin))]
                && curDataCell == old(curDataCell) && pdf.font == theme.tBody
                && pdf.log == old(pdf.log) + [SetFont(theme.tBody)]
      ensures !entering ==>
                stack == old(stack)[..|old(stack)| - 1] && curDataCell == old(curDataCell) + 1
                && pdf.log == old(pdf.log) && pdf.font == old(pdf.font)
    {
      if entering {
        var x := NewFrame(TableCell, theme.normal, Top().leftMargin);
        if isHeader {
          pdf.Record(SetDrawColor(128, 0, 0));
          pdf.Record(SetLineWidth(0.3));
          x := x.(isHeader := true, textStyle := theme.tHeader);
          SetStyler(theme.tHeader);
        } else {
          x := x.(textStyle := theme.tBody, isHeader := false);
          SetStyler(theme.tBody);
        }
        Push(x);
      } else {
        Pop();
        curDataCell := curDataCell + 1;
      }
    }
  }
}
