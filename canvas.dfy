/** The drawing surface the renderer writes to, seen from the outside: every
    call is recorded in `log`, and the few pieces of canvas state the renderer
    reads back (left margin, current font, next link id, page number) are
    fields. Text measurement is a parameter of the canvas. */
module Canvas {

  import opened Layout

  class Pdf {
    /** The operations issued so far, oldest first. */
    var log: seq<Command>
    var leftMargin: real
    var font: Styler
    /** The id `AddLink` hands out next. */
    var nextLink: int
    var pageNo: int

    /** Width of a string in a font (`GetStringWidth` on the current font). */
    const stringWidth: (Styler, string) -> real
    /** Point size of a font (`GetFontSize`). */
    const fontSize: Styler -> real

    constructor (stringWidth: (Styler, string) -> real, fontSize: Styler -> real,
                 leftMargin: real, font: Styler)
      ensures this.stringWidth == stringWidth && this.fontSize == fontSize
      ensures this.leftMargin == leftMargin && this.font == font
      ensures log == [] && nextLink == 1 && pageNo == 1
    {
      this.stringWidth := stringWidth;
      this.fontSize := fontSize;
      this.leftMargin := leftMargin;
      this.font := font;
      log := [];
      nextLink := 1;
      pageNo := 1;
    }

    /** Record an operation that changes no canvas state the renderer reads. */
    method Record(c: Command)
      modifies this`log
      ensures log == old(log) + [c]
    {
      log := log + [c];
    }

    method SetFont(st: Styler)
      modifies this`log, this`font
      ensures log == old(log) + [Command.SetFont(st)] && font == st
    {
      log := log + [Command.SetFont(st)];
      font := st;
    }

    method SetLeftMargin(m: real)
      modifies this`log, this`leftMargin
      ensures log == old(log) + [Command.SetLeftMargin(m)] && leftMargin == m
    {
      log := log + [Command.SetLeftMargin(m)];
      leftMargin := m;
    }

    /** Register a new link target and return its id; ids are never reused. */
    method AddLink() returns (id: int)
      modifies this`log, this`nextLink
      ensures id == old(nextLink) && nextLink == old(nextLink) + 1
      ensures log == old(log) + [Command.AddLink(id)]
    {
      id := nextLink;
      nextLink := nextLink + 1;
      log := log + [Command.AddLink(id)];
    }

    function GetStringWidth(s: string): real
      reads this
    {
      stringWidth(font, s)
    }

    function GetFontSize(): real
      reads this
    {
      fontSize(font)
    }
  }
}
