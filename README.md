# mdtopdf container-stack renderer, modelled in Dafny

mdtopdf renders a parsed markdown tree to PDF. Its core lives in
`nodeProcessing.go`: one handler per node kind, each called with an
enter or a leave event during a depth-first walk. The handlers share the
following state:

- a stack of formatting frames (`containerState`);
- a handful of renderer flags: `IsInText`, `IsInImage`, `TrimNext`,
  `StrongOn`, `ParagraphUnprocessed` and `CurrentHeaderStyler`;
- the anchor map, from a link target to a gofpdf link id;
- the table layout globals `cellwidths`, `curdatacell` and `fill`.

The handlers also issue calls to the gofpdf canvas.

The model is imperative, as the source is:

- The class `Render.Renderer` holds that state as fields and has one
  method per handler. Each method's postcondition states the new stack,
  the new flags and exactly which canvas commands were appended.
- The canvas is the class `Canvas.Pdf`. It keeps a log of abstract
  commands plus the few pieces of canvas state the handlers read back:
  left margin, current font, next link id and page number.

Pure parts are functions with their own lemmas:

- `Text`: the style-letter toggles, newline folding and left-trimming,
  and the `%v.` ordinal.
- `Anchors`: the anchor registry.
- `Layout`: the margin chain between stacked frames, and the sum of the
  column widths.

`Traversal` adds the event stream, the depth-first walk that produces it,
and a dispatcher. With them it proves stack balance over a whole document.
`Scenarios` proves short handler sequences:

- an ordered list of n items prints the labels `1.` … `n.`, whatever each
  item holds (paragraphs, text, emphasis, links, tables, block quotes,
  headings), as long as that content holds no list item of its own;
- an emphasis scope restores the frame it opened on;
- a list nested in an item hands the canvas margin back 4em left of the
  item's text.

In the places below, the code behaves differently from what the design
evidently intends. The model follows the code:

- **Nested emphasis.** Leaving an inner emphasis removes every `i` from
  the top frame's style, even while an outer emphasis is still open.
  A scoped reading would keep the letter until the outer scope ends.
  See `Text.NestedLeaveClears` and `Scenarios.NestedEmphasis`. `StrongOn`
  behaves the same way: it becomes `false` on any strong leave.
- **Margin restore.** A list leave sets the margin to the top frame's
  margin minus the indent step. It does not re-set the parent's stored
  value directly. In exact arithmetic the two are equal
  (`Layout.ListLeaveRestores`). A block quote indents from, and restores
  against, the canvas's current margin, so its frame's margin is not tied
  to the frame below.
- **List nested in an item.** Entering an item moves the canvas margin to
  the item frame's margin + 4em, where the item's text starts. A list
  nested in the item indents from the item frame's margin, and its leave
  sets the canvas margin back to that frame margin. So the item's text
  after the nested list starts 4em left of its earlier text, under the
  marker. See `Scenarios.NestedListMargin`.
- **Heading anchors under emphasis.** Heading text looks up the anchor key
  `"#"` + the heading id stored on the text node's parent. Text directly in
  a heading uses the heading's id. Text in an emphasis or strong inside the
  heading has that node as its parent, whose id is empty, so it uses the
  key `"#"`. The model's text leaf carries the parent's id for this reason.
- **Table rows.** The row handler tests `isHeader` on the frame below the
  row. Only table-cell frames ever set that flag, so in a well-formed table
  every row frame takes the body style. The model keeps the test as
  written.

## Model

| member | source | states |
|---|---|---|
| Text.AddFlag | nodeProcessing.go:212-214 | the letter is present afterwards; a style that already has it is returned unchanged; no other letter's presence changes; the string only grows, and gains the letter only when it lacked it |
| Text.AddFlagIdempotent | nodeProcessing.go:212-214 | adding a style letter twice equals adding it once |
| Text.RemoveAll | nodeProcessing.go:218-219 | the letter is absent afterwards, and every other letter keeps its presence |
| Text.RemoveAllCounts | nodeProcessing.go:218-219 | every other letter keeps its number of occurrences, and the length drops by the number of removed letters |
| Text.RemoveAbsent | nodeProcessing.go:218-219 | removing a letter that is not there leaves the style string unchanged |
| Text.RemoveAllAppend | nodeProcessing.go:218-219 | removal distributes over concatenation, so the remaining letters keep their order |
| Text.AddThenRemove | nodeProcessing.go:209-221 | entering and then leaving emphasis on a style without the letter gives back the original string |
| Text.NestedLeaveClears | nodeProcessing.go:218-219 | one leave clears the letter even after two enters |
| Text.FoldNewlines | nodeProcessing.go:44 | same length; each newline becomes a space and every other character is kept; no newline remains |
| Text.TrimLeftSpaces | nodeProcessing.go:46 | the result is a suffix of the input; everything stripped is a space; the result does not start with a space |
| Text.TrimTwice | nodeProcessing.go:46 | trimming twice equals trimming once |
| Text.Cleaned | nodeProcessing.go:43-48 | the cleaned text has no newline; with trimming on it does not start with a space; without trimming it keeps the literal's length |
| Text.CleanedEmpty | nodeProcessing.go:43-48 | the text is empty exactly when the literal is empty, or when trimming is on and the literal holds only spaces and newlines |
| Text.Decimal | nodeProcessing.go:190 | digits only, at least one, and a leading zero exactly for zero |
| Text.DecimalRoundTrip | nodeProcessing.go:190 | reading back the printed digits gives the number |
| Text.DecimalInjective | nodeProcessing.go:190 | distinct item numbers print differently |
| Text.Ordinal | nodeProcessing.go:190 | the label is digits followed by a dot; the digits denote the item number and start with `0` only for 0 |
| Layout.HeadingStyle | nodeProcessing.go:367-411 | a heading level has a style exactly when it is between 1 and 6, and each of the six levels takes its own slot |
| Layout.ListKindOf | nodeProcessing.go:128-134 | the definition flag wins over the ordered flag; a list with neither flag is unordered; a list kind is never "not a list" |
| Layout.WithFlag | nodeProcessing.go:212-214 | the style letter is present; every other letter keeps its presence; size, spacing and every other field of the frame are unchanged |
| Layout.WithoutFlag | nodeProcessing.go:218-219 | the style letter is absent; every other letter keeps its presence; size, spacing and every other field of the frame are unchanged |
| Layout.ChainedPush | nodeProcessing.go:142-145 | pushing a frame whose margin follows the frame below it keeps the margin chain |
| Layout.ChainedPop | nodeProcessing.go:161 | popping keeps the margin chain |
| Layout.ChainedReplaceTop | nodeProcessing.go:204 | replacing the top frame by one with the same kind and margin keeps the margin chain |
| Layout.ListLeaveRestores | nodeProcessing.go:158 | on a list leave, the list margin minus the indent step is the enclosing frame's margin |
| Layout.SumAppend | nodeProcessing.go:464-466 | the width sum of a concatenation is the sum of the two sums |
| Layout.SumBounds | nodeProcessing.go:464-466 | with non-negative widths, the closing border is at least as wide as any column |
| Layout.SumNonNegative | nodeProcessing.go:464-466 | non-negative widths have a non-negative sum |
| Layout.SumWidths | nodeProcessing.go:463-466 | the loop's total is the sum of all column widths |
| Anchors.Resolve | nodeProcessing.go:53-57 | a new id is handed out exactly when the target is absent; the target then maps to the returned id; no entry is removed or changed |
| Anchors.ResolveKeepsInvariant | nodeProcessing.go:53-57 | stored ids stay below the link counter and stay pairwise distinct |
| Anchors.ResolveTwice | nodeProcessing.go:65-73 | a second lookup of a target allocates nothing and returns the first lookup's id |
| Anchors.ResolveStable | nodeProcessing.go:53-57 | lookups of other targets never change a stored id |
| Anchors.DistinctTargetsDistinctIds | nodeProcessing.go:53-57 | two different targets never get the same id |
| Canvas.Pdf.AddLink | nodeProcessing.go:55 | the returned id is the counter's value, and the counter moves past it |
| Render.Renderer.Push | nodeProcessing.go:142-154 | the frame goes on top of the stack, and the invariant (a root frame, the margin chain) is kept |
| Render.Renderer.Pop | nodeProcessing.go:161 | the top frame goes, the root frame is never removed, and the invariant is kept |
| Render.Renderer.SetTop | nodeProcessing.go:204 | a frame is updated in place, with its kind, margin and list kind kept, and the invariant is kept |
| Render.Marker | nodeProcessing.go:183-192 | an unordered item draws `*`, an ordered item draws its ordinal in a right-bottom cell, and any other item draws nothing |
| Render.Renderer.AnchorFor | nodeProcessing.go:53-57 | the id, registry, counter and logged AddLink are those of `Anchors.Resolve` |
| Render.Renderer.ProcessText | nodeProcessing.go:34-111 | ignored inside an image; otherwise, for each kind of top frame, states the font, the text after cleaning, the anchor updates, the column width appended or read, the commands logged, and the trim and lead-in rules |
| Render.Renderer.BeginText | nodeProcessing.go:39-48 | selects the top frame's style, cleans the literal under the old trim flag, and clears that flag and the in-text flag |
| Render.Renderer.LinkText | nodeProcessing.go:50-61 | an internal destination is resolved through the registry and written as an anchor link; a URL is written as a plain link |
| Render.Renderer.HeadingText | nodeProcessing.go:62-74 | `"#"` + heading id is resolved; that link is set to the current page; the text is written |
| Render.Renderer.HeaderCellText | nodeProcessing.go:77-90 | exactly one width is appended (the measured text + 2em), and the cell is drawn centred at that width with border "1" |
| Render.Renderer.BodyCellText | nodeProcessing.go:91-97 | the cell is drawn at `cellwidths[curdatacell]` with border "LR" and the current fill |
| Render.Renderer.PlainText | nodeProcessing.go:99-102 | the text is written in the frame's style; the in-text flag says whether it was non-empty |
| Render.Renderer.FinishListParagraph | nodeProcessing.go:103-110 | the first non-empty text of a list paragraph clears the unprocessed flag; with strong on, it also sets the trim flag and breaks the line |
| Render.Renderer.ProcessCode | nodeProcessing.go:295-299 | inline code is written in the backtick style |
| Render.Renderer.ProcessCodeblock | nodeProcessing.go:113-125 | line break, then the block as one multi-line cell in the backtick style |
| Render.Renderer.ProcessHTMLBlock | nodeProcessing.go:444-451 | a full-width cell between two line breaks |
| Render.Renderer.ProcessHorizontalRule | nodeProcessing.go:421-442 | a rule between two line breaks |
| Render.Renderer.ProcessList | nodeProcessing.go:127-166 | enter pushes a list frame at margin + indent with counter 0 and sets the canvas margin to match; leave pops, restores the margin to that of the frame below, and breaks the line only when fewer than two frames remain |
| Render.Renderer.ProcessItem | nodeProcessing.go:168-207 | enter breaks the line, pushes an item numbered parent counter + 1 marked first-paragraph, draws its marker, and moves the margin and cursor 4em in; leave restores the item margin, breaks the line, pops, and increments the list's counter |
| Render.Renderer.ProcessEmph | nodeProcessing.go:209-221 | only the top frame changes: its style gains `i` on enter and loses every `i` on leave |
| Render.Renderer.ProcessStrong | nodeProcessing.go:223-237 | as emphasis with `b`, and afterwards `StrongOn` equals the enter flag |
| Render.Renderer.LinkStyle | nodeProcessing.go:242-245 | the link style, with the size of the current heading style when one is set |
| Render.Renderer.ProcessLink | nodeProcessing.go:239-259 | enter pushes a link frame with the destination, the link style and the current margin; leave pops |
| Render.Renderer.ProcessImage | nodeProcessing.go:264 | the in-image flag equals the enter flag |
| Render.Renderer.ProcessParagraph | nodeProcessing.go:301-345 | both events set the unprocessed flag and clear trim; outside items: a line break; in a list item: none for the first paragraph, whose leave clears first-paragraph; one per side for later paragraphs |
| Render.Renderer.ProcessBlockQuote | nodeProcessing.go:347-363 | enter pushes a quote frame and sets the canvas margin to its current value + indent; leave undoes the indent, pops and breaks the line |
| Render.Renderer.ProcessHeading | nodeProcessing.go:365-419 | a line break; for levels 1-6 enter pushes a frame in the level's style and sets the current heading style; other levels push nothing; leave clears the heading style and pops |
| Render.Renderer.ProcessTable | nodeProcessing.go:453-473 | enter pushes and resets fill; leave draws a top border as wide as the sum of the column widths, pops and breaks the line |
| Render.Renderer.ProcessTableHead | nodeProcessing.go:475-487 | enter pushes and empties the column widths |
| Render.Renderer.ProcessTableBody | nodeProcessing.go:489-501 | enter pushes; leave pops and starts a new line |
| Render.Renderer.ProcessTableRow | nodeProcessing.go:503-522 | enter starts a new line, resets the column to 0 and pushes in the header or body style; leave pops and flips fill |
| Render.Renderer.ProcessTableCell | nodeProcessing.go:524-547 | a header cell sets the border colour, line width and header style and is marked header; a body cell takes the body style; leave moves to the next column |
| Traversal.Delta | nodeProcessing.go:365-419 | an event changes the depth by -1 exactly when it is a popping leave, and by +1 exactly when it is a pushing enter (headings push only at levels 1-6) |
| Traversal.WalkBalanced | nodeProcessing.go:365-419 | walking a tree whose headings are at levels 1-6 changes the stack depth by nothing and never leaves with fewer than two frames |
| Traversal.WalkAllBalanced | nodeProcessing.go:365-419 | the same for a sequence of sibling trees |
| Traversal.UnstyledHeadingUnbalanced | nodeProcessing.go:365-419 | a heading at level 7 pops a frame it never pushed |
| Traversal.Dispatch | nodeProcessing.go:34-547 | a popping leave at the root frame fails; body-cell text past the recorded columns fails, and nothing else does; a failing event changes nothing; a successful event moves the depth by its delta, keeps every frame below the top unless it leaves an item, and draws no item mark unless it belongs to an item |
| Traversal.ContainerEvent | nodeProcessing.go:127-547 | every container handler keeps the renderer invariant and moves the depth by the event's delta; only an item leave touches a frame below the top; only item handlers draw item marks |
| Traversal.EnterContainer | nodeProcessing.go:127-547 | an enter pushes exactly when the kind pushes, and keeps every frame below the old top |
| Traversal.EnterTablePart | nodeProcessing.go:453-547 | each table enter pushes one frame, keeps the frames below and draws no item mark |
| Traversal.EnterInline | nodeProcessing.go:209-264 | emphasis, strong and image enters push nothing and a link enter pushes one frame; none touches the frames below the top or draws an item mark |
| Traversal.EnterBlock | nodeProcessing.go:127-419 | list, item, paragraph, block-quote and heading enters push as `PushesOnEnter` says and keep the frames below the top |
| Traversal.LeaveContainer | nodeProcessing.go:127-547 | a popping leave removes exactly the top frame unless it leaves an item; a non-popping leave keeps every frame below the top |
| Traversal.LeafEvent | nodeProcessing.go:34-125 | leaf handlers never touch the stack or draw an item mark; a leaf fails exactly when it is body-cell text, outside an image, past the recorded columns, and then nothing changes |
| Traversal.TextEvent | nodeProcessing.go:91-97 | text fails exactly when it would read a column width that was never recorded, and then nothing changes |
| Traversal.WalkItemFree | nodeProcessing.go:168-207 | a tree without list items yields no item event |
| Traversal.WalkAllItemFree | nodeProcessing.go:168-207 | the same for a sequence of sibling trees |
| Traversal.RenderEvents | nodeProcessing.go:34-547 | the depth moves by the net change of the handled events; a stream that is safe from the starting depth never stops at a pop |
| Traversal.RenderTree | nodeProcessing.go:34-547 | rendering a tree from the root frame never pops the root, and a completed rendering ends on the root frame alone |
| Scenarios.Ordinals | nodeProcessing.go:190 | the first k item labels, one per item |
| Scenarios.OrdinalsAt | nodeProcessing.go:190 | the label at index i is the ordinal of i + 1 |
| Scenarios.NoLabels | nodeProcessing.go:183-192 | commands that are not item marks add no label |
| Scenarios.AddsNoMarkLabels | nodeProcessing.go:183-192 | a log that grew by unmarked commands keeps its labels |
| Scenarios.EnterLabels | nodeProcessing.go:174-196 | entering an ordered item adds exactly its marker's label to the log |
| Scenarios.ItemContents | nodeProcessing.go:34-547 | the events inside an item never pop below its frame, keep every frame below it, add no label, and end at the item's depth when none fails |
| Scenarios.ContentEvent | nodeProcessing.go:34-547 | one such event keeps the frames below the item and adds no label |
| Scenarios.OpenItem | nodeProcessing.go:169-196 | entering an item under a counter at k adds the label of k + 1 above the counter's frame |
| Scenarios.CloseItem | nodeProcessing.go:197-206 | leaving the item moves the counter on by one and adds no label |
| Scenarios.OrderedItem | nodeProcessing.go:168-207 | an item under a counter at k, whatever item-free content it holds, prints the label of k + 1 and leaves the counter at k + 1 |
| Scenarios.OrderedItems | nodeProcessing.go:168-207 | n items with item-free contents under a fresh counter print the labels `1.` … `n.` |
| Scenarios.OrderedList | nodeProcessing.go:127-207 | an ordered list of n items with item-free contents, at any depth, prints `1.` … `n.`, leaves the stack as it was, and puts the canvas margin back on the enclosing frame's margin |
| Scenarios.NestedListMargin | nodeProcessing.go:139-194 | after a list nested directly in an item, the canvas margin is the item frame's margin, 4em left of where the item's text began |
| Scenarios.EmphasisScope | nodeProcessing.go:209-221 | an emphasis scope on a frame without `i` leaves the stack exactly as it was |
| Scenarios.NestedEmphasis | nodeProcessing.go:209-221 | after enter, enter, leave, the top frame has no `i` |

## Left out

- Image embedding: the path prefixes, the file-existence checks and
  `ImageOptions`. These are filesystem and library calls. Only the
  `IsInImage` flag is modelled.
- Horizontal-rule geometry (`GetXY`, `GetPageSize`, `MoveTo`/`LineTo`,
  line width, fill colour, `DrawPath`). It is one `Rule` command.
- The internals of `cr`, `write`, `writeLink`, `writeAnchorLink`,
  `multiCell` and `setStyler`. Each is one log command. The stack type and
  these helpers live outside `nodeProcessing.go`, and are modelled from
  their uses there.
- `tracer` and `zlog` output, and the `GetMargins` calls that only feed
  the tracer.
- Floating-point rounding of margins and widths. Arithmetic is on exact
  `real`.
- `GetStringWidth`, `GetFontSize` and `zhttp.HasURLScheme` are foreign
  measurements and tests. They are function-valued parameters of the
  canvas and the renderer.
- Pagination. The page number is a canvas field that no modelled
  operation changes. Unused gofpdf arguments are dropped: `SetLink`'s y
  of -1, `CellFormat`'s link arguments, and `Ln`'s -1.
- `mdtopdf.go`'s tree walker and `RenderNode` dispatcher are not part of
  this model. `Traversal` is an explicit stand-in for them.
- Render.Renderer.ProcessText: requires the column index to be in range
  for body-cell text. Go panics there with an index error. `Traversal`
  returns `ColumnOutOfRange` instead.
- Render.Renderer.ProcessItem: on leave, the model pops first and then
  increments the new top's counter. Go increments `parent()` and then
  pops. The resulting state is the same.
- Render.Renderer.ProcessList, Render.Renderer.ProcessItem and the other
  handlers that pop: they require a frame above the root. The stack type is
  not part of this model, and the model assumes the root frame is never
  popped. `Traversal.Dispatch` reports such a pop as `PopAtRoot`.
- The table layout globals `cellwidths`, `curdatacell` and `fill` are
  fields of each renderer. In Go they are package variables, shared by
  every renderer in a process; that sharing is not modelled.
- Scenarios.OrderedList, Scenarios.OrderedItems and Scenarios.OrderedItem:
  an item's content may not itself hold list items. Items of a nested list
  draw their own marks, which would interleave with the outer labels. Such
  a nested list, taken alone, is covered by `Scenarios.OrderedList`
  itself, which works at any depth.
