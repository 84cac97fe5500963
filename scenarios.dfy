/** Short handler sequences the tree walk produces, with what they print and
    what they leave behind: the numbering of an ordered list's items, and
    the style string around emphasis scopes. */
module Scenarios {

  import opened Layout
  import opened Text
  import opened Render
  import opened Traversal

  /** The item labels a command draws: the text of an item mark. */
  function Label(c: Command): seq<string>
  {
    if IsMark(c) then [c.text] else []
  }

  /** The item labels of a log, oldest first. */
  function ItemLabels(log: seq<Command>): (ls: seq<string>)
    ensures |ls| <= |log|
  {
    if log == [] then [] else ItemLabels(log[..|log| - 1]) + Label(log[|log| - 1])
  }

  lemma {:induction false} ItemLabelsAppend(a: seq<Command>, b: seq<Command>)
    ensures ItemLabels(a + b) == ItemLabels(a) + ItemLabels(b)
    decreases |b|
  {
    if b == [] {
      assert a + b == a;
    } else {
      assert (a + b)[..|a + b| - 1] == a + b[..|b| - 1];
      ItemLabelsAppend(a, b[..|b| - 1]);
    }
  }

  /** The labels "1.", "2.", ..., "k.". */
  function Ordinals(k: nat): (ls: seq<string>)
    ensures |ls| == k
  {
    if k == 0 then [] else Ordinals(k - 1) + [Ordinal(k)]
  }

  /** The label at index i is the ordinal of i + 1. */
  lemma {:induction false} OrdinalsAt(k: nat)
    ensures forall i :: 0 <= i < k ==> Ordinals(k)[i] == Ordinal(i + 1)
  {
    if k > 0 {
      OrdinalsAt(k - 1);
    }
  }

  /** Commands without item marks add no labels. */
  lemma {:induction false} NoLabels(log: seq<Command>, cs: seq<Command>)
    requires forall c :: c in cs ==> !IsMark(c)
    ensures ItemLabels(log + cs) == ItemLabels(log)
    decreases |cs|
  {
    if cs == [] {
      assert log + cs == log;
    } else {
      var init := cs[..|cs| - 1];
      assert cs[|cs| - 1] in cs;
      assert (log + cs)[..|log + cs| - 1] == log + init;
      assert forall c :: c in init ==> c in cs;
      NoLabels(log, init);
    }
  }

  /** A log that grew by unmarked commands has the labels it had. */
  lemma AddsNoMarkLabels(before: seq<Command>, after: seq<Command>)
    requires AddsNoMark(before, after)
    ensures ItemLabels(after) == ItemLabels(before)
  {
    assert after == before + after[|before|..];
    NoLabels(before, after[|before|..]);
  }

  /** The labels of what entering an ordered item logs: its mark alone. */
  lemma EnterLabels(log: seq<Command>, mark: Command, m: real)
    requires IsMark(mark)
    ensures ItemLabels(log + [Command.Cr] + [mark] + [SetLeftMargin(m), SetX(m)]) == ItemLabels(log) + [mark.text]
  {
    ItemLabelsAppend(log, [Command.Cr]);
    ItemLabelsAppend(log + [Command.Cr], [mark]);
    ItemLabelsAppend(log + [Command.Cr] + [mark], [SetLeftMargin(m), SetX(m)]);
  }

  /** The events inside a list item, none of which enters or leaves an item,
      handled in order until one fails. They never pop the frames that were
      there before, they keep every frame below the old top, and they draw no
      item mark; when all succeed, the depth is back where it started. */
  method ItemContents(r: Renderer, es: seq<Event>) returns (st: Status)
    requires r.Valid() && SafeFrom(1, es) && Net(es) == 0
    requires forall e :: e in es ==> ItemFree(e)
    modifies r, r.pdf
    ensures r.Valid() && st != PopAtRoot
    ensures |r.stack| >= |old(r.stack)|
    ensures r.stack[..|old(r.stack)| - 1] == old(r.stack)[..|old(r.stack)| - 1]
    ensures st == Done ==> |r.stack| == |old(r.stack)|
    ensures ItemLabels(r.pdf.log) == ItemLabels(old(r.pdf.log))
  {
    ghost var d0 := |r.stack|;
    ghost var below := r.stack[..d0 - 1];
    var n := 0;
    st := Done;
    while n < |es|
      invariant r.Valid() && n <= |es|
      invariant |r.stack| >= d0 && r.stack[..d0 - 1] == below
      invariant |r.stack| - d0 + Net(es[n..]) == 0
      invariant SafeFrom(|r.stack| - d0 + 1, es[n..])
      invariant ItemLabels(r.pdf.log) == ItemLabels(old(r.pdf.log))
      decreases |es| - n
    {
      assert es[n..][0] == es[n] && es[n..][1..] == es[n + 1..];
      assert es[n] in es;
      var s := ContentEvent(r, es[n], d0, below);
      if s != Done {
        st := s;
        break;
      }
      n := n + 1;
    }
  }

  /** One event inside an item, at a depth of at least `d0`; a pop only
      happens above it. */
  method ContentEvent(r: Renderer, e: Event, ghost d0: int, ghost below: seq<Frame>) returns (st: Status)
    requires r.Valid() && ItemFree(e) && d0 >= 1
    requires |r.stack| >= d0 && r.stack[..d0 - 1] == below
    requires Pops(e) ==> |r.stack| > d0
    modifies r, r.pdf
    ensures r.Valid() && st != PopAtRoot
    ensures st != Done ==> r.stack == old(r.stack)
    ensures st == Done ==> |r.stack| == |old(r.stack)| + Delta(e)
    ensures |r.stack| >= d0 && r.stack[..d0 - 1] == below
    ensures ItemLabels(r.pdf.log) == ItemLabels(old(r.pdf.log))
  {
    ghost var stk := r.stack;
    st := Dispatch(r, e);
    if st == Done {
      AddsNoMarkLabels(old(r.pdf.log), r.pdf.log);
      if Pops(e) {
        assert r.stack[..d0 - 1] == stk[..d0 - 1];
      } else {
        assert r.stack[..d0 - 1] == r.stack[..|stk| - 1][..d0 - 1];
      }
    }
  }

  /** Entering an item under a counter at `k`: the label "k+1." is drawn on
      top of the counter's frame. */
  method OpenItem(r: Renderer, ghost base: seq<Frame>, ghost counter: Frame, k: nat)
    requires r.Valid() && counter.listKind == Ordered && counter.itemNumber == k
    requires r.stack == base + [counter]
    modifies r, r.pdf
    ensures r.Valid() && |r.stack| == |base| + 2 && r.stack[..|base| + 1] == base + [counter]
    ensures ItemLabels(r.pdf.log) == ItemLabels(old(r.pdf.log)) + [Ordinal(k + 1)]
  {
    ghost var log0 := r.pdf.log;
    r.ProcessItem(true);
    ghost var item := r.Top();
    ghost var m := r.pdf.leftMargin;
    ghost var mark := Cell(3.0 * r.theme.em, r.theme.normal.size + r.theme.normal.spacing, Ordinal(k + 1), "", 0, "RB", false);
    assert Marker(r.theme, item) == [mark];
    assert r.pdf.log == log0 + [Command.Cr] + [mark] + [SetLeftMargin(m), SetX(m)];
    EnterLabels(log0, mark, m);
    assert r.stack == base + [counter] + [item];
  }

  /** Leaving an item whose counter frame sits below it: the counter moves
      on by one and no label is drawn. */
  method CloseItem(r: Renderer, ghost base: seq<Frame>, ghost counter: Frame)
    requires r.Valid() && |r.stack| == |base| + 2 && r.stack[..|base| + 1] == base + [counter]
    modifies r, r.pdf
    ensures r.Valid() && r.stack == base + [counter.(itemNumber := counter.itemNumber + 1)]
    ensures ItemLabels(r.pdf.log) == ItemLabels(old(r.pdf.log))
  {
    ghost var inside := r.stack;
    assert inside[..|inside| - 2] == base && inside[|inside| - 2] == counter;
    r.ProcessItem(false);
    NoLabels(old(r.pdf.log), [SetLeftMargin(inside[|inside| - 1].leftMargin), Command.Cr]);
  }

  /** One item of an ordered list whose counter stands at `k`, with content
      `children` holding no item of its own: it prints the label "k+1." and
      leaves the counter at k+1. */
  method OrderedItem(r: Renderer, ghost base: seq<Frame>, ghost list: Frame, k: nat, children: seq<Node>)
    returns (st: Status)
    requires r.Valid() && list.listKind == Ordered
    requires r.stack == base + [list.(itemNumber := k)]
    requires AllHeadingsInRange(children) && AllNoItems(children)
    modifies r, r.pdf
    ensures r.Valid() && st != PopAtRoot
    ensures st == Done ==> r.stack == base + [list.(itemNumber := k + 1)]
    ensures st == Done ==> ItemLabels(r.pdf.log) == ItemLabels(old(r.pdf.log)) + [Ordinal(k + 1)]
  {
    ghost var counter := list.(itemNumber := k);
    OpenItem(r, base, counter, k);
    WalkAllBalanced(children, 1);
    WalkAllItemFree(children);
    st := ItemContents(r, WalkAll(children));
    if st == Done {
      CloseItem(r, base, counter);
      assert counter.(itemNumber := k + 1) == list.(itemNumber := k + 1);
    }
  }

  /** The items of an ordered list whose counter starts at 0, one after
      another; `items[i]` is the content of item i. */
  method OrderedItems(r: Renderer, ghost base: seq<Frame>, ghost list: Frame, items: seq<seq<Node>>)
    returns (st: Status)
    requires r.Valid() && list.listKind == Ordered
    requires r.stack == base + [list.(itemNumber := 0)]
    requires forall i :: 0 <= i < |items| ==> AllHeadingsInRange(items[i]) && AllNoItems(items[i])
    modifies r, r.pdf
    ensures r.Valid() && st != PopAtRoot
    ensures st == Done ==> r.stack == base + [list.(itemNumber := |items|)]
    ensures st == Done ==> ItemLabels(r.pdf.log) == ItemLabels(old(r.pdf.log)) + Ordinals(|items|)
  {
    ghost var before := ItemLabels(r.pdf.log);
    var k := 0;
    st := Done;
    while k < |items|
      invariant r.Valid() && k <= |items| && st == Done
      invariant r.stack == base + [list.(itemNumber := k)]
      invariant ItemLabels(r.pdf.log) == before + Ordinals(k)
      decreases |items| - k
    {
      var s := OrderedItem(r, base, list, k, items[k]);
      if s != Done {
        st := s;
        break;
      }
      k := k + 1;
    }
  }

  /** An ordered list whose item `i` holds `items[i]`, none of which holds an
      item itself: item i prints the mark "i+1.", and when nothing fails the
      list's frame is gone afterwards and the canvas margin is back on the
      enclosing frame's margin. It works from any stack, so a list nested in
      another one numbers from 1 as well. */
  method OrderedList(r: Renderer, items: seq<seq<Node>>) returns (st: Status)
    requires r.Valid()
    requires forall i :: 0 <= i < |items| ==> AllHeadingsInRange(items[i]) && AllNoItems(items[i])
    modifies r, r.pdf
    ensures r.Valid() && st != PopAtRoot
    ensures st == Done ==> r.stack == old(r.stack)
    ensures st == Done ==> r.pdf.leftMargin == r.Top().leftMargin
    ensures st == Done ==> ItemLabels(r.pdf.log) == ItemLabels(old(r.pdf.log)) + Ordinals(|items|)
  {
    ghost var base := r.stack;
    ghost var log0 := r.pdf.log;
    r.ProcessList(true, false, true);
    ghost var list := r.Top();
    assert list == list.(itemNumber := 0);
    ghost var open := [SetFont(r.theme.normal), SetLeftMargin(list.leftMargin)];
    assert r.pdf.log == log0 + open;
    NoLabels(log0, open);
    st := OrderedItems(r, base, list, items);
    if st != Done {
      return;
    }
    ghost var logn := r.pdf.log;
    r.ProcessList(true, false, false);
    assert (base + [list.(itemNumber := |items|)])[..|base|] == base;
    ghost var restore := [SetFont(r.theme.normal), SetLeftMargin(r.pdf.leftMargin)];
    ghost var tail := if |r.stack| < 2 then [Command.Cr] else [];
    NoLabels(logn, restore);
    NoLabels(logn + restore, tail);
    assert r.pdf.log == logn + restore + tail;
    assert ItemLabels(logn) == ItemLabels(log0) + Ordinals(|items|);
  }

  /** A list nested directly in an item gives the canvas margin back to the
      item frame's margin, which is 4em left of where the item's text began:
      text of the item after the nested list starts under its marker. */
  method NestedListMargin(r: Renderer, ordered: bool) returns (ghost textMargin: real)
    requires r.Valid() && r.Top().kind == List
    modifies r, r.pdf
    ensures r.Valid() && r.Top().kind == Item
    ensures textMargin == old(r.Top().leftMargin) + 4.0 * r.theme.em
    ensures r.pdf.leftMargin == r.Top().leftMargin == textMargin - 4.0 * r.theme.em
  {
    r.ProcessItem(true);
    textMargin := r.pdf.leftMargin;
    r.ProcessList(ordered, false, true);
    r.ProcessList(ordered, false, false);
  }

  /** An emphasis scope around a frame whose style lacks `i` gives the frame
      back exactly as it was. */
  method EmphasisScope(r: Renderer)
    requires r.Valid() && 'i' !in r.Top().textStyle.style
    modifies r`stack
    ensures r.Valid() && r.stack == old(r.stack)
  {
    ghost var below := r.stack[..|r.stack| - 1];
    ghost var top := r.Top();
    assert r.stack == below + [top];
    r.ProcessEmph(true);
    assert r.stack == below + [WithFlag(top, 'i')];
    r.ProcessEmph(false);
    assert r.stack == below + [WithoutFlag(WithFlag(top, 'i'), 'i')];
    AddThenRemove(top.textStyle.style, 'i');
    assert WithoutFlag(WithFlag(top, 'i'), 'i') == top;
  }

  /** Emphasis nested in emphasis: leaving the inner scope already clears the
      italic letter, although the outer scope is still open. */
  method NestedEmphasis(r: Renderer)
    requires r.Valid()
    modifies r`stack
    ensures r.Valid() && 'i' !in r.Top().textStyle.style
    ensures |r.stack| == |old(r.stack)|
  {
    r.ProcessEmph(true);
    r.ProcessEmph(true);
    r.ProcessEmph(false);
  }
}
