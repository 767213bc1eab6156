/**
 * The nesting bookkeeping of the product parser: depth counters for the
 * detail page, its description and its materials list, and the stacks of
 * function and highlight blocks, each block collecting a title, list items,
 * body text and links until its element closes.
 */
module Regions {
  import opened Options
  import opened Text
  import opened Ordering

  /**
   * A region depth after a start tag: an element that opens the region
   * enters it at depth 1, and every element inside it goes one level deeper.
   */
  function CounterOpen(d: nat, opens: bool): (r: nat)
    ensures r > 0 <==> opens || d > 0
    ensures r > 0 ==> r == d + 1
  {
    if opens || d > 0 then d + 1 else d
  }

  /** A region depth after an end tag: one level shallower, never below 0. */
  function CounterClose(d: nat): (r: nat)
    ensures d > 0 ==> r + 1 == d
    ensures d == 0 ==> r == 0
  {
    if d > 0 then d - 1 else 0
  }

  /** An element's start and end tags leave a depth where it was, whether or not the element opens the region. */
  lemma CounterBalanced(d: nat, opens: bool)
    ensures CounterClose(CounterOpen(d, opens)) == d
  {
  }

  /**
   * An open function or highlight block. A function block may carry its
   * name from a `data-function` attribute; a highlight block never does.
   */
  datatype BlockFrame = BlockFrame(
    depth: int,
    name: Option<String>,
    titleBuffer: seq<String>,
    bodyBuffer: seq<String>,
    items: seq<String>,
    itemDepth: nat,
    currentItem: seq<String>,
    titleStack: seq<String>,
    links: seq<String>)

  /** A closed block as the product reports it; `heading` is the `name` of a function entry and the `title` of a highlight entry. */
  datatype Entry = Entry(
    heading: Option<String>,
    items: Option<seq<String>>,
    text: Option<String>,
    links: Option<seq<String>>)

  function NewBlock(name: Option<String>): BlockFrame {
    BlockFrame(1, name, [], [], [], 0, [], [], [])
  }

  /** Replaces the innermost frame. */
  function WithTop(stack: seq<BlockFrame>, f: BlockFrame): (r: seq<BlockFrame>)
    requires stack != []
    ensures |r| == |stack| && r[|r| - 1] == f && r[..|r| - 1] == stack[..|stack| - 1]
  {
    stack[..|stack| - 1] + [f]
  }

  /** A start tag: a new block when the element opens one, otherwise one level deeper in the innermost block. */
  function BlockOpen(stack: seq<BlockFrame>, opens: bool, name: Option<String>): (r: seq<BlockFrame>)
    ensures opens ==> r == stack + [NewBlock(name)]
    ensures !opens && stack != [] ==> r == WithTop(stack, stack[|stack| - 1].(depth := stack[|stack| - 1].depth + 1))
    ensures !opens && stack == [] ==> r == []
  {
    if opens then stack + [NewBlock(name)]
    else if stack != [] then
      var top := stack[|stack| - 1];
      WithTop(stack, top.(depth := top.depth + 1))
    else stack
  }

  /** A start tag among `titleTags` enters the innermost block's title. */
  function BlockTitleStart(stack: seq<BlockFrame>, tag: String, titleTags: set<String>): (r: seq<BlockFrame>)
    ensures |r| == |stack|
    ensures stack == [] || tag !in titleTags ==> r == stack
    ensures stack != [] && tag in titleTags ==>
      var top := stack[|stack| - 1];
      r[..|r| - 1] == stack[..|stack| - 1] && r[|r| - 1] == top.(titleStack := top.titleStack + [tag])
  {
    if stack != [] && tag in titleTags then
      var top := stack[|stack| - 1];
      WithTop(stack, top.(titleStack := top.titleStack + [tag]))
    else stack
  }

  /** An `li` start tag goes one item level deeper; at item level 1 it starts a fresh item. */
  function BlockItemStart(stack: seq<BlockFrame>, tag: String): (r: seq<BlockFrame>)
    ensures |r| == |stack|
    ensures stack == [] || tag != "li" ==> r == stack
    ensures stack != [] && tag == "li" ==>
      var top, top' := stack[|stack| - 1], r[|r| - 1];
      && r[..|r| - 1] == stack[..|stack| - 1]
      && top'.itemDepth == top.itemDepth + 1
      && top'.currentItem == (if top.itemDepth == 0 then [] else top.currentItem)
      && top' == top.(itemDepth := top'.itemDepth, currentItem := top'.currentItem)
  {
    if stack != [] && tag == "li" then
      var top := stack[|stack| - 1];
      var deeper := top.(itemDepth := top.itemDepth + 1);
      WithTop(stack, if deeper.itemDepth == 1 then deeper.(currentItem := []) else deeper)
    else stack
  }

  /** The whole of a start tag for one kind of block: open or deepen, then title and item bookkeeping. */
  function BlockStart(stack: seq<BlockFrame>, opens: bool, name: Option<String>, tag: String, titleTags: set<String>): (r: seq<BlockFrame>)
    ensures |r| == if opens then |stack| + 1 else |stack|
    ensures opens ==> r == stack + [BlockFrame(1, name, [], [], [], if tag == "li" then 1 else 0, [],
      if tag in titleTags then [tag] else [], [])]
    ensures !opens && stack == [] ==> r == []
    ensures !opens && stack != [] ==>
      var top, top' := stack[|stack| - 1], r[|r| - 1];
      && r[..|r| - 1] == stack[..|stack| - 1]
      && top'.depth == top.depth + 1
      && top'.titleStack == top.titleStack + (if tag in titleTags then [tag] else [])
      && top'.itemDepth == top.itemDepth + (if tag == "li" then 1 else 0)
      && top'.currentItem == (if tag == "li" && top.itemDepth == 0 then [] else top.currentItem)
      && top'.name == top.name && top'.titleBuffer == top.titleBuffer && top'.bodyBuffer == top.bodyBuffer
      && top'.items == top.items && top'.links == top.links
  {
    var pushed := BlockOpen(stack, opens, name);
    var titled := BlockTitleStart(pushed, tag, titleTags);
    assert opens ==> pushed[..|stack|] == stack && titled[..|stack|] == stack;
    var r := BlockItemStart(titled, tag);
    assert opens ==> r[..|stack|] == stack && r == r[..|stack|] + [r[|stack|]];
    assert opens ==> r[|stack|].titleStack == (if tag in titleTags then [tag] else []);
    assert opens ==> r[|stack|].itemDepth == (if tag == "li" then 1 else 0);
    assert opens ==> r[|stack|].depth == 1 && r[|stack|].currentItem == [] && r[|stack|].name == name;
    r
  }

  /** A closing anchor's absolute href joins the innermost block's links. */
  function BlockAddLink(stack: seq<BlockFrame>, href: Option<String>): (r: seq<BlockFrame>)
    ensures |r| == |stack|
    ensures !Present(href) || stack == [] ==> r == stack
    ensures Present(href) && stack != [] ==>
      var top := stack[|stack| - 1];
      r[..|r| - 1] == stack[..|stack| - 1] && r[|r| - 1] == top.(links := top.links + [href.value])
  {
    if Present(href) && stack != [] then
      var top := stack[|stack| - 1];
      WithTop(stack, top.(links := top.links + [href.value]))
    else stack
  }

  /**
   * Text inside a block goes to the title while a title element is open,
   * else to the current item while inside an `li`, else to the body.
   */
  function BlockData(stack: seq<BlockFrame>, data: String): (r: seq<BlockFrame>)
    ensures |r| == |stack|
    ensures stack != [] ==>
      var top, top' := stack[|stack| - 1], r[|r| - 1];
      && r[..|r| - 1] == stack[..|stack| - 1]
      && top'.depth == top.depth && top'.items == top.items && top'.links == top.links && top'.name == top.name
      && top'.titleBuffer == top.titleBuffer + (if top.titleStack != [] then [data] else [])
      && top'.currentItem == top.currentItem + (if top.titleStack == [] && top.itemDepth > 0 then [data] else [])
      && top'.bodyBuffer == top.bodyBuffer + (if top.titleStack == [] && top.itemDepth == 0 then [data] else [])
  {
    if stack == [] then stack
    else
      var top := stack[|stack| - 1];
      if top.titleStack != [] then WithTop(stack, top.(titleBuffer := top.titleBuffer + [data]))
      else if top.itemDepth > 0 then WithTop(stack, top.(currentItem := top.currentItem + [data]))
      else WithTop(stack, top.(bodyBuffer := top.bodyBuffer + [data]))
  }

  /** The entry a closing block yields, if any of its parts is non-empty. */
  function BlockEntry(f: BlockFrame): Option<Entry> {
    MakeEntry(f.name, NormalizeText(f.titleBuffer), NormalizeText(f.bodyBuffer), f.items, f.links)
  }

  /**
   * The entry of a block with the given name, normalized title and body,
   * items and links: the name if present and otherwise a non-empty title,
   * the items if any, a non-empty body as text, and the links sorted without
   * duplicates if any; nothing at all when every part is missing.
   */
  function MakeEntry(name: Option<String>, title: String, body: String, items: seq<String>, links: seq<String>): Option<Entry> {
    var heading := if Present(name) then name else if title != [] then Some(title) else None;
    var e := Entry(
      heading,
      if items != [] then Some(items) else None,
      if body != [] then Some(body) else None,
      if links != [] then Some(SortedUnique(links)) else None);
    if e.heading.None? && e.items.None? && e.text.None? && e.links.None? then None else Some(e)
  }

  /**
   * An end tag in the innermost block: a closing `li` at item level 1
   * completes the current item, a matching tag closes the open title, and
   * the block is popped — after reporting its entry — when its depth
   * returns to 0.
   */
  function BlockEnd(stack: seq<BlockFrame>, entries: seq<Entry>, tag: String): (r: (seq<BlockFrame>, seq<Entry>))
    ensures stack == [] ==> r == (stack, entries)
    ensures stack != [] && stack[|stack| - 1].depth == 1 ==>
      r.0 == stack[..|stack| - 1] && r.1 == entries + BlockReport(CloseItem(stack[|stack| - 1], tag))
    ensures stack != [] && stack[|stack| - 1].depth != 1 ==>
      r.1 == entries && |r.0| == |stack| && r.0[..|stack| - 1] == stack[..|stack| - 1]
      && r.0[|stack| - 1] == CloseItem(stack[|stack| - 1], tag).(depth := stack[|stack| - 1].depth - 1)
  {
    if stack == [] then (stack, entries)
    else
      var f := CloseItem(stack[|stack| - 1], tag);
      if f.depth == 1 then (stack[..|stack| - 1], entries + BlockReport(f))
      else (WithTop(stack, f.(depth := f.depth - 1)), entries)
  }

  /** The entries a closing block adds to the report: its entry, or none. */
  function BlockReport(f: BlockFrame): (r: seq<Entry>)
    ensures |r| <= 1
    ensures var title, body := NormalizeText(f.titleBuffer), NormalizeText(f.bodyBuffer);
      && (r == [] <==> !Present(f.name) && title == [] && body == [] && f.items == [] && f.links == [])
      && (r != [] ==>
        && r[0].heading == (if Present(f.name) then f.name else if title != [] then Some(title) else None)
        && r[0].items == (if f.items != [] then Some(f.items) else None)
        && r[0].text == (if body != [] then Some(body) else None)
        && r[0].links == (if f.links != [] then Some(SortedUnique(f.links)) else None))
  {
    Listed(BlockEntry(f))
  }

  /** An optional entry as a list of none or one. */
  function Listed(e: Option<Entry>): seq<Entry> {
    if e.Some? then [e.value] else []
  }

  /** The `li` and title bookkeeping of an end tag, before the depth drops. */
  function CloseItem(f: BlockFrame, tag: String): (r: BlockFrame)
    ensures r.depth == f.depth && r.name == f.name && r.links == f.links
    ensures r.titleBuffer == f.titleBuffer && r.bodyBuffer == f.bodyBuffer
    ensures tag != "li" || f.itemDepth == 0 ==>
      r.itemDepth == f.itemDepth && r.items == f.items && r.currentItem == f.currentItem
    ensures tag == "li" && f.itemDepth > 1 ==>
      r.itemDepth == f.itemDepth - 1 && r.items == f.items && r.currentItem == f.currentItem
    ensures tag == "li" && f.itemDepth == 1 ==>
      var text := NormalizeText(f.currentItem);
      r.itemDepth == 0 && r.currentItem == [] && r.items == f.items + (if text != [] then [text] else [])
    ensures f.titleStack != [] && f.titleStack[|f.titleStack| - 1] == tag ==>
      r.titleStack == f.titleStack[..|f.titleStack| - 1]
    ensures !(f.titleStack != [] && f.titleStack[|f.titleStack| - 1] == tag) ==> r.titleStack == f.titleStack
  {
    var g := CloseLi(f, tag);
    if g.titleStack != [] && g.titleStack[|g.titleStack| - 1] == tag then
      g.(titleStack := g.titleStack[..|g.titleStack| - 1])
    else g
  }

  /** The `li` part of an end tag: item level one lower, the item completed when it reaches 0. */
  function CloseLi(f: BlockFrame, tag: String): (r: BlockFrame)
    ensures r.depth == f.depth && r.name == f.name && r.links == f.links && r.titleStack == f.titleStack
    ensures r.titleBuffer == f.titleBuffer && r.bodyBuffer == f.bodyBuffer
    ensures tag != "li" || f.itemDepth == 0 ==> r == f
    ensures tag == "li" && f.itemDepth > 1 ==> r == f.(itemDepth := f.itemDepth - 1)
    ensures tag == "li" && f.itemDepth == 1 ==>
      var text := NormalizeText(f.currentItem);
      r.itemDepth == 0 && r.currentItem == [] && r.items == f.items + (if text != [] then [text] else [])
  {
    if tag == "li" && f.itemDepth > 0 then
      var g := f.(itemDepth := f.itemDepth - 1);
      if g.itemDepth == 0 then
        var text := NormalizeText(g.currentItem);
        g.(items := g.items + (if text != [] then [text] else []), currentItem := [])
      else g
    else f
  }

  /** An item, title or body text as the parser reports it: non-empty, words separated by single spaces. */
  predicate CleanText(s: String) {
    s != [] && Normalized(s)
  }

  /** A normalized text is clean unless it is empty. */
  lemma NormalizeClean(chunks: seq<String>)
    ensures NormalizeText(chunks) == [] || CleanText(NormalizeText(chunks))
  {
    NormalizeTextShape(chunks);
  }

  /** What every open block satisfies: a positive depth, clean items, a non-empty name if any, non-empty links. */
  predicate FrameOk(f: BlockFrame) {
    f.depth >= 1 && ContentOk(f)
  }

  predicate ContentOk(f: BlockFrame) {
    && (f.name.Some? ==> f.name.value != [])
    && (forall i :: 0 <= i < |f.items| ==> CleanText(f.items[i]))
    && (forall i :: 0 <= i < |f.links| ==> f.links[i] != [])
  }

  predicate StackOk(stack: seq<BlockFrame>) {
    forall i :: 0 <= i < |stack| ==> FrameOk(stack[i])
  }

  /**
   * What every reported entry satisfies: some part is present, the heading
   * and text are non-empty, the items are clean, and the links are non-empty
   * strings in strictly ascending order.
   */
  predicate EntryOk(e: Entry) {
    && (e.heading.Some? || e.items.Some? || e.text.Some? || e.links.Some?)
    && (e.heading.Some? ==> e.heading.value != [])
    && (e.text.Some? ==> CleanText(e.text.value))
    && (e.items.Some? ==> e.items.value != [] && forall i :: 0 <= i < |e.items.value| ==> CleanText(e.items.value[i]))
    && (e.links.Some? ==>
          e.links.value != [] && StrictlySorted(e.links.value)
          && forall i :: 0 <= i < |e.links.value| ==> e.links.value[i] != [])
  }

  predicate EntriesOk(entries: seq<Entry>) {
    forall i :: 0 <= i < |entries| ==> EntryOk(entries[i])
  }

  lemma {:induction false} StackOkTop(stack: seq<BlockFrame>, f: BlockFrame)
    requires stack != [] && StackOk(stack[..|stack| - 1]) && FrameOk(f)
    ensures StackOk(WithTop(stack, f))
  {
    var r := WithTop(stack, f);
    forall i | 0 <= i < |r| ensures FrameOk(r[i]) {
      if i < |r| - 1 {
        assert r[i] == stack[..|stack| - 1][i];
      }
    }
  }

  lemma StackOkPrefix(stack: seq<BlockFrame>)
    requires stack != [] && StackOk(stack)
    ensures StackOk(stack[..|stack| - 1]) && FrameOk(stack[|stack| - 1])
  {
    assert forall i :: 0 <= i < |stack| - 1 ==> stack[..|stack| - 1][i] == stack[i];
  }

  lemma StackOkPush(stack: seq<BlockFrame>, f: BlockFrame)
    requires StackOk(stack) && FrameOk(f)
    ensures StackOk(stack + [f])
  {
    var r := stack + [f];
    forall i | 0 <= i < |r| ensures FrameOk(r[i]) {
      if i < |stack| {
        assert r[i] == stack[i];
      }
    }
  }

  /** Opening or deepening a block keeps the open blocks well formed. */
  lemma BlockOpenPreserves(stack: seq<BlockFrame>, opens: bool, name: Option<String>)
    requires StackOk(stack)
    requires name.Some? ==> name.value != []
    ensures StackOk(BlockOpen(stack, opens, name))
  {
    if opens {
      StackOkPush(stack, NewBlock(name));
    } else if stack != [] {
      StackOkPrefix(stack);
      var top := stack[|stack| - 1];
      StackOkTop(stack, top.(depth := top.depth + 1));
    }
  }

  /** Title bookkeeping keeps the open blocks well formed. */
  lemma BlockTitlePreserves(stack: seq<BlockFrame>, tag: String, titleTags: set<String>)
    requires StackOk(stack)
    ensures StackOk(BlockTitleStart(stack, tag, titleTags))
  {
    if stack != [] && tag in titleTags {
      StackOkPrefix(stack);
      var top := stack[|stack| - 1];
      StackOkTop(stack, top.(titleStack := top.titleStack + [tag]));
    }
  }

  /** Item bookkeeping keeps the open blocks well formed. */
  lemma BlockItemPreserves(stack: seq<BlockFrame>, tag: String)
    requires StackOk(stack)
    ensures StackOk(BlockItemStart(stack, tag))
  {
    if stack != [] && tag == "li" {
      StackOkPrefix(stack);
      var top := stack[|stack| - 1];
      var deeper := top.(itemDepth := top.itemDepth + 1);
      StackOkTop(stack, if deeper.itemDepth == 1 then deeper.(currentItem := []) else deeper);
    }
  }

  /** A start tag keeps the open blocks well formed. */
  lemma BlockStartPreserves(stack: seq<BlockFrame>, opens: bool, name: Option<String>, tag: String, titleTags: set<String>)
    requires StackOk(stack)
    requires name.Some? ==> name.value != []
    ensures StackOk(BlockStart(stack, opens, name, tag, titleTags))
  {
    var a := BlockOpen(stack, opens, name);
    BlockOpenPreserves(stack, opens, name);
    BlockTitlePreserves(a, tag, titleTags);
    BlockItemPreserves(BlockTitleStart(a, tag, titleTags), tag);
  }

  /** Text and links keep the open blocks well formed. */
  lemma BlockDataPreserves(stack: seq<BlockFrame>, data: String, href: Option<String>)
    requires StackOk(stack)
    ensures StackOk(BlockData(stack, data))
    ensures StackOk(BlockAddLink(stack, href))
  {
    if stack != [] {
      StackOkPrefix(stack);
      var top := stack[|stack| - 1];
      StackOkTop(stack, BlockData(stack, data)[|stack| - 1]);
      if Present(href) {
        StackOkTop(stack, top.(links := top.links + [href.value]));
      }
    }
  }

  lemma CloseItemOk(f: BlockFrame, tag: String)
    requires FrameOk(f)
    ensures FrameOk(CloseItem(f, tag))
  {
    CloseLiOk(f, tag);
    var g := CloseLi(f, tag);
    assert CloseItem(f, tag).items == g.items;
  }

  lemma CloseLiOk(f: BlockFrame, tag: String)
    requires FrameOk(f)
    ensures FrameOk(CloseLi(f, tag))
  {
    if tag == "li" && f.itemDepth == 1 {
      var text := NormalizeText(f.currentItem);
      NormalizeClean(f.currentItem);
      AppendItemClean(f.items, if text != [] then [text] else []);
    }
  }

  /** Appending clean items to clean items keeps them clean. */
  lemma AppendItemClean(items: seq<String>, more: seq<String>)
    requires forall i :: 0 <= i < |items| ==> CleanText(items[i])
    requires forall i :: 0 <= i < |more| ==> CleanText(more[i])
    ensures forall i :: 0 <= i < |items + more| ==> CleanText((items + more)[i])
  {
  }

  lemma {:induction false} SortedUniqueNonEmpty(links: seq<String>)
    requires links != [] && forall i :: 0 <= i < |links| ==> links[i] != []
    ensures SortedUnique(links) != []
  {
    assert links[0] in links;
    assert links[0] in SortedUnique(links);
  }

  lemma MakeEntryOk(name: Option<String>, title: String, body: String, items: seq<String>, links: seq<String>)
    requires name.Some? ==> name.value != []
    requires title == [] || CleanText(title)
    requires body == [] || CleanText(body)
    requires forall i :: 0 <= i < |items| ==> CleanText(items[i])
    requires forall i :: 0 <= i < |links| ==> links[i] != []
    ensures MakeEntry(name, title, body, items, links).Some? ==> EntryOk(MakeEntry(name, title, body, items, links).value)
  {
    if links != [] {
      SortedUniqueNonEmpty(links);
      var r := SortedUnique(links);
      forall i | 0 <= i < |r| ensures r[i] != [] {
        assert r[i] in r;
      }
    }
  }

  /** The entry of a well-formed block is well formed. */
  lemma BlockEntryOk(f: BlockFrame)
    requires ContentOk(f)
    ensures BlockEntry(f).Some? ==> EntryOk(BlockEntry(f).value)
  {
    NormalizeClean(f.bodyBuffer);
    NormalizeClean(f.titleBuffer);
    var t, b := NormalizeText(f.titleBuffer), NormalizeText(f.bodyBuffer);
    MakeEntryOk(f.name, t, b, f.items, f.links);
    assert BlockEntry(f) == MakeEntry(f.name, t, b, f.items, f.links);
  }

  /**
   * An end tag keeps the open blocks well formed and only ever reports
   * well-formed entries: a block's report never comes out empty, and its
   * links come out sorted without duplicates.
   */
  /** A closing block reports only well-formed entries. */
  lemma ReportOk(f: BlockFrame)
    requires ContentOk(f)
    ensures EntriesOk(BlockReport(f))
  {
    BlockEntryOk(f);
    ListedOk(BlockEntry(f));
  }

  lemma ListedOk(e: Option<Entry>)
    requires e.Some? ==> EntryOk(e.value)
    ensures EntriesOk(Listed(e))
  {
  }

  lemma EntriesAppend(a: seq<Entry>, b: seq<Entry>)
    requires EntriesOk(a) && EntriesOk(b)
    ensures EntriesOk(a + b)
  {
    forall i | 0 <= i < |a + b|
      ensures EntryOk((a + b)[i])
    {
      if i < |a| {
        assert (a + b)[i] == a[i];
      } else {
        assert (a + b)[i] == b[i - |a|];
      }
    }
  }

  lemma BlockEndPreserves(stack: seq<BlockFrame>, entries: seq<Entry>, tag: String)
    requires StackOk(stack) && EntriesOk(entries)
    ensures StackOk(BlockEnd(stack, entries, tag).0)
    ensures EntriesOk(BlockEnd(stack, entries, tag).1)
  {
    if stack != [] {
      StackOkPrefix(stack);
      var f := CloseItem(stack[|stack| - 1], tag);
      CloseItemOk(stack[|stack| - 1], tag);
      if f.depth == 1 {
        ReportOk(f);
        EntriesAppend(entries, BlockReport(f));
      } else {
        StackOkTop(stack, f.(depth := f.depth - 1));
      }
    }
  }
}
