/** The e-book's block records and the text a block offers for copying and editing. */
module EbookBlocks {
  import opened Wrappers

  datatype BlockKind = Heading1 | Heading2 | Heading3 | Paragraph | Image | Code | Quote | List | NumberedList | Divider | Button | Table

  /** The `onClick` resolver a button block carries, by identity. */
  datatype Resolver = Resolver(name: string)

  /**
   * `EbookBlock`: the fields of every variant, unused ones empty; `content`
   * is the text (an image's url), `items` a list's entries.
   */
  datatype Block = Block(
    id: string,
    kind: BlockKind,
    content: Option<string>,
    alt: Option<string>,
    caption: Option<string>,
    language: Option<string>,
    author: Option<string>,
    items: seq<string>,
    headers: seq<string>,
    rows: seq<seq<string>>,
    onClick: Option<Resolver>)

  predicate IsTextKind(k: BlockKind) {
    k in {Heading1, Heading2, Heading3, Paragraph, Quote, Code, Button}
  }

  /** `getBlockContent`: the content of a text-like block, and "" for the others (an image included). */
  function GetBlockContent(block: Block): (r: string)
    ensures IsTextKind(block.kind) ==> r == block.content.GetOr("")
    ensures !IsTextKind(block.kind) ==> r == ""
  {
    match block.kind
    case Heading1 | Heading2 | Heading3 | Paragraph | Quote | Code | Button => block.content.GetOr("")
    case _ => ""
  }
}

/** `generateLargeBlockData`: `count` blocks whose kind cycles with the index modulo 15. */
module BlockData {
  import opened Wrappers
  import opened Text
  import opened EbookBlocks

  const SampleParagraphs: seq<string> := [
    "React is a powerful JavaScript library for building user interfaces.",
    "Performance optimization is crucial for modern web applications.",
    "React apps are made out of components.",
    "State management becomes challenging as applications grow.",
    "React is a JavaScript library for rendering user interfaces."]

  const CodeSnippets: seq<string> := [
    "function fibonacci(n) {\n  if (n <= 1) return n;\n  return fibonacci(n - 1) + fibonacci(n - 2);\n}",
    "const fetchData = async () => {\n  const res = await fetch(\"/api/data\");\n  return res.json();\n};"]

  const QuoteTexts: seq<string> := ["Simplicity is the soul of efficiency.", "First, solve the problem. Then, write the code."]
  const QuoteAuthors: seq<string> := ["Austin Freeman", "John Johnson"]

  const ListItems: seq<seq<string>> := [
    ["Reduce plastic waste", "Use renewable energy"],
    ["Testing improves reliability", "Automation saves time"]]

  /** A block with only an id, a kind and a text. */
  function TextBlock(id: string, kind: BlockKind, content: string): Block {
    Block(id, kind, Some(content), None, None, None, None, [], [], [], None)
  }

  /** The kind the switch gives index `i`. */
  function KindAt(i: nat): BlockKind {
    var k := i % 15;
    if k == 0 then Heading1
    else if k == 1 then Heading2
    else if 2 <= k <= 4 || k == 14 then Paragraph
    else if k == 5 then Image
    else if k == 6 then Code
    else if k == 7 then Quote
    else if k == 8 then List
    else if k == 9 then NumberedList
    else if k == 10 then Divider
    else if k == 11 then Button
    else if k == 12 then Table
    else Heading3
  }

  /** The block the loop pushes at index `i`. */
  function BlockAt(i: nat, resolver: Option<Resolver>): (b: Block)
    ensures b.id == "block-" + NatToString(i)
    ensures b.kind == KindAt(i)
  {
    var id := "block-" + NatToString(i);
    var n := NatToString(i);
    match i % 15
    case 0 => TextBlock(id, Heading1, "Chapter " + NatToString(i / 15 + 1))
    case 1 => TextBlock(id, Heading2, "Section " + n)
    case 5 => Block(id, Image, Some("https://picsum.photos/seed/" + n + "/800/400"), Some("Illustration " + n), Some("Figure " + n), None, None, [], [], [], None)
    case 6 => Block(id, Code, Some(CodeSnippets[i % 2]), None, None, Some("javascript"), None, [], [], [], None)
    case 7 => Block(id, Quote, Some(QuoteTexts[i % 2]), None, None, None, Some(QuoteAuthors[i % 2]), [], [], [], None)
    case 8 => Block(id, List, None, None, None, None, None, ListItems[i % 2], [], [], None)
    case 9 => Block(id, NumberedList, None, None, None, None, None, ListItems[i % 2], [], [], None)
    case 10 => Block(id, Divider, None, None, None, None, None, [], [], [], None)
    case 11 => Block(id, Button, Some("Action Button " + n), None, None, None, None, [], [], [], resolver)
    case 12 => Block(id, Table, None, None, None, None, None, [],
                     ["Feature", "Before", "After"], [["Render Time", "850ms", "45ms"], ["Memory Usage", "245MB", "82MB"]], None)
    case 13 => TextBlock(id, Heading3, "Subsection " + n)
    case 14 => TextBlock(id, Paragraph, "This section demonstrates mixed content blocks.")
    case _ => TextBlock(id, Paragraph, SampleParagraphs[i % 5])
  }

  /** The generator loop; a negative count runs no iteration. */
  method GenerateLargeBlockData(count: int, resolver: Option<Resolver>) returns (blocks: seq<Block>)
    ensures |blocks| == if count < 0 then 0 else count
    ensures forall i :: 0 <= i < |blocks| ==> blocks[i] == BlockAt(i, resolver)
  {
    blocks := [];
    var i := 0;
    while i < count
      invariant 0 <= i && (count >= 0 ==> i <= count) && (count < 0 ==> i == 0) && |blocks| == i
      invariant forall j :: 0 <= j < i ==> blocks[j] == BlockAt(j, resolver)
    {
      blocks := blocks + [BlockAt(i, resolver)];
      i := i + 1;
    }
  }

  /** Block ids are pairwise distinct. */
  lemma BlockIdsUnique(i: nat, j: nat, resolver: Option<Resolver>)
    requires i != j
    ensures BlockAt(i, resolver).id != BlockAt(j, resolver).id
  {
    if BlockAt(i, resolver).id == BlockAt(j, resolver).id {
      PrefixedNumberInjective("block-", i, j);
    }
  }

  /** Chapter headings count the chapters; buttons carry the resolver; tables are three columns wide. */
  lemma BlockContents(i: nat, resolver: Option<Resolver>)
    ensures i % 15 == 0 ==> BlockAt(i, resolver).content == Some("Chapter " + NatToString(i / 15 + 1))
    ensures KindAt(i) == Button ==> BlockAt(i, resolver).onClick == resolver
    ensures KindAt(i) == Table ==>
      (|BlockAt(i, resolver).headers| == 3 && forall r :: 0 <= r < |BlockAt(i, resolver).rows| ==> |BlockAt(i, resolver).rows[r]| == 3)
    ensures KindAt(i) != Button ==> BlockAt(i, resolver).onClick.None?
  {
  }
}

/** The e-book store: the blocks and the id of the block being edited. */
module EbookStore {
  import opened Wrappers
  import opened Seqs
  import opened EbookBlocks

  /** `blocks.map((b) => (b.id === id ? { ...b, content } : b))`. */
  function UpdatedBlocks(blocks: seq<Block>, id: string, content: string): (r: seq<Block>)
    ensures |r| == |blocks|
    ensures forall i :: 0 <= i < |blocks| && blocks[i].id == id ==> r[i] == blocks[i].(content := Some(content))
    ensures forall i :: 0 <= i < |blocks| && blocks[i].id != id ==> r[i] == blocks[i]
  {
    Map((b: Block) => if b.id == id then b.(content := Some(content)) else b, blocks)
  }

  /** Updating keeps every id and kind in place; a text block then offers exactly the new content. */
  lemma UpdateKeepsShape(blocks: seq<Block>, id: string, content: string, i: nat)
    requires i < |blocks|
    ensures UpdatedBlocks(blocks, id, content)[i].id == blocks[i].id
    ensures UpdatedBlocks(blocks, id, content)[i].kind == blocks[i].kind
    ensures blocks[i].id == id && IsTextKind(blocks[i].kind) ==> GetBlockContent(UpdatedBlocks(blocks, id, content)[i]) == content
  {
  }

  /**
   * Every block shows an edit button, and an image's draft starts empty, so
   * saving an image block without typing replaces its url with "".
   */
  lemma SavingUntouchedImageDraftClearsUrl(blocks: seq<Block>, i: nat)
    requires i < |blocks| && blocks[i].kind == Image
    ensures UpdatedBlocks(blocks, blocks[i].id, GetBlockContent(blocks[i]))[i].content == Some("")
  {
  }

  class Store {
    var blocks: seq<Block>
    var editingBlockId: Option<string>

    constructor ()
      ensures blocks == [] && editingBlockId.None?
    {
      blocks := [];
      editingBlockId := None;
    }

    method SetBlocks(newBlocks: seq<Block>)
      modifies this
      ensures blocks == newBlocks && editingBlockId == old(editingBlockId)
    {
      blocks := newBlocks;
    }

    method StartEditing(id: string)
      modifies this
      ensures editingBlockId == Some(id) && blocks == old(blocks)
    {
      editingBlockId := Some(id);
    }

    method CancelEditing()
      modifies this
      ensures editingBlockId.None? && blocks == old(blocks)
    {
      editingBlockId := None;
    }

    /** `updateBlock(id, content)`: also ends editing. */
    method UpdateBlock(id: string, content: string)
      modifies this
      ensures blocks == UpdatedBlocks(old(blocks), id, content)
      ensures editingBlockId.None?
    {
      blocks := UpdatedBlocks(blocks, id, content);
      editingBlockId := None;
    }
  }
}

/** The e-book page's drag and drop: the dragged block is taken out and put back at the target's index. */
module EbookPage {
  import opened EbookBlocks
  import EbookStore

  /** `findIndex` by id: the first index, or -1. */
  function FindIndex(blocks: seq<Block>, id: string): (k: int)
    ensures -1 <= k < |blocks|
    ensures k >= 0 ==> blocks[k].id == id && forall j :: 0 <= j < k ==> blocks[j].id != id
    ensures k == -1 <==> forall j :: 0 <= j < |blocks| ==> blocks[j].id != id
  {
    if blocks == [] then -1
    else if blocks[0].id == id then 0
    else
      var k := FindIndex(blocks[1..], id);
      assert forall j :: 1 <= j < |blocks| ==> blocks[j] == blocks[1..][j - 1];
      if k == -1 then -1 else k + 1
  }

  /** `splice(i, 1)`: the sequence without position `i`. */
  function RemoveAt<T>(s: seq<T>, i: nat): (r: seq<T>)
    requires i < |s|
    ensures |r| == |s| - 1
    ensures multiset(r) + multiset{s[i]} == multiset(s)
  {
    assert s == s[..i] + [s[i]] + s[i + 1..];
    s[..i] + s[i + 1..]
  }

  /** `splice(i, 0, x)`: `x` inserted at position `i`. */
  function InsertAt<T>(s: seq<T>, i: nat, x: T): (r: seq<T>)
    requires i <= |s|
    ensures |r| == |s| + 1 && r[i] == x
    ensures multiset(r) == multiset(s) + multiset{x}
    ensures RemoveAt(r, i) == s
  {
    assert s == s[..i] + s[i..];
    s[..i] + [x] + s[i..]
  }

  /** The list after moving the block at `from` to index `to`. */
  function Moved<T>(s: seq<T>, from: nat, to: nat): (r: seq<T>)
    requires from < |s| && to < |s|
    ensures |r| == |s| && r[to] == s[from]
    ensures multiset(r) == multiset(s)
    ensures RemoveAt(r, to) == RemoveAt(s, from)
  {
    InsertAt(RemoveAt(s, from), to, s[from])
  }

  /** `handleDrop(draggedId, targetId)`. */
  method HandleDrop(store: EbookStore.Store, draggedId: string, targetId: string)
    modifies store
    ensures var from := FindIndex(old(store.blocks), draggedId);
      var to := FindIndex(old(store.blocks), targetId);
      if draggedId == targetId || from == -1 || to == -1 then store.blocks == old(store.blocks)
      else store.blocks == Moved(old(store.blocks), from, to)
    ensures store.editingBlockId == old(store.editingBlockId)
  {
    if draggedId == targetId {
      return;
    }
    var draggedIndex := FindIndex(store.blocks, draggedId);
    var targetIndex := FindIndex(store.blocks, targetId);
    if draggedIndex == -1 || targetIndex == -1 {
      return;
    }
    var updated := store.blocks;
    var removed := updated[draggedIndex];
    updated := RemoveAt(updated, draggedIndex);
    updated := InsertAt(updated, targetIndex, removed);
    store.SetBlocks(updated);
  }

  /** The dragged block lands at the target's old index and the others keep their order. */
  lemma DropFacts(blocks: seq<Block>, draggedId: string, targetId: string)
    requires draggedId != targetId
    requires FindIndex(blocks, draggedId) != -1 && FindIndex(blocks, targetId) != -1
    ensures var from := FindIndex(blocks, draggedId);
      var to := FindIndex(blocks, targetId);
      var r := Moved(blocks, from, to);
      r[to].id == draggedId && multiset(r) == multiset(blocks) && RemoveAt(r, to) == RemoveAt(blocks, from)
  {
  }
}

/** `BlockRenderer`'s editing and copying state. */
module BlockRenderer {
  import opened EbookBlocks
  import Snackbar

  class BlockView {
    const block: Block
    var draftContent: string
    var copied: bool

    /** The draft starts as the block's content. */
    constructor (b: Block)
      ensures block == b && draftContent == GetBlockContent(b) && !copied
    {
      block := b;
      draftContent := GetBlockContent(b);
      copied := false;
    }

    method Type(text: string)
      modifies this
      ensures draftContent == text && copied == old(copied)
    {
      draftContent := text;
    }

    /** Save hands the draft to `onEdit` unchanged. */
    method Save() returns (edited: string)
      ensures edited == draftContent
    {
      edited := draftContent;
    }

    /**
     * `handleCopy`: returns what it writes to the clipboard, sets the copied
     * flag and shows a success snackbar under `freshId`.
     */
    method HandleCopy(snackbars: Snackbar.SnackbarStore, freshId: string) returns (clipboard: string)
      modifies this, snackbars
      ensures clipboard == GetBlockContent(block) && copied && draftContent == old(draftContent)
      ensures snackbars.snackbars == old(snackbars.snackbars) + [Snackbar.SnackbarItem(freshId, "Copied to clipboard", Snackbar.Success)]
    {
      clipboard := GetBlockContent(block);
      copied := true;
      snackbars.Show("Copied to clipboard", Snackbar.Success, freshId);
    }

    /** The copy timer's expiry clears the flag. */
    method CopyTimerExpired()
      modifies this
      ensures !copied && draftContent == old(draftContent)
    {
      copied := false;
    }
  }
}
