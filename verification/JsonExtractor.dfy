/** Finding the JSON object a model answered with inside the prose around it. */
module JsonExtractor {
  import opened Domain

  newtype byte = x: int | 0 <= x < 256

  type Text = seq<byte>

  const QUOTE: byte := 34
  const BACKSLASH: byte := 92
  const OPEN: byte := 123
  const CLOSE: byte := 125

  datatype Failure = NoObject | Unbalanced

  // ---------- the scanner ----------

  datatype Scan = Scan(depth: int, inString: bool, escaped: bool)

  /** What one byte does to the scanner. */
  function Advance(s: Scan, ch: byte): Scan {
    if s.escaped then s.(escaped := false)
    else if ch == BACKSLASH && s.inString then s.(escaped := true)
    else if ch == QUOTE then s.(inString := !s.inString)
    else if s.inString then s
    else if ch == OPEN then s.(depth := s.depth + 1)
    else if ch == CLOSE then s.(depth := s.depth - 1)
    else s
  }

  predicate Closes(s: Scan, ch: byte) {
    !s.escaped && !s.inString && ch == CLOSE && s.depth == 1
  }

  /** Index just past the closing brace the scan ends on, when it ends. */
  function ScanFrom(text: Text, i: nat, s: Scan): Option<nat>
    requires i <= |text|
    decreases |text| - i
  {
    if i == |text| then None
    else if Closes(s, text[i]) then Some(i + 1)
    else ScanFrom(text, i + 1, Advance(s, text[i]))
  }

  function FirstOpen(text: Text, i: nat): (r: nat)
    requires i <= |text|
    ensures i <= r <= |text|
    ensures r < |text| ==> text[r] == OPEN
    ensures forall k :: i <= k < r ==> text[k] != OPEN
    decreases |text| - i
  {
    if i == |text| || text[i] == OPEN then i else FirstOpen(text, i + 1)
  }

  /** The first balanced block of the text. */
  method ExtractObject(text: Text) returns (r: Result<Text, Failure>)
    ensures r == Extract(text)
  {
    var start := FirstOpen(text, 0);
    if start == |text| {
      return Err(NoObject);
    }
    var depth, inString, escaped := 0, false, false;
    for i := start to |text|
      invariant ScanFrom(text, start, Scan(0, false, false)) == ScanFrom(text, i, Scan(depth, inString, escaped))
    {
      var ch := text[i];
      if escaped {
        escaped := false;
      } else if ch == BACKSLASH && inString {
        escaped := true;
      } else if ch == QUOTE {
        inString := !inString;
      } else if inString {
        // braces inside strings are literal text
      } else if ch == OPEN {
        depth := depth + 1;
      } else if ch == CLOSE {
        depth := depth - 1;
        if depth == 0 {
          return Ok(text[start..i + 1]);
        }
      }
    }
    return Err(Unbalanced);
  }

  function Extract(text: Text): Result<Text, Failure> {
    var start := FirstOpen(text, 0);
    if start == |text| then Err(NoObject)
    else
      match ScanFrom(text, start, Scan(0, false, false))
      case Some(end) => if start <= end <= |text| then Ok(text[start..end]) else Err(Unbalanced)
      case None => Err(Unbalanced)
  }

  // ---------- balanced blocks, independently of the scanner ----------

  /** A character of a string literal: any byte but quote and backslash, or a backslash and any byte. */
  datatype Piece = Plain(b: byte) | Escape(b: byte)

  /** What a block is made of: other bytes, string literals and blocks. */
  datatype Item = Other(b: byte) | Literal(pieces: seq<Piece>) | Nested(block: Block)

  datatype Block = Block(items: seq<Item>)

  predicate PieceOk(p: Piece) {
    p.Plain? ==> p.b != QUOTE && p.b != BACKSLASH
  }

  predicate ItemOk(item: Item) {
    match item
    case Other(b) => b != QUOTE && b != OPEN && b != CLOSE
    case Literal(pieces) => forall p :: p in pieces ==> PieceOk(p)
    case Nested(block) => BlockOk(block)
  }

  predicate BlockOk(block: Block) {
    forall item :: item in block.items ==> ItemOk(item)
  }

  function RenderPiece(p: Piece): Text {
    if p.Plain? then [p.b] else [BACKSLASH] + [p.b]
  }

  function RenderPieces(pieces: seq<Piece>): Text {
    if pieces == [] then [] else RenderPiece(pieces[0]) + RenderPieces(pieces[1..])
  }

  function RenderItem(item: Item): Text
    decreases item, 0
  {
    match item
    case Other(b) => [b]
    case Literal(pieces) => [QUOTE] + RenderPieces(pieces) + [QUOTE]
    case Nested(block) => RenderBlock(block)
  }

  function RenderItems(items: seq<Item>): Text
    decreases items, 1
  {
    if items == [] then [] else RenderItem(items[0]) + RenderItems(items[1..])
  }

  function RenderBlock(block: Block): Text
    decreases block, 2
  {
    [OPEN] + RenderItems(block.items) + [CLOSE]
  }

  // ---------- the scanner passes over what blocks are made of ----------

  /** From i, the text continues with a part. */
  ghost predicate At(text: Text, i: nat, part: Text) {
    i + |part| <= |text| && text[i..i + |part|] == part
  }

  lemma AtSplit(text: Text, i: nat, a: Text, b: Text)
    requires At(text, i, a + b)
    ensures At(text, i, a) && At(text, i + |a|, b)
  {
    var whole := text[i..i + |a + b|];
    assert whole[..|a|] == a && whole[|a|..] == b;
    assert text[i..i + |a|] == whole[..|a|];
    assert text[i + |a|..i + |a| + |b|] == whole[|a|..];
  }

  lemma AtByte(text: Text, i: nat, b: byte)
    requires At(text, i, [b])
    ensures i < |text| && text[i] == b
  {
    assert text[i..i + 1][0] == b;
  }

  lemma {:induction false} PiecesArePassed(text: Text, i: nat, pieces: seq<Piece>, depth: int)
    requires At(text, i, RenderPieces(pieces)) && forall p :: p in pieces ==> PieceOk(p)
    ensures i + |RenderPieces(pieces)| <= |text|
    ensures ScanFrom(text, i, Scan(depth, true, false))
            == ScanFrom(text, i + |RenderPieces(pieces)|, Scan(depth, true, false))
    decreases |pieces|
  {
    hide At, RenderPiece, ScanFrom, PieceOk;
    if pieces != [] {
      var p, rest := pieces[0], pieces[1..];
      assert RenderPieces(pieces) == RenderPiece(p) + RenderPieces(rest);
      hide RenderPieces;
      AtSplit(text, i, RenderPiece(p), RenderPieces(rest));
      PieceIsPassed(text, i, p, depth);
      PiecesArePassed(text, i + |RenderPiece(p)|, rest, depth);
    } else {
      NoPieces(text, i);
    }
  }

  lemma NoPieces(text: Text, i: nat)
    requires At(text, i, RenderPieces([]))
    ensures RenderPieces([]) == [] && i <= |text|
  {
  }

  lemma PieceIsPassed(text: Text, i: nat, p: Piece, depth: int)
    requires At(text, i, RenderPiece(p)) && PieceOk(p)
    ensures i + |RenderPiece(p)| <= |text|
    ensures ScanFrom(text, i, Scan(depth, true, false)) == ScanFrom(text, i + |RenderPiece(p)|, Scan(depth, true, false))
  {
    if p.Plain? {
      AtByte(text, i, p.b);
    } else {
      AtSplit(text, i, [BACKSLASH], [p.b]);
      AtByte(text, i, BACKSLASH);
      AtByte(text, i + 1, p.b);
    }
  }

  /** A part between two single bytes. */
  lemma AtBetween(text: Text, i: nat, first: byte, body: Text, last: byte)
    requires At(text, i, [first] + body + [last])
    ensures i + |body| + 1 < |text| && text[i] == first && text[i + 1 + |body|] == last && At(text, i + 1, body)
  {
    AtSplit(text, i, [first] + body, [last]);
    AtSplit(text, i, [first], body);
    AtByte(text, i, first);
    AtByte(text, i + 1 + |body|, last);
  }

  lemma {:induction false} ItemIsPassed(text: Text, i: nat, item: Item, depth: int)
    requires At(text, i, RenderItem(item)) && ItemOk(item) && depth >= 1
    ensures i + |RenderItem(item)| <= |text|
    ensures ScanFrom(text, i, Scan(depth, false, false)) == ScanFrom(text, i + |RenderItem(item)|, Scan(depth, false, false))
    decreases item, 0
  {
    hide ScanFrom;
    match item {
      case Other(b) =>
        AtByte(text, i, b);
        StepIsTaken(text, i, Scan(depth, false, false));
      case Literal(pieces) =>
        AtBetween(text, i, QUOTE, RenderPieces(pieces), QUOTE);
        PiecesArePassed(text, i + 1, pieces, depth);
        hide At, RenderPieces;
        StepIsTaken(text, i, Scan(depth, false, false));
        StepIsTaken(text, i + 1 + |RenderPieces(pieces)|, Scan(depth, true, false));
      case Nested(block) =>
        AtBetween(text, i, OPEN, RenderItems(block.items), CLOSE);
        ItemsArePassed(text, i + 1, block.items, depth + 1);
        hide At, RenderItems;
        StepIsTaken(text, i, Scan(depth, false, false));
        StepIsTaken(text, i + 1 + |RenderItems(block.items)|, Scan(depth + 1, false, false));
    }
  }

  lemma StepIsTaken(text: Text, i: nat, s: Scan)
    requires i < |text| && !Closes(s, text[i])
    ensures ScanFrom(text, i, s) == ScanFrom(text, i + 1, Advance(s, text[i]))
  {
  }

  lemma {:induction false} ItemsArePassed(text: Text, i: nat, items: seq<Item>, depth: int)
    requires At(text, i, RenderItems(items)) && (forall item :: item in items ==> ItemOk(item)) && depth >= 1
    ensures i + |RenderItems(items)| <= |text|
    ensures ScanFrom(text, i, Scan(depth, false, false)) == ScanFrom(text, i + |RenderItems(items)|, Scan(depth, false, false))
    decreases items, 1
  {
    hide ScanFrom;
    if items != [] {
      AtSplit(text, i, RenderItem(items[0]), RenderItems(items[1..]));
      ItemIsPassed(text, i, items[0], depth);
      ItemsArePassed(text, i + |RenderItem(items[0])|, items[1..], depth);
    }
  }

  /** A block at the first opening brace is found and nothing more than it. */
  lemma BlockIsFound(text: Text, block: Block)
    requires BlockOk(block) && At(text, FirstOpen(text, 0), RenderBlock(block))
    ensures Extract(text) == Ok(RenderBlock(block))
  {
    var start := FirstOpen(text, 0);
    AtBetween(text, start, OPEN, RenderItems(block.items), CLOSE);
    ItemsArePassed(text, start + 1, block.items, 1);
  }

  // ---------- whatever the scanner returns is a block ----------

  /** What remains of open blocks: items up to each of the closing braces still due. */
  datatype Closing = Done | Then(items: seq<Item>, rest: Closing)

  function Levels(c: Closing): nat {
    if c.Done? then 0 else 1 + Levels(c.rest)
  }

  predicate ClosingOk(c: Closing) {
    c.Then? ==> (forall item :: item in c.items ==> ItemOk(item)) && ClosingOk(c.rest)
  }

  function RenderClosing(c: Closing): Text {
    if c.Done? then [] else RenderItems(c.items) + [CLOSE] + RenderClosing(c.rest)
  }

  lemma OneMoreItem(item: Item, c: Closing)
    requires c.Then? && ItemOk(item) && ClosingOk(c)
    ensures var more := Then([item] + c.items, c.rest);
            ClosingOk(more) && Levels(more) == Levels(c) && RenderClosing(more) == RenderItem(item) + RenderClosing(c)
  {
    hide RenderItem, RenderItems, ItemOk;
    RenderOneMore(item, c.items);
    Regroup(RenderItem(item), RenderItems(c.items), RenderClosing(c.rest));
  }

  lemma RenderOneMore(item: Item, items: seq<Item>)
    ensures RenderItems([item] + items) == RenderItem(item) + RenderItems(items)
  {
    assert ([item] + items)[1..] == items;
    hide RenderItem;
  }

  lemma Regroup(a: Text, b: Text, c: Text)
    ensures a + b + [CLOSE] + c == a + (b + [CLOSE] + c)
  {
  }

  lemma ScanOneByte(text: Text, i: nat, s: Scan)
    requires i <= |text| && ScanFrom(text, i, s).Some?
    ensures i < |text|
    ensures ScanFrom(text, i, s) == if Closes(s, text[i]) then Some(i + 1) else ScanFrom(text, i + 1, Advance(s, text[i]))
  {
  }

  lemma OutsideLiterals(depth: nat, ch: byte)
    requires depth >= 1
    ensures var s := Scan(depth, false, false);
            && (Closes(s, ch) <==> ch == CLOSE && depth == 1)
            && Advance(s, ch) == if ch == QUOTE then Scan(depth, true, false) else if ch == OPEN then Scan(depth + 1, false, false)
                                 else if ch == CLOSE then Scan(depth - 1, false, false) else s
  {
  }

  lemma LiteralOfPieces(pieces: seq<Piece>)
    requires forall p :: p in pieces ==> PieceOk(p)
    ensures ItemOk(Literal(pieces)) && RenderItem(Literal(pieces)) == [QUOTE] + (RenderPieces(pieces) + [QUOTE])
  {
  }

  lemma NothingIsDue()
    ensures ClosingOk(Done) && Levels(Done) == 0
  {
  }

  lemma OtherIsItself(ch: byte)
    requires ch != OPEN && ch != CLOSE && ch != QUOTE
    ensures ItemOk(Other(ch)) && RenderItem(Other(ch)) == [ch] + []
  {
  }

  /** A scan that ends spells out, from its position on, the rest of the blocks it had open. */
  lemma {:induction false} ScanSpellsBlocks(text: Text, i: nat, depth: nat) returns (c: Closing)
    requires i <= |text| && depth >= 1 && ScanFrom(text, i, Scan(depth, false, false)).Some?
    ensures ClosingOk(c) && Levels(c) == depth
    ensures i <= ScanFrom(text, i, Scan(depth, false, false)).value <= |text|
    ensures text[i..ScanFrom(text, i, Scan(depth, false, false)).value] == RenderClosing(c)
    decreases |text| - i
  {
    hide ScanFrom, RenderClosing, RenderPieces, RenderItem, ClosingOk, Levels, Advance, Closes;
    ScanOneByte(text, i, Scan(depth, false, false));
    var end, ch := ScanFrom(text, i, Scan(depth, false, false)).value, text[i];
    OutsideLiterals(depth, ch);
    if ch == CLOSE {
      var rest := Done;
      NothingIsDue();
      if depth > 1 {
        rest := ScanSpellsBlocks(text, i + 1, depth - 1);
      }
      c := SpelledClose(text, i, end, rest, depth - 1);
    } else if ch == OPEN {
      var inner := ScanSpellsBlocks(text, i + 1, depth + 1);
      c := SpelledOpen(text, i, end, inner, depth);
    } else if ch == QUOTE {
      var pieces, after := ScanSpellsLiteral(text, i + 1, depth);
      LiteralOfPieces(pieces);
      c := SpelledItem(text, i, end, Literal(pieces), RenderPieces(pieces) + [QUOTE], after, depth);
    } else {
      var rest := ScanSpellsBlocks(text, i + 1, depth);
      OtherIsItself(ch);
      c := SpelledItem(text, i, end, Other(ch), [], rest, depth);
    }
  }

  lemma SpelledClose(text: Text, i: nat, end: nat, rest: Closing, depth: nat) returns (c: Closing)
    requires i < end <= |text| && text[i] == CLOSE && ClosingOk(rest) && Levels(rest) == depth
    requires if depth == 0 then rest.Done? && end == i + 1 else text[i + 1..end] == RenderClosing(rest)
    ensures ClosingOk(c) && Levels(c) == depth + 1 && text[i..end] == RenderClosing(c)
  {
    c := Then([], rest);
    SliceInTwo(text, i, i + 1, end);
    assert RenderClosing(c) == [CLOSE] + RenderClosing(rest);
  }

  lemma SpelledOpen(text: Text, i: nat, end: nat, inner: Closing, depth: nat) returns (c: Closing)
    requires i < end <= |text| && text[i] == OPEN && ClosingOk(inner) && Levels(inner) == depth + 1 && depth >= 1
    requires text[i + 1..end] == RenderClosing(inner)
    ensures ClosingOk(c) && Levels(c) == depth && text[i..end] == RenderClosing(c)
  {
    var item := Nested(Block(inner.items));
    OneMoreItem(item, inner.rest);
    c := Then([item] + inner.rest.items, inner.rest.rest);
    SliceInTwo(text, i, i + 1, end);
    assert RenderItem(item) == [OPEN] + RenderItems(inner.items) + [CLOSE];
    assert RenderClosing(c) == [OPEN] + RenderClosing(inner);
  }

  /** A byte and the rest of what it starts make one item. */
  lemma SpelledItem(text: Text, i: nat, end: nat, item: Item, more: Text, after: Closing, depth: nat) returns (c: Closing)
    requires i < end <= |text| && ItemOk(item) && RenderItem(item) == [text[i]] + more
    requires ClosingOk(after) && Levels(after) == depth && depth >= 1
    requires text[i + 1..end] == more + RenderClosing(after)
    ensures ClosingOk(c) && Levels(c) == depth && text[i..end] == RenderClosing(c)
  {
    OneMoreItem(item, after);
    c := Then([item] + after.items, after.rest);
    SliceInTwo(text, i, i + 1, end);
    hide RenderItem, RenderItems, RenderClosing, ItemOk, ClosingOk, Levels;
    assert [text[i]] + (more + RenderClosing(after)) == RenderItem(item) + RenderClosing(after);
  }

  lemma {:induction false} ScanSpellsLiteral(text: Text, i: nat, depth: nat) returns (pieces: seq<Piece>, c: Closing)
    requires i <= |text| && depth >= 1 && ScanFrom(text, i, Scan(depth, true, false)).Some?
    ensures (forall p :: p in pieces ==> PieceOk(p)) && ClosingOk(c) && Levels(c) == depth
    ensures i <= ScanFrom(text, i, Scan(depth, true, false)).value <= |text|
    ensures text[i..ScanFrom(text, i, Scan(depth, true, false)).value] == RenderPieces(pieces) + [QUOTE] + RenderClosing(c)
    decreases |text| - i
  {
    var end := ScanFrom(text, i, Scan(depth, true, false)).value;
    if text[i] == QUOTE {
      assert ScanFrom(text, i + 1, Scan(depth, false, false)) == Some(end);
      hide ScanFrom, ClosingOk, Levels, RenderClosing;
      pieces := [];
      c := ScanSpellsBlocks(text, i + 1, depth);
      SliceInTwo(text, i, i + 1, end);
      assert text[i..i + 1] == [QUOTE];
    } else {
      var p, next := ScanSpellsPiece(text, i, depth);
      hide ScanFrom, RenderPiece, RenderPieces, PieceOk, ClosingOk, Levels, RenderClosing;
      var rest;
      rest, c := ScanSpellsLiteral(text, next, depth);
      pieces := [p] + rest;
      OneMorePiece(p, rest);
      SliceInTwo(text, i, next, end);
      assert RenderPiece(p) + (RenderPieces(rest) + [QUOTE] + RenderClosing(c)) == RenderPiece(p) + RenderPieces(rest) + [QUOTE] + RenderClosing(c);
    }
  }

  /** Inside a string literal a scan that ends goes over one piece at a time. */
  lemma ScanSpellsPiece(text: Text, i: nat, depth: nat) returns (p: Piece, next: nat)
    requires i <= |text| && ScanFrom(text, i, Scan(depth, true, false)).Some? && text[i] != QUOTE
    ensures PieceOk(p) && i < next <= |text| && text[i..next] == RenderPiece(p)
    ensures ScanFrom(text, next, Scan(depth, true, false)) == ScanFrom(text, i, Scan(depth, true, false))
  {
    if text[i] == BACKSLASH {
      assert ScanFrom(text, i, Scan(depth, true, false)) == ScanFrom(text, i + 1, Scan(depth, true, true));
      p, next := Escape(text[i + 1]), i + 2;
    } else {
      p, next := Plain(text[i]), i + 1;
    }
    assert text[i..next] == RenderPiece(p);
  }

  lemma SliceInTwo(text: Text, i: nat, k: nat, j: nat)
    requires i <= k <= j <= |text|
    ensures text[i..j] == text[i..k] + text[k..j]
  {
  }

  lemma OneMorePiece(p: Piece, rest: seq<Piece>)
    ensures RenderPieces([p] + rest) == RenderPiece(p) + RenderPieces(rest)
  {
    assert ([p] + rest)[1..] == rest;
  }

  /** The extractor is exact: it returns a text precisely when that text is a balanced block standing
      at the first opening brace. */
  lemma ExtractedIsBlock(text: Text)
    requires Extract(text).Ok?
    ensures exists block :: BlockOk(block) && At(text, FirstOpen(text, 0), RenderBlock(block))
                            && Extract(text).value == RenderBlock(block)
  {
    var start := FirstOpen(text, 0);
    var end := ScanFrom(text, start, Scan(0, false, false)).value;
    var c := ScanSpellsBlocks(text, start + 1, 1);
    var block := Block(c.items);
    assert text[start..end] == [OPEN] + text[start + 1..end];
    assert text[start..end] == RenderBlock(block);
    assert At(text, start, RenderBlock(block));
  }

  /** No block is a proper beginning of another, so the extracted one is the only one there and the
      shortest. */
  lemma OnlyOneBlock(text: Text, a: Block, b: Block)
    requires BlockOk(a) && BlockOk(b)
    requires At(text, FirstOpen(text, 0), RenderBlock(a)) && At(text, FirstOpen(text, 0), RenderBlock(b))
    ensures RenderBlock(a) == RenderBlock(b)
  {
    BlockIsFound(text, a);
    BlockIsFound(text, b);
  }

  /** It fails exactly when there is no opening brace or no block stands at the first one. */
  lemma FailsOnlyWithoutBlock(text: Text)
    ensures Extract(text) == Err(NoObject) <==> OPEN !in text
    ensures Extract(text).Err?
            <==> !exists block :: BlockOk(block) && At(text, FirstOpen(text, 0), RenderBlock(block))
  {
    if Extract(text).Ok? {
      ExtractedIsBlock(text);
    }
    if block :| BlockOk(block) && At(text, FirstOpen(text, 0), RenderBlock(block)) {
      BlockIsFound(text, block);
    }
    var start := FirstOpen(text, 0);
    if OPEN in text {
      var k :| 0 <= k < |text| && text[k] == OPEN;
      assert start <= k;
    }
  }
}
