/** The texts of JSON objects (section 4 of RFC 8259) and why the extractor recovers each of them. */
module JsonText {
  import opened Domain
  import opened JsonExtractor

  const COMMA: byte := 44
  const COLON: byte := 58
  const LEFT: byte := 91
  const RIGHT: byte := 93
  const LOWER_U: byte := 117

  /** One character of a string (section 7): itself, a two-character escape or a hexadecimal escape. */
  datatype Char = Unescaped(b: byte) | Short(b: byte) | Hex(digits: seq<byte>)

  /** JSON values with the whitespace around their parts, so that every way of printing one is covered. */
  datatype Json =
    | Word(letters: Text)
    | Number(digits: Text)
    | Str(chars: seq<Char>)
    | Arr(gap: Text, elements: seq<Element>)
    | Obj(gap: Text, members: seq<Member>)

  datatype Element = Element(before: Text, value: Json, after: Text)

  datatype Member = Member(before: Text, key: seq<Char>, afterKey: Text, beforeValue: Text, value: Json, after: Text)

  predicate IsSpace(b: byte) {
    b == 32 || b == 9 || b == 10 || b == 13
  }

  predicate IsHex(b: byte) {
    48 <= b <= 57 || 65 <= b <= 70 || 97 <= b <= 102
  }

  predicate IsNumberByte(b: byte) {
    48 <= b <= 57 || b == 43 || b == 45 || b == 46 || b == 69 || b == 101
  }

  predicate Spaces(t: Text) {
    forall i :: 0 <= i < |t| ==> IsSpace(t[i])
  }

  /** The bytes that may follow a backslash in a two-character escape. */
  const SHORT_ESCAPES: Text := [34, 92, 47, 98, 102, 110, 114, 116]

  predicate CharOk(c: Char) {
    match c
    case Unescaped(b) => b >= 32 && b != QUOTE && b != BACKSLASH
    case Short(b) => b in SHORT_ESCAPES
    case Hex(digits) => |digits| == 4 && forall d :: d in digits ==> IsHex(d)
  }

  predicate CharsOk(chars: seq<Char>) {
    forall c :: c in chars ==> CharOk(c)
  }

  predicate JsonOk(j: Json) {
    match j
    case Word(letters) => letters in {[116, 114, 117, 101], [102, 97, 108, 115, 101], [110, 117, 108, 108]}
    case Number(digits) => forall i :: 0 <= i < |digits| ==> IsNumberByte(digits[i])
    case Str(chars) => CharsOk(chars)
    case Arr(gap, elements) => Spaces(gap) && forall e :: e in elements ==> Spaces(e.before) && JsonOk(e.value) && Spaces(e.after)
    case Obj(gap, members) =>
      && Spaces(gap)
      && forall m :: m in members ==>
           && Spaces(m.before) && CharsOk(m.key) && Spaces(m.afterKey)
           && Spaces(m.beforeValue) && JsonOk(m.value) && Spaces(m.after)
  }

  // ---------- printing ----------

  function PrintChar(c: Char): Text {
    match c
    case Unescaped(b) => [b]
    case Short(b) => [BACKSLASH, b]
    case Hex(digits) => [BACKSLASH, LOWER_U] + digits
  }

  function PrintChars(chars: seq<Char>): Text {
    if chars == [] then [] else PrintChar(chars[0]) + PrintChars(chars[1..])
  }

  function PrintString(chars: seq<Char>): Text {
    [QUOTE] + PrintChars(chars) + [QUOTE]
  }

  function Print(j: Json): Text
    decreases j, 2
  {
    match j
    case Word(letters) => letters
    case Number(digits) => digits
    case Str(chars) => PrintString(chars)
    case Arr(gap, elements) => [LEFT] + gap + PrintElements(elements) + [RIGHT]
    case Obj(gap, members) => [OPEN] + (gap + PrintMembers(members)) + [CLOSE]
  }

  function PrintElements(elements: seq<Element>): Text
    decreases elements, 1
  {
    if elements == [] then []
    else
      var e := elements[0];
      e.before + Print(e.value) + e.after + (if |elements| == 1 then [] else [COMMA] + PrintElements(elements[1..]))
  }

  function PrintMembers(members: seq<Member>): Text
    decreases members, 1
  {
    if members == [] then []
    else
      var m := members[0];
      m.before + PrintString(m.key) + m.afterKey + [COLON] + m.beforeValue + Print(m.value) + m.after
      + (if |members| == 1 then [] else [COMMA] + PrintMembers(members[1..]))
  }

  // ---------- every printed value is made of balanced items ----------

  /** The text can be read as items of a block. */
  ghost predicate Balanced(text: Text) {
    exists items :: (forall item :: item in items ==> ItemOk(item)) && RenderItems(items) == text
  }

  lemma {:induction false} RenderItemsConcat(a: seq<Item>, b: seq<Item>)
    ensures RenderItems(a + b) == RenderItems(a) + RenderItems(b)
  {
    if a == [] {
      assert a + b == b;
    } else {
      assert (a + b)[1..] == a[1..] + b;
      RenderItemsConcat(a[1..], b);
    }
  }

  lemma BalancedConcat(a: Text, b: Text)
    requires Balanced(a) && Balanced(b)
    ensures Balanced(a + b)
  {
    var x: seq<Item> :| (forall item :: item in x ==> ItemOk(item)) && RenderItems(x) == a;
    var y: seq<Item> :| (forall item :: item in y ==> ItemOk(item)) && RenderItems(y) == b;
    RenderItemsConcat(x, y);
    assert forall item :: item in x + y ==> ItemOk(item);
  }

  lemma BalancedItem(item: Item)
    requires ItemOk(item)
    ensures Balanced(RenderItem(item))
  {
    assert RenderItems([item]) == RenderItem(item) + RenderItems([item][1..]);
    assert [item][1..] == [];
    assert forall x :: x in [item] ==> ItemOk(x);
  }

  predicate NoDelimiter(text: Text) {
    forall i :: 0 <= i < |text| ==> text[i] != QUOTE && text[i] != OPEN && text[i] != CLOSE
  }

  lemma {:induction false} OtherBytesAreBalanced(text: Text)
    requires NoDelimiter(text)
    ensures Balanced(text)
  {
    if text == [] {
      assert RenderItems([]) == [];
    } else {
      BalancedItem(Other(text[0]));
      OtherBytesAreBalanced(text[1..]);
      BalancedConcat([text[0]], text[1..]);
      assert text == [text[0]] + text[1..];
    }
  }

  /** The pieces a string literal is scanned as. */
  function PiecesOf(chars: seq<Char>): seq<Piece> {
    if chars == [] then [] else PiecesOfChar(chars[0]) + PiecesOf(chars[1..])
  }

  function PiecesOfChar(c: Char): seq<Piece> {
    match c
    case Unescaped(b) => [Plain(b)]
    case Short(b) => [Escape(b)]
    case Hex(digits) => [Escape(LOWER_U)] + PlainAll(digits)
  }

  function PlainAll(t: Text): seq<Piece> {
    seq(|t|, i requires 0 <= i < |t| => Plain(t[i]))
  }

  lemma {:induction false} PiecesConcat(a: seq<Piece>, b: seq<Piece>)
    ensures RenderPieces(a + b) == RenderPieces(a) + RenderPieces(b)
  {
    if a == [] {
      assert a + b == b;
    } else {
      assert (a + b)[1..] == a[1..] + b;
      PiecesConcat(a[1..], b);
    }
  }

  lemma {:induction false} PlainAllRenders(t: Text)
    ensures RenderPieces(PlainAll(t)) == t
  {
    if t != [] {
      assert PlainAll(t)[1..] == PlainAll(t[1..]);
      PlainAllRenders(t[1..]);
      assert t == [t[0]] + t[1..];
    }
  }

  lemma PiecesOfCharRender(c: Char)
    requires CharOk(c)
    ensures RenderPieces(PiecesOfChar(c)) == PrintChar(c)
    ensures forall p :: p in PiecesOfChar(c) ==> PieceOk(p)
  {
    match c {
      case Unescaped(b) => OneMorePiece(Plain(b), []);
      case Short(b) => OneMorePiece(Escape(b), []);
      case Hex(digits) =>
        OneMorePiece(Escape(LOWER_U), PlainAll(digits));
        PlainAllRenders(digits);
        assert forall i :: 0 <= i < |digits| ==> IsHex(digits[i]);
    }
  }

  lemma {:induction false} PiecesOfRender(chars: seq<Char>)
    requires CharsOk(chars)
    ensures RenderPieces(PiecesOf(chars)) == PrintChars(chars)
    ensures forall p :: p in PiecesOf(chars) ==> PieceOk(p)
  {
    if chars != [] {
      PiecesOfCharRender(chars[0]);
      PiecesOfRender(chars[1..]);
      PiecesConcat(PiecesOfChar(chars[0]), PiecesOf(chars[1..]));
    }
  }

  lemma StringIsBalanced(chars: seq<Char>)
    requires CharsOk(chars)
    ensures Balanced(PrintString(chars))
  {
    PiecesOfRender(chars);
    BalancedItem(Literal(PiecesOf(chars)));
  }

  lemma {:induction false} PrintedIsBalanced(j: Json)
    requires JsonOk(j)
    ensures Balanced(Print(j))
    decreases j, 2
  {
    match j {
      case Word(letters) => OtherBytesAreBalanced(letters);
      case Number(digits) => OtherBytesAreBalanced(digits);
      case Str(chars) => StringIsBalanced(chars);
      case Arr(gap, elements) =>
        OtherBytesAreBalanced([LEFT]);
        OtherBytesAreBalanced(gap);
        OtherBytesAreBalanced([RIGHT]);
        ElementsAreBalanced(elements);
        BalancedConcat([LEFT], gap);
        BalancedConcat([LEFT] + gap, PrintElements(elements));
        BalancedConcat([LEFT] + gap + PrintElements(elements), [RIGHT]);
      case Obj(gap, members) =>
        var block := ObjectIsBlock(j);
        BalancedItem(Nested(block));
    }
  }

  lemma {:induction false} ElementsAreBalanced(elements: seq<Element>)
    requires forall e :: e in elements ==> Spaces(e.before) && JsonOk(e.value) && Spaces(e.after)
    ensures Balanced(PrintElements(elements))
    decreases elements, 1
  {
    if elements == [] {
      OtherBytesAreBalanced([]);
    } else {
      var e := elements[0];
      OtherBytesAreBalanced(e.before);
      PrintedIsBalanced(e.value);
      OtherBytesAreBalanced(e.after);
      OtherBytesAreBalanced([COMMA]);
      OtherBytesAreBalanced([]);
      ElementsAreBalanced(elements[1..]);
      var rest := if |elements| == 1 then [] else [COMMA] + PrintElements(elements[1..]);
      BalancedConcat([COMMA], PrintElements(elements[1..]));
      BalancedConcat(e.before, Print(e.value));
      BalancedConcat(e.before + Print(e.value), e.after);
      BalancedConcat(e.before + Print(e.value) + e.after, rest);
    }
  }

  lemma {:induction false} MembersAreBalanced(members: seq<Member>)
    requires forall m :: m in members ==>
               && Spaces(m.before) && CharsOk(m.key) && Spaces(m.afterKey)
               && Spaces(m.beforeValue) && JsonOk(m.value) && Spaces(m.after)
    ensures Balanced(PrintMembers(members))
    decreases members, 1
  {
    if members == [] {
      OtherBytesAreBalanced([]);
    } else {
      var m := members[0];
      OtherBytesAreBalanced(m.before);
      StringIsBalanced(m.key);
      OtherBytesAreBalanced(m.afterKey);
      OtherBytesAreBalanced([COLON]);
      OtherBytesAreBalanced(m.beforeValue);
      PrintedIsBalanced(m.value);
      OtherBytesAreBalanced(m.after);
      OtherBytesAreBalanced([COMMA]);
      OtherBytesAreBalanced([]);
      MembersAreBalanced(members[1..]);
      BalancedConcat([COMMA], PrintMembers(members[1..]));
      var rest := if |members| == 1 then [] else [COMMA] + PrintMembers(members[1..]);
      var t := m.before + PrintString(m.key);
      BalancedConcat(m.before, PrintString(m.key));
      BalancedConcat(t, m.afterKey);
      BalancedConcat(t + m.afterKey, [COLON]);
      BalancedConcat(t + m.afterKey + [COLON], m.beforeValue);
      BalancedConcat(t + m.afterKey + [COLON] + m.beforeValue, Print(m.value));
      BalancedConcat(t + m.afterKey + [COLON] + m.beforeValue + Print(m.value), m.after);
      BalancedConcat(t + m.afterKey + [COLON] + m.beforeValue + Print(m.value) + m.after, rest);
    }
  }

  /** A printed object is a balanced block. */
  lemma {:induction false} ObjectIsBlock(j: Json) returns (block: Block)
    requires j.Obj? && JsonOk(j)
    ensures BlockOk(block) && RenderBlock(block) == Print(j)
    decreases j, 1
  {
    OtherBytesAreBalanced(j.gap);
    MembersAreBalanced(j.members);
    BalancedConcat(j.gap, PrintMembers(j.members));
    var items: seq<Item> :| (forall item :: item in items ==> ItemOk(item)) && RenderItems(items) == j.gap + PrintMembers(j.members);
    block := Block(items);
  }

  /** The extractor inverts the printer: whatever prose without an opening brace stands before a JSON
      object and whatever follows it, exactly the object's text is returned, braces, quotes and
      backslashes inside its strings included. */
  lemma ExtractorInvertsPrinter(prefix: Text, o: Json, suffix: Text)
    requires OPEN !in prefix && o.Obj? && JsonOk(o)
    ensures Extract(prefix + Print(o) + suffix) == Ok(Print(o))
  {
    var text := prefix + Print(o) + suffix;
    var n := |prefix|;
    assert text[n] == OPEN;
    assert forall k :: 0 <= k < n ==> text[k] == prefix[k];
    assert FirstOpen(text, 0) == n;
    assert text[n..n + |Print(o)|] == Print(o);
    var block := ObjectIsBlock(o);
    BlockIsFound(text, block);
  }
}
