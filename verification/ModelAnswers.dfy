/** From a raw model completion to the JSON candidate in it: thinking blocks, code fences, then the object. */
module ModelAnswers {
  import opened Domain
  import opened JsonExtractor
  import opened JsonText

  const THINK_END: Text := [60, 47, 116, 104, 105, 110, 107, 62]
  const FENCE: Text := [96, 96, 96]
  const FENCE_LOWER: Text := [96, 96, 96, 106, 115, 111, 110]
  const FENCE_UPPER: Text := [96, 96, 96, 74, 83, 79, 78]

  /** The UTF-8 encodings of the runes that count as white space. */
  predicate IsBlank(r: Text) {
    || (|r| == 1 && (r[0] == 32 || 9 <= r[0] <= 13))
    || (|r| == 2 && r[0] == 0xC2 && (r[1] == 0x85 || r[1] == 0xA0))
    || (|r| == 3 && r[0] == 0xE1 && r[1] == 0x9A && r[2] == 0x80)
    || (|r| == 3 && r[0] == 0xE2 && r[1] == 0x80 && (0x80 <= r[2] <= 0x8A || r[2] == 0xA8 || r[2] == 0xA9 || r[2] == 0xAF))
    || (|r| == 3 && r[0] == 0xE2 && r[1] == 0x81 && r[2] == 0x9F)
    || (|r| == 3 && r[0] == 0xE3 && r[1] == 0x80 && r[2] == 0x80)
  }

  /** The runes with the Unicode property White_Space. */
  predicate WhiteSpace(rune: nat) {
    || 9 <= rune <= 13 || rune == 0x20 || rune == 0x85 || rune == 0xA0 || rune == 0x1680
    || 0x2000 <= rune <= 0x200A || rune == 0x2028 || rune == 0x2029 || rune == 0x202F || rune == 0x205F || rune == 0x3000
  }

  /** The UTF-8 encoding of a rune of the basic plane (section 3 of RFC 3629). */
  function Utf8(rune: nat): Text
    requires rune < 0x10000
  {
    if rune < 0x80 then [rune as byte]
    else if rune < 0x800 then [(0xC0 + rune / 64) as byte, (0x80 + rune % 64) as byte]
    else [(0xE0 + rune / 4096) as byte, (0x80 + rune / 64 % 64) as byte, (0x80 + rune % 64) as byte]
  }

  /** The rune that up to three bytes stand for. */
  function Decoded(r: Text): (rune: int)
    requires 1 <= |r| <= 3
  {
    if |r| == 1 then r[0] as int
    else if |r| == 2 then (r[0] as int - 0xC0) * 64 + r[1] as int - 0x80
    else (r[0] as int - 0xE0) * 4096 + (r[1] as int - 0x80) * 64 + r[2] as int - 0x80
  }

  /** A text is a blank exactly when it encodes a white-space rune. */
  lemma BlanksAreWhiteSpace(r: Text)
    ensures IsBlank(r) <==> exists rune: nat :: WhiteSpace(rune) && Utf8(rune) == r
  {
    if IsBlank(r) {
      BlankDecodes(r);
      assert WhiteSpace(Decoded(r)) && Utf8(Decoded(r)) == r;
    }
    forall rune: nat | WhiteSpace(rune) && Utf8(rune) == r
      ensures IsBlank(r)
    {
      WhiteSpaceIsBlank(rune);
    }
  }

  lemma WhiteSpaceIsBlank(rune: nat)
    requires WhiteSpace(rune)
    ensures IsBlank(Utf8(rune))
  {
  }

  lemma BlankDecodes(r: Text)
    requires IsBlank(r)
    ensures 1 <= |r| <= 3 && Decoded(r) >= 0 && WhiteSpace(Decoded(r)) && Utf8(Decoded(r)) == r
  {
  }

  /** The bytes of the blank the text starts with, zero when it starts with none. */
  function LeadingBlank(t: Text): (k: nat)
    ensures k <= 3 && k <= |t| && (k > 0 ==> IsBlank(t[..k]))
  {
    if |t| >= 1 && IsBlank(t[..1]) then 1
    else if |t| >= 2 && IsBlank(t[..2]) then 2
    else if |t| >= 3 && IsBlank(t[..3]) then 3
    else 0
  }

  /** The bytes of the blank the text ends with, zero when it ends with none. */
  function TrailingBlank(t: Text): (k: nat)
    ensures k <= 3 && k <= |t| && (k > 0 ==> IsBlank(t[|t| - k..]))
  {
    if |t| >= 1 && IsBlank(t[|t| - 1..]) then 1
    else if |t| >= 2 && IsBlank(t[|t| - 2..]) then 2
    else if |t| >= 3 && IsBlank(t[|t| - 3..]) then 3
    else 0
  }

  function TrimLeft(t: Text): Text
    decreases |t|
  {
    var k := LeadingBlank(t);
    if k > 0 then TrimLeft(t[k..]) else t
  }

  function TrimRight(t: Text): Text
    decreases |t|
  {
    var k := TrailingBlank(t);
    if k > 0 then TrimRight(t[..|t| - k]) else t
  }

  function TrimSpace(t: Text): Text {
    TrimRight(TrimLeft(t))
  }

  predicate HasAt(t: Text, pattern: Text, i: nat) {
    i + |pattern| <= |t| && t[i..i + |pattern|] == pattern
  }

  ghost predicate Free(t: Text, pattern: Text) {
    forall i: nat :: !HasAt(t, pattern, i)
  }

  function LastIndexBelow(t: Text, pattern: Text, end: nat): (r: Option<nat>)
    ensures r.Some? ==> r.value < end && HasAt(t, pattern, r.value) && forall j: nat :: r.value < j < end ==> !HasAt(t, pattern, j)
    ensures r.None? ==> forall j: nat :: j < end ==> !HasAt(t, pattern, j)
  {
    if end == 0 then None
    else if HasAt(t, pattern, end - 1) then Some(end - 1)
    else LastIndexBelow(t, pattern, end - 1)
  }

  /** Where the pattern occurs last. */
  function LastIndex(t: Text, pattern: Text): (r: Option<nat>)
    ensures r.Some? ==> HasAt(t, pattern, r.value) && forall j: nat :: j > r.value ==> !HasAt(t, pattern, j)
    ensures r.None? <==> Free(t, pattern)
  {
    LastIndexBelow(t, pattern, |t| + 1)
  }

  function WithoutPrefix(t: Text, prefix: Text): Text {
    if HasAt(t, prefix, 0) then t[|prefix|..] else t
  }

  function AfterThink(t: Text): Text {
    match LastIndex(t, THINK_END)
    case Some(i) => if i + |THINK_END| <= |t| then t[i + |THINK_END|..] else t
    case None => t
  }

  function Unfenced(t: Text): Text {
    WithoutPrefix(WithoutPrefix(WithoutPrefix(t, FENCE_LOWER), FENCE_UPPER), FENCE)
  }

  function BeforeFence(t: Text): Text {
    match LastIndex(t, FENCE)
    case Some(i) => if i <= |t| then t[..i] else t
    case None => t
  }

  function Stripped(t: Text): Text {
    var answer := TrimSpace(AfterThink(t));
    if HasAt(answer, FENCE, 0) then TrimSpace(BeforeFence(Unfenced(answer))) else answer
  }

  lemma OccurrenceFits(t: Text, pattern: Text, i: nat)
    requires HasAt(t, pattern, i)
    ensures i + |pattern| <= |t|
  {
  }

  /** Removes the thinking block and the code fence around an answer. */
  method StripCodeFences(t: Text) returns (s: Text)
    ensures s == Stripped(t)
  {
    hide HasAt, TrimSpace, LastIndex;
    s := t;
    var index := LastIndex(s, THINK_END);
    if index.Some? {
      OccurrenceFits(s, THINK_END, index.value);
      s := s[index.value + |THINK_END|..];
    }
    s := TrimSpace(s);
    if !HasAt(s, FENCE, 0) {
      return;
    }
    s := WithoutPrefix(s, FENCE_LOWER);
    s := WithoutPrefix(s, FENCE_UPPER);
    s := WithoutPrefix(s, FENCE);
    index := LastIndex(s, FENCE);
    if index.Some? {
      OccurrenceFits(s, FENCE, index.value);
      s := s[..index.value];
    }
    s := TrimSpace(s);
  }

  function Candidate(raw: Text): Result<Text, Failure> {
    var text := Stripped(TrimSpace(raw));
    if text == [] then Err(NoObject) else Extract(text)
  }

  /** The JSON text a raw completion is decoded from. */
  method FindCandidate(raw: Text) returns (r: Result<Text, Failure>)
    ensures r == Candidate(raw)
  {
    hide Stripped, Extract;
    var trimmed := TrimSpace(raw);
    var text := StripCodeFences(trimmed);
    if text == [] {
      return Err(NoObject);
    }
    r := ExtractObject(text);
  }

  // ---------- blanks ----------

  /** A byte that is part of no blank. */
  predicate Solid(b: byte) {
    b < 128 && b != 32 && !(9 <= b <= 13)
  }

  lemma BlankHasNoSolid(t: Text, i: nat, j: nat, m: nat)
    requires i <= m < j <= |t| && IsBlank(t[i..j])
    ensures !Solid(t[m])
  {
    assert t[i..j][m - i] == t[m];
  }

  /** No blank is the start of another. */
  lemma BlankStartsAlone(t: Text, j: nat, k: nat)
    requires j <= |t| && k <= |t| && IsBlank(t[..j]) && IsBlank(t[..k])
    ensures j == k
  {
    assert t[..j][0] == t[0] == t[..k][0];
  }

  /** No blank starts within another. */
  lemma BlankStartsNoRest(b: Text, r: Text, i: nat)
    requires IsBlank(b) && IsBlank(r) && 0 < i < |r|
    ensures r[i] != b[0]
  {
  }

  lemma BlankLength(r: Text)
    requires IsBlank(r)
    ensures 1 <= |r| <= 3
  {
  }

  lemma LeadingBlankIs(t: Text, k: nat)
    requires k <= |t| && IsBlank(t[..k])
    ensures LeadingBlank(t) == k
  {
    BlankLength(t[..k]);
    hide IsBlank;
    assert LeadingBlank(t) > 0;
    BlankStartsAlone(t, k, LeadingBlank(t));
  }

  /** What follows matters only to a blank that reaches into it. */
  lemma LeadingBlankOfPrefix(a: Text, b: Text)
    requires LeadingBlank(a + b) <= |a|
    ensures LeadingBlank(a) == LeadingBlank(a + b)
  {
    hide IsBlank, LeadingBlank;
    var k := LeadingBlank(a + b);
    if k > 0 {
      assert (a + b)[..k] == a[..k];
      LeadingBlankIs(a, k);
    } else if LeadingBlank(a) > 0 {
      LeadingBlankExtends(a, b);
    }
  }

  lemma LeadingBlankExtends(a: Text, b: Text)
    requires LeadingBlank(a) > 0
    ensures LeadingBlank(a + b) == LeadingBlank(a)
  {
    hide IsBlank, LeadingBlank;
    var j := LeadingBlank(a);
    assert (a + b)[..j] == a[..j];
    LeadingBlankIs(a + b, j);
  }

  lemma TrailingBlankFinds(t: Text, k: nat)
    requires k <= |t| && IsBlank(t[|t| - k..])
    ensures TrailingBlank(t) > 0
  {
    BlankLength(t[|t| - k..]);
    hide IsBlank;
  }

  /** No blank ends another. */
  lemma BlankEndsAlone(b: Text, r: Text)
    requires IsBlank(b) && IsBlank(r) && |b| <= |r| && r[|r| - |b|..] == b
    ensures |b| == |r|
  {
    assert b[0] == r[|r| - |b|];
  }

  lemma TrailingBlankIs(t: Text, b: Text)
    requires IsBlank(b)
    ensures TrailingBlank(t + b) == |b|
  {
    var x := t + b;
    assert x[|t|..] == b;
    TrailingBlankFinds(x, |b|);
    hide TrailingBlank, IsBlank;
    var k := TrailingBlank(x);
    var r := x[|x| - k..];
    if |b| <= k {
      assert r[k - |b|..] == b;
      BlankEndsAlone(b, r);
    } else {
      assert b[|b| - k..] == r;
      BlankEndsAlone(r, b);
    }
  }

  // ---------- trimming around an object ----------

  lemma LeadingBlankStops(a: Text, b: Text)
    requires b != [] && Solid(b[0])
    ensures LeadingBlank(a + b) == LeadingBlank(a)
  {
    hide IsBlank, LeadingBlank;
    var t := a + b;
    var k := LeadingBlank(t);
    if k <= |a| {
      LeadingBlankOfPrefix(a, b);
    } else {
      assert t[|a|] == b[0] && t[0..k] == t[..k];
      BlankHasNoSolid(t, 0, k, |a|);
    }
  }

  lemma {:induction false} TrimLeftStops(a: Text, b: Text)
    requires b != [] && Solid(b[0])
    ensures TrimLeft(a + b) == TrimLeft(a) + b
    decreases |a|
  {
    hide IsBlank, LeadingBlank;
    LeadingBlankStops(a, b);
    var k := LeadingBlank(a);
    if k > 0 {
      assert (a + b)[k..] == a[k..] + b;
      TrimLeftStops(a[k..], b);
    }
  }

  lemma TrailingBlankStops(a: Text, b: Text)
    requires a != [] && Solid(a[|a| - 1])
    ensures TrailingBlank(a + b) == TrailingBlank(b)
  {
    hide IsBlank, TrailingBlank;
    var t := a + b;
    var k, j := TrailingBlank(t), TrailingBlank(b);
    if j > 0 {
      assert t == (a + b[..|b| - j]) + b[|b| - j..];
      TrailingBlankIs(a + b[..|b| - j], b[|b| - j..]);
    } else if k > |b| {
      assert t[|a| - 1] == a[|a| - 1] && t[|t| - k..|t|] == t[|t| - k..];
      BlankHasNoSolid(t, |t| - k, |t|, |a| - 1);
    } else if k > 0 {
      assert b == b[..|b| - k] + t[|t| - k..];
      TrailingBlankIs(b[..|b| - k], t[|t| - k..]);
    }
  }

  lemma {:induction false} TrimRightStops(a: Text, b: Text)
    requires a != [] && Solid(a[|a| - 1])
    ensures TrimRight(a + b) == a + TrimRight(b)
    decreases |b|
  {
    hide IsBlank, TrailingBlank;
    TrailingBlankStops(a, b);
    var k := TrailingBlank(b);
    if k > 0 {
      assert (a + b)[..|a + b| - k] == a + b[..|b| - k];
      TrimRightStops(a, b[..|b| - k]);
    } else {
      assert TrimRight(a + b) == a + b;
    }
  }

  /** A text that starts and ends with a byte no blank has. */
  predicate Framed(p: Text) {
    p != [] && Solid(p[0]) && Solid(p[|p| - 1])
  }

  /** A text in braces. */
  predicate Braced(p: Text) {
    |p| >= 2 && p[0] == OPEN && p[|p| - 1] == CLOSE
  }

  lemma TrimAround(a: Text, p: Text, b: Text)
    requires Framed(p)
    ensures TrimSpace(a + p + b) == TrimLeft(a) + p + TrimRight(b)
  {
    assert a + p + b == a + (p + b);
    TrimLeftStops(a, p + b);
    var left := TrimLeft(a) + p;
    assert TrimLeft(a) + (p + b) == left + b;
    TrimRightStops(left, b);
  }

  lemma {:induction false} TrimLeftTwice(a: Text)
    ensures TrimLeft(TrimLeft(a)) == TrimLeft(a)
    decreases |a|
  {
    hide IsBlank, LeadingBlank;
    var k := LeadingBlank(a);
    if k > 0 {
      TrimLeftTwice(a[k..]);
    }
  }

  lemma {:induction false} TrimRightTwice(a: Text)
    ensures TrimRight(TrimRight(a)) == TrimRight(a)
    decreases |a|
  {
    hide IsBlank, TrailingBlank;
    var k := TrailingBlank(a);
    if k > 0 {
      TrimRightTwice(a[..|a| - k]);
    }
  }

  /** A blank at the end makes no blank at the start. */
  lemma BlankAfter(a: Text, b: Text)
    requires IsBlank(b) && a != []
    ensures LeadingBlank(a + b) == LeadingBlank(a)
  {
    assert b != [];
    hide IsBlank, LeadingBlank;
    var k := LeadingBlank(a + b);
    if k <= |a| {
      LeadingBlankOfPrefix(a, b);
    } else {
      assert (a + b)[..k][|a|] == b[0];
      BlankStartsNoRest(b, (a + b)[..k], |a|);
    }
  }

  lemma {:induction false} TrimLeftBefore(a: Text, b: Text)
    requires IsBlank(b)
    ensures TrimLeft(a + b) == if TrimLeft(a) == [] then [] else TrimLeft(a) + b
    decreases |a|
  {
    hide IsBlank, LeadingBlank;
    if a == [] {
      assert a + b == b && b[..|b|] == b;
      LeadingBlankIs(b, |b|);
    } else {
      BlankAfter(a, b);
      var k := LeadingBlank(a);
      if k > 0 {
        assert (a + b)[k..] == a[k..] + b;
        TrimLeftBefore(a[k..], b);
      }
    }
  }

  /** Trimming on the right first changes nothing. */
  lemma {:induction false} TrimRightFirst(a: Text)
    ensures TrimSpace(TrimRight(a)) == TrimSpace(a)
    decreases |a|
  {
    hide IsBlank, TrailingBlank;
    var k := TrailingBlank(a);
    if k > 0 {
      var rest, b := a[..|a| - k], a[|a| - k..];
      assert a == rest + b;
      TrimRightFirst(rest);
      TrimLeftBefore(rest, b);
      var left := TrimLeft(rest);
      if left != [] {
        TrailingBlankIs(left, b);
        assert (left + b)[..|left + b| - k] == left;
      }
    }
  }

  lemma TrimSpaceTwice(a: Text)
    ensures TrimSpace(TrimSpace(a)) == TrimSpace(a)
  {
    TrimRightFirst(TrimLeft(a));
    TrimLeftTwice(a);
  }

  // ---------- occurrences around an object ----------

  // ---------- what trimming leaves ----------

  /** Nothing but blanks, one after another. */
  ghost predicate AllBlank(t: Text)
    decreases |t|
  {
    t == [] || exists k :: 0 < k <= |t| && IsBlank(t[..k]) && AllBlank(t[k..])
  }

  /** A text that neither starts nor ends with a blank. */
  ghost predicate Trimmed(t: Text) {
    forall k :: 0 < k <= |t| ==> !BlankEnd(t, k)
  }

  predicate BlankEnd(t: Text, k: nat)
    requires k <= |t|
  {
    IsBlank(t[..k]) || IsBlank(t[|t| - k..])
  }

  lemma BlankThenBlanks(t: Text, k: nat)
    requires 0 < k <= |t| && IsBlank(t[..k]) && AllBlank(t[k..])
    ensures AllBlank(t)
  {
    hide IsBlank;
  }

  lemma FirstBlank(t: Text) returns (k: nat)
    requires AllBlank(t) && t != []
    ensures 0 < k <= |t| && IsBlank(t[..k]) && AllBlank(t[k..])
  {
    hide IsBlank;
    k :| 0 < k <= |t| && IsBlank(t[..k]) && AllBlank(t[k..]);
  }

  lemma NoBlanks()
    ensures AllBlank([])
  {
  }

  lemma CutInFirst(a: Text, b: Text, k: nat)
    requires k <= |a|
    ensures (a + b)[..k] == a[..k] && (a + b)[k..] == a[k..] + b
    ensures k == |a| ==> a[..k] == a && a[k..] + b == b
  {
  }

  lemma {:induction false} BlankAppended(a: Text, b: Text)
    requires AllBlank(a) && IsBlank(b)
    ensures AllBlank(a + b)
    decreases |a|
  {
    BlankLength(b);
    hide IsBlank, AllBlank;
    if a == [] {
      NoBlanks();
      CutInFirst(b, [], |b|);
      assert a + b == b + [];
      BlankThenBlanks(b + [], |b|);
    } else {
      var k := FirstBlank(a);
      BlankAppended(a[k..], b);
      CutInFirst(a, b, k);
      BlankThenBlanks(a + b, k);
    }
  }

  lemma {:induction false} TrimLeftSplits(t: Text) returns (before: Text)
    ensures AllBlank(before) && t == before + TrimLeft(t) && LeadingBlank(TrimLeft(t)) == 0
    decreases |t|
  {
    hide IsBlank;
    var k := LeadingBlank(t);
    if k > 0 {
      var rest := TrimLeftSplits(t[k..]);
      before := t[..k] + rest;
      assert before[..k] == t[..k] && before[k..] == rest;
    } else {
      before := [];
    }
  }

  lemma TrimRightByOne(t: Text)
    ensures var k := TrailingBlank(t); TrimRight(t) == if k > 0 then TrimRight(t[..|t| - k]) else t
  {
    hide TrailingBlank;
  }

  lemma {:induction false} TrimRightSplits(t: Text) returns (after: Text)
    ensures AllBlank(after) && t == TrimRight(t) + after && TrailingBlank(TrimRight(t)) == 0
    decreases |t|
  {
    hide IsBlank, AllBlank, TrailingBlank, TrimRight;
    var k := TrailingBlank(t);
    TrimRightByOne(t);
    if k > 0 {
      var front, last := t[..|t| - k], t[|t| - k..];
      var rest := TrimRightSplits(front);
      BlankAppended(rest, last);
      after := rest + last;
      var kept := TrimRight(front);
      assert t == front + last;
      assert kept + rest + last == kept + after;
    } else {
      after := [];
      NoBlanks();
    }
  }

  lemma NoBlankAround(t: Text)
    requires LeadingBlank(t) == 0 && TrailingBlank(t) == 0
    ensures Trimmed(t)
  {
    hide IsBlank, LeadingBlank, TrailingBlank;
    forall k | 0 < k <= |t|
      ensures !BlankEnd(t, k)
    {
      if IsBlank(t[..k]) {
        LeadingBlankIs(t, k);
      }
      if IsBlank(t[|t| - k..]) {
        TrailingBlankFinds(t, k);
      }
    }
  }

  /** Trimming takes the blanks at both ends, all of them and nothing else. */
  lemma TrimTakesTheBlanks(t: Text) returns (before: Text, after: Text)
    ensures t == before + TrimSpace(t) + after && AllBlank(before) && AllBlank(after) && Trimmed(TrimSpace(t))
  {
    hide IsBlank, AllBlank, Trimmed, LeadingBlank, TrailingBlank;
    before := TrimLeftSplits(t);
    var middle := TrimLeft(t);
    after := TrimRightSplits(middle);
    var kept := TrimSpace(t);
    assert before + (kept + after) == before + kept + after;
    LeadingBlankOfPrefix(kept, after);
    NoBlankAround(kept);
  }

  lemma CoveredIsInPattern(t: Text, pattern: Text, i: nat, k: nat)
    ensures HasAt(t, pattern, i) && i <= k < i + |pattern| ==> t[k] in pattern && t[k] == pattern[k - i]
  {
    if HasAt(t, pattern, i) && i <= k < i + |pattern| {
      assert t[i..i + |pattern|][k - i] == t[k];
    }
  }

  /** A pattern without braces never crosses the brace an object starts with. */
  lemma NotAcrossOpen(a: Text, b: Text, pattern: Text, i: nat)
    requires b != [] && b[0] == OPEN && OPEN !in pattern
    ensures HasAt(a + b, pattern, i) && i < |a| ==> HasAt(a, pattern, i)
  {
    if HasAt(a + b, pattern, i) && i < |a| {
      CoveredIsInPattern(a + b, pattern, i, |a|);
      assert (a + b)[i..i + |pattern|] == a[i..i + |pattern|];
    }
  }

  lemma NotAcrossClose(a: Text, b: Text, pattern: Text, i: nat)
    requires a != [] && a[|a| - 1] == CLOSE && CLOSE !in pattern && pattern != []
    ensures HasAt(a + b, pattern, i) && i < |a| ==> HasAt(a, pattern, i)
  {
    if HasAt(a + b, pattern, i) && i < |a| {
      CoveredIsInPattern(a + b, pattern, i, |a| - 1);
      assert (a + b)[i..i + |pattern|] == a[i..i + |pattern|];
    }
  }

  lemma HasInLater(a: Text, b: Text, pattern: Text, i: nat)
    requires i >= |a|
    ensures HasAt(a + b, pattern, i) <==> HasAt(b, pattern, i - |a|)
  {
    if i + |pattern| <= |a| + |b| {
      assert (a + b)[i..i + |pattern|] == b[i - |a|..i - |a| + |pattern|];
    }
  }

  lemma HasInEarlier(a: Text, b: Text, pattern: Text, i: nat)
    requires HasAt(a, pattern, i)
    ensures HasAt(a + b, pattern, i)
  {
    assert (a + b)[i..i + |pattern|] == a[i..i + |pattern|];
  }

  /** The part an occurrence belongs to: before the object, in it or after it. */
  lemma Located(a: Text, p: Text, b: Text, pattern: Text, i: nat)
    requires Braced(p) && OPEN !in pattern && CLOSE !in pattern && pattern != []
    ensures HasAt(a + p + b, pattern, i)
       <==> if i < |a| then HasAt(a, pattern, i)
            else if i < |a| + |p| then HasAt(p, pattern, i - |a|)
            else HasAt(b, pattern, i - |a| - |p|)
  {
    assert a + p + b == a + (p + b);
    if i < |a| {
      NotAcrossOpen(a, p + b, pattern, i);
      if HasAt(a, pattern, i) {
        HasInEarlier(a, p + b, pattern, i);
      }
    } else {
      HasInLater(a, p + b, pattern, i);
      if i < |a| + |p| {
        NotAcrossClose(p, b, pattern, i - |a|);
        if HasAt(p, pattern, i - |a|) {
          HasInEarlier(p, b, pattern, i - |a|);
        }
      } else {
        HasInLater(p, b, pattern, i - |a|);
      }
    }
  }

  lemma LastIndexIs(t: Text, pattern: Text, i: nat)
    requires HasAt(t, pattern, i) && forall j: nat :: j > i ==> !HasAt(t, pattern, j)
    ensures LastIndex(t, pattern) == Some(i)
  {
    var r := LastIndex(t, pattern);
    assert !Free(t, pattern);
    assert !(r.value < i) && !(i < r.value);
  }

  /** The last occurrence is the last one of the last part that has one. */
  lemma LastIndexAround(a: Text, p: Text, b: Text, pattern: Text)
    requires Braced(p) && OPEN !in pattern && CLOSE !in pattern && pattern != []
    ensures LastIndex(a + p + b, pattern)
         == if LastIndex(b, pattern).Some? then Some(|a| + |p| + LastIndex(b, pattern).value)
            else if LastIndex(p, pattern).Some? then Some(|a| + LastIndex(p, pattern).value)
            else LastIndex(a, pattern)
  {
    hide HasAt;
    forall i: nat
      ensures HasAt(a + p + b, pattern, i)
         <==> if i < |a| then HasAt(a, pattern, i)
              else if i < |a| + |p| then HasAt(p, pattern, i - |a|)
              else HasAt(b, pattern, i - |a| - |p|)
    {
      Located(a, p, b, pattern, i);
    }
    InsideOf(a, pattern);
    InsideOf(p, pattern);
    var ia, ip, ib := LastIndex(a, pattern), LastIndex(p, pattern), LastIndex(b, pattern);
    if ib.Some? {
      LastIndexIs(a + p + b, pattern, |a| + |p| + ib.value);
    } else if ip.Some? {
      LastIndexIs(a + p + b, pattern, |a| + ip.value);
    } else if ia.Some? {
      LastIndexIs(a + p + b, pattern, ia.value);
    }
  }

  lemma InsideOf(t: Text, pattern: Text)
    requires pattern != []
    ensures forall i: nat :: HasAt(t, pattern, i) ==> i < |t|
  {
  }

  lemma FreeSlice(t: Text, pattern: Text, i: nat, j: nat)
    requires Free(t, pattern) && i <= j <= |t|
    ensures Free(t[i..j], pattern)
  {
    forall k: nat
      ensures !HasAt(t[i..j], pattern, k)
    {
      SliceHas(t, pattern, i, j, k);
    }
  }

  lemma SliceHas(t: Text, pattern: Text, i: nat, j: nat, k: nat)
    requires i <= j <= |t|
    ensures HasAt(t[i..j], pattern, k) ==> HasAt(t, pattern, i + k)
  {
    var x := t[i..j];
    if HasAt(x, pattern, k) {
      forall m | 0 <= m < |pattern|
        ensures t[i + k + m] == pattern[m]
      {
        CoveredIsInPattern(x, pattern, k, k + m);
      }
      assert t[i + k..i + k + |pattern|] == pattern;
    }
  }

  lemma {:induction false} FreeTrimLeft(t: Text, pattern: Text)
    requires Free(t, pattern)
    ensures Free(TrimLeft(t), pattern)
    decreases |t|
  {
    hide IsBlank, LeadingBlank;
    var k := LeadingBlank(t);
    if k > 0 {
      FreeSlice(t, pattern, k, |t|);
      assert t[k..|t|] == t[k..];
      FreeTrimLeft(t[k..], pattern);
    }
  }

  lemma {:induction false} FreeTrimRight(t: Text, pattern: Text)
    requires Free(t, pattern)
    ensures Free(TrimRight(t), pattern)
    decreases |t|
  {
    hide IsBlank, TrailingBlank;
    var k := TrailingBlank(t);
    if k > 0 {
      FreeSlice(t, pattern, 0, |t| - k);
      assert t[0..|t| - k] == t[..|t| - k];
      FreeTrimRight(t[..|t| - k], pattern);
    }
  }

  /** Trimming on the right loses no occurrence of a pattern that ends in something else. */
  lemma {:induction false} TrimRightKeeps(t: Text, pattern: Text, i: nat)
    requires HasAt(t, pattern, i) && pattern != [] && Solid(pattern[|pattern| - 1])
    ensures HasAt(TrimRight(t), pattern, i)
    decreases |t|
  {
    hide IsBlank, TrailingBlank;
    var k := TrailingBlank(t);
    if k > 0 {
      var last := i + |pattern| - 1;
      assert t[i..i + |pattern|][|pattern| - 1] == t[last];
      if last >= |t| - k {
        assert t[|t| - k..|t|] == t[|t| - k..];
        BlankHasNoSolid(t, |t| - k, |t|, last);
      }
      var shorter := t[..|t| - k];
      assert shorter[i..i + |pattern|] == t[i..i + |pattern|];
      TrimRightKeeps(shorter, pattern, i);
    }
  }

  lemma TrimRightKeepsFence(t: Text)
    ensures Free(TrimRight(t), FENCE) <==> Free(t, FENCE)
  {
    if Free(t, FENCE) {
      FreeTrimRight(t, FENCE);
    } else {
      var i: nat :| HasAt(t, FENCE, i);
      TrimRightKeeps(t, FENCE, i);
    }
  }

  // ---------- what stands before the object ----------

  /** No closing tag reaches into a blank before it. */
  lemma TagAfterBlank(a: Text, k: nat, i: nat)
    requires k <= |a| && IsBlank(a[..k])
    ensures HasAt(a, THINK_END, i) <==> i >= k && HasAt(a[k..], THINK_END, i - k)
  {
    hide IsBlank;
    assert a == a[..k] + a[k..] && a[0..k] == a[..k];
    if i >= k {
      HasInLater(a[..k], a[k..], THINK_END, i);
    } else if HasAt(a, THINK_END, i) {
      CoveredIsInPattern(a, THINK_END, i, i);
      BlankHasNoSolid(a, 0, k, i);
    }
  }

  lemma ThinkAfterBlank(a: Text, k: nat)
    requires k <= |a| && IsBlank(a[..k])
    ensures Free(a[k..], THINK_END) ==> Free(a, THINK_END)
    ensures !Free(a[k..], THINK_END) ==> AfterThink(a) == AfterThink(a[k..])
  {
    hide IsBlank, HasAt;
    forall i: nat
      ensures HasAt(a, THINK_END, i) <==> i >= k && HasAt(a[k..], THINK_END, i - k)
    {
      TagAfterBlank(a, k, i);
    }
    var r := LastIndex(a[k..], THINK_END);
    if r.Some? {
      LastIndexIs(a, THINK_END, r.value + k);
      OccurrenceFits(a[k..], THINK_END, r.value);
      assert a[r.value + k + |THINK_END|..] == a[k..][r.value + |THINK_END|..];
    }
  }

  /** Trimming first and cutting the thinking block off then is the same as cutting it off first. */
  lemma {:induction false} ThinkAfterTrim(a: Text)
    ensures TrimLeft(AfterThink(TrimLeft(a))) == TrimLeft(AfterThink(a))
    decreases |a|
  {
    hide IsBlank, HasAt, LeadingBlank;
    var k := LeadingBlank(a);
    if k > 0 {
      ThinkAfterTrim(a[k..]);
      ThinkAfterBlank(a, k);
    }
  }

  lemma PrefixAround(a: Text, p: Text, b: Text, tag: Text)
    requires Braced(p) && OPEN !in tag && tag != []
    ensures HasAt(a + p + b, tag, 0) <==> HasAt(a, tag, 0)
    ensures WithoutPrefix(a + p + b, tag) == WithoutPrefix(a, tag) + p + b
  {
    assert a + p + b == a + (p + b);
    if a == [] {
      CoveredIsInPattern(a + p + b, tag, 0, 0);
    } else {
      NotAcrossOpen(a, p + b, tag, 0);
    }
    if HasAt(a, tag, 0) {
      HasInEarlier(a, p + b, tag, 0);
      assert (a + p + b)[|tag|..] == a[|tag|..] + p + b;
    }
  }

  lemma UnfencedAround(a: Text, p: Text, b: Text)
    requires Braced(p)
    ensures Unfenced(a + p + b) == Unfenced(a) + p + b
  {
    hide HasAt;
    PrefixAround(a, p, b, FENCE_LOWER);
    var a1 := WithoutPrefix(a, FENCE_LOWER);
    PrefixAround(a1, p, b, FENCE_UPPER);
    PrefixAround(WithoutPrefix(a1, FENCE_UPPER), p, b, FENCE);
  }

  lemma UnfencedHasNoMore(a: Text)
    requires OPEN !in a
    ensures OPEN !in Unfenced(a)
  {
  }

  lemma {:induction false} TrimLeftHasNoMore(a: Text)
    requires OPEN !in a
    ensures OPEN !in TrimLeft(a)
    decreases |a|
  {
    hide IsBlank, LeadingBlank;
    var k := LeadingBlank(a);
    if k > 0 {
      TrimLeftHasNoMore(a[k..]);
    }
  }

  // ---------- what stands after the last closing tag ----------

  /** The tag's first byte occurs in it only once. */
  lemma TagStartsOnce(t: Text, i: nat, j: nat)
    requires HasAt(t, THINK_END, i) && i < j < i + |THINK_END|
    ensures !HasAt(t, THINK_END, j)
  {
    CoveredIsInPattern(t, THINK_END, i, j);
    CoveredIsInPattern(t, THINK_END, j, j);
  }

  /** A tag with none after it is the last. */
  lemma AfterLastTag(front: Text, rest: Text)
    requires Free(rest, THINK_END)
    ensures AfterThink(front + THINK_END + rest) == rest
  {
    var t, i := front + THINK_END + rest, |front|;
    assert t[i..i + |THINK_END|] == THINK_END;
    forall j: nat | j > i
      ensures !HasAt(t, THINK_END, j)
    {
      if j < i + |THINK_END| {
        TagStartsOnce(t, i, j);
      } else {
        HasInLater(front + THINK_END, rest, THINK_END, j);
      }
    }
    LastIndexIs(t, THINK_END, i);
  }

  /** A completion is what stands after its last closing tag: whatever was thought before it is ignored. */
  lemma ThinkingIsIgnored(thinking: Text, answer: Text)
    requires Free(answer, THINK_END)
    ensures Candidate(thinking + THINK_END + answer) == Candidate(answer)
  {
    hide HasAt, LastIndex, Extract, TrimSpace;
    TrimAround(thinking, THINK_END, answer);
    FreeTrimRight(answer, THINK_END);
    AfterLastTag(TrimLeft(thinking), TrimRight(answer));
    FreeTrimSpace(answer);
    TrimRightFirst(answer);
    TrimSpaceTwice(answer);
  }

  lemma FreeTrimSpace(t: Text)
    requires Free(t, THINK_END)
    ensures Free(TrimSpace(t), THINK_END)
  {
    FreeTrimLeft(t, THINK_END);
    FreeTrimRight(TrimLeft(t), THINK_END);
  }

  /** Where a text has a closing tag, only what follows the last one counts. */
  lemma OnlyAfterTag(front: Text, s: Text)
    requires !Free(s, THINK_END)
    ensures Candidate(front + s) == Candidate(AfterThink(s))
  {
    hide Candidate, HasAt;
    var i := LastIndex(s, THINK_END).value;
    SplitAtTag(s, i);
    RestIsFree(s);
    assert front + s == front + s[..i] + THINK_END + AfterThink(s);
    ThinkingIsIgnored(front + s[..i], AfterThink(s));
  }

  lemma SplitAtTag(s: Text, i: nat)
    requires LastIndex(s, THINK_END) == Some(i)
    ensures i <= |s| && s == s[..i] + THINK_END + AfterThink(s)
  {
    assert HasAt(s, THINK_END, i);
  }

  // ---------- exact recovery ----------

  /** What is left of the text before the object once thinking and blanks are gone. */
  function Lead(prefix: Text): Text {
    TrimLeft(AfterThink(prefix))
  }

  /** With no closing tag after the object, stripping leaves it alone exactly when it has no such tag itself. */
  lemma ThinkAround(prefix: Text, p: Text, suffix: Text)
    requires Braced(p) && Free(suffix, THINK_END)
    ensures Free(p, THINK_END) ==> TrimSpace(AfterThink(TrimSpace(prefix + p + suffix))) == Lead(prefix) + p + TrimRight(suffix)
    ensures !Free(p, THINK_END) ==> Free(AfterThink(TrimSpace(prefix + p + suffix)), THINK_END)
  {
    hide HasAt, LastIndex, AfterThink, TrimSpace;
    var a, b := TrimLeft(prefix), TrimRight(suffix);
    TrimAround(prefix, p, suffix);
    FreeTrimRight(suffix, THINK_END);
    LastIndexAround(a, p, b, THINK_END);
    if Free(p, THINK_END) {
      AfterThinkAround(a, p, b);
      ThinkAfterTrim(prefix);
      TrimRightTwice(suffix);
      TrimAround(AfterThink(a), p, b);
    } else {
      RestIsFree(a + p + b);
    }
  }

  lemma AfterThinkAround(a: Text, p: Text, b: Text)
    requires LastIndex(a + p + b, THINK_END) == LastIndex(a, THINK_END)
    ensures AfterThink(a + p + b) == AfterThink(a) + p + b
  {
    var i := LastIndex(a, THINK_END);
    if i.Some? {
      assert HasAt(a, THINK_END, i.value);
      assert (a + p + b)[i.value + |THINK_END|..] == a[i.value + |THINK_END|..] + p + b;
    }
  }

  lemma RestIsFree(t: Text)
    ensures LastIndex(t, THINK_END).Some? ==> Free(AfterThink(t), THINK_END)
  {
    var r := LastIndex(t, THINK_END);
    if r.Some? {
      var start := r.value + |THINK_END|;
      assert t[start..] == t[start..|t|];
      forall k: nat
        ensures !HasAt(t[start..], THINK_END, k)
      {
        SliceHas(t, THINK_END, start, |t|, k);
      }
    }
  }

  /** Whatever is stripped and extracted from a text without the tag has none. */
  lemma ExtractedIsFree(t: Text)
    requires Free(AfterThink(t), THINK_END)
    ensures Free(Stripped(t), THINK_END)
  {
    hide HasAt, LastIndex;
    var s := AfterThink(t);
    FreeTrimLeft(s, THINK_END);
    FreeTrimRight(TrimLeft(s), THINK_END);
    var answer := TrimSpace(s);
    FreeWithoutPrefix(answer, FENCE_LOWER);
    FreeWithoutPrefix(WithoutPrefix(answer, FENCE_LOWER), FENCE_UPPER);
    FreeWithoutPrefix(WithoutPrefix(WithoutPrefix(answer, FENCE_LOWER), FENCE_UPPER), FENCE);
    var open := Unfenced(answer);
    var i := LastIndex(open, FENCE);
    if i.Some? && i.value <= |open| {
      FreeSlice(open, THINK_END, 0, i.value);
      assert open[0..i.value] == open[..i.value];
    }
    var cut := BeforeFence(open);
    FreeTrimLeft(cut, THINK_END);
    FreeTrimRight(TrimLeft(cut), THINK_END);
  }

  lemma FreeWithoutPrefix(t: Text, prefix: Text)
    requires Free(t, THINK_END)
    ensures Free(WithoutPrefix(t, prefix), THINK_END)
  {
    if HasAt(t, prefix, 0) {
      FreeSlice(t, THINK_END, |prefix|, |t|);
      assert t[|prefix|..|t|] == t[|prefix|..];
    }
  }

  /** What an extraction returns is a slice of its text. */
  lemma ExtractIsFree(t: Text)
    requires Free(t, THINK_END) && Extract(t).Ok?
    ensures Free(Extract(t).value, THINK_END)
  {
    var start := FirstOpen(t, 0);
    var end := ScanFrom(t, start, Scan(0, false, false)).value;
    FreeSlice(t, THINK_END, start, end);
  }

  lemma PrintIsBraced(o: Json)
    requires o.Obj? && JsonOk(o)
    ensures Braced(Print(o))
  {
  }

  /** From a text that ends inside the object nothing as long as the object can be extracted. */
  lemma CutObjectIsLost(lead: Text, p: Text, k: nat)
    requires OPEN !in lead && Braced(p) && k < |p|
    ensures Extract(TrimSpace(lead + p[..k])).Ok? ==> |Extract(TrimSpace(lead + p[..k])).value| <= k
  {
    hide TrimLeft, TrimRight, ScanFrom;
    var whole := lead + p[..k];
    var left, t := TrimLeft(whole), TrimSpace(whole);
    TrimLeftHasSlice(whole);
    TrimRightHasSlice(left);
    var drop, start := |whole| - |left|, FirstOpen(t, 0);
    if Extract(t).Ok? {
      assert t[start] == left[start] == whole[drop + start];
      assert drop + start >= |lead|;
    }
  }

  lemma {:induction false} TrimLeftHasSlice(t: Text)
    ensures |TrimLeft(t)| <= |t| && TrimLeft(t) == t[|t| - |TrimLeft(t)|..]
    decreases |t|
  {
    hide IsBlank, LeadingBlank;
    var k := LeadingBlank(t);
    if k > 0 {
      TrimLeftHasSlice(t[k..]);
    }
  }

  lemma {:induction false} TrimRightHasSlice(t: Text)
    ensures |TrimRight(t)| <= |t| && TrimRight(t) == t[..|TrimRight(t)|]
    decreases |t|
  {
    hide IsBlank, TrailingBlank;
    var k := TrailingBlank(t);
    if k > 0 {
      TrimRightHasSlice(t[..|t| - k]);
    }
  }

  /** Inside an opened fence the object survives exactly when a fence follows it, or none is in it or left before it. */
  lemma FencedObject(lead: Text, o: Json, rest: Text)
    requires OPEN !in lead && o.Obj? && JsonOk(o)
    ensures Extract(TrimSpace(BeforeFence(lead + Print(o) + rest))) == Ok(Print(o))
       <==> !Free(rest, FENCE) || (Free(Print(o), FENCE) && Free(lead, FENCE))
  {
    hide HasAt, LastIndex, Extract, Print, TrimSpace;
    var p := Print(o);
    PrintIsBraced(o);
    LastIndexAround(lead, p, rest, FENCE);
    InsideFence(rest);
    InsideFence(p);
    InsideFence(lead);
    var text := lead + p + rest;
    var ir, ip, il := LastIndex(rest, FENCE), LastIndex(p, FENCE), LastIndex(lead, FENCE);
    if ir.Some? {
      assert text[..|lead| + |p| + ir.value] == lead + p + rest[..ir.value];
      TrimmedObject(lead, o, rest[..ir.value]);
    } else if ip.Some? {
      assert text[..|lead| + ip.value] == lead + p[..ip.value];
      CutObjectIsLost(lead, p, ip.value);
    } else if il.Some? {
      assert text[..il.value] == lead[..il.value] + p[..0];
      CutObjectIsLost(lead[..il.value], p, 0);
    } else {
      TrimmedObject(lead, o, rest);
    }
  }

  lemma InsideFence(t: Text)
    ensures LastIndex(t, FENCE).Some? ==> LastIndex(t, FENCE).value < |t|
  {
    InsideOf(t, FENCE);
  }

  lemma TrimmedObject(lead: Text, o: Json, rest: Text)
    requires OPEN !in lead && o.Obj? && JsonOk(o)
    ensures Extract(TrimSpace(lead + Print(o) + rest)) == Ok(Print(o))
  {
    hide Extract, Print;
    PrintIsBraced(o);
    TrimAround(lead, Print(o), rest);
    TrimLeftHasNoMore(lead);
    ExtractorInvertsPrinter(TrimLeft(lead), o, TrimRight(rest));
  }

  lemma LastAnswerIsRecovered(prefix: Text, o: Json, suffix: Text)
    requires o.Obj? && JsonOk(o)
    requires OPEN !in AfterThink(prefix) && Free(suffix, THINK_END)
    ensures Candidate(prefix + Print(o) + suffix) == Ok(Print(o))
       <==> && Free(Print(o), THINK_END)
            && (HasAt(Lead(prefix), FENCE, 0)
                ==> !Free(suffix, FENCE) || (Free(Print(o), FENCE) && Free(Unfenced(Lead(prefix)), FENCE)))
  {
    hide HasAt, LastIndex, Extract, Print, AfterThink, Unfenced, BeforeFence, TrimSpace;
    var p, lead, rest := Print(o), Lead(prefix), TrimRight(suffix);
    var raw := prefix + p + suffix;
    PrintIsBraced(o);
    ThinkAround(prefix, p, suffix);
    if !Free(p, THINK_END) {
      ExtractedIsFree(TrimSpace(raw));
      var text := Stripped(TrimSpace(raw));
      if Extract(text).Ok? {
        ExtractIsFree(text);
      }
    } else {
      TrimLeftHasNoMore(AfterThink(prefix));
      PrefixAround(lead, p, rest, FENCE);
      if HasAt(lead, FENCE, 0) {
        UnfencedAround(lead, p, rest);
        UnfencedHasNoMore(lead);
        FencedObject(Unfenced(lead), o, rest);
        TrimRightKeepsFence(suffix);
        NothingExtracted();
      } else {
        ExtractorInvertsPrinter(lead, o, rest);
      }
    }
  }

  /** An object is recovered from a completion, whatever was thought before it, exactly when its own text
      has no closing think tag and, if the answer opens a code fence, a fence follows the object or none
      is left around or inside it. With a closing tag after the object, only what follows that tag counts. */
  lemma AnswerIsRecovered(prefix: Text, o: Json, suffix: Text)
    requires o.Obj? && JsonOk(o)
    requires Free(suffix, THINK_END) ==> OPEN !in AfterThink(prefix)
    ensures Candidate(prefix + Print(o) + suffix) == Ok(Print(o))
       <==> if Free(suffix, THINK_END) then
              && Free(Print(o), THINK_END)
              && (HasAt(Lead(prefix), FENCE, 0)
                  ==> !Free(suffix, FENCE) || (Free(Print(o), FENCE) && Free(Unfenced(Lead(prefix)), FENCE)))
            else Candidate(AfterThink(suffix)) == Ok(Print(o))
  {
    hide HasAt, Candidate, Print, AfterThink;
    if Free(suffix, THINK_END) {
      LastAnswerIsRecovered(prefix, o, suffix);
    } else {
      OnlyAfterTag(prefix + Print(o), suffix);
    }
  }

  lemma NothingExtracted()
    ensures Extract([]) == Err(NoObject)
  {
  }
}
