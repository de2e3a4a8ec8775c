/**
 The JSON grammar as trees that record every choice a writer has: the
 whitespace at each of the places RFC 8259 section 2 allows it, how each
 character of a string is spelled (section 7), the parts of a number
 (section 6).  `Print` writes a tree out, `Meaning` is the value it denotes;
 the decoder inverts `Print`, whatever the choices were.
 */
module JsonGrammar {
  import opened Json
  import opened Sums

  datatype Piece =
    | Raw(c: nat)
    | Short(letter: nat)
    | Unicode(h0: nat, h1: nat, h2: nat, h3: nat)

  datatype Exponent = NoExp | Exp(letter: nat, sign: Text, digits: Text)

  datatype Num = Num(negative: bool, whole: Text, frac: Text, exp: Exponent)

  datatype Doc =
    | DWord(v: Value)
    | DNum(n: Num)
    | DStr(pieces: seq<Piece>)
    | DEmptyArr(ws: Text)
    | DArr(before: Text, items: Items)
    | DEmptyObj(ws: Text)
    | DObj(before: Text, members: Members)

  datatype Items =
    | LastItem(d: Doc, after: Text)
    | MoreItems(d: Doc, after: Text, before: Text, rest: Items)

  datatype Members =
    | LastMember(key: seq<Piece>, w1: Text, w2: Text, d: Doc, after: Text)
    | MoreMembers(key: seq<Piece>, w1: Text, w2: Text, d: Doc, after: Text, before: Text, rest: Members)

  predicate AllWs(t: Text) { forall k :: 0 <= k < |t| ==> IsWs(t[k]) }

  predicate AllDigits(t: Text) { forall k :: 0 <= k < |t| ==> IsDigit(t[k]) }

  // ----- Which trees are grammatical -----

  predicate ValidPiece(p: Piece) {
    match p
    case Raw(c) => c >= SPACE && c != QUOTE && c != BACKSLASH
    case Short(l) => IsShort(l)
    case Unicode(a, b, c, d) => IsHex(a) && IsHex(b) && IsHex(c) && IsHex(d)
  }

  predicate ValidString(ps: seq<Piece>) { forall k :: 0 <= k < |ps| ==> ValidPiece(ps[k]) }

  predicate ValidExp(e: Exponent) {
    e.Exp? ==> IsExp(e.letter) && |e.sign| <= 1 && (|e.sign| == 1 ==> IsSign(e.sign[0])) && |e.digits| > 0 && AllDigits(e.digits)
  }

  predicate ValidNum(n: Num) {
    && |n.whole| > 0 && AllDigits(n.whole) && (n.whole[0] == ZERO ==> |n.whole| == 1)
    && AllDigits(n.frac) && ValidExp(n.exp)
  }

  predicate ValidDoc(d: Doc) {
    match d
    case DWord(v) => v.Null? || v.Bool? || (v.NonFinite? && v.name in {NAN_WORD, INFINITY_WORD, MINUS_INFINITY_WORD})
    case DNum(n) => ValidNum(n)
    case DStr(ps) => ValidString(ps)
    case DEmptyArr(ws) => AllWs(ws)
    case DArr(w, items) => AllWs(w) && ValidItems(items)
    case DEmptyObj(ws) => AllWs(ws)
    case DObj(w, members) => AllWs(w) && ValidMembers(members)
  }

  predicate ValidItems(t: Items) {
    && ValidDoc(t.d) && AllWs(t.after)
    && (t.MoreItems? ==> AllWs(t.before) && ValidItems(t.rest))
  }

  predicate ValidMembers(t: Members) {
    && ValidString(t.key) && AllWs(t.w1) && AllWs(t.w2) && ValidDoc(t.d) && AllWs(t.after)
    && (t.MoreMembers? ==> AllWs(t.before) && ValidMembers(t.rest))
  }

  // ----- Writing a tree out -----

  function PieceText(p: Piece): (t: Text)
    ensures |t| > 0
  {
    match p
    case Raw(c) => [c]
    case Short(l) => [BACKSLASH, l]
    case Unicode(a, b, c, d) => [BACKSLASH, LOWER_U, a, b, c, d]
  }

  /** A string literal after its opening quote. */
  function StringText(ps: seq<Piece>): (t: Text)
    ensures |t| > 0
  {
    if ps == [] then [QUOTE] else PieceText(ps[0]) + StringText(ps[1..])
  }

  function ExpText(e: Exponent): Text {
    if e.NoExp? then [] else [e.letter] + (e.sign + e.digits)
  }

  function FracText(f: Text): Text {
    if f == [] then [] else [DOT] + f
  }

  function SignText(negative: bool): Text {
    if negative then [MINUS] else []
  }

  function NumText(n: Num): Text {
    SignText(n.negative) + (n.whole + (FracText(n.frac) + ExpText(n.exp)))
  }

  function WordText(v: Value): Text {
    match v
    case Bool(b) => if b then TRUE_WORD else FALSE_WORD
    case NonFinite(name) => name
    case _ => NULL_WORD
  }

  function Print(d: Doc): Text {
    match d
    case DWord(v) => WordText(v)
    case DNum(n) => NumText(n)
    case DStr(ps) => [QUOTE] + StringText(ps)
    case DEmptyArr(ws) => [OPEN_BRACKET] + (ws + [CLOSE_BRACKET])
    case DArr(w, items) => [OPEN_BRACKET] + (w + PrintItems(items))
    case DEmptyObj(ws) => [OPEN_BRACE] + (ws + [CLOSE_BRACE])
    case DObj(w, members) => [OPEN_BRACE] + (w + PrintMembers(members))
  }

  function PrintItems(t: Items): Text {
    match t
    case LastItem(d, after) => Print(d) + (after + [CLOSE_BRACKET])
    case MoreItems(d, after, before, rest) => Print(d) + (after + ([COMMA] + (before + PrintItems(rest))))
  }

  function PairText(key: seq<Piece>, w1: Text, w2: Text, value: Text): Text {
    [QUOTE] + (StringText(key) + (w1 + ([COLON] + (w2 + value))))
  }

  function PrintMembers(t: Members): Text {
    match t
    case LastMember(key, w1, w2, d, after) => PairText(key, w1, w2, Print(d)) + (after + [CLOSE_BRACE])
    case MoreMembers(key, w1, w2, d, after, before, rest) =>
      PairText(key, w1, w2, Print(d)) + (after + ([COMMA] + (before + PrintMembers(rest))))
  }

  // ----- What a tree denotes -----

  function Unit(p: Piece): nat
    requires ValidPiece(p)
  {
    match p
    case Raw(c) => c
    case Short(l) => ShortValue(l)
    case Unicode(a, b, c, d) => 0x1000 * HexValue(a) + 0x100 * HexValue(b) + 0x10 * HexValue(c) + HexValue(d)
  }

  /** A `\u` escape of a high surrogate and one of a low surrogate right after it denote one character. */
  predicate PairsUp(ps: seq<Piece>)
    requires ValidString(ps)
  {
    |ps| >= 2 && ps[0].Unicode? && ps[1].Unicode? && IsHigh(Unit(ps[0])) && IsLow(Unit(ps[1]))
  }

  function StringMeaning(ps: seq<Piece>): Text
    requires ValidString(ps)
  {
    if ps == [] then []
    else if PairsUp(ps) then [Join(Unit(ps[0]), Unit(ps[1]))] + StringMeaning(ps[2..])
    else [Unit(ps[0])] + StringMeaning(ps[1..])
  }

  function Meaning(d: Doc): Value
    requires ValidDoc(d)
  {
    match d
    case DWord(v) => v
    case DNum(n) => Number(NumText(n))
    case DStr(ps) => Str(StringMeaning(ps))
    case DEmptyArr(_) => Arr([])
    case DArr(_, items) => Arr(ItemValues(items))
    case DEmptyObj(_) => Obj(map[])
    case DObj(_, members) => Obj(Dict(MemberPairs(members)))
  }

  function ItemValues(t: Items): seq<Value>
    requires ValidItems(t)
  {
    [Meaning(t.d)] + if t.LastItem? then [] else ItemValues(t.rest)
  }

  function MemberPairs(t: Members): seq<(Text, Value)>
    requires ValidMembers(t)
  {
    [(StringMeaning(t.key), Meaning(t.d))] + if t.LastMember? then [] else MemberPairs(t.rest)
  }

  // ----- The decoder reads every grammatical text back -----

  /** The text after a number does not carry the number on. */
  predicate Ends(u: Text, e: nat) {
    e <= |u| && (e < |u| ==> !IsDigit(u[e]) && u[e] != DOT && !IsExp(u[e]))
  }

  lemma AtSplit(u: Text, i: nat, p: Text, q: Text)
    requires At(u, i, p + q)
    ensures At(u, i, p) && At(u, i + |p|, q)
  {
    assert forall k :: 0 <= k < |p| ==> p[k] == (p + q)[k];
    assert forall k :: 0 <= k < |q| ==> q[k] == (p + q)[|p| + k];
  }

  lemma AtHead(u: Text, i: nat, c: nat, q: Text)
    requires At(u, i, [c] + q)
    ensures i < |u| && u[i] == c && At(u, i + 1, q)
  {
    AtSplit(u, i, [c], q);
    assert [c][0] == c;
  }

  lemma DigitsSkipped(u: Text, i: nat, t: Text)
    requires At(u, i, t) && AllDigits(t) && (i + |t| < |u| ==> !IsDigit(u[i + |t|]))
    ensures SkipDigits(u, i) == i + |t|
  {
    forall k | i <= k < i + |t| ensures IsDigit(u[k]) { assert u[i + (k - i)] == t[k - i]; }
  }

  lemma ExpRead(u: Text, k: nat, e: Exponent)
    requires At(u, k, ExpText(e)) && ValidExp(e) && Ends(u, k + |ExpText(e)|)
    ensures ExpEnd(u, k) == k + |ExpText(e)|
  {
    if e.Exp? {
      AtHead(u, k, e.letter, e.sign + e.digits);
      AtSplit(u, k + 1, e.sign, e.digits);
      if |e.sign| == 1 { assert u[k + 1 + 0] == e.sign[0]; }
      var p := k + 1 + |e.sign|;
      assert u[p + 0] == e.digits[0];
      DigitsSkipped(u, p, e.digits);
    }
  }

  lemma FracRead(u: Text, k: nat, f: Text, e: Exponent)
    requires At(u, k, FracText(f) + ExpText(e)) && AllDigits(f) && ValidExp(e)
    requires Ends(u, k + |FracText(f) + ExpText(e)|)
    ensures FracEnd(u, k) == k + |FracText(f)| && At(u, k + |FracText(f)|, ExpText(e))
  {
    AtSplit(u, k, FracText(f), ExpText(e));
    var m := k + |FracText(f)|;
    if e.Exp? { assert u[m + 0] == ExpText(e)[0]; }
    if f != [] {
      AtHead(u, k, DOT, f);
      assert u[k + 1 + 0] == f[0];
      DigitsSkipped(u, k + 1, f);
    }
  }

  lemma IntRead(u: Text, i: nat, negative: bool, whole: Text)
    requires At(u, i, SignText(negative)) && At(u, i + |SignText(negative)|, whole)
    requires |whole| > 0 && AllDigits(whole) && (whole[0] == ZERO ==> |whole| == 1)
    requires var k := i + |SignText(negative)| + |whole|; k < |u| ==> !IsDigit(u[k])
    ensures i <= |u| && IntEnd(u, i) == Ok((), i + |SignText(negative)| + |whole|)
  {
    var j := i + |SignText(negative)|;
    if negative { assert u[i + 0] == SignText(true)[0]; }
    assert u[j + 0] == whole[0];
    DigitsSkipped(u, j, whole);
  }

  lemma NumberRead(u: Text, i: nat, n: Num)
    requires ValidNum(n) && At(u, i, NumText(n)) && Ends(u, i + |NumText(n)|)
    ensures IntEnd(u, i).Ok?
    ensures ParseNumber(u, i) == Ok(Number(NumText(n)), i + |NumText(n)|)
  {
    NumberEnd(u, i, n);
    assert u[i..i + |NumText(n)|] == NumText(n);
  }

  lemma NumberEnd(u: Text, i: nat, n: Num)
    requires ValidNum(n) && At(u, i, NumText(n)) && Ends(u, i + |NumText(n)|)
    ensures IntEnd(u, i).Ok? && ParseNumber(u, i).end == i + |NumText(n)|
  {
    hide At, ParseNumber, Ends, FracText, ExpText, SignText, AllDigits, ValidExp;
    var sign, tail := SignText(n.negative), FracText(n.frac) + ExpText(n.exp);
    AtSplit(u, i, sign, n.whole + tail);
    var j := i + |sign|;
    AtSplit(u, j, n.whole, tail);
    var k := j + |n.whole|;
    TailRead(u, k, n.frac, n.exp);
    IntRead(u, i, n.negative, n.whole);
    NumberParts(u, i, k, k + |tail|);
    assert |NumText(n)| == |sign| + |n.whole| + |tail|;
  }

  lemma NumberParts(u: Text, i: nat, k: nat, e: nat)
    requires i <= |u| && IntEnd(u, i) == Ok((), k) && ExpEnd(u, FracEnd(u, k)) == e
    ensures ParseNumber(u, i).Ok? && ParseNumber(u, i).end == e
  {
  }

  lemma TailRead(u: Text, k: nat, f: Text, e: Exponent)
    requires At(u, k, FracText(f) + ExpText(e)) && AllDigits(f) && ValidExp(e)
    requires Ends(u, k + |FracText(f) + ExpText(e)|)
    ensures ExpEnd(u, FracEnd(u, k)) == k + |FracText(f) + ExpText(e)|
    ensures k < |u| ==> !IsDigit(u[k])
  {
    TailStart(u, k, f, e);
    hide At, FracText, ExpText, AllDigits, ValidExp, Ends, ExpEnd, FracEnd;
    FracRead(u, k, f, e);
    ExpRead(u, k + |FracText(f)|, e);
  }

  /** A digit does not follow the integer part. */
  lemma TailStart(u: Text, k: nat, f: Text, e: Exponent)
    requires At(u, k, FracText(f) + ExpText(e)) && ValidExp(e) && Ends(u, k + |FracText(f) + ExpText(e)|)
    ensures k < |u| ==> !IsDigit(u[k])
  {
    hide AllDigits;
    var tail := FracText(f) + ExpText(e);
    if k < |u| && tail != [] { assert u[k + 0] == tail[0]; }
  }

  lemma {:induction false} StringRead(u: Text, i: nat, ps: seq<Piece>)
    requires ValidString(ps) && At(u, i, StringText(ps))
    ensures i <= |u| && ParseString(u, i) == Ok(StringMeaning(ps), i + |StringText(ps)|)
    decreases |ps|
  {
    hide At, HexAt, Hex4, Join;
    if ps == [] {
      StringEnd(u, i);
    } else if PairsUp(ps) {
      SurrogatesRead(u, i, ps);
      StringRead(u, i + 12, ps[2..]);
    } else {
      var p := ps[0];
      AtSplit(u, i, PieceText(p), StringText(ps[1..]));
      PieceRead(u, i, p);
      var j := i + |PieceText(p)|;
      if p.Unicode? { NoPair(u, j, ps); }
      StringRead(u, j, ps[1..]);
    }
  }

  lemma StringEnd(u: Text, i: nat)
    requires At(u, i, StringText([]))
    ensures i < |u| && u[i] == QUOTE
  {
    assert u[i + 0] == StringText([])[0];
  }

  lemma SurrogatesRead(u: Text, i: nat, ps: seq<Piece>)
    requires ValidString(ps) && At(u, i, StringText(ps)) && PairsUp(ps)
    ensures At(u, i + 12, StringText(ps[2..])) && |StringText(ps)| == 12 + |StringText(ps[2..])|
    ensures u[i] == BACKSLASH && u[i + 1] == LOWER_U && HexAt(u, i + 2) && Hex4(u, i + 2) == Unit(ps[0])
    ensures LowEscapeAt(u, i + 6) && Hex4(u, i + 8) == Unit(ps[1])
  {
    AtSplit(u, i, PieceText(ps[0]), StringText(ps[1..]));
    PieceRead(u, i, ps[0]);
    assert ps[1..][1..] == ps[2..];
    AtSplit(u, i + 6, PieceText(ps[1]), StringText(ps[2..]));
    PieceRead(u, i + 6, ps[1]);
  }

  lemma PieceRead(u: Text, i: nat, p: Piece)
    requires ValidPiece(p) && At(u, i, PieceText(p))
    ensures p.Raw? ==> u[i] == p.c
    ensures p.Short? ==> u[i] == BACKSLASH && u[i + 1] == p.letter
    ensures p.Unicode? ==> u[i] == BACKSLASH && u[i + 1] == LOWER_U && HexAt(u, i + 2) && Hex4(u, i + 2) == Unit(p)
  {
    var t := PieceText(p);
    assert u[i + 0] == t[0];
    if !p.Raw? { assert u[i + 1] == t[1]; }
    if p.Unicode? {
      assert u[i + 2] == t[2] && u[i + 3] == t[3] && u[i + 4] == t[4] && u[i + 5] == t[5];
    }
  }

  lemma NoPair(u: Text, j: nat, ps: seq<Piece>)
    requires ValidString(ps) && ps != [] && ps[0].Unicode? && !PairsUp(ps)
    requires At(u, j, StringText(ps[1..]))
    ensures IsHigh(Unit(ps[0])) ==> !LowEscapeAt(u, j)
  {
    if |ps| == 1 {
      assert u[j + 0] == StringText(ps[1..])[0];
    } else {
      AtSplit(u, j, PieceText(ps[1]), StringText(ps[1..][1..]));
      PieceRead(u, j, ps[1]);
    }
  }

  lemma WordRead(u: Text, i: nat, v: Value)
    requires ValidDoc(DWord(v)) && At(u, i, WordText(v))
    ensures i < |u| && ParseValue(u, i) == Ok(v, i + |WordText(v)|)
  {
    assert u[i + 0] == WordText(v)[0];
  }

  // ----- The same text as positions rather than concatenations -----

  predicate CharAt(u: Text, i: nat, c: nat) {
    i < |u| && u[i] == c
  }

  function Len(d: Doc): nat {
    match d
    case DWord(v) => |WordText(v)|
    case DNum(n) => |NumText(n)|
    case DStr(ps) => 1 + |StringText(ps)|
    case DEmptyArr(ws) => |ws| + 2
    case DArr(w, items) => 1 + |w| + LenItems(items)
    case DEmptyObj(ws) => |ws| + 2
    case DObj(w, members) => 1 + |w| + LenMembers(members)
  }

  function LenItems(t: Items): nat {
    Len(t.d) + |t.after| + 1 + if t.LastItem? then 0 else |t.before| + LenItems(t.rest)
  }

  function LenPair(t: Members): nat
    decreases t, 0
  {
    1 + |StringText(t.key)| + |t.w1| + 1 + |t.w2| + Len(t.d)
  }

  function LenMembers(t: Members): nat
    decreases t, 1
  {
    LenPair(t) + |t.after| + 1 + if t.LastMember? then 0 else |t.before| + LenMembers(t.rest)
  }

  predicate Spells(u: Text, i: nat, d: Doc)
    decreases d, 0
  {
    match d
    case DWord(v) => At(u, i, WordText(v))
    case DNum(n) => At(u, i, NumText(n))
    case DStr(ps) => CharAt(u, i, QUOTE) && At(u, i + 1, StringText(ps))
    case DEmptyArr(ws) => CharAt(u, i, OPEN_BRACKET) && At(u, i + 1, ws) && CharAt(u, i + 1 + |ws|, CLOSE_BRACKET)
    case DArr(w, items) => CharAt(u, i, OPEN_BRACKET) && At(u, i + 1, w) && SpellsItems(u, i + 1 + |w|, items)
    case DEmptyObj(ws) => CharAt(u, i, OPEN_BRACE) && At(u, i + 1, ws) && CharAt(u, i + 1 + |ws|, CLOSE_BRACE)
    case DObj(w, members) => CharAt(u, i, OPEN_BRACE) && At(u, i + 1, w) && SpellsMembers(u, i + 1 + |w|, members)
  }

  predicate SpellsItems(u: Text, i: nat, t: Items)
    decreases t, 0
  {
    var k := i + Len(t.d) + |t.after|;
    && Spells(u, i, t.d) && At(u, i + Len(t.d), t.after)
    && if t.LastItem? then CharAt(u, k, CLOSE_BRACKET)
       else CharAt(u, k, COMMA) && At(u, k + 1, t.before) && SpellsItems(u, k + 1 + |t.before|, t.rest)
  }

  predicate SpellsPair(u: Text, i: nat, t: Members)
    decreases t, 0
  {
    var j := i + 1 + |StringText(t.key)|;
    && CharAt(u, i, QUOTE) && At(u, i + 1, StringText(t.key)) && At(u, j, t.w1)
    && CharAt(u, j + |t.w1|, COLON) && At(u, j + |t.w1| + 1, t.w2) && Spells(u, j + |t.w1| + 1 + |t.w2|, t.d)
  }

  predicate SpellsMembers(u: Text, i: nat, t: Members)
    decreases t, 1
  {
    var k := i + LenPair(t) + |t.after|;
    && SpellsPair(u, i, t) && At(u, i + LenPair(t), t.after)
    && if t.LastMember? then CharAt(u, k, CLOSE_BRACE)
       else CharAt(u, k, COMMA) && At(u, k + 1, t.before) && SpellsMembers(u, k + 1 + |t.before|, t.rest)
  }

  lemma {:induction false} PrintSpells(u: Text, i: nat, d: Doc)
    requires At(u, i, Print(d))
    ensures Spells(u, i, d) && |Print(d)| == Len(d)
    decreases d
  {
    hide At, WordText, NumText, StringText;
    match d
    case DWord(v) =>
    case DNum(n) =>
    case DStr(ps) => AtHead(u, i, QUOTE, StringText(ps));
    case DEmptyArr(ws) => EnclosedAt(u, i, OPEN_BRACKET, ws, [CLOSE_BRACKET]);
    case DEmptyObj(ws) => EnclosedAt(u, i, OPEN_BRACE, ws, [CLOSE_BRACE]);
    case DArr(w, items) =>
      EnclosedAt(u, i, OPEN_BRACKET, w, PrintItems(items));
      PrintSpellsItems(u, i + 1 + |w|, items);
    case DObj(w, members) =>
      EnclosedAt(u, i, OPEN_BRACE, w, PrintMembers(members));
      PrintSpellsMembers(u, i + 1 + |w|, members);
  }

  lemma EnclosedAt(u: Text, i: nat, c: nat, w: Text, q: Text)
    requires At(u, i, [c] + (w + q))
    ensures CharAt(u, i, c) && At(u, i + 1, w) && At(u, i + 1 + |w|, q)
    ensures |q| > 0 ==> CharAt(u, i + 1 + |w|, q[0])
  {
    AtHead(u, i, c, w + q);
    AtSplit(u, i + 1, w, q);
    if |q| > 0 { assert u[i + 1 + |w| + 0] == q[0]; }
  }

  lemma {:induction false} PrintSpellsItems(u: Text, i: nat, t: Items)
    requires At(u, i, PrintItems(t))
    ensures SpellsItems(u, i, t) && |PrintItems(t)| == LenItems(t)
    decreases t
  {
    hide At, Print, Len, Spells;
    var f := i + |Print(t.d)|;
    match t
    case LastItem(d, after) =>
      AtSplit(u, i, Print(d), after + [CLOSE_BRACKET]);
      AtSplit(u, f, after, [CLOSE_BRACKET]);
      AtHead(u, f + |after|, CLOSE_BRACKET, []);
      PrintSpells(u, i, d);
    case MoreItems(d, after, before, rest) =>
      AtSplit(u, i, Print(d), after + ([COMMA] + (before + PrintItems(rest))));
      AtSplit(u, f, after, [COMMA] + (before + PrintItems(rest)));
      EnclosedAt(u, f + |after|, COMMA, before, PrintItems(rest));
      PrintSpells(u, i, d);
      PrintSpellsItems(u, f + |after| + 1 + |before|, rest);
  }

  lemma {:induction false} PrintSpellsPair(u: Text, i: nat, t: Members)
    requires At(u, i, PairText(t.key, t.w1, t.w2, Print(t.d)))
    ensures SpellsPair(u, i, t) && |PairText(t.key, t.w1, t.w2, Print(t.d))| == LenPair(t)
    decreases t, 0
  {
    hide At, Print, Len, Spells, StringText;
    var value := [COLON] + (t.w2 + Print(t.d));
    AtHead(u, i, QUOTE, StringText(t.key) + (t.w1 + value));
    AtSplit(u, i + 1, StringText(t.key), t.w1 + value);
    var j := i + 1 + |StringText(t.key)|;
    AtSplit(u, j, t.w1, value);
    EnclosedAt(u, j + |t.w1|, COLON, t.w2, Print(t.d));
    PrintSpells(u, j + |t.w1| + 1 + |t.w2|, t.d);
  }

  lemma {:induction false} PrintSpellsMembers(u: Text, i: nat, t: Members)
    requires At(u, i, PrintMembers(t))
    ensures SpellsMembers(u, i, t) && |PrintMembers(t)| == LenMembers(t)
    decreases t, 1
  {
    hide At, PairText, LenPair, SpellsPair;
    var pair := PairText(t.key, t.w1, t.w2, Print(t.d));
    var f := i + |pair|;
    match t
    case LastMember(key, w1, w2, d, after) =>
      AtSplit(u, i, pair, after + [CLOSE_BRACE]);
      AtSplit(u, f, after, [CLOSE_BRACE]);
      AtHead(u, f + |after|, CLOSE_BRACE, []);
      PrintSpellsPair(u, i, t);
    case MoreMembers(key, w1, w2, d, after, before, rest) =>
      AtSplit(u, i, pair, after + ([COMMA] + (before + PrintMembers(rest))));
      AtSplit(u, f, after, [COMMA] + (before + PrintMembers(rest)));
      EnclosedAt(u, f + |after|, COMMA, before, PrintMembers(rest));
      PrintSpellsPair(u, i, t);
      PrintSpellsMembers(u, f + |after| + 1 + |before|, rest);
  }

  // ----- Reading values back -----

  /** The first character of a value is neither whitespace nor a closing bracket. */
  lemma Head(u: Text, i: nat, d: Doc)
    requires ValidDoc(d) && Spells(u, i, d)
    ensures i < |u| && !IsWs(u[i]) && u[i] != CLOSE_BRACKET
  {
    match d
    case DWord(v) => assert u[i + 0] == WordText(v)[0];
    case DNum(n) =>
      assert |NumText(n)| > 0 && u[i + 0] == NumText(n)[0];
      assert !n.negative ==> NumText(n)[0] == n.whole[0];
    case _ =>
  }

  lemma WsRead(u: Text, i: nat, w: Text)
    requires At(u, i, w) && AllWs(w) && i + |w| < |u| && !IsWs(u[i + |w|])
    ensures i <= |u| && SkipWs(u, i) == i + |w|
    ensures |w| > 0 ==> IsWs(u[i])
  {
    forall k | i <= k < i + |w| ensures IsWs(u[k]) { assert u[i + (k - i)] == w[k - i]; }
  }

  /** Decoding inverts printing, for every grammatical tree, wherever in a text it stands. */
  lemma DocRead(u: Text, i: nat, d: Doc)
    requires ValidDoc(d) && At(u, i, Print(d))
    requires d.DNum? ==> Ends(u, i + |Print(d)|)
    ensures i <= |u| && ParseValue(u, i) == Ok(Meaning(d), i + |Print(d)|)
  {
    PrintSpells(u, i, d);
    ValueRead(u, i, d);
  }

  lemma {:induction false} ValueRead(u: Text, i: nat, d: Doc)
    requires ValidDoc(d) && Spells(u, i, d)
    requires d.DNum? ==> Ends(u, i + Len(d))
    ensures i <= |u| && ParseValue(u, i) == Ok(Meaning(d), i + Len(d))
    decreases d, 1
  {
    hide ParseObject, ParseArray, NumText, StringText, WordText, At, ParseNumber, ParseString, StringMeaning, Dict, ItemValues, MemberPairs;
    hide ValidItems, ValidMembers, SpellsItems, SpellsMembers, ValidNum, ValidString, AllWs, Ends;
    match d
    case DWord(v) => WordRead(u, i, v);
    case DNum(n) =>
      NumberRead(u, i, n);
      NumberStart(u, i);
    case DStr(ps) => StringRead(u, i + 1, ps);
    case DEmptyArr(ws) => EmptyRead(u, i + 1, ws);
    case DArr(w, items) => ArrayRead(u, i + 1, w, items);
    case DEmptyObj(ws) => EmptyRead(u, i + 1, ws);
    case DObj(w, members) => ObjectRead(u, i + 1, w, members);
  }

  lemma EmptyRead(u: Text, i: nat, ws: Text)
    requires At(u, i, ws) && AllWs(ws)
    ensures CharAt(u, i + |ws|, CLOSE_BRACKET) ==> ParseArray(u, i) == Ok(Arr([]), i + |ws| + 1)
    ensures CharAt(u, i + |ws|, CLOSE_BRACE) ==> ParseObject(u, i) == Ok(Obj(map[]), i + |ws| + 1)
  {
    hide ParseItems, ParseMembers;
    if i + |ws| < |u| && !IsWs(u[i + |ws|]) { WsRead(u, i, ws); }
  }

  lemma {:induction false} ArrayRead(u: Text, i: nat, w: Text, items: Items)
    requires AllWs(w) && ValidItems(items) && At(u, i, w) && SpellsItems(u, i + |w|, items)
    ensures i <= |u| && ParseArray(u, i) == Ok(Arr(ItemValues(items)), i + |w| + LenItems(items))
    decreases items, 3
  {
    hide ParseValue, ParseItems, ParseMembers, At, AllWs, Dict, ItemValues, MemberPairs, Spells;
    Head(u, i + |w|, items.d);
    WsRead(u, i, w);
    ItemsRead(u, i + |w|, items, []);
    assert [] + ItemValues(items) == ItemValues(items);
  }

  lemma {:induction false} ObjectRead(u: Text, i: nat, w: Text, members: Members)
    requires AllWs(w) && ValidMembers(members) && At(u, i, w) && SpellsMembers(u, i + |w|, members)
    ensures i <= |u| && ParseObject(u, i) == Ok(Obj(Dict(MemberPairs(members))), i + |w| + LenMembers(members))
    decreases members, 4
  {
    hide ParseValue, ParseItems, ParseMembers, At, AllWs, Dict, ItemValues, MemberPairs, Spells;
    WsRead(u, i, w);
    MembersRead(u, i + |w|, members, []);
    assert [] + MemberPairs(members) == MemberPairs(members);
  }

  lemma CommaRead(u: Text, f: nat, after: Text, before: Text, closer: nat)
    requires At(u, f, after) && AllWs(after) && CharAt(u, f + |after|, COMMA)
    requires var k := f + |after| + 1; At(u, k, before) && AllWs(before) && k + |before| < |u| && !IsWs(u[k + |before|])
    ensures Ends(u, f) && After(u, f, closer) == Ok(true, f + |after| + 1 + |before|)
  {
    WsRead(u, f, after);
    WsRead(u, f + |after| + 1, before);
  }

  lemma CloserRead(u: Text, f: nat, after: Text, closer: nat)
    requires At(u, f, after) && AllWs(after) && CharAt(u, f + |after|, closer)
    requires closer == CLOSE_BRACE || closer == CLOSE_BRACKET
    ensures Ends(u, f) && After(u, f, closer) == Ok(false, f + |after| + 1)
  {
    WsRead(u, f, after);
  }

  // One unfolding of each list parser.

  lemma ItemStep(u: Text, i: nat, acc: seq<Value>, v: Value, f: nat, next: Parse<bool>)
    requires i <= |u| && ParseValue(u, i) == Ok(v, f) && After(u, f, CLOSE_BRACKET) == next && next.Ok?
    ensures next.end <= |u|
    ensures ParseItems(u, i, acc) == if next.value then ParseItems(u, next.end, acc + [v]) else Ok(Arr(acc + [v]), next.end)
  {
  }

  lemma PairStep(u: Text, i: nat, key: Text, e: nat, j: nat, v: nat, value: Value, f: nat)
    requires CharAt(u, i, QUOTE) && ParseString(u, i + 1) == Ok(key, e)
    requires SkipWs(u, e) == j && CharAt(u, j, COLON) && SkipWs(u, j + 1) == v && ParseValue(u, v) == Ok(value, f)
    ensures ParsePair(u, i) == Ok((key, value), f)
  {
    hide ParseString, ParseValue, SkipWs;
  }

  lemma MemberStep(u: Text, i: nat, acc: seq<(Text, Value)>, pair: (Text, Value), f: nat, next: Parse<bool>)
    requires i <= |u| && ParsePair(u, i) == Ok(pair, f) && After(u, f, CLOSE_BRACE) == next && next.Ok?
    ensures next.end <= |u|
    ensures ParseMembers(u, i, acc)
         == if next.value then ParseMembers(u, next.end, acc + [pair]) else Ok(Obj(Dict(acc + [pair])), next.end)
  {
  }

  lemma {:induction false} ItemsRead(u: Text, i: nat, t: Items, acc: seq<Value>)
    requires ValidItems(t) && SpellsItems(u, i, t)
    ensures i <= |u| && ParseItems(u, i, acc) == Ok(Arr(acc + ItemValues(t)), i + LenItems(t))
    decreases t, 2
  {
    hide ParseValue, ParseItems, After, At, Meaning, Spells, ValidDoc, Len, AllWs, SpellsItems, LenItems;
    var f := i + Len(t.d);
    var next := ItemsNext(u, i, t);
    ValueRead(u, i, t.d);
    ItemStep(u, i, acc, Meaning(t.d), f, next);
    if t.LastItem? {
      assert ItemValues(t) == [Meaning(t.d)];
    } else {
      ItemsRead(u, next.end, t.rest, acc + [Meaning(t.d)]);
      Assoc(acc, [Meaning(t.d)], ItemValues(t.rest));
    }
  }

  lemma ItemsNext(u: Text, i: nat, t: Items) returns (next: Parse<bool>)
    requires ValidItems(t) && SpellsItems(u, i, t)
    ensures var f := i + Len(t.d); Spells(u, i, t.d) && Ends(u, f) && After(u, f, CLOSE_BRACKET) == next
    ensures next.Ok? && next.value == t.MoreItems?
    ensures if next.value then SpellsItems(u, next.end, t.rest) && i + LenItems(t) == next.end + LenItems(t.rest)
            else i + LenItems(t) == next.end
  {
    hide At, Spells, After, Len;
    var f := i + Len(t.d);
    if t.LastItem? {
      CloserRead(u, f, t.after, CLOSE_BRACKET);
    } else {
      Head(u, f + |t.after| + 1 + |t.before|, t.rest.d);
      CommaRead(u, f, t.after, t.before, CLOSE_BRACKET);
    }
    next := After(u, f, CLOSE_BRACKET);
  }

  /** Where the parts of a pair stand. */
  lemma PairPlaces(u: Text, i: nat, t: Members) returns (e: nat, j: nat, v: nat)
    requires ValidMembers(t) && SpellsPair(u, i, t)
    ensures e == i + 1 + |StringText(t.key)| && j == e + |t.w1| && v == j + 1 + |t.w2| && i + LenPair(t) == v + Len(t.d)
    ensures CharAt(u, i, QUOTE) && ValidString(t.key) && At(u, i + 1, StringText(t.key))
    ensures At(u, e, t.w1) && AllWs(t.w1) && CharAt(u, j, COLON)
    ensures At(u, j + 1, t.w2) && AllWs(t.w2) && ValidDoc(t.d) && Spells(u, v, t.d)
  {
    hide At, AllWs, StringText, Spells, ValidString, Len, ValidDoc;
    e := i + 1 + |StringText(t.key)|;
    j := e + |t.w1|;
    v := j + 1 + |t.w2|;
  }

  lemma {:induction false} PairRead(u: Text, i: nat, t: Members)
    requires ValidMembers(t) && SpellsPair(u, i, t) && Ends(u, i + LenPair(t))
    ensures ParsePair(u, i) == Ok((StringMeaning(t.key), Meaning(t.d)), i + LenPair(t))
    decreases t, 2
  {
    hide ParseValue, ParsePair, ParseString, StringMeaning, StringText, Meaning, At, AllWs, Spells, SpellsPair, LenPair, Len, SkipWs;
    hide ValidMembers, ValidDoc, ValidString;
    ValidPair(t);
    var e, j, v := PairPlaces(u, i, t);
    StringRead(u, i + 1, t.key);
    Head(u, v, t.d);
    WsColon();
    WsRead(u, e, t.w1);
    WsRead(u, j + 1, t.w2);
    ValueRead(u, v, t.d);
    PairStep(u, i, StringMeaning(t.key), e, j, v, Meaning(t.d), v + Len(t.d));
  }

  lemma ValidPair(t: Members)
    requires ValidMembers(t)
    ensures ValidString(t.key) && ValidDoc(t.d)
  {
  }

  lemma WsColon()
    ensures !IsWs(COLON) && !IsWs(COMMA) && !IsWs(CLOSE_BRACE) && !IsWs(CLOSE_BRACKET)
  {
  }

  /** Where the parts between two members stand. */
  lemma MemberPlaces(u: Text, i: nat, t: Members) returns (f: nat, k: nat)
    requires ValidMembers(t) && SpellsMembers(u, i, t)
    ensures f == i + LenPair(t) && k == f + |t.after| && SpellsPair(u, i, t) && At(u, f, t.after) && AllWs(t.after)
    ensures t.LastMember? ==> CharAt(u, k, CLOSE_BRACE) && i + LenMembers(t) == k + 1
    ensures t.MoreMembers? ==>
              (CharAt(u, k, COMMA) && At(u, k + 1, t.before) && AllWs(t.before)
               && SpellsMembers(u, k + 1 + |t.before|, t.rest) && SpellsPair(u, k + 1 + |t.before|, t.rest)
               && i + LenMembers(t) == k + 1 + |t.before| + LenMembers(t.rest))
  {
    hide At, AllWs, SpellsPair, LenPair;
    f := i + LenPair(t);
    k := f + |t.after|;
  }

  lemma PairHead(u: Text, i: nat, t: Members)
    requires SpellsPair(u, i, t)
    ensures CharAt(u, i, QUOTE) && !IsWs(u[i])
  {
    hide At, StringText, Spells;
  }

  lemma MembersNext(u: Text, i: nat, t: Members) returns (next: Parse<bool>)
    requires ValidMembers(t) && SpellsMembers(u, i, t)
    ensures var f := i + LenPair(t); SpellsPair(u, i, t) && Ends(u, f) && After(u, f, CLOSE_BRACE) == next
    ensures next.Ok? && next.value == t.MoreMembers?
    ensures if next.value then SpellsMembers(u, next.end, t.rest) && i + LenMembers(t) == next.end + LenMembers(t.rest)
            else i + LenMembers(t) == next.end
  {
    hide At, AllWs, SpellsMembers, SpellsPair, LenPair, LenMembers, After, Ends, ValidMembers;
    var f, k := MemberPlaces(u, i, t);
    WsColon();
    if t.LastMember? {
      CloserRead(u, f, t.after, CLOSE_BRACE);
    } else {
      PairHead(u, k + 1 + |t.before|, t.rest);
      CommaRead(u, f, t.after, t.before, CLOSE_BRACE);
    }
    next := After(u, f, CLOSE_BRACE);
  }

  lemma {:induction false} MembersRead(u: Text, i: nat, t: Members, acc: seq<(Text, Value)>)
    requires ValidMembers(t) && SpellsMembers(u, i, t)
    ensures i <= |u| && ParseMembers(u, i, acc) == Ok(Obj(Dict(acc + MemberPairs(t))), i + LenMembers(t))
    decreases t, 3
  {
    hide ParsePair, ParseMembers, After, At, Dict, StringMeaning, Meaning, SpellsPair;
    var pair := (StringMeaning(t.key), Meaning(t.d));
    var next := MembersNext(u, i, t);
    PairRead(u, i, t);
    MemberStep(u, i, acc, pair, i + LenPair(t), next);
    if t.LastMember? {
      assert MemberPairs(t) == [pair];
    } else {
      MembersRead(u, next.end, t.rest, acc + [pair]);
      Assoc(acc, [pair], MemberPairs(t.rest));
    }
  }
}
