/**
 The JSON value decoder that the stream reader leans on: what CPython's
 `JSONDecoder().raw_decode` accepts, one position at a time (RFC 8259,
 sections 2 to 7, plus the three non-finite number names Python admits).

 Text is a sequence of code points, because a Python string may hold lone
 surrogates that a Dafny `char` cannot.  Numbers keep their spelling.
 */
module Json {

  type Text = seq<nat>

  datatype Value =
    | Null
    | Bool(b: bool)
    | Number(lexeme: Text)
    | NonFinite(name: Text)
    | Str(text: Text)
    | Arr(items: seq<Value>)
    | Obj(members: map<Text, Value>)

  datatype Parse<+T> = Fail | Ok(value: T, end: nat)

  const TAB: nat := 9
  const LF: nat := 10
  const CR: nat := 13
  const SPACE: nat := 32
  const QUOTE: nat := 34
  const PLUS: nat := 43
  const COMMA: nat := 44
  const MINUS: nat := 45
  const DOT: nat := 46
  const SLASH: nat := 47
  const ZERO: nat := 48
  const NINE: nat := 57
  const COLON: nat := 58
  const UPPER_E: nat := 69
  const OPEN_BRACKET: nat := 91
  const BACKSLASH: nat := 92
  const UPPER_I: nat := 73
  const UPPER_N: nat := 78
  const CLOSE_BRACKET: nat := 93
  const LOWER_F: nat := 102
  const LOWER_N: nat := 110
  const LOWER_T: nat := 116
  const LOWER_E: nat := 101
  const LOWER_U: nat := 117
  const OPEN_BRACE: nat := 123
  const CLOSE_BRACE: nat := 125

  const NULL_WORD: Text := [110, 117, 108, 108]
  const TRUE_WORD: Text := [116, 114, 117, 101]
  const FALSE_WORD: Text := [102, 97, 108, 115, 101]
  const NAN_WORD: Text := [78, 97, 78]
  const INFINITY_WORD: Text := [73, 110, 102, 105, 110, 105, 116, 121]
  const MINUS_INFINITY_WORD: Text := [45, 73, 110, 102, 105, 110, 105, 116, 121]

  predicate IsWs(c: nat) {
    c == SPACE || c == TAB || c == LF || c == CR
  }

  predicate IsDigit(c: nat) {
    ZERO <= c <= NINE
  }

  predicate IsExp(c: nat) {
    c == LOWER_E || c == UPPER_E
  }

  predicate IsSign(c: nat) {
    c == PLUS || c == MINUS
  }

  /** `p` is spelled out in `s` from position `i`. */
  predicate At(s: Text, i: nat, p: Text) {
    i + |p| <= |s| && forall k :: 0 <= k < |p| ==> s[i + k] == p[k]
  }

  function SkipWs(s: Text, i: nat): (r: nat)
    requires i <= |s|
    ensures i <= r <= |s|
    ensures r < |s| ==> !IsWs(s[r])
    ensures forall k :: i <= k < r ==> IsWs(s[k])
    decreases |s| - i
  {
    if i < |s| && IsWs(s[i]) then SkipWs(s, i + 1) else i
  }

  function SkipDigits(s: Text, i: nat): (r: nat)
    requires i <= |s|
    ensures i <= r <= |s|
    ensures r < |s| ==> !IsDigit(s[r])
    ensures forall k :: i <= k < r ==> IsDigit(s[k])
    decreases |s| - i
  {
    if i < |s| && IsDigit(s[i]) then SkipDigits(s, i + 1) else i
  }

  /** The integer part: an optional sign, then `0` or a digit string that does not start with it. */
  function IntEnd(s: Text, i: nat): (r: Parse<()>)
    requires i <= |s|
    ensures r.Ok? ==> i < r.end <= |s|
  {
    var j := if i < |s| && s[i] == MINUS then i + 1 else i;
    if j >= |s| || !IsDigit(s[j]) then Fail
    else if s[j] == ZERO then Ok((), j + 1)
    else Ok((), SkipDigits(s, j + 1))
  }

  function FracEnd(s: Text, k: nat): (r: nat)
    requires k <= |s|
    ensures k <= r <= |s|
  {
    if k + 1 < |s| && s[k] == DOT && IsDigit(s[k + 1]) then SkipDigits(s, k + 2) else k
  }

  function ExpEnd(s: Text, k: nat): (r: nat)
    requires k <= |s|
    ensures k <= r <= |s|
  {
    if k < |s| && IsExp(s[k]) then
      var p := if k + 1 < |s| && IsSign(s[k + 1]) then k + 2 else k + 1;
      if p < |s| && IsDigit(s[p]) then SkipDigits(s, p + 1) else k
    else k
  }

  function ParseNumber(s: Text, i: nat): (r: Parse<Value>)
    requires i <= |s|
    ensures r.Ok? ==> i < r.end <= |s| && r.value == Number(s[i..r.end])
  {
    match IntEnd(s, i)
    case Fail => Fail
    case Ok(_, k) =>
      var e := ExpEnd(s, FracEnd(s, k));
      Ok(Number(s[i..e]), e)
  }

  predicate IsHex(c: nat) {
    IsDigit(c) || 65 <= c <= 70 || 97 <= c <= 102
  }

  function HexValue(c: nat): (v: nat)
    requires IsHex(c)
    ensures v < 16
  {
    if IsDigit(c) then c - ZERO else if c <= 70 then c - 55 else c - 87
  }

  predicate HexAt(s: Text, i: nat) {
    i + 4 <= |s| && IsHex(s[i]) && IsHex(s[i + 1]) && IsHex(s[i + 2]) && IsHex(s[i + 3])
  }

  function Hex4(s: Text, i: nat): (v: nat)
    requires HexAt(s, i)
  {
    0x1000 * HexValue(s[i]) + 0x100 * HexValue(s[i + 1]) + 0x10 * HexValue(s[i + 2]) + HexValue(s[i + 3])
  }

  predicate IsHigh(c: nat) {
    0xD800 <= c <= 0xDBFF
  }

  predicate IsLow(c: nat) {
    0xDC00 <= c <= 0xDFFF
  }

  function Join(high: nat, low: nat): nat
    requires IsHigh(high) && IsLow(low)
  {
    0x10000 + (high - 0xD800) * 0x400 + (low - 0xDC00)
  }

  /** The two-character escapes: `\" \\ \/ \b \f \n \r \t`. */
  predicate IsShort(c: nat) {
    c == QUOTE || c == BACKSLASH || c == SLASH || c == 98 || c == 102 || c == 110 || c == 114 || c == 116
  }

  function ShortValue(c: nat): nat
    requires IsShort(c)
  {
    if c == 98 then 8 else if c == 102 then 12 else if c == 110 then LF
    else if c == 114 then CR else if c == 116 then TAB else c
  }

  /** A low-surrogate `\u` escape starts at `k`. */
  predicate LowEscapeAt(s: Text, k: nat) {
    k + 1 < |s| && s[k] == BACKSLASH && s[k + 1] == LOWER_U && HexAt(s, k + 2) && IsLow(Hex4(s, k + 2))
  }

  function Prepend(c: nat, r: Parse<Text>): (p: Parse<Text>)
    ensures p.Ok? <==> r.Ok?
    ensures r.Ok? ==> p.end == r.end
  {
    if r.Fail? then Fail else Ok([c] + r.value, r.end)
  }

  /** The rest of a string literal from `i`, just after the opening quote or in its middle. */
  function ParseString(s: Text, i: nat): (r: Parse<Text>)
    requires i <= |s|
    ensures r.Ok? ==> i < r.end <= |s|
    decreases |s| - i
  {
    if i >= |s| then Fail
    else if s[i] == QUOTE then Ok([], i + 1)
    else if s[i] < SPACE then Fail
    else if s[i] != BACKSLASH then Prepend(s[i], ParseString(s, i + 1))
    else if i + 1 >= |s| then Fail
    else if IsShort(s[i + 1]) then Prepend(ShortValue(s[i + 1]), ParseString(s, i + 2))
    else if s[i + 1] != LOWER_U || !HexAt(s, i + 2) then Fail
    else
      var c := Hex4(s, i + 2);
      if IsHigh(c) && LowEscapeAt(s, i + 6) then
        Prepend(Join(c, Hex4(s, i + 8)), ParseString(s, i + 12))
      else Prepend(c, ParseString(s, i + 6))
  }

  function Word(s: Text, i: nat, word: Text, v: Value): (r: Parse<Value>)
    ensures r.Ok? ==> r.value == v && r.end == i + |word| <= |s|
  {
    if At(s, i, word) then Ok(v, i + |word|) else Fail
  }

  /** What follows an element at `f`: a comma (true, and where the next element starts) or the closer (false). */
  function After(s: Text, f: nat, closer: nat): (r: Parse<bool>)
    requires f <= |s|
    ensures r.Ok? ==> f < r.end <= |s|
  {
    var k := SkipWs(s, f);
    if k >= |s| then Fail
    else if s[k] == COMMA then Ok(true, SkipWs(s, k + 1))
    else if s[k] == closer then Ok(false, k + 1)
    else Fail
  }

  function ParseValue(s: Text, i: nat): (r: Parse<Value>)
    requires i <= |s|
    ensures r.Ok? ==> i < r.end <= |s|
    decreases |s| - i, 0
  {
    if i >= |s| then Fail
    else if s[i] == QUOTE then
      match ParseString(s, i + 1) { case Fail => Fail case Ok(t, e) => Ok(Str(t), e) }
    else if s[i] == OPEN_BRACE then ParseObject(s, i + 1)
    else if s[i] == OPEN_BRACKET then ParseArray(s, i + 1)
    else if s[i] == LOWER_N then Word(s, i, NULL_WORD, Null)
    else if s[i] == LOWER_T then Word(s, i, TRUE_WORD, Bool(true))
    else if s[i] == LOWER_F then Word(s, i, FALSE_WORD, Bool(false))
    else if s[i] == UPPER_N then Word(s, i, NAN_WORD, NonFinite(NAN_WORD))
    else if s[i] == UPPER_I then Word(s, i, INFINITY_WORD, NonFinite(INFINITY_WORD))
    else if At(s, i, MINUS_INFINITY_WORD) then Ok(NonFinite(MINUS_INFINITY_WORD), i + 9)
    else ParseNumber(s, i)
  }

  function ParseObject(s: Text, i: nat): (r: Parse<Value>)
    requires i <= |s|
    ensures r.Ok? ==> i < r.end <= |s| && r.value.Obj?
    decreases |s| - i, 3
  {
    var j := SkipWs(s, i);
    if j < |s| && s[j] == CLOSE_BRACE then Ok(Obj(map[]), j + 1) else ParseMembers(s, j, [])
  }

  /** One `"key": value` pair. */
  function ParsePair(s: Text, i: nat): (r: Parse<(Text, Value)>)
    requires i <= |s|
    ensures r.Ok? ==> i < r.end <= |s|
    decreases |s| - i, 1
  {
    if i >= |s| || s[i] != QUOTE then Fail
    else
      match ParseString(s, i + 1)
      case Fail => Fail
      case Ok(key, e) =>
        var j := SkipWs(s, e);
        if j >= |s| || s[j] != COLON then Fail
        else
          match ParseValue(s, SkipWs(s, j + 1))
          case Fail => Fail
          case Ok(v, f) => Ok((key, v), f)
  }

  /** The dictionary of a list of pairs: a repeated key overwrites the earlier value. */
  function Dict(pairs: seq<(Text, Value)>): map<Text, Value> {
    if pairs == [] then map[]
    else
      var (key, v) := pairs[|pairs| - 1];
      Dict(pairs[..|pairs| - 1])[key := v]
  }

  /** A pair and all that follow it. */
  function ParseMembers(s: Text, i: nat, acc: seq<(Text, Value)>): (r: Parse<Value>)
    requires i <= |s|
    ensures r.Ok? ==> i < r.end <= |s| && r.value.Obj?
    decreases |s| - i, 2
  {
    match ParsePair(s, i)
    case Fail => Fail
    case Ok(pair, f) =>
      match After(s, f, CLOSE_BRACE)
      case Fail => Fail
      case Ok(more, k) => if more then ParseMembers(s, k, acc + [pair]) else Ok(Obj(Dict(acc + [pair])), k)
  }

  function ParseArray(s: Text, i: nat): (r: Parse<Value>)
    requires i <= |s|
    ensures r.Ok? ==> i < r.end <= |s| && r.value.Arr?
    decreases |s| - i, 3
  {
    var j := SkipWs(s, i);
    if j < |s| && s[j] == CLOSE_BRACKET then Ok(Arr([]), j + 1) else ParseItems(s, j, [])
  }

  function ParseItems(s: Text, i: nat, acc: seq<Value>): (r: Parse<Value>)
    requires i <= |s|
    ensures r.Ok? ==> i < r.end <= |s| && r.value.Arr?
    decreases |s| - i, 1
  {
    match ParseValue(s, i)
    case Fail => Fail
    case Ok(v, f) =>
      match After(s, f, CLOSE_BRACKET)
      case Fail => Fail
      case Ok(more, k) => if more then ParseItems(s, k, acc + [v]) else Ok(Arr(acc + [v]), k)
  }

  // ----- A successful parse does not depend on text that arrives later -----

  lemma SkipWsStable(s: Text, u: Text, i: nat)
    requires s <= u && i <= |s| && SkipWs(s, i) < |s|
    ensures SkipWs(u, i) == SkipWs(s, i)
    decreases |s| - i
  {
    if IsWs(s[i]) { SkipWsStable(s, u, i + 1); }
  }

  lemma SkipDigitsStable(s: Text, u: Text, i: nat)
    requires s <= u && i <= |s| && SkipDigits(s, i) < |s|
    ensures SkipDigits(u, i) == SkipDigits(s, i)
    decreases |s| - i
  {
    if IsDigit(s[i]) { SkipDigitsStable(s, u, i + 1); }
  }

  /** No number token that ends before `s[e]` can be prolonged by later text. */
  predicate Settled(s: Text, e: nat) {
    e < |s| && s[e] != DOT && !IsExp(s[e])
  }

  lemma IntStable(s: Text, u: Text, i: nat)
    requires s <= u && i <= |s| && IntEnd(s, i).Ok? && IntEnd(s, i).end < |s|
    ensures IntEnd(u, i) == IntEnd(s, i)
  {
    var j := if s[i] == MINUS then i + 1 else i;
    if s[j] != ZERO { SkipDigitsStable(s, u, j + 1); }
  }

  lemma FracStable(s: Text, u: Text, k: nat)
    requires s <= u && k <= |s| && FracEnd(s, k) < |s| && s[FracEnd(s, k)] != DOT
    ensures FracEnd(u, k) == FracEnd(s, k)
  {
    if FracEnd(s, k) != k { SkipDigitsStable(s, u, k + 2); }
  }

  lemma ExpStable(s: Text, u: Text, k: nat)
    requires s <= u && k <= |s| && ExpEnd(s, k) < |s| && !IsExp(s[ExpEnd(s, k)])
    ensures ExpEnd(u, k) == ExpEnd(s, k)
  {
    if ExpEnd(s, k) != k {
      SkipDigitsStable(s, u, (if IsSign(s[k + 1]) then k + 2 else k + 1) + 1);
    }
  }

  lemma NumberStable(s: Text, u: Text, i: nat)
    requires s <= u && i <= |s|
    requires ParseNumber(s, i).Ok? && Settled(s, ParseNumber(s, i).end)
    ensures ParseNumber(u, i) == ParseNumber(s, i)
  {
    var k := IntEnd(s, i).end;
    var f := FracEnd(s, k);
    IntStable(s, u, i);
    FracStable(s, u, k);
    ExpStable(s, u, f);
    assert s[i..ExpEnd(s, f)] == u[i..ExpEnd(s, f)];
  }

  lemma {:induction false} StringStable(s: Text, u: Text, i: nat)
    requires s <= u && i <= |s| && ParseString(s, i).Ok?
    ensures ParseString(u, i) == ParseString(s, i)
    decreases |s| - i
  {
    if s[i] == QUOTE {
    } else if s[i] != BACKSLASH {
      StringStable(s, u, i + 1);
    } else if IsShort(s[i + 1]) {
      StringStable(s, u, i + 2);
    } else if IsHigh(Hex4(s, i + 2)) && LowEscapeAt(s, i + 6) {
      StringStable(s, u, i + 12);
    } else {
      // A lone surrogate followed by an unfinished escape would not have closed within s.
      assert Hex4(u, i + 2) == Hex4(s, i + 2);
      assert LowEscapeAt(u, i + 6) ==> i + 12 <= |s|;
      StringStable(s, u, i + 6);
    }
  }

  lemma {:induction false} ValueStable(s: Text, u: Text, i: nat)
    requires s <= u && i <= |s| && ParseValue(s, i).Ok?
    requires ParseValue(s, i).value.Number? ==> Settled(s, ParseValue(s, i).end)
    ensures ParseValue(u, i) == ParseValue(s, i)
    decreases |s| - i, 0
  {
    if s[i] == QUOTE {
      StringStable(s, u, i + 1);
    } else if s[i] == OPEN_BRACE {
      ObjectStable(s, u, i + 1);
    } else if s[i] == OPEN_BRACKET {
      ArrayStable(s, u, i + 1);
    } else if ParseValue(s, i).value.Number? {
      NumberStable(s, u, i);
      NumberStart(u, i);
    }
  }

  /** Text that starts a number cannot start one of the fixed words. */
  lemma NumberStart(u: Text, i: nat)
    requires i <= |u| && IntEnd(u, i).Ok?
    ensures ParseValue(u, i) == ParseNumber(u, i)
  {
    var w := MINUS_INFINITY_WORD;
    assert w[0] == MINUS && w[1] == UPPER_I;
  }

  lemma {:induction false} ObjectStable(s: Text, u: Text, i: nat)
    requires s <= u && i <= |s| && ParseObject(s, i).Ok?
    ensures ParseObject(u, i) == ParseObject(s, i)
    decreases |s| - i, 3
  {
    var j := SkipWs(s, i);
    SkipWsStable(s, u, i);
    if s[j] != CLOSE_BRACE { MembersStable(s, u, j, []); }
  }

  /** Whitespace, a comma or a closer all settle the number before them. */
  lemma AfterStable(s: Text, u: Text, f: nat, closer: nat)
    requires s <= u && f <= |s| && After(s, f, closer).Ok?
    requires After(s, f, closer).value ==> After(s, f, closer).end < |s|
    requires closer == CLOSE_BRACE || closer == CLOSE_BRACKET
    ensures After(u, f, closer) == After(s, f, closer)
    ensures Settled(s, f)
  {
    SkipWsStable(s, u, f);
    var k := SkipWs(s, f);
    if s[k] == COMMA { SkipWsStable(s, u, k + 1); }
  }

  lemma {:induction false} PairStable(s: Text, u: Text, i: nat)
    requires s <= u && i <= |s| && ParsePair(s, i).Ok?
    requires ParsePair(s, i).value.1.Number? ==> Settled(s, ParsePair(s, i).end)
    ensures ParsePair(u, i) == ParsePair(s, i)
    decreases |s| - i, 1
  {
    StringStable(s, u, i + 1);
    var e := ParseString(s, i + 1).end;
    SkipWsStable(s, u, e);
    var j := SkipWs(s, e);
    assert SkipWs(s, j + 1) < |s|;
    SkipWsStable(s, u, j + 1);
    ValueStable(s, u, SkipWs(s, j + 1));
  }

  lemma {:induction false} MembersStable(s: Text, u: Text, i: nat, acc: seq<(Text, Value)>)
    requires s <= u && i <= |s| && ParseMembers(s, i, acc).Ok?
    ensures ParseMembers(u, i, acc) == ParseMembers(s, i, acc)
    decreases |s| - i, 2
  {
    var pair := ParsePair(s, i);
    AfterStable(s, u, pair.end, CLOSE_BRACE);
    PairStable(s, u, i);
    var next := After(s, pair.end, CLOSE_BRACE);
    if next.value { MembersStable(s, u, next.end, acc + [pair.value]); }
  }

  lemma {:induction false} ArrayStable(s: Text, u: Text, i: nat)
    requires s <= u && i <= |s| && ParseArray(s, i).Ok?
    ensures ParseArray(u, i) == ParseArray(s, i)
    decreases |s| - i, 3
  {
    var j := SkipWs(s, i);
    SkipWsStable(s, u, i);
    if s[j] != CLOSE_BRACKET { ItemsStable(s, u, j, []); }
  }

  lemma {:induction false} ItemsStable(s: Text, u: Text, i: nat, acc: seq<Value>)
    requires s <= u && i <= |s| && ParseItems(s, i, acc).Ok?
    ensures ParseItems(u, i, acc) == ParseItems(s, i, acc)
    decreases |s| - i, 1
  {
    var item := ParseValue(s, i);
    AfterStable(s, u, item.end, CLOSE_BRACKET);
    ValueStable(s, u, i);
    var next := After(s, item.end, CLOSE_BRACKET);
    if next.value { ItemsStable(s, u, next.end, acc + [item.value]); }
  }
}
