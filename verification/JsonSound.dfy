/**
 The converse of the decoder's round trip: whatever text it accepts is the
 printed form of a grammatical tree, and the value it returns is that tree's
 meaning.  Together the two say the decoder accepts exactly the grammar.
 */
module JsonSound {
  import opened Json
  import opened JsonGrammar
  import opened Sums

  lemma AtJoin(u: Text, i: nat, p: Text, q: Text)
    requires At(u, i, p) && At(u, i + |p|, q)
    ensures At(u, i, p + q)
  {
    forall k | 0 <= k < |p + q| ensures u[i + k] == (p + q)[k] {
      if k >= |p| { assert u[i + |p| + (k - |p|)] == q[k - |p|]; }
    }
  }

  lemma AtSlice(u: Text, i: nat, j: nat)
    requires i <= j <= |u|
    ensures At(u, i, u[i..j]) && |u[i..j]| == j - i
  {
  }

  lemma AtChar(u: Text, i: nat, c: nat)
    requires i < |u| && u[i] == c
    ensures At(u, i, [c])
  {
  }

  lemma WsSlice(u: Text, i: nat)
    requires i <= |u|
    ensures AllWs(u[i..SkipWs(u, i)]) && At(u, i, u[i..SkipWs(u, i)]) && |u[i..SkipWs(u, i)]| == SkipWs(u, i) - i
  {
    AtSlice(u, i, SkipWs(u, i));
  }

  // ----- Strings -----

  lemma {:induction false} StringSound(u: Text, i: nat) returns (ps: seq<Piece>)
    requires i <= |u| && ParseString(u, i).Ok?
    ensures ValidString(ps) && At(u, i, StringText(ps)) && ParseString(u, i) == Ok(StringMeaning(ps), i + |StringText(ps)|)
    decreases |u| - i
  {
    hide At, StringText, StringMeaning, Join, Hex4, HexAt, ShortValue;
    if u[i] == QUOTE {
      ps := [];
      EmptyString(u, i);
    } else if u[i] != BACKSLASH {
      AtChar(u, i, u[i]);
      var rest := StringSound(u, i + 1);
      ps := OnePiece(u, i, Raw(u[i]), rest);
    } else if IsShort(u[i + 1]) {
      ShortAt(u, i);
      var rest := StringSound(u, i + 2);
      ps := OnePiece(u, i, Short(u[i + 1]), rest);
    } else {
      var p := EscapeAt(u, i);
      if IsHigh(Hex4(u, i + 2)) && LowEscapeAt(u, i + 6) {
        var q := EscapeAt(u, i + 6);
        var rest := StringSound(u, i + 12);
        ps := TwoPieces(u, i, p, q, rest);
      } else {
        var rest := StringSound(u, i + 6);
        ps := OnePiece(u, i, p, rest);
      }
    }
  }

  lemma EmptyString(u: Text, i: nat)
    requires i < |u| && u[i] == QUOTE
    ensures At(u, i, StringText([])) && |StringText([])| == 1 && StringMeaning([]) == []
  {
  }

  lemma ShortAt(u: Text, i: nat)
    requires i + 1 < |u| && u[i] == BACKSLASH
    ensures At(u, i, PieceText(Short(u[i + 1])))
  {
  }

  lemma EscapeAt(u: Text, i: nat) returns (p: Piece)
    requires i + 1 < |u| && u[i] == BACKSLASH && u[i + 1] == LOWER_U && HexAt(u, i + 2)
    ensures p.Unicode? && ValidPiece(p) && Unit(p) == Hex4(u, i + 2) && At(u, i, PieceText(p)) && |PieceText(p)| == 6
  {
    p := Unicode(u[i + 2], u[i + 3], u[i + 4], u[i + 5]);
  }

  lemma OnePiece(u: Text, i: nat, p: Piece, rest: seq<Piece>) returns (ps: seq<Piece>)
    requires ValidPiece(p) && ValidString(rest) && At(u, i, PieceText(p)) && At(u, i + |PieceText(p)|, StringText(rest))
    requires p.Unicode? && IsHigh(Unit(p)) ==> !LowEscapeAt(u, i + 6)
    ensures ValidString(ps) && At(u, i, StringText(ps)) && |StringText(ps)| == |PieceText(p)| + |StringText(rest)|
    ensures StringMeaning(ps) == [Unit(p)] + StringMeaning(rest)
  {
    hide At, HexAt, Hex4, Unit;
    ps := [p] + rest;
    assert ps[1..] == rest;
    AtJoin(u, i, PieceText(p), StringText(rest));
    if PairsUp(ps) {
      AtSplit(u, i + 6, PieceText(rest[0]), StringText(rest[1..]));
      PieceRead(u, i + 6, rest[0]);
      assert false;
    }
  }

  lemma TwoPieces(u: Text, i: nat, p: Piece, q: Piece, rest: seq<Piece>) returns (ps: seq<Piece>)
    requires p.Unicode? && q.Unicode? && ValidPiece(p) && ValidPiece(q) && ValidString(rest) && IsHigh(Unit(p)) && IsLow(Unit(q))
    requires At(u, i, PieceText(p)) && At(u, i + 6, PieceText(q)) && At(u, i + 12, StringText(rest))
    ensures ValidString(ps) && At(u, i, StringText(ps)) && |StringText(ps)| == 12 + |StringText(rest)|
    ensures StringMeaning(ps) == [Join(Unit(p), Unit(q))] + StringMeaning(rest)
  {
    hide At, Unit, Join;
    var tail := [q] + rest;
    ps := [p] + tail;
    assert tail[1..] == rest && ps[1..] == tail && ps[2..] == rest;
    AtJoin(u, i + 6, PieceText(q), StringText(rest));
    AtJoin(u, i, PieceText(p), StringText(tail));
  }

  // ----- Numbers -----

  lemma FracSound(u: Text, k: nat) returns (f: Text)
    requires k <= |u|
    ensures AllDigits(f) && At(u, k, FracText(f)) && |FracText(f)| == FracEnd(u, k) - k
  {
    var e := FracEnd(u, k);
    f := if e == k then [] else u[k + 1..e];
    if e != k {
      AtChar(u, k, DOT);
      AtSlice(u, k + 1, e);
      AtJoin(u, k, [DOT], f);
    }
  }

  lemma ExpSound(u: Text, k: nat) returns (x: Exponent)
    requires k <= |u|
    ensures ValidExp(x) && At(u, k, ExpText(x)) && |ExpText(x)| == ExpEnd(u, k) - k
  {
    var e := ExpEnd(u, k);
    x := NoExp;
    if e != k {
      var p := if IsSign(u[k + 1]) then k + 2 else k + 1;
      x := Exp(u[k], u[k + 1..p], u[p..e]);
      AtChar(u, k, x.letter);
      AtSlice(u, k + 1, p);
      AtSlice(u, p, e);
      AtJoin(u, k + 1, x.sign, x.digits);
      AtJoin(u, k, [x.letter], x.sign + x.digits);
    }
  }

  lemma IntSound(u: Text, i: nat) returns (negative: bool, whole: Text)
    requires i <= |u| && IntEnd(u, i).Ok?
    ensures |whole| > 0 && AllDigits(whole) && (whole[0] == ZERO ==> |whole| == 1)
    ensures At(u, i, SignText(negative)) && At(u, i + |SignText(negative)|, whole)
    ensures i + |SignText(negative)| + |whole| == IntEnd(u, i).end
  {
    negative := u[i] == MINUS;
    var j := if negative then i + 1 else i;
    whole := u[j..IntEnd(u, i).end];
  }

  lemma NumberSound(u: Text, i: nat) returns (n: Num)
    requires i <= |u| && ParseNumber(u, i).Ok?
    ensures ValidNum(n) && At(u, i, NumText(n)) && ParseNumber(u, i) == Ok(Number(NumText(n)), i + |NumText(n)|)
  {
    hide At, AllDigits, ValidExp, FracText, ExpText, SignText, IntEnd, FracEnd, ExpEnd;
    var negative, whole := IntSound(u, i);
    var k := IntEnd(u, i).end;
    var f := FracSound(u, k);
    var x := ExpSound(u, FracEnd(u, k));
    n := Num(negative, whole, f, x);
    AtJoin(u, k, FracText(f), ExpText(x));
    AtJoin(u, i + |SignText(negative)|, whole, FracText(f) + ExpText(x));
    AtJoin(u, i, SignText(negative), whole + (FracText(f) + ExpText(x)));
    SliceOf(u, i, NumText(n));
  }

  lemma SliceOf(u: Text, i: nat, t: Text)
    requires At(u, i, t)
    ensures i + |t| <= |u| && u[i..i + |t|] == t
  {
  }

  // ----- Separators -----

  /** The white space and the character an element is followed by. */
  lemma AfterSound(u: Text, f: nat, closer: nat) returns (after: Text, before: Text)
    requires f <= |u| && After(u, f, closer).Ok?
    ensures AllWs(after) && AllWs(before)
    ensures var r := After(u, f, closer);
            if r.value then At(u, f, after + ([COMMA] + before)) && r.end == f + |after| + 1 + |before|
            else At(u, f, after + [closer]) && r.end == f + |after| + 1
  {
    hide AllWs, At, SkipWs;
    var k := SkipWs(u, f);
    after, before := u[f..k], [];
    WsSlice(u, f);
    AtChar(u, k, u[k]);
    if After(u, f, closer).value {
      before := u[k + 1..SkipWs(u, k + 1)];
      WsSlice(u, k + 1);
      AtJoin(u, k, [COMMA], before);
      AtJoin(u, f, after, [COMMA] + before);
    } else {
      NoWs();
      AtJoin(u, f, after, [closer]);
    }
  }

  lemma NoWs()
    ensures AllWs([])
  {
  }

  // ----- Values -----

  ghost predicate Sound(u: Text, i: nat, r: Parse<Value>, d: Doc) {
    ValidDoc(d) && At(u, i, Print(d)) && r == Ok(Meaning(d), i + |Print(d)|)
  }

  ghost predicate ItemsSoundAt(u: Text, i: nat, acc: seq<Value>, r: Parse<Value>, t: Items) {
    ValidItems(t) && At(u, i, PrintItems(t)) && r == Ok(Arr(acc + ItemValues(t)), i + |PrintItems(t)|)
  }

  ghost predicate MembersSoundAt(u: Text, i: nat, acc: seq<(Text, Value)>, r: Parse<Value>, t: Members) {
    ValidMembers(t) && At(u, i, PrintMembers(t)) && r == Ok(Obj(Dict(acc + MemberPairs(t))), i + |PrintMembers(t)|)
  }

  lemma WordSound(u: Text, i: nat) returns (d: Doc)
    requires i < |u| && ParseValue(u, i).Ok?
    requires var v := ParseValue(u, i).value; v.Null? || v.Bool? || v.NonFinite?
    ensures Sound(u, i, ParseValue(u, i), d) && d.DWord?
  {
    d := DWord(ParseValue(u, i).value);
  }

  /** Every text the decoder accepts is a grammatical tree, printed. */
  lemma {:induction false} ValueSound(u: Text, i: nat) returns (d: Doc)
    requires i <= |u| && ParseValue(u, i).Ok?
    ensures Sound(u, i, ParseValue(u, i), d)
    ensures ParseValue(u, i).value.Number? <==> d.DNum?
    decreases |u| - i, 0
  {
    hide ParseString, ParseObject, ParseArray, ParseNumber, At, StringText, NumText, PrintItems, PrintMembers;
    if u[i] == QUOTE {
      var ps := StringSound(u, i + 1);
      d := DStr(ps);
      AtChar(u, i, QUOTE);
      AtJoin(u, i, [QUOTE], StringText(ps));
    } else if u[i] == OPEN_BRACE {
      d := ObjectSound(u, i);
    } else if u[i] == OPEN_BRACKET {
      d := ArraySound(u, i);
    } else if ParseValue(u, i).value.Number? {
      var n := NumberSound(u, i);
      d := DNum(n);
    } else {
      d := WordSound(u, i);
    }
  }

  lemma Enclose(u: Text, i: nat, c: nat, ws: Text, q: Text)
    requires i < |u| && u[i] == c && At(u, i + 1, ws) && At(u, i + 1 + |ws|, q)
    ensures At(u, i, [c] + (ws + q))
  {
    AtChar(u, i, c);
    hide At;
    AtJoin(u, i + 1, ws, q);
    AtJoin(u, i, [c], ws + q);
  }

  lemma {:induction false} ArraySound(u: Text, i: nat) returns (d: Doc)
    requires i < |u| && u[i] == OPEN_BRACKET && ParseArray(u, i + 1).Ok?
    ensures Sound(u, i, ParseArray(u, i + 1), d) && (d.DArr? || d.DEmptyArr?)
    decreases |u| - i - 1, 3
  {
    hide ParseItems, At, PrintItems, SkipWs, AllWs, ItemValues, ValidItems;
    var j := SkipWs(u, i + 1);
    var ws := u[i + 1..j];
    WsSlice(u, i + 1);
    if j < |u| && u[j] == CLOSE_BRACKET {
      d := DEmptyArr(ws);
      AtChar(u, j, CLOSE_BRACKET);
      Enclose(u, i, OPEN_BRACKET, ws, [CLOSE_BRACKET]);
    } else {
      var t := ItemsSound(u, j, []);
      d := DArr(ws, t);
      assert [] + ItemValues(t) == ItemValues(t);
      Enclose(u, i, OPEN_BRACKET, ws, PrintItems(t));
    }
  }

  lemma {:induction false} ItemsSound(u: Text, i: nat, acc: seq<Value>) returns (t: Items)
    requires i <= |u| && ParseItems(u, i, acc).Ok?
    ensures ItemsSoundAt(u, i, acc, ParseItems(u, i, acc), t)
    decreases |u| - i, 1
  {
    hide ParseValue, After, At, Print, Meaning, AllWs, ValidDoc;
    var d := ValueSound(u, i);
    var f := ParseValue(u, i).end;
    var after, before := AfterSound(u, f, CLOSE_BRACKET);
    var r := After(u, f, CLOSE_BRACKET);
    if r.value {
      var rest := ItemsSound(u, r.end, acc + [Meaning(d)]);
      t := MoreItems(d, after, before, rest);
      Assoc(acc, [Meaning(d)], ItemValues(rest));
      JoinMore(u, i, Print(d), after, before, PrintItems(rest));
    } else {
      t := LastItem(d, after);
      AtJoin(u, i, Print(d), after + [CLOSE_BRACKET]);
      assert ItemValues(t) == [Meaning(d)];
    }
  }

  lemma JoinMore(u: Text, i: nat, p: Text, after: Text, before: Text, q: Text)
    requires At(u, i, p) && At(u, i + |p|, after + ([COMMA] + before)) && At(u, i + |p| + |after| + 1 + |before|, q)
    ensures At(u, i, p + (after + ([COMMA] + (before + q))))
  {
    hide At;
    AtJoin(u, i + |p|, after + ([COMMA] + before), q);
    assert (after + ([COMMA] + before)) + q == after + ([COMMA] + (before + q));
    AtJoin(u, i, p, after + ([COMMA] + (before + q)));
  }

  lemma {:induction false} ObjectSound(u: Text, i: nat) returns (d: Doc)
    requires i < |u| && u[i] == OPEN_BRACE && ParseObject(u, i + 1).Ok?
    ensures Sound(u, i, ParseObject(u, i + 1), d) && (d.DObj? || d.DEmptyObj?)
    decreases |u| - i - 1, 3
  {
    hide ParseMembers, At, PrintMembers, SkipWs, AllWs, Dict, MemberPairs, ValidMembers;
    var j := SkipWs(u, i + 1);
    var ws := u[i + 1..j];
    WsSlice(u, i + 1);
    if j < |u| && u[j] == CLOSE_BRACE {
      d := DEmptyObj(ws);
      AtChar(u, j, CLOSE_BRACE);
      Enclose(u, i, OPEN_BRACE, ws, [CLOSE_BRACE]);
    } else {
      var t := MembersSound(u, j, []);
      d := DObj(ws, t);
      assert [] + MemberPairs(t) == MemberPairs(t);
      Enclose(u, i, OPEN_BRACE, ws, PrintMembers(t));
    }
  }

  lemma {:induction false} PairSound(u: Text, i: nat) returns (key: seq<Piece>, w1: Text, w2: Text, d: Doc)
    requires i <= |u| && ParsePair(u, i).Ok?
    ensures ValidString(key) && AllWs(w1) && AllWs(w2) && ValidDoc(d)
    ensures At(u, i, PairText(key, w1, w2, Print(d)))
    ensures ParsePair(u, i) == Ok((StringMeaning(key), Meaning(d)), i + |PairText(key, w1, w2, Print(d))|)
    decreases |u| - i, 1
  {
    hide ParseValue, ParseString, At, Print, Meaning, AllWs, ValidDoc, ValidString, StringText, StringMeaning, SkipWs;
    key := StringSound(u, i + 1);
    var e := ParseString(u, i + 1).end;
    var j := SkipWs(u, e);
    var k := SkipWs(u, j + 1);
    w1, w2 := u[e..j], u[j + 1..k];
    WsSlice(u, e);
    WsSlice(u, j + 1);
    d := ValueSound(u, k);
    AtChar(u, i, QUOTE);
    AtChar(u, j, COLON);
    AtJoin(u, j + 1, w2, Print(d));
    AtJoin(u, j, [COLON], w2 + Print(d));
    AtJoin(u, e, w1, [COLON] + (w2 + Print(d)));
    AtJoin(u, i + 1, StringText(key), w1 + ([COLON] + (w2 + Print(d))));
    AtJoin(u, i, [QUOTE], StringText(key) + (w1 + ([COLON] + (w2 + Print(d)))));
  }

  lemma {:induction false} MembersSound(u: Text, i: nat, acc: seq<(Text, Value)>) returns (t: Members)
    requires i <= |u| && ParseMembers(u, i, acc).Ok?
    ensures MembersSoundAt(u, i, acc, ParseMembers(u, i, acc), t)
    decreases |u| - i, 2
  {
    hide ParsePair, After, At, Print, PairText, Meaning, AllWs, ValidDoc, ValidString, StringMeaning, Dict;
    var key, w1, w2, d := PairSound(u, i);
    var pair := (StringMeaning(key), Meaning(d));
    var text := PairText(key, w1, w2, Print(d));
    var f := ParsePair(u, i).end;
    var after, before := AfterSound(u, f, CLOSE_BRACE);
    var r := After(u, f, CLOSE_BRACE);
    if r.value {
      var rest := MembersSound(u, r.end, acc + [pair]);
      t := MoreMembers(key, w1, w2, d, after, before, rest);
      Assoc(acc, [pair], MemberPairs(rest));
      JoinMore(u, i, text, after, before, PrintMembers(rest));
    } else {
      t := LastMember(key, w1, w2, d, after);
      AtJoin(u, i, text, after + [CLOSE_BRACE]);
      assert MemberPairs(t) == [pair];
    }
  }

  /** Numbers aside, which need to be told where they end, the decoder accepts exactly the printed trees, with exactly their meaning. */
  lemma AcceptsExactlyTheGrammar(u: Text, i: nat, v: Value, e: nat)
    requires i <= |u| && !v.Number?
    ensures ParseValue(u, i) == Ok(v, e)
       <==> exists d :: ValidDoc(d) && !d.DNum? && At(u, i, Print(d)) && Meaning(d) == v && e == i + |Print(d)|
  {
    hide ParseValue, At, Print, Meaning, ValidDoc;
    if ParseValue(u, i) == Ok(v, e) {
      var d := ValueSound(u, i);
    }
    forall d | ValidDoc(d) && !d.DNum? && At(u, i, Print(d)) && Meaning(d) == v && e == i + |Print(d)|
      ensures ParseValue(u, i) == Ok(v, e)
    {
      DocRead(u, i, d);
    }
  }
}
