/**
 The broker's HTTP stream: concatenated JSON values arriving in arbitrary
 chunks.  `Consume` peels complete values off the front of the buffer and
 `Feed` runs it after every chunk.
 */
module StreamFraming {
  import opened Json
  import opened JsonGrammar
  import opened JsonSound

  datatype Consumed = Consumed(rest: Text, outs: seq<Value>)

  /** The characters Python's `str.strip` removes. */
  predicate IsPySpace(c: nat) {
    || 9 <= c <= 13 || 28 <= c <= 32 || c == 0x85 || c == 0xA0 || c == 0x1680
    || 0x2000 <= c <= 0x200A || c == 0x2028 || c == 0x2029 || c == 0x202F || c == 0x205F || c == 0x3000
  }

  predicate Blank(t: Text) {
    forall k :: 0 <= k < |t| ==> IsPySpace(t[k])
  }

  /** What is left of a buffer, and the values read from its front. */
  function Consume(buf: Text): Consumed
    decreases |buf|
  {
    if Blank(buf) then Consumed(buf, [])
    else
      var idx := SkipWs(buf, 0);
      if idx >= |buf| then Consumed([], [])
      else
        match ParseValue(buf, idx)
        case Fail => Consumed(buf, [])
        case Ok(v, e) =>
          var t := Consume(buf[e..]);
          Consumed(t.rest, [v] + t.outs)
  }

  /** `_consume_json_objects`: the loop that shortens `rest` and appends to `out`. */
  method ConsumeJsonObjects(buf: Text) returns (rest: Text, out: seq<Value>)
    ensures Consumed(rest, out) == Consume(buf)
  {
    out := [];
    rest := buf;
    while !Blank(rest)
      invariant Consume(buf).rest == Consume(rest).rest
      invariant Consume(buf).outs == out + Consume(rest).outs
      decreases |rest|
    {
      var idx := 0;
      var n := |rest|;
      while idx < n && IsWs(rest[idx])
        invariant 0 <= idx <= n
        invariant SkipWs(rest, 0) == SkipWs(rest, idx)
      {
        idx := idx + 1;
      }
      if idx >= n {
        return [], out;
      }
      match ParseValue(rest, idx)
      case Ok(obj, end) =>
        assert out + ([obj] + Consume(rest[end..]).outs) == out + [obj] + Consume(rest[end..]).outs;
        out := out + [obj];
        rest := rest[end..];
      case Fail =>
        return;
    }
  }

  // ----- Chunks -----

  function Feed(buf: Text, chunks: seq<Text>): Consumed
    decreases |chunks|
  {
    if chunks == [] then Consumed(buf, [])
    else
      var r := Consume(buf + chunks[0]);
      var t := Feed(r.rest, chunks[1..]);
      Consumed(t.rest, r.outs + t.outs)
  }

  function Flatten(chunks: seq<Text>): Text {
    if chunks == [] then [] else chunks[0] + Flatten(chunks[1..])
  }

  /** The stream yields dictionaries only. */
  function Dicts(vs: seq<Value>): seq<Value> {
    if vs == [] then []
    else Dicts(vs[..|vs| - 1]) + if vs[|vs| - 1].Obj? then [vs[|vs| - 1]] else []
  }

  lemma {:induction false} DictsConcat(a: seq<Value>, b: seq<Value>)
    ensures Dicts(a + b) == Dicts(a) + Dicts(b)
    decreases |b|
  {
    if b == [] {
      assert a + b == a;
    } else {
      var l := |b| - 1;
      DictsConcat(a, b[..l]);
      assert (a + b)[..|a + b| - 1] == a + b[..l];
    }
  }

  /** The body of `_iter_stream_objects`: one buffer across all chunks, dictionaries yielded as they complete. */
  method IterStreamObjects(chunks: seq<Text>) returns (yielded: seq<Value>, buf: Text)
    ensures yielded == Dicts(Feed([], chunks).outs)
    ensures buf == Feed([], chunks).rest
  {
    hide Consume, Feed, Dicts;
    buf := [];
    yielded := [];
    assert chunks[0..] == chunks;
    DictsNil();
    for i := 0 to |chunks|
      invariant Dicts(Feed([], chunks).outs) == yielded + Dicts(Feed(buf, chunks[i..]).outs)
      invariant Feed([], chunks).rest == Feed(buf, chunks[i..]).rest
    {
      FeedStep(buf, chunks, i);
      buf := buf + chunks[i];
      var objs;
      buf, objs := ConsumeJsonObjects(buf);
      ghost var prior := yielded;
      assert objs[..0] == [];
      for j := 0 to |objs|
        invariant yielded == prior + Dicts(objs[..j])
      {
        DictsStep(objs, j);
        if objs[j].Obj? {
          yielded := yielded + [objs[j]];
        }
      }
      assert objs[..|objs|] == objs;
    }
    FeedNil(buf, chunks);
  }

  lemma DictsNil()
    ensures Dicts([]) == []
  {
  }

  lemma DictsStep(vs: seq<Value>, j: nat)
    requires j < |vs|
    ensures Dicts(vs[..j + 1]) == Dicts(vs[..j]) + if vs[j].Obj? then [vs[j]] else []
  {
    assert vs[..j + 1][..j] == vs[..j];
  }

  lemma FeedNil(buf: Text, chunks: seq<Text>)
    ensures Feed(buf, chunks[|chunks|..]) == Consumed(buf, []) && Dicts([]) == []
  {
  }

  lemma FeedStep(buf: Text, chunks: seq<Text>, i: nat)
    requires i < |chunks|
    ensures var r := Consume(buf + chunks[i]);
            var t := Feed(r.rest, chunks[i + 1..]);
            Feed(buf, chunks[i..]).rest == t.rest && Dicts(Feed(buf, chunks[i..]).outs) == Dicts(r.outs) + Dicts(t.outs)
  {
    assert chunks[i..][1..] == chunks[i + 1..];
    var r := Consume(buf + chunks[i]);
    DictsConcat(r.outs, Feed(r.rest, chunks[i + 1..]).outs);
  }

  // ----- Consuming a prefix first changes nothing, unless a bare number is cut -----

  /** Where the number at the front of `t` ends. */
  function NumberLength(t: Text): nat {
    if ParseNumber(t, 0).Ok? then ParseNumber(t, 0).end else 0
  }

  /** The last value read was a bare number, and the text that follows carries its digits on. */
  predicate CutsNumber(r: Consumed, b: Text) {
    && r.outs != [] && r.outs[|r.outs| - 1].Number?
    && var n := r.outs[|r.outs| - 1].lexeme;
       NumberLength(n + (r.rest + b)) != |n|
  }

  lemma IntShift(s: Text, i: nat)
    requires i <= |s|
    ensures IntEnd(s, i).Ok? <==> IntEnd(s[i..], 0).Ok?
    ensures IntEnd(s, i).Ok? ==> IntEnd(s[i..], 0).end + i == IntEnd(s, i).end
  {
    if i < |s| {
      var j := if s[i] == MINUS then 1 else 0;
      if i + j < |s| { DigitsShift(s, i, j + 1); }
    }
  }

  lemma FracShift(s: Text, i: nat, k: nat)
    requires i + k <= |s|
    ensures FracEnd(s[i..], k) + i == FracEnd(s, i + k)
  {
    if i + k + 1 < |s| { DigitsShift(s, i, k + 2); }
  }

  lemma ExpShift(s: Text, i: nat, k: nat)
    requires i + k <= |s|
    ensures ExpEnd(s[i..], k) + i == ExpEnd(s, i + k)
  {
    if i + k < |s| && IsExp(s[i + k]) {
      var p := if i + k + 1 < |s| && IsSign(s[i + k + 1]) then k + 2 else k + 1;
      if i + p < |s| { DigitsShift(s, i, p + 1); }
    }
  }

  /** The parse of a number depends only on the text from its start. */
  lemma NumberShift(s: Text, i: nat)
    requires i <= |s|
    ensures ParseNumber(s, i).Ok? <==> ParseNumber(s[i..], 0).Ok?
    ensures ParseNumber(s, i).Ok? ==> ParseNumber(s[i..], 0).end + i == ParseNumber(s, i).end
  {
    hide IntEnd, FracEnd, ExpEnd;
    IntShift(s, i);
    if IntEnd(s, i).Ok? {
      var k := IntEnd(s[i..], 0).end;
      FracShift(s, i, k);
      ExpShift(s, i, FracEnd(s[i..], k));
    }
  }

  lemma {:induction false} DigitsShift(s: Text, i: nat, k: nat)
    requires i + k <= |s|
    ensures SkipDigits(s[i..], k) + i == SkipDigits(s, i + k)
    decreases |s| - k
  {
    if i + k < |s| && IsDigit(s[i + k]) { DigitsShift(s, i, k + 1); }
  }

  /** A number followed by another value in the same buffer is settled: neither `.` nor `e` starts a value. */
  lemma NumberBeforeValue(a: Text, e: nat)
    requires e <= |a| && Consume(a[e..]).outs != []
    ensures Settled(a, e)
  {
    var t := a[e..];
    assert t != [];
    if t[0] == DOT || IsExp(t[0]) {
      assert SkipWs(t, 0) == 0;
      assert ParseValue(t, 0).Fail? by { NotAWord(t); }
    }
  }

  lemma NotAWord(t: Text)
    requires |t| > 0 && (t[0] == DOT || IsExp(t[0]))
    ensures ParseValue(t, 0).Fail?
  {
    var w := MINUS_INFINITY_WORD;
    assert w[0] == MINUS;
  }

  /** The first value read from `a` is the first value of `a + b`, except that a bare number may grow. */
  lemma FirstValue(a: Text, b: Text)
    requires !Blank(a) && ParseValue(a, SkipWs(a, 0)).Ok?
    ensures !Blank(a + b) && SkipWs(a + b, 0) == SkipWs(a, 0)
    ensures var first := ParseValue(a, SkipWs(a, 0));
            var whole := ParseValue(a + b, SkipWs(a, 0));
            if CutsNumber(Consume(a), b) && |Consume(a).outs| == 1
            then whole.Ok? && whole.value.Number? && whole.value != first.value
            else whole == first
  {
    hide ParseValue, SkipWs, NumberLength, Blank, CutsNumber, Consume;
    var u := a + b;
    var idx := SkipWs(a, 0);
    var Ok(v, e) := ParseValue(a, idx);
    var t := Consume(a[e..]);
    OneRead(a);
    NotBlank(a, b);
    SkipWsStable(a, u, 0);
    if !v.Number? {
      CutsLast(Consume(a), b);
      ValueStable(a, u, idx);
    } else if t.outs != [] {
      NumberBeforeValue(a, e);
      ValueStable(a, u, idx);
    } else {
      CutsLast(Consume(a), b);
      RestIsAll(a[e..]);
      NumberAtEnd(a, b, idx, e);
    }
  }

  lemma OneRead(a: Text)
    requires !Blank(a) && ParseValue(a, SkipWs(a, 0)).Ok?
    ensures SkipWs(a, 0) < |a|
    ensures var Ok(v, e) := ParseValue(a, SkipWs(a, 0));
            var t := Consume(a[e..]);
            Consume(a).outs == [v] + t.outs && Consume(a).rest == t.rest
  {
    hide SkipWs;
    assert SkipWs(a, 0) < |a| by { NothingAtEnd(a); }
  }

  lemma NothingAtEnd(a: Text)
    ensures ParseValue(a, |a|).Fail?
  {
  }

  lemma NotBlank(a: Text, b: Text)
    requires !Blank(a)
    ensures !Blank(a + b)
  {
    hide IsPySpace;
    var k :| 0 <= k < |a| && !IsPySpace(a[k]);
    assert (a + b)[k] == a[k];
  }

  lemma CutsLast(r: Consumed, b: Text)
    requires |r.outs| >= 1
    ensures var v := r.outs[|r.outs| - 1];
            CutsNumber(r, b) <==> v.Number? && NumberLength(v.lexeme + (r.rest + b)) != |v.lexeme|
  {
    hide NumberLength;
  }

  lemma NumberAtEnd(a: Text, b: Text, idx: nat, e: nat)
    requires idx < |a| && ParseValue(a, idx).Ok? && ParseValue(a, idx).value.Number?
    requires e == ParseValue(a, idx).end
    ensures var n := a[idx..e];
            var whole := ParseValue(a + b, idx);
            && ParseValue(a, idx).value == Number(n)
            && whole.Ok? && whole.value.Number?
            && (NumberLength(n + (a[e..] + b)) == |n| ==> whole == ParseValue(a, idx))
            && (NumberLength(n + (a[e..] + b)) != |n| ==> whole.value != Number(n))
  {
    hide ParseValue, IntEnd, FracEnd, ExpEnd;
    var u := a + b;
    var n := a[idx..e];
    NumberOnly(a, idx);
    NumberPrefix(a, b, idx);
    NumberStart(u, idx);
    NumberShift(u, idx);
    assert u[idx..] == n + (a[e..] + b);
    var whole := ParseNumber(u, idx);
    assert whole.value.lexeme == u[idx..whole.end];
    if whole.end == e { assert u[idx..e] == n; }
  }

  lemma NumberOnly(a: Text, i: nat)
    requires i < |a| && ParseValue(a, i).Ok? && ParseValue(a, i).value.Number?
    ensures ParseValue(a, i) == ParseNumber(a, i)
  {
  }

  lemma NumberPrefix(a: Text, b: Text, i: nat)
    requires i < |a| && ParseNumber(a, i).Ok?
    ensures IntEnd(a + b, i).Ok?
  {
  }

  /**
   Consuming `a`, then its remainder followed by `b`, gives what consuming
   `a + b` at once gives exactly when no bare number is cut between them.
   */
  lemma {:induction false} ConsumeSplit(a: Text, b: Text)
    ensures var r := Consume(a); var q := Consume(r.rest + b);
            Consume(a + b) == Consumed(q.rest, r.outs + q.outs) <==> !CutsNumber(r, b)
    ensures var r := Consume(a);
            r.outs != [] && r.outs[|r.outs| - 1].Number? ==>
              |Consume(a + b).outs| >= |r.outs| && Consume(a + b).outs[|r.outs| - 1].Number?
    decreases |a|
  {
    hide ParseValue, SkipWs, CutsNumber, Blank, Consume;
    var r := Consume(a);
    var idx := SkipWs(a, 0);
    if Blank(a) || idx >= |a| || ParseValue(a, idx).Fail? {
      NothingRead(a);
      CutsTail(Null, r, b);
      assert [] + Consume(a + b).outs == Consume(a + b).outs;
    } else {
      OneRead(a);
      var e, v := ParseValue(a, idx).end, ParseValue(a, idx).value;
      var tail := Consume(a[e..]);
      CutsTail(v, tail, b);
      if |r.outs| == 1 && CutsNumber(r, b) {
        CutHere(a, b);
        assert (r.outs + Consume(r.rest + b).outs)[0] == v;
      } else {
        FirstKept(a, b);
        ConsumeSplit(a[e..], b);
        Prepended(v, Consume(a[e..] + b).outs, tail.outs, Consume(r.rest + b).outs);
      }
    }
  }

  /** The first value is a number that `b` carries on. */
  lemma CutHere(a: Text, b: Text)
    requires !Blank(a) && ParseValue(a, SkipWs(a, 0)).Ok? && |Consume(a).outs| == 1 && CutsNumber(Consume(a), b)
    ensures var outs := Consume(a + b).outs; outs != [] && outs[0].Number? && outs[0] != Consume(a).outs[0] && Consume(a).outs[0].Number?
  {
    hide ParseValue, SkipWs, Blank, Consume, NumberLength;
    OneRead(a);
    FirstValue(a, b);
    OneRead(a + b);
  }

  /** Otherwise the first value stays, and the rest follows from the rest. */
  lemma FirstKept(a: Text, b: Text)
    requires !Blank(a) && ParseValue(a, SkipWs(a, 0)).Ok? && !(|Consume(a).outs| == 1 && CutsNumber(Consume(a), b))
    ensures var Ok(v, e) := ParseValue(a, SkipWs(a, 0));
            Consume(a + b) == Consumed(Consume(a[e..] + b).rest, [v] + Consume(a[e..] + b).outs)
  {
    hide ParseValue, SkipWs, Blank, Consume, CutsNumber;
    FirstValue(a, b);
    OneRead(a + b);
    var e := ParseValue(a, SkipWs(a, 0)).end;
    assert (a + b)[e..] == a[e..] + b;
  }

  lemma CutsTail(v: Value, tail: Consumed, b: Text)
    ensures tail.outs == [] ==> !CutsNumber(tail, b)
    ensures tail.outs != [] ==> (CutsNumber(Consumed(tail.rest, [v] + tail.outs), b) <==> CutsNumber(tail, b))
  {
    if tail.outs != [] {
      assert ([v] + tail.outs)[|tail.outs|] == tail.outs[|tail.outs| - 1];
    }
  }

  lemma Prepended(v: Value, whole: seq<Value>, s: seq<Value>, t: seq<Value>)
    ensures [v] + whole == ([v] + s) + t <==> whole == s + t
  {
    assert ([v] + s) + t == [v] + (s + t);
    assert ([v] + whole)[1..] == whole && ([v] + (s + t))[1..] == s + t;
  }

  lemma RestIsAll(a: Text)
    requires Consume(a).outs == []
    ensures Consume(a).rest == a
  {
    hide ParseValue;
    if !Blank(a) && SkipWs(a, 0) < |a| && ParseValue(a, SkipWs(a, 0)).Ok? {
    } else {
      NothingRead(a);
    }
  }

  /** White space that is not JSON white space cannot make the index run off a buffer that is not blank. */
  lemma NothingRead(a: Text)
    requires Blank(a) || SkipWs(a, 0) >= |a| || ParseValue(a, SkipWs(a, 0)).Fail?
    ensures Consume(a) == Consumed(a, [])
  {
  }

  predicate NoNumbers(vs: seq<Value>) {
    forall k :: 0 <= k < |vs| ==> !vs[k].Number?
  }

  /** What is left after consuming holds no complete value. */
  lemma {:induction false} Drained(a: Text)
    ensures Consume(Consume(a).rest) == Consumed(Consume(a).rest, [])
    decreases |a|
  {
    var idx := SkipWs(a, 0);
    if Blank(a) || idx >= |a| || ParseValue(a, idx).Fail? {
      NothingRead(a);
    } else {
      Drained(a[ParseValue(a, idx).end..]);
    }
  }

  /**
   Chunk invariance: however a stream without bare top-level numbers is cut,
   the values emitted and the remainder are those of the whole text.
   */
  lemma {:induction false} ChunkInvariance(buf: Text, chunks: seq<Text>)
    requires Consume(buf) == Consumed(buf, [])
    requires NoNumbers(Consume(buf + Flatten(chunks)).outs)
    ensures Feed(buf, chunks) == Consume(buf + Flatten(chunks))
    decreases |chunks|
  {
    hide Consume, NumberLength;
    if chunks == [] {
      assert buf + [] == buf;
    } else {
      var a, b := buf + chunks[0], Flatten(chunks[1..]);
      var r := Consume(a);
      assert a + b == buf + Flatten(chunks);
      ConsumeSplit(a, b);
      assert !CutsNumber(r, b);
      Drained(a);
      var q := Consume(r.rest + b);
      assert forall k :: 0 <= k < |q.outs| ==> q.outs[k] == (r.outs + q.outs)[|r.outs| + k];
      ChunkInvariance(r.rest, chunks[1..]);
    }
  }

  /** The number `12` cut in two is read as `1` and `2`: bare numbers do not delimit themselves. */
  lemma BareNumberIsCut()
    ensures var one := [ZERO + 1]; var two := [ZERO + 2];
            CutsNumber(Consume(one), two) && Feed([], [one, two]) != Consume(one + two)
  {
    var one, two := [ZERO + 1], [ZERO + 2];
    OneDigit(ZERO + 1);
    OneDigit(ZERO + 2);
    TwoDigits(one + two);
    hide Consume, NumberLength, Feed;
    assert one + ([] + two) == one + two && [] + two == two;
    ConsumeSplit(one, two);
    FeedTwo(one, two);
  }

  lemma FeedTwo(a: Text, b: Text)
    ensures var r := Consume(a); var q := Consume(r.rest + b);
            Feed([], [a, b]) == Consumed(q.rest, r.outs + q.outs)
  {
    hide Consume;
    assert [a, b][1..] == [b] && [b][1..] == [] && [] + a == a;
    var r := Consume(a);
    var q := Consume(r.rest + b);
    assert Feed(r.rest, [b]) == Consumed(q.rest, q.outs + []);
    assert q.outs + [] == q.outs;
  }

  lemma TwoDigits(t: Text)
    requires |t| == 2 && t[0] == ZERO + 1 && IsDigit(t[1])
    ensures NumberLength(t) == 2
  {
    assert SkipDigits(t, 2) == 2;
    assert SkipDigits(t, 1) == 2;
  }

  lemma OneDigit(c: nat)
    requires IsDigit(c)
    ensures Consume([c]) == Consumed([], [Number([c])])
  {
    var t := [c];
    assert !IsPySpace(t[0]);
    assert IntEnd(t, 0).Ok? && ParseNumber(t, 0).end == 1 && t[0..1] == t;
    NumberStart(t, 0);
    assert Consume(t[1..]) == Consumed([], []);
    assert [Number(t)] + [] == [Number(t)];
  }

  // ----- Round trip -----

  /** A stream: objects, each with white space before it, and white space at the end. */
  datatype Part = Part(before: Text, d: Doc)

  predicate Grammatical(parts: seq<Part>) {
    forall k :: 0 <= k < |parts| ==> AllWs(parts[k].before) && ValidDoc(parts[k].d)
  }

  predicate IsObject(d: Doc) {
    d.DObj? || d.DEmptyObj?
  }

  predicate ValidParts(parts: seq<Part>) {
    Grammatical(parts) && forall k :: 0 <= k < |parts| ==> IsObject(parts[k].d)
  }

  function PrintStream(parts: seq<Part>, last: Text): Text {
    if parts == [] then last else parts[0].before + (Print(parts[0].d) + PrintStream(parts[1..], last))
  }

  function Meanings(parts: seq<Part>): (vs: seq<Value>)
    requires Grammatical(parts)
    ensures |vs| == |parts|
    ensures forall k :: 0 <= k < |vs| ==> vs[k] == Meaning(parts[k].d)
  {
    if parts == [] then [] else [Meaning(parts[0].d)] + Meanings(parts[1..])
  }

  lemma {:induction false} PrintedConsume(parts: seq<Part>, last: Text)
    requires ValidParts(parts) && AllWs(last)
    ensures Consume(PrintStream(parts, last)) == Consumed(last, Meanings(parts))
    decreases |parts|
  {
    hide ParseValue, SkipWs, Print, ValidDoc, Consume, Blank, IsPySpace, IsObject, Meaning;
    if parts == [] {
      NothingPrinted(last);
    } else {
      var w, d, tail := parts[0].before, parts[0].d, PrintStream(parts[1..], last);
      var u := w + (Print(d) + tail);
      ObjectFirst(u, w, d, tail);
      var e := |w| + |Print(d)|;
      assert u[e..] == tail;
      PrintedConsume(parts[1..], last);
      SomeNotBlank(u, |w|);
      OneRead(u);
    }
  }

  lemma NothingPrinted(last: Text)
    requires AllWs(last)
    ensures Consume(last) == Consumed(last, [])
  {
    assert Blank(last);
  }

  lemma SomeNotBlank(u: Text, k: nat)
    requires k < |u| && !IsPySpace(u[k])
    ensures !Blank(u)
  {
    hide IsPySpace;
  }

  lemma ObjectFirst(u: Text, w: Text, d: Doc, tail: Text)
    requires AllWs(w) && ValidDoc(d) && IsObject(d) && u == w + (Print(d) + tail)
    ensures SkipWs(u, 0) == |w| && |w| < |u| && !IsPySpace(u[|w|])
    ensures ParseValue(u, |w|) == Ok(Meaning(d), |w| + |Print(d)|)
  {
    hide ParseValue, ValidDoc, Meaning, AllWs, SkipWs, Print, At;
    ObjectHead(d);
    Within(w, Print(d), tail);
    WsRead(u, 0, w);
    DocRead(u, |w|, d);
  }

  lemma Within(w: Text, p: Text, tail: Text)
    ensures At(w + (p + tail), 0, w) && At(w + (p + tail), |w|, p)
    ensures |p| > 0 ==> (w + (p + tail))[|w|] == p[0]
  {
  }

  lemma ObjectHead(d: Doc)
    requires IsObject(d)
    ensures |Print(d)| > 0 && Print(d)[0] == OPEN_BRACE
  {
  }

  /**
   Round trip: any list of JSON objects, printed with any white space and any
   legal spelling and cut into any chunks, comes back in order and complete.
   */
  lemma RoundTrip(parts: seq<Part>, last: Text, chunks: seq<Text>)
    requires ValidParts(parts) && AllWs(last)
    requires Flatten(chunks) == PrintStream(parts, last)
    ensures Feed([], chunks) == Consumed(last, Meanings(parts))
    ensures Dicts(Feed([], chunks).outs) == Meanings(parts)
  {
    hide Consume, Feed, PrintStream, Dicts, Meanings, ValidParts;
    StreamOfObjects(parts);
    PrintedConsume(parts, last);
    EmptyConsume();
    assert [] + Flatten(chunks) == Flatten(chunks);
    ChunkInvariance([], chunks);
    AllDicts(Meanings(parts));
  }

  /**
   Soundness: the values read from a buffer and what is left of it account
   for all of its text.  The buffer is grammatical trees that denote the
   values, in order, with white space between them, and then the remainder.
   */
  lemma {:induction false} ConsumedIsPrinted(buf: Text) returns (parts: seq<Part>)
    ensures Grammatical(parts) && Meanings(parts) == Consume(buf).outs
    ensures buf == PrintStream(parts, Consume(buf).rest)
    decreases |buf|
  {
    hide ParseValue, SkipWs, Print, ValidDoc, Meaning, AllWs, At, Blank, Consume;
    var idx := SkipWs(buf, 0);
    if Blank(buf) || idx >= |buf| || ParseValue(buf, idx).Fail? {
      parts := [];
      NothingRead(buf);
    } else {
      var e := ParseValue(buf, idx).end;
      var d := ValueSound(buf, idx);
      var rest := ConsumedIsPrinted(buf[e..]);
      OneRead(buf);
      FirstPart(buf, d);
      parts := PartBefore(buf[..idx], d, rest, Consume(buf).rest);
    }
  }

  lemma PartBefore(w: Text, d: Doc, rest: seq<Part>, last: Text) returns (parts: seq<Part>)
    requires AllWs(w) && ValidDoc(d) && Grammatical(rest)
    ensures Grammatical(parts) && Meanings(parts) == [Meaning(d)] + Meanings(rest)
    ensures PrintStream(parts, last) == w + (Print(d) + PrintStream(rest, last))
  {
    hide AllWs, ValidDoc, Print, Meaning;
    parts := [Part(w, d)] + rest;
    assert parts[1..] == rest;
  }

  lemma FirstPart(buf: Text, d: Doc)
    requires At(buf, SkipWs(buf, 0), Print(d))
    ensures var idx := SkipWs(buf, 0); AllWs(buf[..idx]) && buf == buf[..idx] + (Print(d) + buf[idx + |Print(d)|..])
  {
    hide Print;
    var idx := SkipWs(buf, 0);
    assert buf[idx..idx + |Print(d)|] == Print(d);
  }

  lemma StreamOfObjects(parts: seq<Part>)
    requires ValidParts(parts)
    ensures Grammatical(parts) && forall k :: 0 <= k < |parts| ==> Meanings(parts)[k].Obj?
  {
    hide ValidDoc, AllWs, Dict, MemberPairs, StringMeaning, ItemValues;
  }

  lemma EmptyConsume()
    ensures Consume([]) == Consumed([], [])
  {
  }

  lemma {:induction false} AllDicts(vs: seq<Value>)
    requires forall k :: 0 <= k < |vs| ==> vs[k].Obj?
    ensures Dicts(vs) == vs
  {
    if vs != [] { AllDicts(vs[..|vs| - 1]); }
  }
}
