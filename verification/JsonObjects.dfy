/**
 What the decoder's values hold, said without the functions that build them:
 the entries of an object, the escapes and hex digits of a string, and the
 characters beyond the basic plane.
 */
module JsonObjects {
  import opened Sums
  import opened Json
  import opened JsonGrammar
  import opened JsonSound
  import opened StreamFraming

  // ----- The alphabet -----

  function Codes(s: string): (t: Text)
    ensures |t| == |s| && forall i :: 0 <= i < |s| ==> t[i] == s[i] as nat
  {
    seq(|s|, i requires 0 <= i < |s| => s[i] as nat)
  }

  /** The characters of RFC 8259, section 2. */
  lemma Alphabet(c: nat)
    ensures IsWs(c) <==> c == ' ' as nat || c == '\t' as nat || c == '\n' as nat || c == '\r' as nat
    ensures IsDigit(c) <==> '0' as nat <= c <= '9' as nat
    ensures IsExp(c) <==> c == 'e' as nat || c == 'E' as nat
    ensures IsSign(c) <==> c == '+' as nat || c == '-' as nat
    ensures [OPEN_BRACKET, CLOSE_BRACKET, OPEN_BRACE, CLOSE_BRACE, COLON, COMMA] == Codes("[]{}:,")
    ensures [QUOTE, BACKSLASH, MINUS, DOT, ZERO, LOWER_U] == Codes("\"\\-.0u")
  {
  }

  /** The words, as they are spelled. */
  lemma Words()
    ensures WordText(Null) == Codes("null") && WordText(Bool(true)) == Codes("true") && WordText(Bool(false)) == Codes("false")
    ensures NAN_WORD == Codes("NaN") && INFINITY_WORD == Codes("Infinity") && MINUS_INFINITY_WORD == Codes("-Infinity")
  {
  }

  // ----- Strings -----

  /** The eight short escapes of section 7, and no others. */
  lemma Escapes(c: nat)
    ensures IsShort(c) <==> c in Codes("\"\\/bfnrt")
    ensures [ShortValue('\"' as nat), ShortValue('\\' as nat), ShortValue('/' as nat), ShortValue('b' as nat)] == [0x22, 0x5C, 0x2F, 0x08]
    ensures [ShortValue('f' as nat), ShortValue('n' as nat), ShortValue('r' as nat), ShortValue('t' as nat)] == [0x0C, 0x0A, 0x0D, 0x09]
  {
    var t := Codes("\"\\/bfnrt");
    assert t == [34, 92, 47, 98, 102, 110, 114, 116];
  }

  /** A hex digit counts its place in the row of sixteen, in either case. */
  lemma HexPlaces(n: nat)
    requires n < 16
    ensures IsHex(Codes("0123456789abcdef")[n]) && HexValue(Codes("0123456789abcdef")[n]) == n
    ensures IsHex(Codes("0123456789ABCDEF")[n]) && HexValue(Codes("0123456789ABCDEF")[n]) == n
  {
  }

  /** There are no other hex digits. */
  lemma HexOnly(c: nat)
    requires IsHex(c)
    ensures c in Codes("0123456789abcdef") || c in Codes("0123456789ABCDEF")
  {
    var low, up := Codes("0123456789abcdef"), Codes("0123456789ABCDEF");
    if c <= 57 { assert low[c - 48] == c; } else if c <= 70 { assert up[c - 55] == c; } else { assert low[c - 87] == c; }
  }

  /** Four hex digits are a number in base sixteen, most significant first. */
  lemma FourDigits(a: nat, b: nat, c: nat, d: nat)
    requires IsHex(a) && IsHex(b) && IsHex(c) && IsHex(d)
    ensures Unit(Unicode(a, b, c, d)) == ((HexValue(a) * 16 + HexValue(b)) * 16 + HexValue(c)) * 16 + HexValue(d)
  {
  }

  /** Joining inverts the UTF-16 split of a character beyond the basic plane. */
  lemma JoinOfSplit(c: nat)
    requires 0x10000 <= c <= 0x10FFFF
    ensures var high, low := 0xD800 + (c - 0x10000) / 0x400, 0xDC00 + (c - 0x10000) % 0x400;
            IsHigh(high) && IsLow(low) && Join(high, low) == c
  {
  }

  lemma SplitOfJoin(high: nat, low: nat)
    requires IsHigh(high) && IsLow(low)
    ensures var c := Join(high, low);
            0x10000 <= c <= 0x10FFFF && high == 0xD800 + (c - 0x10000) / 0x400 && low == 0xDC00 + (c - 0x10000) % 0x400
  {
  }

  // ----- Objects, by index -----

  /** The key of the i-th pair, and no later pair, is `key`. */
  predicate LastAt(pairs: seq<(Text, Value)>, key: Text, i: int) {
    0 <= i < |pairs| && pairs[i].0 == key && forall j :: i < j < |pairs| ==> pairs[j].0 != key
  }

  /** A dictionary holds a key exactly when some pair has it, with the value of the last that does. */
  ghost predicate LastWins(m: map<Text, Value>, pairs: seq<(Text, Value)>) {
    && (forall key :: key in m <==> exists i :: 0 <= i < |pairs| && pairs[i].0 == key)
    && (forall key, i :: LastAt(pairs, key, i) ==> key in m && m[key] == pairs[i].1)
  }

  lemma {:induction false} DictLastWins(pairs: seq<(Text, Value)>)
    ensures LastWins(Dict(pairs), pairs)
    decreases |pairs|
  {
    if pairs != [] {
      var l := |pairs| - 1;
      var init := pairs[..l];
      DictLastWins(init);
      assert forall i :: 0 <= i < l ==> init[i] == pairs[i];
      forall key ensures key in Dict(pairs) <==> exists i :: 0 <= i < |pairs| && pairs[i].0 == key {
        if key in Dict(init) {
          var i :| 0 <= i < l && init[i].0 == key;
          assert pairs[i].0 == key;
        }
        if key == pairs[l].0 { assert pairs[l].0 == key; }
      }
      forall key, i | LastAt(pairs, key, i) ensures key in Dict(pairs) && Dict(pairs)[key] == pairs[i].1 {
        if i < l { assert LastAt(init, key, i); }
      }
    }
  }

  /** Reading a printed object gives the dictionary of its members in which the last value of a repeated key wins. */
  lemma ObjectEntries(u: Text, i: nat, d: Doc)
    requires d.DObj? && ValidDoc(d) && At(u, i, Print(d))
    ensures i <= |u| && ParseValue(u, i).Ok? && ParseValue(u, i).value.Obj? && LastWins(ParseValue(u, i).value.members, MemberPairs(d.members))
  {
    hide ParseValue, At, Print, LastWins;
    DocRead(u, i, d);
    DictLastWins(MemberPairs(d.members));
  }

  // ----- What a tree denotes, as a relation -----

  function KeysOf(t: Members): set<Text>
    requires ValidMembers(t)
  {
    {StringMeaning(t.key)} + if t.LastMember? then {} else KeysOf(t.rest)
  }

  /** The value says what the tree says: elements in order, and for each key the value of its last member. */
  ghost predicate Denotes(v: Value, d: Doc)
    requires ValidDoc(d)
    decreases d
  {
    match d
    case DWord(w) => v == w
    case DNum(n) => v == Number(NumText(n))
    case DStr(ps) => v == Str(StringMeaning(ps))
    case DEmptyArr(_) => v == Arr([])
    case DArr(_, items) => v.Arr? && DenotesItems(v.items, items)
    case DEmptyObj(_) => v == Obj(map[])
    case DObj(_, members) => v.Obj? && v.members.Keys == KeysOf(members) && DenotesMembers(v.members, members)
  }

  ghost predicate DenotesItems(vs: seq<Value>, t: Items)
    requires ValidItems(t)
    decreases t
  {
    && vs != [] && Denotes(vs[0], t.d)
    && if t.LastItem? then |vs| == 1 else DenotesItems(vs[1..], t.rest)
  }

  ghost predicate DenotesMembers(m: map<Text, Value>, t: Members)
    requires ValidMembers(t)
    decreases t
  {
    var key := StringMeaning(t.key);
    && (t.LastMember? || key !in KeysOf(t.rest) ==> key in m && Denotes(m[key], t.d))
    && (t.MoreMembers? ==> DenotesMembers(m, t.rest))
  }

  lemma {:induction false} MeaningDenotes(d: Doc)
    requires ValidDoc(d)
    ensures Denotes(Meaning(d), d)
    decreases d, 0
  {
    hide Dict, StringMeaning, NumText, LastWins;
    match d
    case DArr(_, items) => ItemsDenote(items);
    case DObj(_, members) =>
      DictLastWins(MemberPairs(members));
      KeysArePairs(members);
      KeysOfDict(Dict(MemberPairs(members)), members);
      MembersDenote(Dict(MemberPairs(members)), MemberPairs(members), 0, members);
    case _ =>
  }

  lemma {:induction false} ItemsDenote(t: Items)
    requires ValidItems(t)
    ensures DenotesItems(ItemValues(t), t)
    decreases t, 0
  {
    hide Denotes, Meaning;
    MeaningDenotes(t.d);
    if t.MoreItems? {
      ItemsDenote(t.rest);
      assert ItemValues(t)[1..] == ItemValues(t.rest);
    }
  }

  /** The keys of the members are the keys of their pairs. */
  lemma {:induction false} KeysArePairs(t: Members)
    requires ValidMembers(t)
    ensures forall key :: key in KeysOf(t) <==> exists i :: 0 <= i < |MemberPairs(t)| && MemberPairs(t)[i].0 == key
    decreases t
  {
    hide StringMeaning, Meaning;
    if t.MoreMembers? {
      KeysArePairs(t.rest);
      var pairs, rest := MemberPairs(t), MemberPairs(t.rest);
      assert forall i :: 0 <= i < |rest| ==> pairs[i + 1] == rest[i];
      forall key | key in KeysOf(t) ensures exists i :: 0 <= i < |pairs| && pairs[i].0 == key {
        if key in KeysOf(t.rest) {
          var i :| 0 <= i < |rest| && rest[i].0 == key;
          assert pairs[i + 1].0 == key;
        } else {
          assert pairs[0].0 == key;
        }
      }
      forall i | 0 <= i < |pairs| ensures pairs[i].0 in KeysOf(t) {
        if i > 0 { assert pairs[i] == rest[i - 1]; }
      }
    } else {
      assert MemberPairs(t)[0].0 == StringMeaning(t.key);
    }
  }

  lemma KeysOfDict(m: map<Text, Value>, t: Members)
    requires ValidMembers(t) && LastWins(m, MemberPairs(t))
    requires forall key :: key in KeysOf(t) <==> exists i :: 0 <= i < |MemberPairs(t)| && MemberPairs(t)[i].0 == key
    ensures m.Keys == KeysOf(t)
  {
    hide MemberPairs, KeysOf;
  }

  lemma {:induction false} MembersDenote(m: map<Text, Value>, all: seq<(Text, Value)>, k: nat, t: Members)
    requires ValidMembers(t) && LastWins(m, all) && k <= |all| && all[k..] == MemberPairs(t)
    ensures DenotesMembers(m, t)
    decreases t, 0
  {
    hide StringMeaning, Meaning, Denotes, KeysOf;
    MeaningDenotes(t.d);
    var key := StringMeaning(t.key);
    assert all[k] == MemberPairs(t)[0];
    if t.MoreMembers? {
      assert all[k + 1..] == MemberPairs(t)[1..] == MemberPairs(t.rest);
      MembersDenote(m, all, k + 1, t.rest);
      KeysArePairs(t.rest);
      if key !in KeysOf(t.rest) {
        forall j | k < j < |all| ensures all[j].0 != key { assert all[j] == MemberPairs(t.rest)[j - k - 1]; }
        assert LastAt(all, key, k);
      }
    } else {
      assert |all| == k + 1;
      assert LastAt(all, key, k);
    }
  }

  /** A tree denotes one value only. */
  lemma {:induction false} DenotesOne(v: Value, w: Value, d: Doc)
    requires ValidDoc(d) && Denotes(v, d) && Denotes(w, d)
    ensures v == w
    decreases d, 0
  {
    hide StringMeaning, NumText, KeysOf;
    match d
    case DArr(_, items) => ItemsOne(v.items, w.items, items);
    case DObj(_, members) =>
      MembersOne(v.members, w.members, members);
      assert v.members == w.members;
    case _ =>
  }

  lemma {:induction false} ItemsOne(vs: seq<Value>, ws: seq<Value>, t: Items)
    requires ValidItems(t) && DenotesItems(vs, t) && DenotesItems(ws, t)
    ensures vs == ws
    decreases t, 0
  {
    hide Denotes;
    DenotesOne(vs[0], ws[0], t.d);
    if t.MoreItems? { ItemsOne(vs[1..], ws[1..], t.rest); }
    assert vs == [vs[0]] + vs[1..] && ws == [ws[0]] + ws[1..];
  }

  lemma {:induction false} MembersOne(m: map<Text, Value>, n: map<Text, Value>, t: Members)
    requires ValidMembers(t) && DenotesMembers(m, t) && DenotesMembers(n, t)
    ensures forall key :: key in KeysOf(t) ==> key in m && key in n && m[key] == n[key]
    decreases t, 0
  {
    hide Denotes, StringMeaning;
    var key := StringMeaning(t.key);
    if t.LastMember? || key !in KeysOf(t.rest) { DenotesOne(m[key], n[key], t.d); }
    if t.MoreMembers? { MembersOne(m, n, t.rest); }
  }

  // ----- The decoder and the stream -----

  /** Reading a printed tree gives the one value it denotes. */
  lemma DecodesToDenoted(u: Text, i: nat, d: Doc, v: Value)
    requires ValidDoc(d) && At(u, i, Print(d)) && (d.DNum? ==> Ends(u, i + |Print(d)|))
    ensures i <= |u| && ParseValue(u, i).Ok? && (ParseValue(u, i).value == v <==> Denotes(v, d))
  {
    hide ParseValue, At, Print, Meaning, Denotes, ValidDoc;
    DocRead(u, i, d);
    MeaningDenotes(d);
    if Denotes(v, d) { DenotesOne(v, Meaning(d), d); }
  }

  /** The stream's round trip: any printed list of objects, in any chunks, comes back as the values the objects denote, in order. */
  lemma StreamDenotes(parts: seq<Part>, last: Text, chunks: seq<Text>)
    requires ValidParts(parts) && AllWs(last) && Flatten(chunks) == PrintStream(parts, last)
    ensures var outs := Dicts(Feed([], chunks).outs);
            |outs| == |parts| && forall k :: 0 <= k < |parts| ==> Denotes(outs[k], parts[k].d)
    ensures Feed([], chunks).rest == last
  {
    hide Denotes, Meaning, ValidDoc, Feed, Dicts, PrintStream, IsObject;
    RoundTrip(parts, last, chunks);
    forall k | 0 <= k < |parts| ensures Denotes(Meanings(parts)[k], parts[k].d) {
      MeaningDenotes(parts[k].d);
    }
  }

  /** The dictionaries of a list are its objects, each as often as it occurs; with `DictsConcat`, in order. */
  lemma {:induction false} DictsAreObjects(vs: seq<Value>, v: Value)
    ensures multiset(Dicts(vs))[v] == if v.Obj? then multiset(vs)[v] else 0
    decreases |vs|
  {
    if vs != [] {
      var l := |vs| - 1;
      DictsAreObjects(vs[..l], v);
      assert vs == vs[..l] + [vs[l]];
    }
  }
}
