/** The reader accepts exactly the grammar, and returns what the text means. */
module JsonExact {
  import opened Basics
  import opened JsonGrammar

  predicate Stops(s: Bytes) {
    s == [] || !IsDigit(s[0])
  }

  // ---- white space

  lemma {:induction false} SkipSpace(w: Bytes, s: Bytes)
    requires Space(w) && (s == [] || !IsSpace(s[0]))
    ensures Skip(w + s) == s
  {
    if w == [] {
      assert w + s == s;
    } else {
      assert w[0] in w;
      assert (w + s)[1..] == w[1..] + s;
      SkipSpace(w[1..], s);
    }
  }

  lemma {:induction false} SkipSplits(s: Bytes) returns (w: Bytes)
    ensures Space(w) && s == w + Skip(s)
    ensures Skip(s) == [] || !IsSpace(Skip(s)[0])
  {
    if s != [] && IsSpace(s[0]) {
      var v := SkipSplits(s[1..]);
      w := [s[0]] + v;
      assert s == [s[0]] + s[1..];
    } else {
      w := [];
    }
  }

  // ---- strings

  lemma {:induction false} ScanComplete(b: Bytes, rest: Bytes)
    requires IsBody(b)
    ensures ScanBody(b + [QUOTE] + rest) == Some(|b| + 1)
    decreases |b|
  {
    var s := b + [QUOTE] + rest;
    if b == [] {
      assert s[0] == QUOTE;
    } else if b[0] == BACKSLASH {
      assert s[2..] == b[2..] + [QUOTE] + rest;
      ScanComplete(b[2..], rest);
    } else {
      assert s[1..] == b[1..] + [QUOTE] + rest;
      ScanComplete(b[1..], rest);
    }
  }

  lemma {:induction false} ScanSound(s: Bytes)
    requires ScanBody(s).Some?
    ensures var n := ScanBody(s).value; s[n - 1] == QUOTE && IsBody(s[..n - 1])
    decreases |s|
  {
    var n := ScanBody(s).value;
    if s[0] == QUOTE {
      assert s[..n - 1] == [];
    } else if s[0] == BACKSLASH {
      ScanSound(s[2..]);
      assert s[..n - 1][2..] == s[2..][..n - 3];
    } else {
      ScanSound(s[1..]);
      assert s[..n - 1][1..] == s[1..][..n - 2];
    }
  }

  lemma StringComplete(c: Config, t: Bytes, rest: Bytes)
    requires IsToken(t) && c.decode(t).Some?
    ensures ReadString(c, t + rest) == Some((c.decode(t).value, rest))
  {
    var s, b := t + rest, t[1..|t| - 1];
    ScanComplete(b, rest);
    assert s[1..] == b + [QUOTE] + rest;
    assert s[..|t|] == t && s[|t|..] == rest;
  }

  lemma StringSound(c: Config, s: Bytes) returns (t: Bytes)
    requires ReadString(c, s).Some?
    ensures IsToken(t) && c.decode(t) == Some(ReadString(c, s).value.0) && s == t + ReadString(c, s).value.1
  {
    ScanSound(s[1..]);
    var n := ScanBody(s[1..]).value + 1;
    t := s[..n];
    assert t[1..|t| - 1] == s[1..][..n - 2];
  }

  // ---- numbers

  lemma {:induction false} DigitsCounted(ds: Bytes, rest: Bytes)
    requires (forall d | d in ds :: IsDigit(d)) && Stops(rest)
    ensures CountDigits(ds + rest) == |ds|
  {
    if ds == [] {
      assert ds + rest == rest;
    } else {
      assert ds[0] in ds;
      assert (ds + rest)[1..] == ds[1..] + rest;
      DigitsCounted(ds[1..], rest);
    }
  }

  lemma NumberComplete(negative: bool, ds: Bytes, rest: Bytes)
    requires IsNumber(negative, ds) && Stops(rest)
    ensures var s := (if negative then [MINUS] else []) + ds + rest;
      s != [] && (s[0] == MINUS || IsDigit(s[0]))
      && ReadNumber(s) == Some((Number(if negative then -DigitsValue(ds) else DigitsValue(ds)), rest))
  {
    hide DigitsValue;
    var s := (if negative then [MINUS] else []) + ds + rest;
    assert ds[0] in ds;
    var t := if negative then s[1..] else s;
    assert t == ds + rest;
    DigitsCounted(ds, rest);
    assert t[..|ds|] == ds && t[|ds|..] == rest;
  }

  lemma NumberSound(s: Bytes) returns (negative: bool, ds: Bytes)
    requires s != [] && ReadNumber(s).Some?
    ensures IsNumber(negative, ds)
    ensures ReadNumber(s).value.0 == Number(if negative then -DigitsValue(ds) else DigitsValue(ds))
    ensures s == (if negative then [MINUS] else []) + ds + ReadNumber(s).value.1
  {
    negative := s[0] == MINUS;
    var t := if negative then s[1..] else s;
    ds := t[..CountDigits(t)];
    assert t == ds + t[|ds|..];
  }

  // ---- the first byte tells what follows

  predicate Opener(b: Byte) {
    !IsSpace(b) && b != CLOSE_LIST && b != CLOSE_MAP && b != COMMA && b != COLON
  }

  lemma FirstByte(c: Config, t: Tree)
    requires Meaning(c, t).Some?
    ensures Text(t) != [] && Opener(Text(t)[0])
  {
    if t.Digits? && !t.negative {
      assert t.digits[0] in t.digits;
    }
  }

  lemma OpensAt(c: Config, p: Padded, rest: Bytes)
    requires PaddedMeaning(c, p).Some?
    ensures var s := Skip(PaddedText(p) + rest); s != [] && Opener(s[0])
    ensures PaddedText(p) + rest == p.before + Text(p.tree) + (p.after + rest)
  {
    FirstByte(c, p.tree);
    assert PaddedText(p) + rest == p.before + (Text(p.tree) + (p.after + rest));
    SkipSpace(p.before, Text(p.tree) + (p.after + rest));
  }

  lemma AfterStops(w: Bytes, b: Byte, rest: Bytes)
    requires Space(w) && !IsDigit(b)
    ensures Stops(w + [b] + rest)
  {
    if w != [] { assert w[0] in w; }
  }

  // ---- every well-formed text is read

  /** The white space before a value does not matter. */
  lemma ValueSkips(c: Config, w: Bytes, s: Bytes, depth: nat)
    requires Space(w) && s != [] && !IsSpace(s[0])
    ensures Skip(w + s) == s
    ensures ReadValue(c, w + s, depth) == ReadValue(c, s, depth)
  {
    SkipSpace(w, s);
    SkipSpace([], s);
    assert [] + s == s;
  }

  lemma WordComplete(c: Config, t: Tree, rest: Bytes, depth: nat)
    requires t in {NullWord, TrueWord, FalseWord} && depth <= c.depth
    ensures ReadValue(c, Text(t) + rest, depth) == Some((Meaning(c, t).value, rest))
  {
    var s := Text(t) + rest;
    assert Skip(s) == s;
    assert Text(t) <= s && s[|Text(t)|..] == rest;
    hide ReadMembers, ReadElements;
  }

  lemma GapComplete(gap: Bytes, close: Byte, rest: Bytes)
    requires Space(gap) && !IsSpace(close)
    ensures Skip(gap + [close] + rest) == [close] + rest
  {
    SkipSpace(gap, [close] + rest);
    assert gap + [close] + rest == gap + ([close] + rest);
  }

  lemma GapReads(c: Config, open: Byte, gap: Bytes, close: Byte, v: Value, rest: Bytes, depth: nat)
    requires Space(gap) && depth <= c.depth
    requires (open, close, v) in {(OPEN_LIST, CLOSE_LIST, List([])), (OPEN_MAP, CLOSE_MAP, Object(map[]))}
    ensures ReadValue(c, [open] + gap + [close] + rest, depth) == Some((v, rest))
  {
    hide ReadMembers, ReadElements, ReadString, ReadNumber, ReadWord;
    var s := [open] + gap + [close] + rest;
    assert Skip(s) == s && s[1..] == gap + [close] + rest;
    GapComplete(gap, close, rest);
    assert ([close] + rest)[1..] == rest;
  }

  lemma NumberReads(c: Config, negative: bool, ds: Bytes, rest: Bytes, depth: nat)
    requires IsNumber(negative, ds) && Stops(rest) && depth <= c.depth
    ensures ReadValue(c, (if negative then [MINUS] else []) + ds + rest, depth)
         == Some((Number(if negative then -DigitsValue(ds) else DigitsValue(ds)), rest))
  {
    hide ReadMembers, ReadElements, ReadString, ReadNumber, ReadWord, DigitsValue;
    NumberComplete(negative, ds, rest);
  }

  lemma TokenReads(c: Config, token: Bytes, rest: Bytes, depth: nat)
    requires IsToken(token) && c.decode(token).Some? && depth <= c.depth
    ensures ReadValue(c, token + rest, depth) == Some((String(c.decode(token).value), rest))
  {
    hide ReadMembers, ReadElements, ReadString, ReadNumber, ReadWord, IsBody;
    StringComplete(c, token, rest);
    assert (token + rest)[0] == QUOTE;
  }

  lemma LeafComplete(c: Config, t: Tree, rest: Bytes, depth: nat)
    requires Meaning(c, t).Some? && !t.FullList? && !t.FullMap? && depth <= c.depth && (t.Digits? ==> Stops(rest))
    ensures ReadValue(c, Text(t) + rest, depth) == Some((Meaning(c, t).value, rest))
  {
    hide ReadValue, DigitsValue, IsBody;
    match t
    case Digits(negative, ds) => NumberReads(c, negative, ds, rest, depth);
    case Quoted(token) => TokenReads(c, token, rest, depth);
    case EmptyList(gap) => GapReads(c, OPEN_LIST, gap, CLOSE_LIST, List([]), rest, depth);
    case EmptyMap(gap) => GapReads(c, OPEN_MAP, gap, CLOSE_MAP, Object(map[]), rest, depth);
    case _ => WordComplete(c, t, rest, depth);
  }

  /** A value and the white space around it, before a byte that ends it. */
  lemma {:induction false} PaddedComplete(c: Config, p: Padded, b: Byte, rest: Bytes, depth: nat)
    requires PaddedMeaning(c, p).Some? && depth + Height(p.tree) <= c.depth && !IsDigit(b) && !IsSpace(b)
    ensures var r := ReadValue(c, PaddedText(p) + [b] + rest, depth);
      r.Some? && r.value.0 == PaddedMeaning(c, p).value && Skip(r.value.1) == [b] + rest
    decreases p, 1
  {
    var tail := p.after + [b] + rest;
    AfterStops(p.after, b, rest);
    TreeComplete(c, p.tree, tail, depth);
    FirstByte(c, p.tree);
    ValueSkips(c, p.before, Text(p.tree) + tail, depth);
    assert PaddedText(p) + [b] + rest == p.before + (Text(p.tree) + tail);
    GapComplete(p.after, b, rest);
  }

  lemma {:induction false} TreeComplete(c: Config, t: Tree, rest: Bytes, depth: nat)
    requires Meaning(c, t).Some? && depth + Height(t) <= c.depth && (t.Digits? ==> Stops(rest))
    ensures ReadValue(c, Text(t) + rest, depth) == Some((Meaning(c, t).value, rest))
    decreases t, 0
  {
    if t.FullList? {
      ElementsComplete(c, t.elements, rest, depth);
      ListReads(c, t.elements, rest, depth);
    } else if t.FullMap? {
      MembersComplete(c, t.entries, map[], rest, depth);
      MapReads(c, t.entries, rest, depth);
    } else {
      LeafComplete(c, t, rest, depth);
    }
  }

  lemma ElementsOpen(c: Config, es: Elements, rest: Bytes)
    requires ElementsMeaning(c, es).Some?
    ensures !Begins(Skip(ElementsText(es) + [CLOSE_LIST] + rest), CLOSE_LIST)
  {
    match es
    case Last(p) =>
      OpensAt(c, p, [CLOSE_LIST] + rest);
      assert ElementsText(es) + [CLOSE_LIST] + rest == PaddedText(p) + ([CLOSE_LIST] + rest);
    case More(p, more) =>
      var tail := [COMMA] + ElementsText(more) + [CLOSE_LIST] + rest;
      OpensAt(c, p, tail);
      assert ElementsText(es) + [CLOSE_LIST] + rest == PaddedText(p) + tail;
  }

  lemma ListReads(c: Config, es: Elements, rest: Bytes, depth: nat)
    requires ElementsMeaning(c, es).Some? && depth <= c.depth
    requires ReadElements(c, ElementsText(es) + [CLOSE_LIST] + rest, depth)
          == Some((ElementsMeaning(c, es).value, rest))
    ensures ReadValue(c, Text(FullList(es)) + rest, depth) == Some((Meaning(c, FullList(es)).value, rest))
  {
    var s := Text(FullList(es)) + rest;
    ElementsOpen(c, es, rest);
    hide ReadElements, ReadMembers, ElementsMeaning, ElementsText;
    assert Skip(s) == s;
    assert s[1..] == ElementsText(es) + [CLOSE_LIST] + rest;
  }

  lemma {:induction false} ElementsComplete(c: Config, es: Elements, rest: Bytes, depth: nat)
    requires ElementsMeaning(c, es).Some? && depth + 1 + ElementsHeight(es) <= c.depth
    ensures ReadElements(c, ElementsText(es) + [CLOSE_LIST] + rest, depth)
         == Some((ElementsMeaning(c, es).value, rest))
    decreases es, 0
  {
    hide ReadValue, ReadMembers, Skip, Height;
    match es
    case Last(p) =>
      PaddedComplete(c, p, CLOSE_LIST, rest, depth + 1);
    case More(p, more) =>
      var tail := ElementsText(more) + [CLOSE_LIST] + rest;
      PaddedComplete(c, p, COMMA, tail, depth + 1);
      ElementsComplete(c, more, rest, depth);
      assert ElementsText(es) + [CLOSE_LIST] + rest == PaddedText(p) + [COMMA] + tail;
      assert ([COMMA] + tail)[1..] == tail;
  }

  lemma {:induction false} MemberComplete(c: Config, m: Member, b: Byte, rest: Bytes, depth: nat)
    requires MemberMeaning(c, m).Some? && depth + 1 + Height(m.value.tree) <= c.depth && !IsDigit(b) && !IsSpace(b)
    ensures var r := ReadMember(c, MemberText(m) + [b] + rest, depth);
      r.Some? && (r.value.0, r.value.1) == MemberMeaning(c, m).value && Skip(r.value.2) == [b] + rest
    decreases m, 0
  {
    var tail := PaddedText(m.value) + [b] + rest;
    var after := m.middle + [COLON] + tail;
    assert MemberText(m) + [b] + rest == m.before + (m.key + after);
    SkipSpace(m.before, m.key + after);
    StringComplete(c, m.key, after);
    GapComplete(m.middle, COLON, tail);
    assert ([COLON] + tail)[1..] == tail;
    PaddedComplete(c, m.value, b, rest, depth + 1);
    hide ReadValue, ReadMembers, Skip, Height, ReadString, IsBody, Meaning, Space;
  }

  lemma MembersOpen(c: Config, ms: Members, seen: map<string, Value>, rest: Bytes)
    requires MembersMeaning(c, ms, seen).Some?
    ensures !Begins(Skip(MembersText(ms) + [CLOSE_MAP] + rest), CLOSE_MAP)
  {
    var m := ms.member;
    var tail := m.middle + [COLON] + PaddedText(m.value)
                + (if ms.LastMember? then [] else [COMMA] + MembersText(ms.others)) + [CLOSE_MAP] + rest;
    assert MembersText(ms) + [CLOSE_MAP] + rest == m.before + (m.key + tail);
    SkipSpace(m.before, m.key + tail);
  }

  lemma MapReads(c: Config, ms: Members, rest: Bytes, depth: nat)
    requires MembersMeaning(c, ms, map[]).Some? && depth <= c.depth
    requires ReadMembers(c, MembersText(ms) + [CLOSE_MAP] + rest, depth, map[])
          == Some((MembersMeaning(c, ms, map[]).value, rest))
    ensures ReadValue(c, Text(FullMap(ms)) + rest, depth) == Some((Meaning(c, FullMap(ms)).value, rest))
  {
    var s := Text(FullMap(ms)) + rest;
    MembersOpen(c, ms, map[], rest);
    hide ReadElements, ReadMembers, MembersMeaning, MembersText;
    assert Skip(s) == s;
    assert s[1..] == MembersText(ms) + [CLOSE_MAP] + rest;
  }

  lemma {:induction false} MembersComplete(c: Config, ms: Members, seen: map<string, Value>, rest: Bytes, depth: nat)
    requires MembersMeaning(c, ms, seen).Some? && depth + 1 + MembersHeight(ms) <= c.depth
    ensures ReadMembers(c, MembersText(ms) + [CLOSE_MAP] + rest, depth, seen)
         == Some((MembersMeaning(c, ms, seen).value, rest))
    decreases ms, 0
  {
    hide ReadMember, Skip, Height, MemberMeaning, MemberText;
    match ms
    case LastMember(m) =>
      MemberComplete(c, m, CLOSE_MAP, rest, depth);
    case MoreMembers(m, more) =>
      var tail := MembersText(more) + [CLOSE_MAP] + rest;
      var kv := MemberMeaning(c, m).value;
      MemberComplete(c, m, COMMA, tail, depth);
      MembersComplete(c, more, seen[kv.0 := kv.1], rest, depth);
      assert MembersText(ms) + [CLOSE_MAP] + rest == MemberText(m) + [COMMA] + tail;
      assert ([COMMA] + tail)[1..] == tail;
  }

  // ---- whatever is read is well formed

  lemma LeafSound(c: Config, s: Bytes, depth: nat) returns (t: Tree)
    requires s != [] && !IsSpace(s[0]) && ReadValue(c, s, depth).Some?
    requires s[0] != OPEN_LIST && s[0] != OPEN_MAP
    ensures Meaning(c, t) == Some(ReadValue(c, s, depth).value.0) && s == Text(t) + ReadValue(c, s, depth).value.1
    ensures Height(t) == 0
  {
    hide ReadMembers, ReadElements, ScanBody, DigitsValue, IsBody;
    assert Skip(s) == s;
    if s[0] == QUOTE {
      var token := StringSound(c, s);
      t := Quoted(token);
    } else if s[0] == TRUE[0] {
      t := TrueWord;
    } else if s[0] == FALSE[0] {
      t := FalseWord;
    } else if s[0] == NULL[0] {
      t := NullWord;
    } else {
      var negative, ds := NumberSound(s);
      t := Digits(negative, ds);
    }
  }

  lemma {:induction false} ValueSound(c: Config, input: Bytes, depth: nat) returns (w: Bytes, t: Tree)
    requires ReadValue(c, input, depth).Some?
    ensures Space(w) && input == w + Text(t) + ReadValue(c, input, depth).value.1
    ensures Meaning(c, t) == Some(ReadValue(c, input, depth).value.0) && depth + Height(t) <= c.depth
    decreases |input|, 2
  {
    w := SkipSplits(input);
    var s := Skip(input);
    ValueSkips(c, w, s, depth);
    t := TreeSound(c, s, depth);
  }

  lemma {:induction false} TreeSound(c: Config, s: Bytes, depth: nat) returns (t: Tree)
    requires s != [] && !IsSpace(s[0]) && ReadValue(c, s, depth).Some?
    ensures s == Text(t) + ReadValue(c, s, depth).value.1
    ensures Meaning(c, t) == Some(ReadValue(c, s, depth).value.0) && depth + Height(t) <= c.depth
    decreases |s|, 1
  {
    if s[0] == OPEN_LIST {
      t := ListSound(c, s, depth);
    } else if s[0] == OPEN_MAP {
      t := MapSound(c, s, depth);
    } else {
      t := LeafSound(c, s, depth);
    }
  }

  lemma {:induction false} ListSound(c: Config, s: Bytes, depth: nat) returns (t: Tree)
    requires s != [] && s[0] == OPEN_LIST && ReadValue(c, s, depth).Some?
    ensures s == Text(t) + ReadValue(c, s, depth).value.1
    ensures Meaning(c, t) == Some(ReadValue(c, s, depth).value.0) && depth + Height(t) <= c.depth
    decreases |s|, 0
  {
    hide ReadMembers, ReadElements;
    assert Skip(s) == s;
    var gap := SkipSplits(s[1..]);
    var rest := ReadValue(c, s, depth).value.1;
    if Begins(Skip(s[1..]), CLOSE_LIST) {
      t := EmptyList(gap);
      assert Skip(s[1..]) == [CLOSE_LIST] + rest;
    } else {
      var es := ElementsSound(c, s[1..], depth);
      t := FullList(es);
      assert s == [OPEN_LIST] + s[1..];
    }
  }

  lemma {:induction false} MapSound(c: Config, s: Bytes, depth: nat) returns (t: Tree)
    requires s != [] && s[0] == OPEN_MAP && ReadValue(c, s, depth).Some?
    ensures s == Text(t) + ReadValue(c, s, depth).value.1
    ensures Meaning(c, t) == Some(ReadValue(c, s, depth).value.0) && depth + Height(t) <= c.depth
    decreases |s|, 0
  {
    hide ReadMembers, ReadElements;
    assert Skip(s) == s;
    var gap := SkipSplits(s[1..]);
    var rest := ReadValue(c, s, depth).value.1;
    if Begins(Skip(s[1..]), CLOSE_MAP) {
      t := EmptyMap(gap);
      assert Skip(s[1..]) == [CLOSE_MAP] + rest;
    } else {
      var ms := MembersSound(c, s[1..], depth, map[]);
      t := FullMap(ms);
      assert s == [OPEN_MAP] + s[1..];
    }
  }

  /** A value together with the white space after it. */
  lemma {:induction false} PaddedSound(c: Config, s: Bytes, depth: nat) returns (p: Padded)
    requires ReadValue(c, s, depth).Some?
    ensures PaddedMeaning(c, p) == Some(ReadValue(c, s, depth).value.0) && depth + Height(p.tree) <= c.depth
    ensures s == PaddedText(p) + Skip(ReadValue(c, s, depth).value.1)
    decreases |s|, 3
  {
    var w, t := ValueSound(c, s, depth);
    var after := SkipSplits(ReadValue(c, s, depth).value.1);
    p := Padded(w, t, after);
    hide ReadValue, Meaning, Text, Skip;
  }

  lemma EndJoins(s: Bytes, a: Bytes, t: Bytes, close: Byte)
    requires s == a + t && Begins(t, close)
    ensures s == a + [close] + t[1..]
  {
  }

  lemma CommaJoins(s: Bytes, a: Bytes, t: Bytes, b: Bytes, close: Byte, rest: Bytes)
    requires s == a + t && Begins(t, COMMA) && t[1..] == b + [close] + rest
    ensures s == a + [COMMA] + b + [close] + rest
  {
    assert t == [COMMA] + t[1..];
  }

  lemma {:induction false} ElementsSound(c: Config, s: Bytes, depth: nat) returns (es: Elements)
    requires ReadElements(c, s, depth).Some?
    ensures ElementsMeaning(c, es) == Some(ReadElements(c, s, depth).value.0)
    ensures depth + 1 + ElementsHeight(es) <= c.depth
    ensures s == ElementsText(es) + [CLOSE_LIST] + ReadElements(c, s, depth).value.1
    decreases |s|, 4
  {
    hide ReadValue, PaddedMeaning, PaddedText, Skip, Height;
    var p := PaddedSound(c, s, depth + 1);
    var t := Skip(ReadValue(c, s, depth + 1).value.1);
    if Begins(t, CLOSE_LIST) {
      es := Last(p);
      EndJoins(s, PaddedText(p), t, CLOSE_LIST);
    } else {
      var more := ElementsSound(c, t[1..], depth);
      es := More(p, more);
      CommaJoins(s, PaddedText(p), t, ElementsText(more), CLOSE_LIST, ReadElements(c, t[1..], depth).value.1);
    }
  }

  lemma {:induction false} MemberSound(c: Config, s: Bytes, depth: nat) returns (m: Member)
    requires ReadMember(c, s, depth).Some?
    ensures MemberMeaning(c, m) == Some((ReadMember(c, s, depth).value.0, ReadMember(c, s, depth).value.1))
    ensures depth + 1 + Height(m.value.tree) <= c.depth
    ensures s == MemberText(m) + Skip(ReadMember(c, s, depth).value.2)
    decreases |s|, 4
  {
    hide ReadValue, PaddedMeaning, PaddedText, Skip, ReadString, IsToken, Height;
    var before := SkipSplits(s);
    var k := ReadString(c, Skip(s)).value;
    var key := StringSound(c, Skip(s));
    var middle := SkipSplits(k.1);
    var tail := Skip(k.1)[1..];
    var p := PaddedSound(c, tail, depth + 1);
    m := Member(before, key, middle, p);
    MemberPieces(s, before, Skip(s), key, k.1, middle, Skip(k.1), p, Skip(ReadValue(c, tail, depth + 1).value.1));
  }

  lemma MemberPieces(s: Bytes, before: Bytes, s1: Bytes, key: Bytes, s2: Bytes, middle: Bytes, s3: Bytes,
                     p: Padded, rest: Bytes)
    requires s == before + s1 && s1 == key + s2 && s2 == middle + s3 && Begins(s3, COLON)
    requires s3[1..] == PaddedText(p) + rest
    ensures s == MemberText(Member(before, key, middle, p)) + rest
  {
    hide PaddedText;
    assert s3 == [COLON] + s3[1..];
  }

  lemma {:induction false} MembersSound(c: Config, s: Bytes, depth: nat, seen: map<string, Value>) returns (ms: Members)
    requires ReadMembers(c, s, depth, seen).Some?
    ensures MembersMeaning(c, ms, seen) == Some(ReadMembers(c, s, depth, seen).value.0)
    ensures depth + 1 + MembersHeight(ms) <= c.depth
    ensures s == MembersText(ms) + [CLOSE_MAP] + ReadMembers(c, s, depth, seen).value.1
    decreases |s|, 5
  {
    hide ReadMember, MemberMeaning, MemberText, Skip, Height;
    var m := MemberSound(c, s, depth);
    var r := ReadMember(c, s, depth).value;
    var t := Skip(r.2);
    var next := seen[r.0 := r.1];
    if Begins(t, CLOSE_MAP) {
      ms := LastMember(m);
      EndJoins(s, MemberText(m), t, CLOSE_MAP);
    } else {
      var more := MembersSound(c, t[1..], depth, next);
      ms := MoreMembers(m, more);
      CommaJoins(s, MemberText(m), t, MembersText(more), CLOSE_MAP, ReadMembers(c, t[1..], depth, next).value.1);
    }
  }

  // ---- the reader is exact

  lemma Accepted(c: Config, raw: Bytes, maximum: nat) returns (p: Padded)
    requires Parse(c, raw, maximum).Some?
    ensures PaddedText(p) == raw && PaddedMeaning(c, p) == Parse(c, raw, maximum) && Height(p.tree) <= c.depth
  {
    hide ReadValue, Meaning, Text;
    p := PaddedSound(c, raw, 0);
  }

  /** The end of the input ends a value too. */
  lemma DocumentRead(c: Config, p: Padded)
    requires PaddedMeaning(c, p).Some? && Height(p.tree) <= c.depth
    ensures ReadValue(c, PaddedText(p), 0) == Some((PaddedMeaning(c, p).value, p.after)) && Skip(p.after) == []
  {
    if p.after != [] { assert p.after[0] in p.after; }
    TreeComplete(c, p.tree, p.after, 0);
    FirstByte(c, p.tree);
    ValueSkips(c, p.before, Text(p.tree) + p.after, 0);
    assert PaddedText(p) == p.before + (Text(p.tree) + p.after);
    SkipSpace(p.after, []);
    assert p.after + [] == p.after;
  }

  /**
   Within the size limit, the reader answers `v` if and only if the whole input is the text of a
   well-formed document that means `v` and is nested no deeper than allowed.
   */
  lemma ParseExact(c: Config, raw: Bytes, maximum: nat, v: Value)
    ensures Parse(c, raw, maximum) == Some(v) <==> |raw| <= maximum && Denotes(c, raw, v)
  {
    hide ReadValue, Meaning, Text, Height;
    if Parse(c, raw, maximum) == Some(v) {
      var p := Accepted(c, raw, maximum);
    }
    if |raw| <= maximum && Denotes(c, raw, v) {
      var p: Padded :| PaddedText(p) == raw && PaddedMeaning(c, p) == Some(v) && Height(p.tree) <= c.depth;
      DocumentRead(c, p);
    }
  }

  /** So a text has one meaning at most. */
  lemma OneMeaning(c: Config, raw: Bytes, v: Value, w: Value)
    requires Denotes(c, raw, v) && Denotes(c, raw, w)
    ensures v == w
  {
    hide Denotes, Parse;
    ParseExact(c, raw, |raw|, v);
    ParseExact(c, raw, |raw|, w);
  }
}
