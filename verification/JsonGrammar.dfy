/**
 Integer-only JSON: the grammar of sections 2 and 4 to 7 of RFC 8259 as syntax trees with their text,
 and the reader's recursive descent as functions on the rest of the input.
 */
module JsonGrammar {
  import opened Basics

  type Byte = x: int | 0 <= x < 256
  type Bytes = seq<Byte>

  const QUOTE: Byte := 34
  const COMMA: Byte := 44
  const MINUS: Byte := 45
  const COLON: Byte := 58
  const OPEN_LIST: Byte := 91
  const BACKSLASH: Byte := 92
  const CLOSE_LIST: Byte := 93
  const OPEN_MAP: Byte := 123
  const CLOSE_MAP: Byte := 125
  const TRUE: Bytes := [116, 114, 117, 101]
  const FALSE: Bytes := [102, 97, 108, 115, 101]
  const NULL: Bytes := [110, 117, 108, 108]

  const MIN_I64 := -0x8000_0000_0000_0000
  const MAX_U64 := 0xFFFF_FFFF_FFFF_FFFF

  datatype Value =
    | Null
    | Bool(flag: bool)
    | Number(n: int)
    | String(s: string)
    | List(items: seq<Value>)
    | Object(members: map<string, Value>)

  /** The decoder of string tokens is a parameter, and so is the deepest nesting allowed. */
  datatype Config = Config(decode: Bytes -> Option<string>, depth: nat)

  predicate IsSpace(b: Byte) {
    b == 32 || b == 13 || b == 10 || b == 9
  }

  predicate IsDigit(b: Byte) {
    48 <= b <= 57
  }

  predicate Space(s: Bytes) {
    forall b | b in s :: IsSpace(b)
  }

  // ---- the grammar

  /** A value with the white space around it. */
  datatype Padded = Padded(before: Bytes, tree: Tree, after: Bytes)

  datatype Elements = Last(item: Padded) | More(item: Padded, rest: Elements)

  datatype Member = Member(before: Bytes, key: Bytes, middle: Bytes, value: Padded)

  datatype Members = LastMember(member: Member) | MoreMembers(member: Member, others: Members)

  datatype Tree =
    | NullWord | TrueWord | FalseWord
    | Digits(negative: bool, digits: Bytes)
    | Quoted(token: Bytes)
    | EmptyList(gap: Bytes) | FullList(elements: Elements)
    | EmptyMap(gap: Bytes) | FullMap(entries: Members)

  function Text(t: Tree): Bytes {
    match t
    case NullWord => NULL
    case TrueWord => TRUE
    case FalseWord => FALSE
    case Digits(negative, digits) => (if negative then [MINUS] else []) + digits
    case Quoted(token) => token
    case EmptyList(gap) => [OPEN_LIST] + gap + [CLOSE_LIST]
    case FullList(es) => [OPEN_LIST] + ElementsText(es) + [CLOSE_LIST]
    case EmptyMap(gap) => [OPEN_MAP] + gap + [CLOSE_MAP]
    case FullMap(ms) => [OPEN_MAP] + MembersText(ms) + [CLOSE_MAP]
  }

  function PaddedText(p: Padded): Bytes {
    p.before + Text(p.tree) + p.after
  }

  function ElementsText(es: Elements): Bytes {
    match es
    case Last(p) => PaddedText(p)
    case More(p, rest) => PaddedText(p) + [COMMA] + ElementsText(rest)
  }

  function MemberText(m: Member): Bytes {
    m.before + m.key + m.middle + [COLON] + PaddedText(m.value)
  }

  function MembersText(ms: Members): Bytes {
    match ms
    case LastMember(m) => MemberText(m)
    case MoreMembers(m, rest) => MemberText(m) + [COMMA] + MembersText(rest)
  }

  /** What may stand between two quotes: escapes in pairs, no quote, no control character. */
  predicate IsBody(b: Bytes) {
    if b == [] then true
    else if b[0] == BACKSLASH then |b| >= 2 && IsBody(b[2..])
    else b[0] != QUOTE && b[0] >= 32 && IsBody(b[1..])
  }

  predicate IsToken(t: Bytes) {
    |t| >= 2 && t[0] == QUOTE && t[|t| - 1] == QUOTE && IsBody(t[1..|t| - 1])
  }

  function DigitsValue(ds: Bytes): int
    requires forall d | d in ds :: IsDigit(d)
  {
    if ds == [] then 0 else DigitsValue(ds[..|ds| - 1]) * 10 + (ds[|ds| - 1] as int - 48)
  }

  predicate IsNumber(negative: bool, ds: Bytes) {
    && ds != [] && (forall d | d in ds :: IsDigit(d)) && (|ds| > 1 ==> ds[0] != 48)
    && (if negative then -DigitsValue(ds) >= MIN_I64 else DigitsValue(ds) <= MAX_U64)
  }

  function Max(a: nat, b: nat): nat {
    if a >= b then a else b
  }

  /** How deep the values in a tree are nested. */
  function Height(t: Tree): nat {
    match t
    case FullList(es) => 1 + ElementsHeight(es)
    case FullMap(ms) => 1 + MembersHeight(ms)
    case _ => 0
  }

  function ElementsHeight(es: Elements): nat {
    match es
    case Last(p) => Height(p.tree)
    case More(p, rest) => Max(Height(p.tree), ElementsHeight(rest))
  }

  function MembersHeight(ms: Members): nat {
    match ms
    case LastMember(m) => Height(m.value.tree)
    case MoreMembers(m, rest) => Max(Height(m.value.tree), MembersHeight(rest))
  }

  /** The value of a tree; None if a token, a range or a repeated key makes it invalid. */
  function Meaning(c: Config, t: Tree): Option<Value> {
    match t
    case NullWord => Some(Null)
    case TrueWord => Some(Bool(true))
    case FalseWord => Some(Bool(false))
    case Digits(negative, ds) =>
      if IsNumber(negative, ds) then Some(Number(if negative then -DigitsValue(ds) else DigitsValue(ds))) else None
    case Quoted(token) =>
      if IsToken(token) && c.decode(token).Some? then Some(String(c.decode(token).value)) else None
    case EmptyList(gap) => if Space(gap) then Some(List([])) else None
    case FullList(es) =>
      var vs := ElementsMeaning(c, es);
      if vs.Some? then Some(List(vs.value)) else None
    case EmptyMap(gap) => if Space(gap) then Some(Object(map[])) else None
    case FullMap(ms) =>
      var m := MembersMeaning(c, ms, map[]);
      if m.Some? then Some(Object(m.value)) else None
  }

  function PaddedMeaning(c: Config, p: Padded): Option<Value> {
    if Space(p.before) && Space(p.after) then Meaning(c, p.tree) else None
  }

  function ElementsMeaning(c: Config, es: Elements): Option<seq<Value>> {
    var v := PaddedMeaning(c, es.item);
    if v.None? then None
    else
      match es
      case Last(_) => Some([v.value])
      case More(_, rest) =>
        var vs := ElementsMeaning(c, rest);
        if vs.Some? then Some([v.value] + vs.value) else None
  }

  /** The key and the value of a member. */
  function MemberMeaning(c: Config, m: Member): Option<(string, Value)> {
    var v := PaddedMeaning(c, m.value);
    if Space(m.before) && Space(m.middle) && IsToken(m.key) && c.decode(m.key).Some? && v.Some?
    then Some((c.decode(m.key).value, v.value)) else None
  }

  function MembersMeaning(c: Config, ms: Members, seen: map<string, Value>): Option<map<string, Value>> {
    var kv := MemberMeaning(c, ms.member);
    if kv.None? || kv.value.0 in seen then None
    else
      var next := seen[kv.value.0 := kv.value.1];
      match ms
      case LastMember(_) => Some(next)
      case MoreMembers(_, rest) => MembersMeaning(c, rest, next)
  }

  /** `raw` is the text of a JSON document that means `v`, within the nesting allowed. */
  ghost predicate Denotes(c: Config, raw: Bytes, v: Value) {
    exists p: Padded :: PaddedText(p) == raw && PaddedMeaning(c, p) == Some(v) && Height(p.tree) <= c.depth
  }

  // ---- the reader

  function Skip(s: Bytes): (r: Bytes)
    ensures |r| <= |s|
  {
    if s != [] && IsSpace(s[0]) then Skip(s[1..]) else s
  }

  /** Past the closing quote, when the opening one has been read. */
  function ScanBody(s: Bytes): (n: Option<nat>)
    ensures n.Some? ==> 0 < n.value <= |s|
  {
    if s == [] then None
    else if s[0] == QUOTE then Some(1)
    else if s[0] == BACKSLASH then
      if |s| < 2 then None
      else var n := ScanBody(s[2..]); if n.Some? then Some(n.value + 2) else None
    else if s[0] < 32 then None
    else var n := ScanBody(s[1..]); if n.Some? then Some(n.value + 1) else None
  }

  function ReadString(c: Config, s: Bytes): (r: Option<(string, Bytes)>)
    ensures r.Some? ==> |r.value.1| < |s|
  {
    if s == [] || s[0] != QUOTE || ScanBody(s[1..]).None? then None
    else
      var n := ScanBody(s[1..]).value + 1;
      var decoded := c.decode(s[..n]);
      if decoded.Some? then Some((decoded.value, s[n..])) else None
  }

  function CountDigits(s: Bytes): (n: nat)
    ensures n <= |s| && (forall i | 0 <= i < n :: IsDigit(s[i])) && (n < |s| ==> !IsDigit(s[n]))
  {
    if s != [] && IsDigit(s[0]) then 1 + CountDigits(s[1..]) else 0
  }

  function ReadNumber(s: Bytes): (r: Option<(Value, Bytes)>)
    requires s != []
    ensures r.Some? ==> |r.value.1| < |s|
  {
    var negative := s[0] == MINUS;
    var t := if negative then s[1..] else s;
    var ds := t[..CountDigits(t)];
    if IsNumber(negative, ds) then
      Some((Number(if negative then -DigitsValue(ds) else DigitsValue(ds)), t[|ds|..]))
    else None
  }

  function ReadWord(word: Bytes, v: Value, s: Bytes): (r: Option<(Value, Bytes)>)
    requires word != []
    ensures r.Some? ==> |r.value.1| < |s|
  {
    if word <= s then Some((v, s[|word|..])) else None
  }

  predicate Begins(s: Bytes, b: Byte) {
    s != [] && s[0] == b
  }

  function ReadValue(c: Config, input: Bytes, depth: nat): (r: Option<(Value, Bytes)>)
    ensures r.Some? ==> |r.value.1| < |input|
    decreases |input|, 1
  {
    if depth > c.depth then None
    else
      var s := Skip(input);
      if s == [] then None
      else if s[0] == QUOTE then
        var k := ReadString(c, s);
        if k.Some? then Some((String(k.value.0), k.value.1)) else None
      else if s[0] == OPEN_MAP then
        if Begins(Skip(s[1..]), CLOSE_MAP) then Some((Object(map[]), Skip(s[1..])[1..]))
        else
          var m := ReadMembers(c, s[1..], depth, map[]);
          if m.Some? then Some((Object(m.value.0), m.value.1)) else None
      else if s[0] == OPEN_LIST then
        if Begins(Skip(s[1..]), CLOSE_LIST) then Some((List([]), Skip(s[1..])[1..]))
        else
          var l := ReadElements(c, s[1..], depth);
          if l.Some? then Some((List(l.value.0), l.value.1)) else None
      else if s[0] == TRUE[0] then ReadWord(TRUE, Bool(true), s)
      else if s[0] == FALSE[0] then ReadWord(FALSE, Bool(false), s)
      else if s[0] == NULL[0] then ReadWord(NULL, Null, s)
      else if s[0] == MINUS || IsDigit(s[0]) then ReadNumber(s)
      else None
  }

  function ReadElements(c: Config, s: Bytes, depth: nat): (r: Option<(seq<Value>, Bytes)>)
    ensures r.Some? ==> |r.value.1| < |s|
    decreases |s|, 2
  {
    var v := ReadValue(c, s, depth + 1);
    if v.None? then None
    else
      var t := Skip(v.value.1);
      if Begins(t, CLOSE_LIST) then Some(([v.value.0], t[1..]))
      else if !Begins(t, COMMA) then None
      else
        var l := ReadElements(c, t[1..], depth);
        if l.Some? then Some(([v.value.0] + l.value.0, l.value.1)) else None
  }

  /** One key and its value. */
  function ReadMember(c: Config, s: Bytes, depth: nat): (r: Option<(string, Value, Bytes)>)
    ensures r.Some? ==> |r.value.2| < |s|
    decreases |s|, 2
  {
    var k := ReadString(c, Skip(s));
    if k.None? || !Begins(Skip(k.value.1), COLON) then None
    else
      var v := ReadValue(c, Skip(k.value.1)[1..], depth + 1);
      if v.Some? then Some((k.value.0, v.value.0, v.value.1)) else None
  }

  function ReadMembers(c: Config, s: Bytes, depth: nat, seen: map<string, Value>)
    : (r: Option<(map<string, Value>, Bytes)>)
    ensures r.Some? ==> |r.value.1| < |s|
    decreases |s|, 3
  {
    var m := ReadMember(c, s, depth);
    if m.None? || m.value.0 in seen then None
    else
      var next := seen[m.value.0 := m.value.1];
      var t := Skip(m.value.2);
      if Begins(t, CLOSE_MAP) then Some((next, t[1..]))
      else if !Begins(t, COMMA) then None
      else ReadMembers(c, t[1..], depth, next)
  }

  function Parse(c: Config, raw: Bytes, maximum: nat): Option<Value> {
    if |raw| > maximum then None
    else
      var r := ReadValue(c, raw, 0);
      if r.Some? && Skip(r.value.1) == [] then Some(r.value.0) else None
  }
}
