/** The reader as it works: a cursor over the raw bytes, moved by a recursive descent. */
module JsonReader {
  import opened Basics
  import opened JsonGrammar
  import opened JsonExact

  /** What a list reads when `vs` of it have been read. */
  function Prepend(vs: seq<Value>, r: Option<(seq<Value>, Bytes)>): Option<(seq<Value>, Bytes)> {
    if r.Some? then Some((vs + r.value.0, r.value.1)) else None
  }

  /** Past the closing quote, over escapes unseen. */
  method Scan(raw: Bytes, start: nat) returns (end: Option<nat>)
    requires start <= |raw|
    ensures end == Past(start, ScanBody(raw[start..]))
  {
    hide ScanBody;
    var at := start;
    while at < |raw|
      invariant start <= at <= |raw| && Past(start, ScanBody(raw[start..])) == Past(at, ScanBody(raw[at..]))
    {
      var b := raw[at];
      ScanStep(raw, at);
      at := at + 1;
      if b == QUOTE {
        return Some(at);
      } else if b == BACKSLASH {
        if at >= |raw| { return None; }
        at := at + 1;
      } else if b < 32 {
        return None;
      }
    }
    ScanEnd(raw, at);
    return None;
  }

  /** Past the digits. */
  method SkipDigits(raw: Bytes, start: nat) returns (end: nat)
    requires start <= |raw|
    ensures end == start + CountDigits(raw[start..])
  {
    end := start;
    while end < |raw| && IsDigit(raw[end])
      invariant start <= end <= |raw| && start + CountDigits(raw[start..]) == end + CountDigits(raw[end..])
    {
      assert raw[end..][1..] == raw[end + 1..];
      end := end + 1;
    }
  }

  class Parser {
    const raw: Bytes
    const config: Config
    var at: nat

    constructor (raw: Bytes, config: Config)
      ensures this.raw == raw && this.config == config && at == 0
    {
      this.raw, this.config, at := raw, config, 0;
    }

    ghost predicate Valid()
      reads this
    {
      at <= |raw|
    }

    ghost function Rest(): Bytes
      requires Valid()
      reads this
    {
      raw[at..]
    }

    method Space()
      requires Valid()
      modifies `at
      ensures Valid() && at >= old(at) && Rest() == Skip(old(Rest()))
    {
      while at < |raw| && IsSpace(raw[at])
        invariant Valid() && at >= old(at) && Skip(Rest()) == Skip(old(Rest()))
      {
        assert Rest()[1..] == raw[at + 1..];
        at := at + 1;
      }
    }

    method Eat(b: Byte) returns (ok: bool)
      requires Valid()
      modifies `at
      ensures Valid() && at >= old(at) && (ok ==> at > old(at))
      ensures ok == Begins(Skip(old(Rest())), b)
      ensures Rest() == if ok then Skip(old(Rest()))[1..] else Skip(old(Rest()))
    {
      Space();
      if at < |raw| && raw[at] == b {
        assert Rest()[1..] == raw[at + 1..];
        at := at + 1;
        return true;
      }
      return false;
    }

    method Literal(word: Bytes, v: Value) returns (r: Option<Value>)
      requires Valid() && word != []
      modifies `at
      ensures Valid() && Answers(r, ReadWord(word, v, old(Rest())))
    {
      if at + |word| > |raw| || raw[at..at + |word|] != word {
        assert !(word <= Rest());
        return None;
      }
      assert Rest()[..|word|] == word && Rest()[|word|..] == raw[at + |word|..];
      at := at + |word|;
      return Some(v);
    }

    /** The cursor has moved to where the specification ends. */
    ghost predicate Answers(r: Option<Value>, spec: Option<(Value, Bytes)>)
      requires Valid()
      reads this
    {
      r.Some? == spec.Some? && (r.Some? ==> r.value == spec.value.0 && Rest() == spec.value.1)
    }

    method String() returns (r: Option<string>)
      requires Valid()
      modifies `at
      ensures Valid()
      ensures var spec := ReadString(config, old(Rest()));
        r.Some? == spec.Some? && (r.Some? ==> r.value == spec.value.0 && Rest() == spec.value.1 && at > old(at))
    {
      if at >= |raw| || raw[at] != QUOTE { return None; }
      var start := at;
      assert old(Rest())[1..] == raw[start + 1..];
      var end := Scan(raw, start + 1);
      if end.None? { return None; }
      at := end.value;
      assert raw[start..at] == old(Rest())[..at - start];
      assert raw[at..] == old(Rest())[at - start..];
      return config.decode(raw[start..at]);
    }

    method Integer() returns (r: Option<Value>)
      requires Valid() && at < |raw| && (raw[at] == MINUS || IsDigit(raw[at]))
      modifies `at
      ensures Valid() && Answers(r, ReadNumber(old(Rest())))
    {
      hide DigitsValue;
      var negative := raw[at] == MINUS;
      var digits := if negative then at + 1 else at;
      ghost var t := raw[digits..];
      assert t == if negative then old(Rest())[1..] else old(Rest());
      var end := SkipDigits(raw, digits);
      at := end;
      var ds := raw[digits..end];
      assert ds == t[..CountDigits(t)] && raw[end..] == t[|ds|..];
      if !IsNumber(negative, ds) { return None; }
      return Some(Number(if negative then -DigitsValue(ds) else DigitsValue(ds)));
    }

    method Value(depth: nat) returns (r: Option<Value>)
      requires Valid()
      modifies `at
      ensures Valid() && Answers(r, ReadValue(config, old(Rest()), depth))
      decreases |raw| - at, 1
    {
      hide ReadElements, ReadMembers, ReadString, ReadNumber, ReadWord;
      if depth > config.depth { return None; }
      Space();
      if at >= |raw| { return None; }
      var b := raw[at];
      assert Rest()[0] == b && Rest()[1..] == raw[at + 1..];
      if b == QUOTE {
        var s := String();
        if s.None? { return None; }
        return Some(JsonGrammar.Value.String(s.value));
      } else if b == OPEN_MAP {
        at := at + 1;
        var empty := Eat(CLOSE_MAP);
        if empty { return Some(Object(map[])); }
        MembersSkip(config, Skip(old(Rest()))[1..], depth, map[]);
        r := Entries(depth);
      } else if b == OPEN_LIST {
        at := at + 1;
        var empty := Eat(CLOSE_LIST);
        if empty { return Some(List([])); }
        ElementsSkip(config, Skip(old(Rest()))[1..], depth);
        r := Items(depth);
      } else if b == TRUE[0] {
        r := Literal(TRUE, Bool(true));
      } else if b == FALSE[0] {
        r := Literal(FALSE, Bool(false));
      } else if b == NULL[0] {
        r := Literal(NULL, Null);
      } else if b == MINUS || IsDigit(b) {
        r := Integer();
      } else {
        return None;
      }
    }

    method Items(depth: nat) returns (r: Option<Value>)
      requires Valid()
      modifies `at
      ensures Valid()
      ensures var spec := ReadElements(config, old(Rest()), depth);
        r.Some? == spec.Some? && (r.Some? ==> r.value == List(spec.value.0) && Rest() == spec.value.1)
      decreases |raw| - at, 2
    {
      hide ReadValue, ReadMembers, Skip;
      var result: seq<Value> := [];
      PrependNone(ReadElements(config, Rest(), depth));
      while true
        invariant old(at) <= at <= |raw|
        invariant ReadElements(config, old(Rest()), depth) == Prepend(result, ReadElements(config, Rest(), depth))
        decreases |raw| - at
      {
        ghost var before := Rest();
        var v := Value(depth + 1);
        if v.None? { return None; }
        result := result + [v.value];
        var closed := Eat(CLOSE_LIST);
        if closed { return Some(List(result)); }
        SkipTwice(ReadValue(config, before, depth + 1).value.1);
        var comma := Eat(COMMA);
        if !comma { return None; }
        PrependMore(result[..|result| - 1], v.value, ReadElements(config, Rest(), depth));
        assert result == result[..|result| - 1] + [v.value];
      }
    }

    method Entries(depth: nat) returns (r: Option<Value>)
      requires Valid()
      modifies `at
      ensures Valid()
      ensures var spec := ReadMembers(config, old(Rest()), depth, map[]);
        r.Some? == spec.Some? && (r.Some? ==> r.value == Object(spec.value.0) && Rest() == spec.value.1)
      decreases |raw| - at, 2
    {
      hide ReadValue, ReadElements, Skip, ReadString;
      var result: map<string, Value> := map[];
      while true
        invariant old(at) <= at <= |raw|
        invariant ReadMembers(config, old(Rest()), depth, map[]) == ReadMembers(config, Rest(), depth, result)
        decreases |raw| - at
      {
        ghost var before := Rest();
        Space();
        var key := String();
        if key.None? { return None; }
        ghost var after := Rest();
        var colon := Eat(COLON);
        if !colon { return None; }
        var v := Value(depth + 1);
        if v.None? { return None; }
        if key.value in result { return None; }
        result := result[key.value := v.value];
        ghost var rest := Rest();
        assert ReadMember(config, before, depth) == Some((key.value, v.value, rest));
        var closed := Eat(CLOSE_MAP);
        if closed { return Some(Object(result)); }
        SkipTwice(rest);
        var comma := Eat(COMMA);
        if !comma { return None; }
      }
    }
  }

  lemma {:induction false} SkipTwice(s: Bytes)
    ensures Skip(Skip(s)) == Skip(s)
  {
    if s != [] && IsSpace(s[0]) {
      SkipTwice(s[1..]);
    }
  }

  lemma ElementsSkip(c: Config, s: Bytes, depth: nat)
    ensures ReadElements(c, Skip(s), depth) == ReadElements(c, s, depth)
  {
    SkipTwice(s);
    assert ReadValue(c, Skip(s), depth + 1) == ReadValue(c, s, depth + 1);
    hide ReadValue, Skip;
  }

  lemma MembersSkip(c: Config, s: Bytes, depth: nat, seen: map<string, Value>)
    ensures ReadMembers(c, Skip(s), depth, seen) == ReadMembers(c, s, depth, seen)
  {
    hide ReadValue, Skip, ReadString;
    SkipTwice(s);
    assert ReadMember(c, Skip(s), depth) == ReadMember(c, s, depth);
  }

  lemma PrependNone(r: Option<(seq<Value>, Bytes)>)
    ensures Prepend([], r) == r
  {
    if r.Some? {
      assert [] + r.value.0 == r.value.0;
    }
  }

  lemma PrependMore(vs: seq<Value>, v: Value, r: Option<(seq<Value>, Bytes)>)
    ensures Prepend(vs, Prepend([v], r)) == Prepend(vs + [v], r)
  {
    if r.Some? {
      assert vs + ([v] + r.value.0) == (vs + [v]) + r.value.0;
    }
  }

  /** Reads a document: the meaning of the bytes if they have one within the limits, and None if not. */
  method ParseDocument(raw: Bytes, config: Config, maximum: nat) returns (r: Option<Value>)
    ensures r == Parse(config, raw, maximum)
    ensures forall v :: r == Some(v) <==> |raw| <= maximum && Denotes(config, raw, v)
  {
    forall v ensures Parse(config, raw, maximum) == Some(v) <==> |raw| <= maximum && Denotes(config, raw, v) {
      ParseExact(config, raw, maximum, v);
    }
    hide ReadValue, Denotes;
    if |raw| > maximum { return None; }
    var parser := new Parser(raw, config);
    assert parser.Rest() == raw;
    r := parser.Value(0);
    if r.None? { return; }
    parser.Space();
    if parser.at != |raw| { return None; }
  }

  lemma ScanStep(raw: Bytes, at: nat)
    requires at < |raw|
    ensures var n := ScanBody(raw[at..]);
      if raw[at] == QUOTE then n == Some(1)
      else if raw[at] == BACKSLASH then n == if at + 2 > |raw| then None else Past(2, ScanBody(raw[at + 2..]))
      else if raw[at] < 32 then n == None
      else n == Past(1, ScanBody(raw[at + 1..]))
  {
    assert raw[at..][1..] == raw[at + 1..];
    if at + 2 <= |raw| { assert raw[at..][2..] == raw[at + 2..]; }
  }

  lemma ScanEnd(raw: Bytes, at: nat)
    requires at == |raw|
    ensures ScanBody(raw[at..]) == None
  {
  }

  function Past(n: nat, r: Option<nat>): Option<nat> {
    if r.Some? then Some(n + r.value) else None
  }
}
