/** The tokeniser of the query language: blanks, and tokens by longest match. */
module CypherTokens {
  import opened Basics
  import opened CypherSyntax

  const MAX_QUERY := 8192
  const MAX_TOKENS := 512
  const PAIRS := {"->", "<-", "<=", ">=", "<>"}
  const SINGLES := {'(', ')', ':', ',', '.', '[', ']', '*', '$', '=', '<', '>', '-'}

  predicate IsBlank(c: char) {
    c in {' ', '\t', '\r', '\n'}
  }

  predicate InName(c: char) {
    IsLetter(c) || IsNumeral(c) || c == '_'
  }

  predicate IsToken(t: string) {
    || (t != [] && IsLetter(t[0]) && forall c | c in t :: InName(c))
    || (t != [] && forall c | c in t :: IsNumeral(c))
    || t in PAIRS
    || (|t| == 1 && t[0] in SINGLES)
  }

  /** The first `n` characters are a token, and no longer beginning is. */
  ghost predicate Longest(s: string, n: nat) {
    0 < n <= |s| && IsToken(s[..n]) && forall m | n < m <= |s| :: !IsToken(s[..m])
  }

  /** `text` is blanks and the tokens `ts`, each as long as it can be. */
  ghost predicate Splits(text: string, ts: Tokens)
    decreases |text|
  {
    if text == [] then ts == []
    else if IsBlank(text[0]) then Splits(text[1..], ts)
    else ts != [] && Longest(text, |ts[0]|) && text[..|ts[0]|] == ts[0] && Splits(text[|ts[0]|..], ts[1..])
  }

  // ---- one token

  function CountWhile(s: string, keep: char -> bool): (n: nat)
    ensures n <= |s| && (forall i | 0 <= i < n :: keep(s[i])) && (n < |s| ==> !keep(s[n]))
  {
    if s != [] && keep(s[0]) then 1 + CountWhile(s[1..], keep) else 0
  }

  /** The length of the token that a text begins with; zero if there is none. */
  function MatchLength(s: string): (n: nat)
    ensures n <= |s|
  {
    if s == [] then 0
    else if IsLetter(s[0]) then CountWhile(s, InName)
    else if IsNumeral(s[0]) then CountWhile(s, IsNumeral)
    else if |s| >= 2 && s[..2] in PAIRS then 2
    else if s[0] in SINGLES then 1
    else 0
  }

  lemma NameLongest(s: string)
    requires s != [] && IsLetter(s[0])
    ensures Longest(s, MatchLength(s))
  {
    var n := MatchLength(s);
    assert InName(s[0]);
    assert forall c | c in s[..n] :: InName(c);
    forall m | n < m <= |s| ensures !IsToken(s[..m]) {
      assert s[..m][n] == s[n] && s[..m][0] == s[0];
      assert s[n] in s[..m] && s[0] in s[..m];
      LetterStarts(s[..m]);
    }
  }

  lemma LetterStarts(t: string)
    requires t != [] && IsLetter(t[0])
    ensures IsToken(t) ==> forall c | c in t :: InName(c)
  {
    assert t[0] in t;
    assert !IsNumeral(t[0]) && t[0] !in SINGLES && t !in PAIRS by {
      PairsStart(t);
    }
  }

  lemma PairsStart(t: string)
    ensures t in PAIRS ==> |t| == 2 && (t[0] == '-' || t[0] == '<' || t[0] == '>')
  {
  }

  lemma NumberLongest(s: string)
    requires s != [] && IsNumeral(s[0])
    ensures Longest(s, MatchLength(s))
  {
    var n := MatchLength(s);
    assert forall c | c in s[..n] :: IsNumeral(c);
    forall m | n < m <= |s| ensures !IsToken(s[..m]) {
      assert s[..m][n] == s[n] && s[..m][0] == s[0];
      assert s[n] in s[..m];
      PairsStart(s[..m]);
      assert !IsLetter(s[0]) && s[0] !in SINGLES;
    }
  }

  lemma SymbolLongest(s: string)
    requires s != [] && !IsLetter(s[0]) && !IsNumeral(s[0])
    ensures MatchLength(s) > 0 ==> Longest(s, MatchLength(s))
    ensures MatchLength(s) == 0 ==> forall m | 0 < m <= |s| :: !IsToken(s[..m])
  {
    var n := MatchLength(s);
    forall m | 0 < m <= |s| && (n == 0 || m > n) ensures !IsToken(s[..m]) {
      assert s[..m][0] == s[0] && s[0] in s[..m];
      PairsStart(s[..m]);
      if m == 2 { assert s[..m] == s[..2]; }
    }
    if n == 2 { assert s[..2] in PAIRS; }
  }

  /** The match is the longest token, and there is none only if no beginning is a token. */
  lemma MatchExact(s: string)
    ensures MatchLength(s) > 0 ==> Longest(s, MatchLength(s))
    ensures MatchLength(s) == 0 ==> forall m | 0 < m <= |s| :: !IsToken(s[..m])
  {
    hide IsToken, Longest;
    if s != [] {
      if IsLetter(s[0]) { NameLongest(s); }
      else if IsNumeral(s[0]) { NumberLongest(s); }
      else { SymbolLongest(s); }
    }
  }

  lemma LongestUnique(s: string, m: nat, n: nat)
    requires Longest(s, m) && Longest(s, n)
    ensures m == n
  {
    hide IsToken;
  }

  // ---- the whole text

  function Lex(text: string): Option<Tokens>
    decreases |text|
  {
    if text == [] then Some([])
    else if IsBlank(text[0]) then Lex(text[1..])
    else
      var n := MatchLength(text);
      if n == 0 then None
      else
        var rest := Lex(text[n..]);
        if rest.Some? then Some([text[..n]] + rest.value) else None
  }

  lemma {:induction false} LexExact(text: string, ts: Tokens)
    ensures Lex(text) == Some(ts) <==> Splits(text, ts)
    decreases |text|
  {
    if text != [] {
      if IsBlank(text[0]) {
        LexExact(text[1..], ts);
      } else {
        hide IsToken, IsBlank;
        MatchExact(text);
        var n := MatchLength(text);
        if n > 0 && ts != [] {
          LexExact(text[n..], ts[1..]);
          assert ts == [ts[0]] + ts[1..];
          if Longest(text, |ts[0]|) { LongestUnique(text, n, |ts[0]|); }
        }
      }
    }
  }

  /** ASCII of a bounded length, without control characters but for blanks. */
  predicate Plain(text: string) {
    1 <= |text| <= MAX_QUERY && forall c | c in text :: c as int < 128 && (c as int >= 32 || c in {'\t', '\r', '\n'})
  }

  function TokensOf(text: string): Option<Tokens> {
    if Plain(text) && Lex(text).Some? && |Lex(text).value| <= MAX_TOKENS then Lex(text) else None
  }

  /** A text has tokens if and only if it splits by longest match into blanks and at most 512 tokens. */
  lemma TokensExact(text: string, ts: Tokens)
    ensures TokensOf(text) == Some(ts) <==> Plain(text) && |ts| <= MAX_TOKENS && Splits(text, ts)
  {
    hide Lex, Splits, Plain;
    LexExact(text, ts);
  }

  function Prefixed(ts: Tokens, r: Option<Tokens>): Option<Tokens> {
    if r.Some? then Some(ts + r.value) else None
  }

  lemma PrefixedMore(ts: Tokens, t: string, r: Option<Tokens>)
    ensures Prefixed(ts, Prefixed([t], r)) == Prefixed(ts + [t], r)
  {
    if r.Some? {
      assert ts + ([t] + r.value) == (ts + [t]) + r.value;
    }
  }

  lemma PrefixedNone(r: Option<Tokens>)
    ensures Prefixed([], r) == r
  {
    if r.Some? {
      assert [] + r.value == r.value;
    }
  }

  lemma LexAt(text: string, offset: nat)
    requires offset < |text|
    ensures Lex(text[offset..]) ==
      if IsBlank(text[offset]) then Lex(text[offset + 1..])
      else
        var n := MatchLength(text[offset..]);
        if n == 0 then None else Prefixed([text[offset..offset + n]], Lex(text[offset + n..]))
  {
    var s := text[offset..];
    assert s[1..] == text[offset + 1..];
    var n := MatchLength(s);
    assert s[..n] == text[offset..offset + n] && s[n..] == text[offset + n..];
  }

  /** The loop over the text. */
  method Tokenise(text: string) returns (r: Option<Tokens>)
    ensures r == TokensOf(text)
  {
    hide Lex, MatchLength, Plain;
    if !Plain(text) { return None; }
    var tokens, offset := [], 0;
    assert text[0..] == text;
    PrefixedNone(Lex(text));
    while offset < |text|
      invariant offset <= |text| && |tokens| <= MAX_TOKENS && Lex(text) == Prefixed(tokens, Lex(text[offset..]))
    {
      LexAt(text, offset);
      if IsBlank(text[offset]) {
        offset := offset + 1;
        continue;
      }
      var n := MatchLength(text[offset..]);
      if n == 0 || |tokens| >= MAX_TOKENS { return None; }
      PrefixedMore(tokens, text[offset..offset + n], Lex(text[offset + n..]));
      tokens := tokens + [text[offset..offset + n]];
      offset := offset + n;
    }
    LexEnd();
    assert text[offset..] == [] && tokens + [] == tokens;
    return Some(tokens);
  }

  lemma LexEnd()
    ensures Lex([]) == Some([])
  {
  }
}
