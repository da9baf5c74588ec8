/** Optional values, shared by every module. */
module Options {
  datatype Option<+T> = None | Some(value: T)
}

/** Laws of maps that the verifier needs to be told. */
module Maps {
  lemma UpdateThenRemove<K, V>(m: map<K, V>, k: K, v: V)
    ensures m[k := v] - {k} == m - {k}
  {
  }

  lemma UpdateSame<K, V>(m: map<K, V>, k: K)
    requires k in m
    ensures m[k := m[k]] == m
  {
  }
}

/** Decimal numerals as Go's `%d` prints them. */
module Decimals {
  function Digit(d: nat): (c: char)
    requires d < 10
    ensures '0' <= c <= '9'
  {
    ('0' as int + d) as char
  }

  predicate IsDigit(c: char) {
    '0' <= c <= '9'
  }

  predicate AllDigits(s: string) {
    forall i | 0 <= i < |s| :: IsDigit(s[i])
  }

  function Print(n: nat): (s: string)
    ensures s != "" && AllDigits(s)
  {
    if n < 10 then [Digit(n)] else Print(n / 10) + [Digit(n % 10)]
  }

  function Parse(s: string): nat
    requires AllDigits(s)
  {
    if s == "" then 0 else 10 * Parse(s[..|s| - 1]) + (s[|s| - 1] as int - '0' as int)
  }

  lemma {:induction false} PrintThenParse(n: nat)
    ensures Parse(Print(n)) == n
  {
    if n >= 10 {
      var s := Print(n);
      assert s[..|s| - 1] == Print(n / 10);
      PrintThenParse(n / 10);
    }
  }

  /** A text that ends in ':' and a numeral determines the numeral. */
  lemma LastNumeral(a: string, m: nat, b: string, n: nat)
    requires a + ":" + Print(m) == b + ":" + Print(n)
    ensures a == b && m == n
  {
    var s, t := a + ":" + Print(m), b + ":" + Print(n);
    assert s[|a|] == ':' && t[|b|] == ':';
    assert forall i | |a| < i < |s| :: s[i] == Print(m)[i - |a| - 1] && IsDigit(s[i]);
    assert forall i | |b| < i < |t| :: t[i] == Print(n)[i - |b| - 1] && IsDigit(t[i]);
    assert a == s[..|a|] && b == t[..|b|];
    assert Print(m) == s[|a| + 1..] && Print(n) == t[|b| + 1..];
    PrintThenParse(m);
    PrintThenParse(n);
  }
}

/** The identifiers the registry derives by hashing, and the text it hashes. */
module Identifiers {
  import opened Options
  import opened Decimals

  ghost predicate Injective(f: string -> string) {
    forall a, b :: f(a) == f(b) ==> a == b
  }

  /** An arbitrary injective function: the only fact used about SHA-256, here also after truncation. */
  type Digest = f: string -> string | Injective(f) witness (s: string) => s

  const Sha256Hex: Digest
  const First16Digits: Digest
  const Sha256First8Bytes: Digest

  /** The text that channelKey feeds to the hash: each part preceded by its length and a colon. */
  function KeyText(name: string, pin: string): string {
    Field(name) + Field(pin)
  }

  function Field(part: string): string {
    Print(|part|) + ":" + part
  }

  function ChannelKey(name: string, pin: string): string {
    Sha256Hex(KeyText(name, pin))
  }

  function ChannelIdForKey(key: string): string {
    "ch_" + First16Digits(key)
  }

  function JoinId(channelId: string, deviceId: string, joinSeq: nat): string {
    "join_" + Sha256First8Bytes(channelId + ":" + deviceId + ":" + Print(joinSeq))
  }

  /** The number of leading characters of s that are not a colon. */
  function ColonIndex(s: string): (i: nat)
    ensures i <= |s| && ':' !in s[..i] && (i < |s| ==> s[i] == ':')
  {
    if s == "" || s[0] == ':' then 0 else 1 + ColonIndex(s[1..])
  }

  /** A reader for one length-prefixed part; the result also holds the unread text. */
  function ReadField(text: string): Option<(string, string)> {
    var i := ColonIndex(text);
    if i == |text| || i == 0 || !AllDigits(text[..i]) then None else
    var n := Parse(text[..i]);
    if i + 1 + n > |text| then None else Some((text[i + 1..i + 1 + n], text[i + 1 + n..]))
  }

  /** A reader for the hashed text, independent of how KeyText builds it. */
  function ReadKeyText(text: string): Option<(string, string)> {
    match ReadField(text)
    case None => None
    case Some((name, rest)) =>
      match ReadField(rest)
      case None => None
      case Some((pin, end)) => if end == "" then Some((name, pin)) else None
  }

  lemma ReadFieldBack(part: string, rest: string)
    ensures ReadField(Field(part) + rest) == Some((part, rest))
  {
    var n := Print(|part|);
    var text := Field(part) + rest;
    assert text == n + ([':'] + part + rest);
    assert text[..|n|] == n && text[|n|] == ':';
    assert forall i | 0 <= i < |n| :: text[i] == n[i] && IsDigit(text[i]);
    assert forall i | 0 <= i < ColonIndex(text) :: text[..ColonIndex(text)][i] == text[i];
    assert ColonIndex(text) == |n|;
    PrintThenParse(|part|);
    assert text[|n| + 1..|n| + 1 + |part|] == part;
    assert text[|n| + 1 + |part|..] == rest;
  }

  /** The hashed text is uniquely decodable. */
  lemma KeyTextRoundTrip(name: string, pin: string)
    ensures ReadKeyText(KeyText(name, pin)) == Some((name, pin))
  {
    ReadFieldBack(name, Field(pin));
    assert Field(pin) + "" == Field(pin);
    ReadFieldBack(pin, "");
  }

  /** Distinct (name, pin) pairs never share a key, nor a channel id. */
  lemma ChannelIdInjective(name: string, pin: string, name': string, pin': string)
    requires ChannelIdForKey(ChannelKey(name, pin)) == ChannelIdForKey(ChannelKey(name', pin'))
    ensures name == name' && pin == pin'
  {
    ChannelIdForKeyInjective(ChannelKey(name, pin), ChannelKey(name', pin'));
    KeyTextRoundTrip(name, pin);
    KeyTextRoundTrip(name', pin');
  }

  lemma ChannelIdForKeyInjective(key: string, key': string)
    requires ChannelIdForKey(key) == ChannelIdForKey(key')
    ensures key == key'
  {
    assert First16Digits(key) == ChannelIdForKey(key)[3..];
    assert First16Digits(key') == ChannelIdForKey(key')[3..];
  }

  /** id was handed out by nextJoinID no later than the joinSeq-th call. */
  ghost predicate Issued(id: string, joinSeq: nat) {
    exists c, d, k: nat :: k <= joinSeq && id == JoinId(c, d, k)
  }

  /** A new join id differs from every id handed out before it. */
  lemma NextJoinIdIsFresh(channelId: string, deviceId: string, joinSeq: nat)
    ensures !Issued(JoinId(channelId, deviceId, joinSeq + 1), joinSeq)
    ensures Issued(JoinId(channelId, deviceId, joinSeq + 1), joinSeq + 1)
  {
    var id := JoinId(channelId, deviceId, joinSeq + 1);
    if Issued(id, joinSeq) {
      var c, d, k: nat :| k <= joinSeq && id == JoinId(c, d, k);
      var text := channelId + ":" + deviceId + ":" + Print(joinSeq + 1);
      var text' := c + ":" + d + ":" + Print(k);
      assert Sha256First8Bytes(text) == id[5..] && Sha256First8Bytes(text') == JoinId(c, d, k)[5..];
      LastNumeral(channelId + ":" + deviceId, joinSeq + 1, c + ":" + d, k);
    }
  }
}

/** The shell quoting of the installer script and a lexer for what it produces. */
module ShellQuoting {
  import opened Options

  /** strings.ReplaceAll(value, "'", "'\\''") */
  function ReplaceQuotes(value: string): string {
    if value == "" then "" else
    (if value[0] == '\'' then "'\\''" else [value[0]]) + ReplaceQuotes(value[1..])
  }

  function ShellQuote(value: string): string {
    "'" + ReplaceQuotes(value) + "'"
  }

  /** Characters that end an unquoted word: blanks, newline and the first characters of operators. */
  predicate EndsWord(c: char) {
    c in " \t\n&|;<>()"
  }

  /** Characters whose unquoted meaning (expansion, comment, pattern, ...) is outside this lexer. */
  predicate OutOfScope(c: char) {
    c in "$`\"#*?[~={}!\0"
  }

  /**
   * Reads one word by sections 2.2.1 (escape character) and 2.2.2 (single quotes) of the
   * POSIX.1-2017 Shell Command Language. The result is the word after quote removal and the
   * unread text; there is none where the text is malformed or outside those two sections.
   */
  function LexWord(text: string, quoted: bool): Option<(string, string)>
    decreases |text|
  {
    if text == "" then (if quoted then None else Some(("", "")))
    else if text[0] == '\0' then None
    else if quoted then
      if text[0] == '\'' then LexWord(text[1..], false) else Prepend(text[0], LexWord(text[1..], true))
    else if EndsWord(text[0]) then Some(("", text))
    else if text[0] == '\'' then LexWord(text[1..], true)
    else if text[0] == '\\' then
      if |text| == 1 || text[1] == '\0' then None
      else if text[1] == '\n' then LexWord(text[2..], false)
      else Prepend(text[1], LexWord(text[2..], false))
    else if OutOfScope(text[0]) then None
    else Prepend(text[0], LexWord(text[1..], false))
  }

  function Prepend(c: char, lexed: Option<(string, string)>): Option<(string, string)> {
    match lexed
    case None => None
    case Some((word, rest)) => Some(([c] + word, rest))
  }

  /** The four characters that stand for one quote close the quotes, escape one and open them again. */
  lemma {:induction false} EscapedQuote(tail: string)
    ensures LexWord("'\\''" + tail, true) == Prepend('\'', LexWord(tail, true))
  {
    var t0, t1, t3 := "'\\''" + tail, "\\''" + tail, "'" + tail;
    assert t0[1..] == t1 && t1[2..] == t3 && t3[1..] == tail;
    assert LexWord(t3, false) == LexWord(tail, true);
    assert t1[0] == '\\' && t1[1] == '\'';
    assert LexWord(t1, false) == Prepend('\'', LexWord(t3, false));
  }

  lemma {:induction false} QuotedBody(value: string, rest: string)
    requires rest == "" || EndsWord(rest[0])
    ensures LexWord(ReplaceQuotes(value) + "'" + rest, true)
         == if '\0' in value then None else Some((value, rest))
  {
    if value == "" {
      ClosingQuote(rest);
    } else {
      hide LexWord;
      var tail := ReplaceQuotes(value[1..]) + "'" + rest;
      QuotedBody(value[1..], rest);
      assert value == [value[0]] + value[1..];
      if value[0] == '\'' {
        assert ReplaceQuotes(value) + "'" + rest == "'\\''" + tail;
        EscapedQuote(tail);
      } else {
        assert ReplaceQuotes(value) + "'" + rest == [value[0]] + tail;
        PlainQuoted(value[0], tail);
      }
    }
  }

  lemma ClosingQuote(rest: string)
    requires rest == "" || EndsWord(rest[0])
    ensures ReplaceQuotes("") + "'" + rest == "'" + rest && LexWord("'" + rest, true) == Some(("", rest))
  {
    assert ("'" + rest)[1..] == rest;
    assert LexWord(rest, false) == Some(("", rest));
  }

  /** Any other character stands for itself between quotes, except NUL. */
  lemma PlainQuoted(c: char, tail: string)
    requires c != '\''
    ensures LexWord([c] + tail, true) == if c == '\0' then None else Prepend(c, LexWord(tail, true))
  {
    assert ([c] + tail)[1..] == tail;
  }

  /** One word, equal to the value, whatever delimiter follows: exactly for the values free of NUL. */
  lemma ShellQuoteRoundTrip(value: string, rest: string)
    requires rest == "" || EndsWord(rest[0])
    ensures LexWord(ShellQuote(value) + rest, false) == Some((value, rest)) <==> '\0' !in value
  {
    var text := ShellQuote(value) + rest;
    assert text[1..] == ReplaceQuotes(value) + "'" + rest;
    QuotedBody(value, rest);
  }
}
