/**
  `SMTPGrammar` of index.js: the table of expected argument shapes, the two
  regular expressions (written here as hand-made recognisers), the end-of-data
  test, and the text of the replies.
*/
module SmtpGrammar {
  import opened Text

  /** A value of the `syntax` table: an argument shape, `null`, or `undefined`. */
  datatype Expected = Shape(text: string) | Null | Undefined

  /** `SMTPGrammar.syntax[verb]`; every verb outside the table reads `undefined`. */
  function Syntax(verb: string): Expected {
    if verb == "HELO" || verb == "EHLO" then Shape("hostname")
    else if verb == "MAIL" then Shape("FROM:<address>")
    else if verb == "RCPT" then Shape("TO: <address>")
    else if verb == "VRFY" then Shape("<address>")
    else if verb == "NOOP" || verb == "RSET" || verb == "DATA" then Null
    else Undefined
  }

  /** JavaScript truthiness of a table entry. */
  predicate ExpectsArgument(e: Expected) {
    e.Shape? && e.text != ""
  }

  /** What `regex.verb` captures: group 1 (the letters) and group 2 (the argument). */
  datatype Command = Command(verb: string, argument: string)

  /**
    `/^(?:\s*)([A-Za-z]{4,8}) ?(.*)(?:\s|\r|\n)*$/` applied to a whole chunk.
    Leading whitespace is skipped; the verb is the first eight (or fewer)
    letters of the letter run, which must have at least four; one space is
    dropped; the argument runs to the first CR or LF; only whitespace may
    remain after it.
  */
  function MatchVerb(buffer: string): Option<Command> {
    MatchFromLetters(buffer[SpacePrefix(buffer)..])
  }

  /** The pattern after `^\s*`: the letter group, or no match. */
  function MatchFromLetters(s: string): Option<Command> {
    var n := LetterPrefix(s);
    if n < 4 then None
    else
      var k := if n < 8 then n else 8;
      MatchArgument(s[..k], s[k..])
  }

  /** The pattern after the letter group: ` ?(.*)(?:\s|\r|\n)*$`. */
  function MatchArgument(verb: string, rest: string): Option<Command> {
    var after := if |rest| > 0 && rest[0] == ' ' then rest[1..] else rest;
    var e := LineBreakIndex(after);
    if AllSpace(after[e..]) then Some(Command(verb, after[..e])) else None
  }

  /**
    The ways `regex.verb` can match `buffer`, as a decomposition into the
    pieces of the pattern, with the choices the greedy engine makes: the
    letter group stops short of eight only at a non-letter, the optional space
    is taken when present, and `(.*)` runs up to the first line break.
  */
  ghost predicate VerbLine(buffer: string, lead: string, verb: string, gap: string, argument: string, tail: string) {
    && buffer == lead + (verb + (gap + (argument + tail)))
    && AllSpace(lead)
    && VerbShape(verb, gap + (argument + tail))
    && ArgumentShape(gap, argument, tail)
  }

  /** The letter group: four to eight letters, fewer than eight only before a non-letter. */
  ghost predicate VerbShape(verb: string, rest: string) {
    && 4 <= |verb| <= 8 && AllLetters(verb)
    && (|verb| < 8 ==> rest == "" || !IsLetter(rest[0]))
  }

  /** ` ?(.*)(?:\s|\r|\n)*$`: an optional space, taken when present, then the argument up to the first line break, then whitespace. */
  ghost predicate ArgumentShape(gap: string, argument: string, tail: string) {
    && (gap == "" || gap == " ")
    && (gap == "" ==> argument + tail == "" || (argument + tail)[0] != ' ')
    && NoLineBreak(argument)
    && AllSpace(tail) && (tail == "" || IsLineBreak(tail[0]))
  }

  /** Length of a leading case-insensitive `FROM:` or `TO:`, or 0. */
  function KeywordLength(s: string): nat {
    if |s| >= 5 && Upper(s[..5]) == "FROM:" then 5
    else if |s| >= 3 && Upper(s[..3]) == "TO:" then 3
    else 0
  }

  /**
    `parse_email_address`: `/^\s*(?:FROM:|TO:)?\s*<\s*?([^>]*)\s*>?\s*$/i`
    followed by `m && m[1]`. The result is the text between the `<` and the
    first `>` (or the end), and null when there is no `<` where one is needed
    or something other than whitespace follows the `>`.
  */
  function ParseEmailAddress(argument: string): Option<string> {
    var s1 := argument[SpacePrefix(argument)..];
    ParseAfterKeyword(s1[KeywordLength(s1)..])
  }

  /** The pattern after the optional keyword: `\s*<\s*?([^>]*)\s*>?\s*$`. */
  function ParseAfterKeyword(s2: string): Option<string> {
    var s3 := s2[SpacePrefix(s2)..];
    if |s3| == 0 || s3[0] != '<' then None
    else ParseBracketed(s3[1..])
  }

  /** The pattern after the `<`: the capture runs to the first `>`. */
  function ParseBracketed(body: string): Option<string> {
    var e := IndexOf(body, '>');
    if e == |body| || AllSpace(body[e + 1..]) then Some(body[..e]) else None
  }

  /** An optional keyword of `regex.email`, matched case-insensitively. */
  predicate IsKeyword(k: string) {
    k == "" || Upper(k) == "FROM:" || Upper(k) == "TO:"
  }

  /** The decompositions `regex.email` accepts, with the address it captures. */
  ghost predicate EmailArgument(argument: string, lead: string, keyword: string, gap: string, address: string, tail: string) {
    && argument == lead + (keyword + (gap + ("<" + (address + tail))))
    && AllSpace(lead) && IsKeyword(keyword) && AllSpace(gap)
    && '>' !in address
    && (tail == "" || (tail[0] == '>' && AllSpace(tail[1..])))
  }

  /** `regex.end`: a data line that is exactly one dot. */
  predicate IsEnd(line: string) {
    line == "."
  }

  /** Decimal digits of a number, as `"" + code` writes it. */
  function Decimal(n: nat): string {
    if n < 10 then [('0' as int + n) as char]
    else Decimal(n / 10) + [('0' as int + n % 10) as char]
  }

  /** `respond(code, message)`: code, space, text, CR LF. */
  function Reply(code: nat, message: string): string {
    Decimal(code) + " " + message + CRLF
  }

  /** `writeExtension(code, message)`: an intermediate line of a multi-line reply. */
  function ExtensionReply(code: nat, message: string): string {
    Decimal(code) + "-" + message + CRLF
  }

  /** The text of `respondSyntax(verb)`. */
  function SyntaxText(verb: string): string {
    var e := Syntax(verb);
    "Syntax: " + verb + (if ExpectsArgument(e) then " " + e.text else "")
  }

  // ---------------------------------------------------------------------------
  // Properties

  lemma {:induction false} MatchArgumentSound(verb: string, rest: string) returns (gap: string, tail: string)
    requires MatchArgument(verb, rest).Some?
    ensures var c := MatchArgument(verb, rest).value;
            c.verb == verb && rest == gap + (c.argument + tail) && ArgumentShape(gap, c.argument, tail)
  {
    var after := if |rest| > 0 && rest[0] == ' ' then rest[1..] else rest;
    var e := LineBreakIndex(after);
    gap := if |rest| > 0 && rest[0] == ' ' then " " else "";
    tail := after[e..];
    assert rest == gap + after;
    assert after == after[..e] + tail;
  }

  lemma {:induction false} MatchFromLettersSound(s: string) returns (verb: string, rest: string)
    requires MatchFromLetters(s).Some?
    ensures s == verb + rest && VerbShape(verb, rest)
    ensures MatchFromLetters(s) == MatchArgument(verb, rest)
  {
    var n := LetterPrefix(s);
    var k := if n < 8 then n else 8;
    verb, rest := s[..k], s[k..];
    assert s == verb + rest;
    assert verb == s[..n][..k];
    if k < 8 && rest != "" {
      assert rest[0] == s[n];
    }
  }

  /** Every match of the recogniser is a match of the pattern. */
  lemma {:induction false} MatchVerbSound(buffer: string) returns (lead: string, gap: string, tail: string)
    requires MatchVerb(buffer).Some?
    ensures VerbLine(buffer, lead, MatchVerb(buffer).value.verb, gap, MatchVerb(buffer).value.argument, tail)
  {
    var a := SpacePrefix(buffer);
    lead := buffer[..a];
    var verb, rest := MatchFromLettersSound(buffer[a..]);
    gap, tail := MatchArgumentSound(verb, rest);
    assert buffer == lead + buffer[a..];
  }

  lemma {:induction false} MatchArgumentComplete(verb: string, gap: string, argument: string, tail: string)
    requires ArgumentShape(gap, argument, tail)
    ensures MatchArgument(verb, gap + (argument + tail)) == Some(Command(verb, argument))
  {
    var rest := gap + (argument + tail);
    var after := argument + tail;
    if gap == " " {
      assert rest == " " + after;
    } else {
      assert rest == after;
    }
    LineBreakIndexOf(argument, tail);
    assert after[..|argument|] == argument;
    assert after[|argument|..] == tail;
  }

  lemma {:induction false} MatchFromLettersComplete(verb: string, rest: string)
    requires VerbShape(verb, rest)
    ensures MatchFromLetters(verb + rest) == MatchArgument(verb, rest)
  {
    LetterPrefixOf(verb, rest);
    var s := verb + rest;
    assert s[..|verb|] == verb;
    assert s[|verb|..] == rest;
  }

  /** Every match of the pattern is found by the recogniser, with the same captures. */
  lemma {:induction false} MatchVerbComplete(buffer: string, lead: string, verb: string, gap: string, argument: string, tail: string)
    requires VerbLine(buffer, lead, verb, gap, argument, tail)
    ensures MatchVerb(buffer) == Some(Command(verb, argument))
  {
    var rest := gap + (argument + tail);
    assert (verb + rest)[0] == verb[0];
    SpacePrefixOf(lead, verb + rest);
    assert buffer[|lead|..] == verb + rest;
    MatchFromLettersComplete(verb, rest);
    MatchArgumentComplete(verb, gap, argument, tail);
  }

  lemma {:induction false} ParseBracketedSound(body: string) returns (tail: string)
    requires ParseBracketed(body).Some?
    ensures var address := ParseBracketed(body).value;
            body == address + tail && '>' !in address
            && (tail == "" || (tail[0] == '>' && AllSpace(tail[1..])))
  {
    var e := IndexOf(body, '>');
    tail := body[e..];
    assert body == body[..e] + tail;
    if tail != "" {
      assert tail[1..] == body[e + 1..];
    }
  }

  lemma {:induction false} ParseBracketedComplete(address: string, tail: string)
    requires '>' !in address
    requires tail == "" || (tail[0] == '>' && AllSpace(tail[1..]))
    ensures ParseBracketed(address + tail) == Some(address)
  {
    var body := address + tail;
    IndexOfIs(address, '>', tail);
    assert body[..|address|] == address;
    if tail != "" {
      assert body[|address| + 1..] == tail[1..];
    }
  }

  lemma {:induction false} ParseAfterKeywordSound(s2: string) returns (gap: string, tail: string)
    requires ParseAfterKeyword(s2).Some?
    ensures var address := ParseAfterKeyword(s2).value;
            s2 == gap + ("<" + (address + tail)) && AllSpace(gap) && '>' !in address
            && (tail == "" || (tail[0] == '>' && AllSpace(tail[1..])))
  {
    var g := SpacePrefix(s2);
    gap := s2[..g];
    var s3 := s2[g..];
    tail := ParseBracketedSound(s3[1..]);
    assert s2 == gap + s3;
    assert s3 == "<" + s3[1..];
  }

  lemma {:induction false} ParseAfterKeywordComplete(gap: string, address: string, tail: string)
    requires AllSpace(gap) && '>' !in address
    requires tail == "" || (tail[0] == '>' && AllSpace(tail[1..]))
    ensures ParseAfterKeyword(gap + ("<" + (address + tail))) == Some(address)
  {
    var s3 := "<" + (address + tail);
    SpacePrefixOf(gap, s3);
    assert (gap + s3)[|gap|..] == s3;
    assert s3[1..] == address + tail;
    ParseBracketedComplete(address, tail);
  }

  /** The keyword the recogniser skips is one the pattern allows. */
  lemma {:induction false} KeywordLengthIsKeyword(s: string)
    ensures KeywordLength(s) <= |s| && IsKeyword(s[..KeywordLength(s)])
  {
    var kl := KeywordLength(s);
    if kl == 0 { assert s[..0] == ""; }
  }

  /** A nonempty keyword followed by anything is skipped whole. */
  lemma {:induction false} KeywordLengthOf(k: string, rest: string)
    requires IsKeyword(k) && k != ""
    ensures KeywordLength(k + rest) == |k|
  {
    var s := k + rest;
    assert Upper(k)[0] == 'F' || Upper(k)[0] == 'T';
    if Upper(k) == "FROM:" {
      assert s[..5] == k;
    } else {
      assert s[..3] == k;
      if |s| >= 5 { assert Upper(s[..5])[0] == Upper(k)[0]; }
    }
  }

  lemma {:induction false} ParseFromKeywordSound(s1: string) returns (keyword: string, gap: string, tail: string)
    requires ParseAfterKeyword(s1[KeywordLength(s1)..]).Some?
    ensures var address := ParseAfterKeyword(s1[KeywordLength(s1)..]).value;
            s1 == keyword + (gap + ("<" + (address + tail)))
            && IsKeyword(keyword) && AllSpace(gap) && '>' !in address
            && (tail == "" || (tail[0] == '>' && AllSpace(tail[1..])))
  {
    var kl := KeywordLength(s1);
    keyword := s1[..kl];
    var s2 := s1[kl..];
    KeywordLengthIsKeyword(s1);
    gap, tail := ParseAfterKeywordSound(s2);
    assert s1 == keyword + s2;
  }

  /** Every address the parser returns comes from a decomposition the pattern accepts. */
  lemma {:induction false} ParseEmailAddressSound(argument: string) returns (lead: string, keyword: string, gap: string, tail: string)
    requires ParseEmailAddress(argument).Some?
    ensures EmailArgument(argument, lead, keyword, gap, ParseEmailAddress(argument).value, tail)
  {
    var a := SpacePrefix(argument);
    var s1 := argument[a..];
    lead := argument[..a];
    keyword, gap, tail := ParseFromKeywordSound(s1);
    SplitAt(argument, a);
  }

  /** Every decomposition the pattern accepts yields its address. */
  lemma {:induction false} ParseEmailAddressComplete(argument: string, lead: string, keyword: string, gap: string, address: string, tail: string)
    requires EmailArgument(argument, lead, keyword, gap, address, tail)
    ensures ParseEmailAddress(argument) == Some(address)
  {
    var s3 := "<" + (address + tail);
    if keyword == "" {
      assert argument == lead + (gap + s3);
      SpacePrefixesJoin(lead, gap, s3);
      var s1 := argument[SpacePrefix(argument)..];
      assert s1 == s3;
      assert KeywordLength(s1) == 0 by {
        if |s1| >= 5 { assert Upper(s1[..5])[0] == '<'; }
        if |s1| >= 3 { assert Upper(s1[..3])[0] == '<'; }
      }
      assert s1[0..] == [] + s3;
      ParseAfterKeywordComplete([], address, tail);
    } else {
      var s2 := gap + s3;
      assert !IsSpace(keyword[0]) by {
        assert Upper(keyword)[0] == 'F' || Upper(keyword)[0] == 'T';
      }
      assert (keyword + s2)[0] == keyword[0];
      SpacePrefixOf(lead, keyword + s2);
      assert argument[|lead|..] == keyword + s2;
      KeywordLengthOf(keyword, s2);
      assert (keyword + s2)[|keyword|..] == s2;
      ParseAfterKeywordComplete(gap, address, tail);
    }
  }

  /** Leading whitespace split in two pieces is skipped as one. */
  lemma {:induction false} SpacePrefixesJoin(lead: string, gap: string, s: string)
    requires AllSpace(lead) && AllSpace(gap)
    requires s == "" || !IsSpace(s[0])
    ensures SpacePrefix(lead + (gap + s)) == |lead| + |gap|
  {
    var x := lead + gap;
    assert AllSpace(x) by {
      forall i | 0 <= i < |x| ensures IsSpace(x[i]) {
        if i < |lead| { assert x[i] == lead[i]; } else { assert x[i] == gap[i - |lead|]; }
      }
    }
    assert lead + (gap + s) == x + s;
    SpacePrefixOf(x, s);
  }

  /**
    `FROM:` and `TO:` are interchangeable, whatever their case: the recogniser
    reads the same address after either keyword.
  */
  lemma {:induction false} KeywordsInterchangeable(lead: string, k1: string, k2: string, rest: string)
    requires AllSpace(lead)
    requires IsKeyword(k1) && k1 != "" && IsKeyword(k2) && k2 != ""
    ensures ParseEmailAddress(lead + k1 + rest) == ParseEmailAddress(lead + k2 + rest)
  {
    KeywordSkipped(lead, k1, rest);
    KeywordSkipped(lead, k2, rest);
  }

  lemma {:induction false} KeywordSkipped(lead: string, k: string, rest: string)
    requires AllSpace(lead)
    requires IsKeyword(k) && k != ""
    ensures var arg := lead + k + rest;
            var s1 := arg[SpacePrefix(arg)..];
            s1[KeywordLength(s1)..] == rest
  {
    assert |k| == 5 || |k| == 3;
    assert Upper(k)[0] == 'F' || Upper(k)[0] == 'T';
    var arg := lead + k + rest;
    assert arg == lead + (k + rest);
    SpacePrefixOf(lead, k + rest);
    var s1 := arg[SpacePrefix(arg)..];
    assert s1 == k + rest;
    if Upper(k) == "FROM:" {
      assert s1[..5] == k;
    } else {
      assert s1[..3] == k;
      if |s1| >= 5 { assert Upper(s1[..5])[0] == Upper(k)[0]; }
    }
    assert s1[|k|..] == rest;
  }

  /** A reply is the three digits of its code, one space, its text and CR LF. */
  lemma ReplyShape(code: nat, message: string)
    requires 100 <= code <= 999
    ensures var r := Reply(code, message);
            |r| == |message| + 6 && r[..3] == Decimal(code) && r[3] == ' '
            && r[4..|r| - 2] == message && r[|r| - 2..] == CRLF
  {
    assert |Decimal(code)| == 3 by {
      assert code / 10 >= 10 && code / 10 / 10 < 10;
      assert |Decimal(code / 10 / 10)| == 1;
      assert |Decimal(code / 10)| == |Decimal(code / 10 / 10)| + 1;
      assert |Decimal(code)| == |Decimal(code / 10)| + 1;
    }
    var r := Reply(code, message);
    assert r == Decimal(code) + (" " + message + CRLF);
  }

  /** Distinct three-digit codes give distinct reply prefixes. */
  lemma DecimalInjective(c1: nat, c2: nat)
    requires 100 <= c1 <= 999 && 100 <= c2 <= 999
    requires Decimal(c1) == Decimal(c2)
    ensures c1 == c2
  {
    assert Decimal(c1) == Decimal(c1 / 10) + [('0' as int + c1 % 10) as char];
    assert Decimal(c2) == Decimal(c2 / 10) + [('0' as int + c2 % 10) as char];
    assert Decimal(c1)[2] == Decimal(c2)[2];
    assert c1 % 10 == c2 % 10;
    assert Decimal(c1 / 10) == Decimal(c1)[..2] == Decimal(c2)[..2] == Decimal(c2 / 10);
    assert Decimal(c1 / 10)[1] == Decimal(c2 / 10)[1];
    assert c1 / 10 % 10 == c2 / 10 % 10;
    assert Decimal(c1 / 10)[0] == Decimal(c2 / 10)[0];
  }
}
