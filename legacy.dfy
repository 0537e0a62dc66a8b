/**
  The two pieces of command grammar that smtpevent.js and smtp.js share
  word for word: `get_address`, which pulls the address out of a MAIL or
  RCPT argument, and the split of a command line at its first space, which
  both `data` listeners write inline.
*/
module LegacyGrammar {
  import opened Text

  /**
    `argument.substr(0, keylen).toUpperCase() === keyword`. A prefix shorter
    than the keyword cannot equal it, so the test needs the whole keyword.
  */
  predicate HasKeyword(keyword: string, argument: string) {
    |keyword| <= |argument| && Upper(argument[..|keyword|]) == keyword
  }

  /**
    The bracket removal of `get_address`: one enclosing `<` … `>` pair is
    dropped, except from the null address `<>`, which is kept literally.
  */
  function Unbracket(address: string): string {
    if |address| >= 2 && address[0] == '<' && address[|address| - 1] == '>' && address != "<>"
    then address[1..|address| - 1]
    else address
  }

  /**
    `get_address(keyword, argument)`: null unless the argument is truthy and
    starts with the keyword (compared after upper-casing); otherwise the
    stripped remainder, unbracketed.
  */
  function GetAddress(keyword: string, argument: Option<string>): (r: Option<string>)
    ensures r.Some? <==> Truthy(argument) && HasKeyword(keyword, argument.value)
  {
    if Truthy(argument) && HasKeyword(keyword, argument.value)
    then Some(Unbracket(Strip(argument.value[|keyword|..])))
    else None
  }

  /** What both revisions emit as `incoming-mail`: peer address, sender, recipients and the body text. */
  datatype IncomingMail = IncomingMail(remoteAddress: string, mailfrom: Option<string>, rcpttos: seq<string>, data: string)

  /** A command line cut at its first space: the upper-cased verb and the argument, `null` when there is no space. */
  datatype Split = Split(command: string, argument: Option<string>)

  /**
    The inline split of both `onVerb` listeners: without a space the verb is
    the whole line upper-cased and stripped, and the argument is null;
    otherwise the verb is the upper-cased text before the first space
    (not stripped) and the argument is the stripped rest.
  */
  function SplitCommand(line: string): Split {
    var p := IndexOf(line, ' ');
    if p == |line| then Split(Strip(Upper(line)), None)
    else Split(Upper(line[..p]), Some(Strip(line[p..])))
  }

  /** Neither end of the string is whitespace (what `strip` leaves). */
  predicate Stripped(s: string) {
    s == [] || (!IsSpace(s[0]) && !IsSpace(s[|s| - 1]))
  }

  // ---------------------------------------------------------------------------
  // Properties

  lemma UpperAppend(a: string, b: string)
    ensures Upper(a + b) == Upper(a) + Upper(b)
  {
  }

  /** Upper-casing keeps whitespace whitespace and everything else not. */
  lemma UpperKeepsSpace(s: string)
    ensures |Upper(s)| == |s|
    ensures forall i | 0 <= i < |s| :: IsSpace(Upper(s)[i]) == IsSpace(s[i])
  {
  }

  lemma UpperStripped(s: string)
    requires Stripped(s)
    ensures Stripped(Upper(s))
  {
    UpperKeepsSpace(s);
  }

  lemma UpperAllSpace(s: string)
    requires AllSpace(s)
    ensures Upper(s) == s
  {
  }

  /**
    The round trip of `get_address`: a keyword in any case, optional
    whitespace, a bracketed address and trailing whitespace give back the
    address; the null address `<>` comes back as the two characters `<>`.
  */
  lemma {:induction false} GetAddressBracketed(keyword: string, kw: string, lead: string, address: string, trail: string)
    requires Upper(kw) == keyword
    requires AllSpace(lead) && AllSpace(trail)
    ensures GetAddress(keyword, Some(kw + lead + "<" + address + ">" + trail))
            == Some(if address == "" then "<>" else address)
  {
    var core := "<" + address + ">";
    var rest := lead + (core + trail);
    assert kw + lead + "<" + address + ">" + trail == kw + rest;
    HasKeywordOf(keyword, kw, rest);
    StripPadded(lead, core, trail);
    UnbracketBracketed(address);
  }

  /** The same, for an argument written with no whitespace: the keyword right before the bracket. */
  lemma GetAddressOf(keyword: string, kw: string, address: string)
    requires Upper(kw) == keyword
    ensures GetAddress(keyword, Some(Bracketed(kw, address))) == Some(if address == "" then "<>" else address)
  {
    var core := "<" + (address + ">");
    HasKeywordOf(keyword, kw, core);
    StripStripped(core);
    assert "<" + address + ">" == core;
    UnbracketBracketed(address);
  }

  lemma UnbracketBracketed(address: string)
    ensures Unbracket("<" + address + ">") == if address == "" then "<>" else address
  {
    var core := "<" + address + ">";
    assert core[1..|core| - 1] == address;
  }

  /** An argument made of a keyword in any case and a remainder passes the keyword test, leaving the remainder. */
  lemma HasKeywordOf(keyword: string, kw: string, rest: string)
    requires Upper(kw) == keyword
    ensures HasKeyword(keyword, kw + rest) && (kw + rest)[|keyword|..] == rest
  {
    assert (kw + rest)[..|kw|] == kw;
  }

  /** The address is null exactly when the argument is missing, empty or lacks the keyword. */
  lemma GetAddressNull(keyword: string, argument: Option<string>)
    requires argument.None? || argument == Some("") || !HasKeyword(keyword, argument.value)
    ensures GetAddress(keyword, argument) == None
  {
  }

  /** Whatever follows the keyword, only whitespace on its own yields the empty (falsy) address. */
  lemma {:induction false} GetAddressEmpty(keyword: string, kw: string, rest: string)
    requires Upper(kw) == keyword && keyword != ""
    ensures GetAddress(keyword, Some(kw + rest)) == Some("") <==> AllSpace(rest)
  {
    HasKeywordOf(keyword, kw, rest);
    var lead, trail := StripShape(rest);
    var s := Strip(rest);
    if AllSpace(rest) {
    } else {
      assert Unbracket(s) != "" by {
        if |s| >= 2 && s[0] == '<' && s[|s| - 1] == '>' && s != "<>" {
          assert |s| >= 3;
        }
      }
    }
  }

  /** A line with a space splits there: the verb before it, the stripped rest as the argument. */
  lemma {:induction false} SplitAtFirstSpace(verb: string, rest: string)
    requires ' ' !in verb
    ensures SplitCommand(verb + (" " + rest)) == Split(Upper(verb), Some(Strip(" " + rest)))
  {
    var line := verb + (" " + rest);
    IndexOfIs(verb, ' ', " " + rest);
    assert line[..|verb|] == verb;
    assert line[|verb|..] == " " + rest;
  }

  /**
    What a client sends, `VERB arg` plus CR LF, splits back into the
    upper-cased verb and the argument, provided the verb holds no space and
    the argument has no whitespace at its ends.
  */
  lemma {:induction false} SplitCommandLine(verb: string, argument: string)
    requires ' ' !in verb && Stripped(argument)
    ensures SplitCommand(Line(verb, argument)) == Split(Upper(verb), Some(argument))
  {
    SplitAtFirstSpace(verb, argument + CRLF);
    assert AllSpace(" ") && AllSpace(CRLF);
    StripPadded(" ", argument, CRLF);
  }

  /** A bare verb plus CR LF splits into the verb and a null argument. */
  lemma {:induction false} SplitBareVerb(verb: string)
    requires ' ' !in verb && verb != [] && Stripped(verb)
    ensures SplitCommand(BareLine(verb)) == Split(Upper(verb), None)
  {
    var line := BareLine(verb);
    IndexOfIs(line, ' ', []);
    assert line + [] == line;
    UpperAppend(verb, CRLF);
    UpperAllSpace(CRLF);
    UpperStripped(verb);
    StripPadded([], Upper(verb), CRLF);
    assert Upper(line) == [] + (Upper(verb) + CRLF);
  }
}
