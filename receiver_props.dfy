/**
  What the index.js engine promises, proved about the transitions of
  `ReceiverSpec`: how a command line is recognised and dispatched, the
  envelope rules of MAIL, RCPT, VRFY, HELO/EHLO, RSET and DATA (including the
  JavaScript truthiness of an empty sender), the data-phase round trip, the
  one-shot STARTTLS guard and the server counters.
*/
module ReceiverProps {
  import opened Text
  import opened SmtpGrammar
  import opened ReceiverSpec

  const BadSyntax: string := Reply(500, "Error: bad syntax")

  // ---------------------------------------------------------------------------
  // Recognising a command line

  /** A verb spelled in capitals, four to eight of them. */
  predicate IsVerbWord(verb: string) {
    4 <= |verb| <= 8 && forall i | 0 <= i < |verb| :: 'A' <= verb[i] <= 'Z'
  }

  /** `VERB argument` plus CR LF is recognised with exactly that verb and argument. */
  lemma {:induction false} CommandLineMatches(verb: string, argument: string)
    requires 4 <= |verb| <= 8 && AllLetters(verb) && NoLineBreak(argument)
    ensures MatchVerb(Line(verb, argument)) == Some(Command(verb, argument))
  {
    var tail := CRLF;
    assert AllSpace(tail) && IsLineBreak(tail[0]);
    assert ArgumentShape(" ", argument, tail);
    assert Line(verb, argument) == [] + (verb + (" " + (argument + tail)));
    MatchVerbComplete(Line(verb, argument), [], verb, " ", argument, tail);
  }

  /** A bare `VERB` plus CR LF is recognised with an empty argument. */
  lemma {:induction false} BareCommandMatches(verb: string)
    requires 4 <= |verb| <= 8 && AllLetters(verb)
    ensures MatchVerb(BareLine(verb)) == Some(Command(verb, ""))
  {
    var tail := CRLF;
    assert AllSpace(tail) && IsLineBreak(tail[0]);
    assert ArgumentShape("", "", tail);
    assert BareLine(verb) == [] + (verb + ("" + ("" + tail)));
    MatchVerbComplete(BareLine(verb), [], verb, "", "", tail);
  }

  /**
    Fewer than four letters at the start of the line (after whitespace) is
    bad syntax: 500, and nothing changes.
  */
  lemma {:induction false} ShortVerbRejected(cfg: Config, c: Conn, lead: string, letters: string, rest: string)
    requires AllSpace(lead) && AllLetters(letters) && |letters| < 4
    requires rest == "" || !IsLetter(rest[0])
    requires letters == "" ==> rest == "" || !IsSpace(rest[0])
    ensures OnVerb(cfg, c, lead + letters + rest) == Say(c, [BadSyntax])
  {
    var s := letters + rest;
    assert lead + letters + rest == lead + s;
    if letters != "" {
      assert s[0] == letters[0];
    }
    SpacePrefixOf(lead, s);
    assert (lead + s)[|lead|..] == s;
    LetterPrefixOf(letters, rest);
  }

  /** A string with a non-space somewhere stays so with anything before it. */
  lemma NotAllSpaceAfter(a: string, b: string)
    requires !AllSpace(b)
    ensures !AllSpace(a + b)
  {
    var i :| 0 <= i < |b| && !IsSpace(b[i]);
    assert (a + b)[|a| + i] == b[i];
  }

  /** The letter run of a line cannot reach past its first line break. */
  lemma LetterRunWithinLine(line: string, br: char, post: string)
    requires IsLineBreak(br)
    ensures LetterPrefix(line + ([br] + post)) <= |line|
  {
    var s := line + ([br] + post);
    assert s[|line|] == br;
    LetterPrefixBound(s, |line|);
  }

  /** After the letters, a line break followed by a non-space defeats `(?:\s|\r|\n)*$`. */
  lemma {:induction false} ArgumentRejected(verb: string, pre: string, br: char, post: string)
    requires NoLineBreak(pre) && IsLineBreak(br) && !AllSpace(post)
    ensures MatchArgument(verb, pre + ([br] + post)) == None
  {
    var rest := pre + ([br] + post);
    var after := if |rest| > 0 && rest[0] == ' ' then rest[1..] else rest;
    var p := if |rest| > 0 && rest[0] == ' ' then pre[1..] else pre;
    if |rest| > 0 && rest[0] == ' ' {
      assert pre != [];
      assert after == pre[1..] + ([br] + post);
    }
    assert after == p + ([br] + post);
    assert NoLineBreak(p);
    LineBreakIndexOf(p, [br] + post);
    assert after[|p|..] == [br] + post;
    NotAllSpaceAfter([br], post);
  }

  /**
    A line with anything but whitespace after its first line break is bad
    syntax: 500, and nothing changes.
  */
  lemma {:induction false} TextAfterLineBreakRejected(cfg: Config, c: Conn, lead: string, line: string, br: char, post: string)
    requires AllSpace(lead) && line != "" && !IsSpace(line[0]) && NoLineBreak(line)
    requires IsLineBreak(br) && !AllSpace(post)
    ensures OnVerb(cfg, c, lead + (line + ([br] + post))) == Say(c, [BadSyntax])
  {
    var s := line + ([br] + post);
    assert s[0] == line[0];
    SpacePrefixOf(lead, s);
    assert (lead + s)[|lead|..] == s;
    LetterRunWithinLine(line, br, post);
    var n := LetterPrefix(s);
    if n >= 4 {
      var k := if n < 8 then n else 8;
      assert s[k..] == line[k..] + ([br] + post);
      ArgumentRejected(s[..k], line[k..], br, post);
    }
  }

  /** An unknown verb gets 502 naming it in upper case, whatever its argument, and nothing changes. */
  lemma UnknownVerbRejected(cfg: Config, c: Conn, verb: string, argument: string)
    requires 4 <= |verb| <= 8 && AllLetters(verb) && NoLineBreak(argument)
    requires !IsHandler(Upper(verb))
    ensures OnVerb(cfg, c, Line(verb, argument))
            == Say(c, [Reply(502, "Error: command \"" + Upper(verb) + "\" not implemented")])
  {
    CommandLineMatches(verb, argument);
  }

  /**
    Which verbs need an argument, which refuse one and which ignore it:
    required for HELO, EHLO, MAIL, RCPT, VRFY; forbidden for NOOP, RSET,
    DATA; ignored for QUIT and STARTTLS.
  */
  lemma ArgumentPolicy(verb: string, argument: string)
    requires IsHandler(verb)
    ensures verb in {"HELO", "EHLO", "MAIL", "RCPT", "VRFY"} ==> (ArgumentRefused(verb, argument) <==> argument == "")
    ensures verb in {"NOOP", "RSET", "DATA"} ==> (ArgumentRefused(verb, argument) <==> argument != "")
    ensures verb in {"QUIT", "STARTTLS"} ==> !ArgumentRefused(verb, argument)
  {
    SyntaxTable(verb);
  }

  /** The table entries: truthy for five verbs, `null` for three, missing for every other word. */
  lemma SyntaxTable(verb: string)
    ensures ExpectsArgument(Syntax(verb)) <==> verb in {"HELO", "EHLO", "MAIL", "RCPT", "VRFY"}
    ensures Syntax(verb) == Null <==> verb in {"NOOP", "RSET", "DATA"}
    ensures Syntax(verb) != Undefined <==> verb in {"HELO", "EHLO", "MAIL", "RCPT", "VRFY", "NOOP", "RSET", "DATA"}
  {
  }

  /** The 501 hint of a verb that takes an argument names the verb and the shape. */
  lemma SyntaxTextOfMail()
    ensures SyntaxText("MAIL") == "Syntax: MAIL FROM:<address>"
  {
    assert Syntax("MAIL") == Shape("FROM:<address>") && ExpectsArgument(Syntax("MAIL"));
  }

  lemma SyntaxTextOfRcpt()
    ensures SyntaxText("RCPT") == "Syntax: RCPT TO: <address>"
  {
    assert Syntax("RCPT") == Shape("TO: <address>") && ExpectsArgument(Syntax("RCPT"));
  }

  lemma SyntaxTextsOfHello()
    ensures SyntaxText("HELO") == "Syntax: HELO hostname"
    ensures SyntaxText("VRFY") == "Syntax: VRFY <address>"
  {
    assert Syntax("HELO") == Shape("hostname") && ExpectsArgument(Syntax("HELO"));
    assert Syntax("VRFY") == Shape("<address>") && ExpectsArgument(Syntax("VRFY"));
  }

  /** The 501 hint of a verb whose shape is `null` names the verb alone. */
  lemma SyntaxTextsWithoutShape()
    ensures SyntaxText("NOOP") == "Syntax: NOOP"
    ensures SyntaxText("RSET") == "Syntax: RSET"
    ensures SyntaxText("DATA") == "Syntax: DATA"
  {
    assert Syntax("NOOP") == Null;
    assert Syntax("RSET") == Null;
    assert Syntax("DATA") == Null;
  }

  /** A word of capital letters is its own upper case. */
  lemma UpperCapitals(s: string)
    requires forall i | 0 <= i < |s| :: 'A' <= s[i] <= 'Z'
    ensures Upper(s) == s && AllLetters(s)
  {
  }

  /**
    Dispatch of a recognised handler verb, in any letter case: 501 with the
    hint when the argument rule is broken, otherwise its handler.
  */
  lemma CommandDispatch(cfg: Config, c: Conn, verb: string, argument: string)
    requires 4 <= |verb| <= 8 && AllLetters(verb) && NoLineBreak(argument)
    requires IsHandler(Upper(verb))
    ensures OnVerb(cfg, c, Line(verb, argument))
            == if ArgumentRefused(Upper(verb), argument) then Say(c, [Reply(501, SyntaxText(Upper(verb)))])
               else Handle(cfg, c, Upper(verb), argument)
  {
    CommandLineMatches(verb, argument);
  }

  /** A verb that needs an argument, sent bare, gets 501 and nothing changes. */
  lemma MissingArgumentRejected(cfg: Config, c: Conn, verb: string)
    requires IsVerbWord(verb) && ExpectsArgument(Syntax(verb))
    ensures OnVerb(cfg, c, BareLine(verb)) == Say(c, [Reply(501, SyntaxText(verb))])
  {
    SyntaxTable(verb);
    UpperCapitals(verb);
    BareCommandMatches(verb);
  }

  /** A verb that refuses an argument, sent with one, gets 501 and nothing changes. */
  lemma ExtraArgumentRejected(cfg: Config, c: Conn, verb: string, argument: string)
    requires IsVerbWord(verb) && Syntax(verb) == Null && argument != "" && NoLineBreak(argument)
    ensures OnVerb(cfg, c, Line(verb, argument)) == Say(c, [Reply(501, SyntaxText(verb))])
  {
    SyntaxTable(verb);
    UpperCapitals(verb);
    CommandLineMatches(verb, argument);
  }

  /** In the command phase a handler verb with an acceptable argument reaches its handler. */
  lemma HandlerLine(cfg: Config, c: Conn, verb: string, argument: string)
    requires c.phase == Verbs && IsVerbWord(verb) && IsHandler(verb)
    requires !ArgumentRefused(verb, argument) && NoLineBreak(argument)
    ensures Receive(cfg, c, Line(verb, argument)) == Handle(cfg, c, verb, argument)
  {
    UpperCapitals(verb);
    CommandLineMatches(verb, argument);
  }

  /** The same for a bare verb. */
  lemma BareHandlerLine(cfg: Config, c: Conn, verb: string)
    requires c.phase == Verbs && IsVerbWord(verb) && IsHandler(verb) && !ArgumentRefused(verb, "")
    ensures Receive(cfg, c, BareLine(verb)) == Handle(cfg, c, verb, "")
  {
    UpperCapitals(verb);
    BareCommandMatches(verb);
  }

  // ---------------------------------------------------------------------------
  // parse_email_address

  /** The two keywords, in upper and lower case. */
  lemma KeywordCases()
    ensures Upper("FROM:") == "FROM:" && Upper("to:") == "TO:"
  {
    var u := Upper("FROM:");
    assert u[0] == 'F' && u[1] == 'R' && u[2] == 'O' && u[3] == 'M' && u[4] == ':';
    var v := Upper("to:");
    assert v[0] == 'T' && v[1] == 'O' && v[2] == ':';
  }

  /** The null address: `<>`, with or without a keyword, yields the empty string. */
  lemma NullAddress()
    ensures ParseEmailAddress("<>") == Some("")
    ensures ParseEmailAddress("FROM:<>") == Some("")
  {
    KeywordCases();
    BracketedParses("", "");
    assert Bracketed("", "") == "<>";
    BracketedParses("FROM:", "");
    assert Bracketed("FROM:", "") == "FROM:<>";
  }

  /** Without a `<` there is no address. */
  lemma NoOpenBracket(argument: string)
    requires '<' !in argument
    ensures ParseEmailAddress(argument) == None
  {
    if ParseEmailAddress(argument).Some? {
      var lead, keyword, gap, tail := ParseEmailAddressSound(argument);
    }
  }

  /** The argument `<address>` after an optional keyword is parsed back to the address. */
  lemma BracketedParses(kw: string, address: string)
    requires IsKeyword(kw) && '>' !in address
    ensures ParseEmailAddress(Bracketed(kw, address)) == Some(address)
  {
    var tail := ">";
    assert AllSpace(tail[1..]);
    var rest := "<" + (address + tail);
    assert "" + rest == rest;
    assert "" + (kw + rest) == kw + rest;
    ParseEmailAddressComplete(Bracketed(kw, address), "", kw, "", address, tail);
  }

  /** A keyword holds no line break: upper-casing leaves line breaks as they are. */
  lemma KeywordNoLineBreak(k: string)
    requires IsKeyword(k)
    ensures NoLineBreak(k)
  {
    forall i | 0 <= i < |k|
      ensures !IsLineBreak(k[i])
    {
      assert Upper(k)[i] == UpperChar(k[i]);
    }
  }

  lemma BracketedNoLineBreak(kw: string, address: string)
    requires IsKeyword(kw) && NoLineBreak(address)
    ensures NoLineBreak(Bracketed(kw, address))
  {
    KeywordNoLineBreak(kw);
    NoLineBreakAppend(address, ">");
    NoLineBreakAppend("<", address + ">");
    NoLineBreakAppend(kw, "<" + (address + ">"));
  }

  // ---------------------------------------------------------------------------
  // MAIL

  /** MAIL with a bracketed address while no (truthy) sender is set stores the address and answers 250. */
  lemma MailAccepted(cfg: Config, c: Conn, kw: string, address: string)
    requires c.phase == Verbs && !Truthy(c.mailfrom)
    requires IsKeyword(kw) && '>' !in address && NoLineBreak(address)
    ensures Receive(cfg, c, Line("MAIL", Bracketed(kw, address))) == Say(c.(mailfrom := Some(address)), [Ok])
  {
    BracketedNoLineBreak(kw, address);
    BracketedParses(kw, address);
    ArgumentLine(cfg, c, "MAIL", Bracketed(kw, address));
    HandlerOf(cfg, c, "MAIL", Bracketed(kw, address));
  }

  /** MAIL while a truthy sender is set is refused with 503 and nothing changes. */
  lemma NestedMailRejected(cfg: Config, c: Conn, argument: string)
    requires c.phase == Verbs && Truthy(c.mailfrom) && argument != "" && NoLineBreak(argument)
    ensures Receive(cfg, c, Line("MAIL", argument)) == Say(c, [Reply(503, "Error: nested MAIL command")])
  {
    ArgumentLine(cfg, c, "MAIL", argument);
    HandlerOf(cfg, c, "MAIL", argument);
  }

  /** A MAIL argument without `<` is answered 501, and the sender is left null. */
  lemma FailedMailClearsSender(cfg: Config, c: Conn, argument: string)
    requires c.phase == Verbs && !Truthy(c.mailfrom)
    requires argument != "" && NoLineBreak(argument) && '<' !in argument
    ensures Receive(cfg, c, Line("MAIL", argument))
            == Say(c.(mailfrom := None), [Reply(501, SyntaxText("MAIL"))])
  {
    NoOpenBracket(argument);
    ArgumentLine(cfg, c, "MAIL", argument);
    HandlerOf(cfg, c, "MAIL", argument);
  }

  /**
    The null sender `<>` is stored as the empty string, which is falsy: a
    second MAIL is then not a nested one and replaces it.
  */
  lemma NullSenderIsNotNested(cfg: Config, c: Conn, kw: string, address: string)
    requires c.phase == Verbs && !Truthy(c.mailfrom) && IsKeyword(kw)
    requires '>' !in address && NoLineBreak(address)
    ensures Run(cfg, c, [Line("MAIL", Bracketed(kw, "")), Line("MAIL", Bracketed(kw, address))])
            == Trace(c.(mailfrom := Some(address)), [Ok, Ok], [])
  {
    var first := Line("MAIL", Bracketed(kw, ""));
    var second := Line("MAIL", Bracketed(kw, address));
    var c1 := c.(mailfrom := Some(""));
    var c2 := c.(mailfrom := Some(address));
    MailAccepted(cfg, c, kw, "");
    MailAccepted(cfg, c1, kw, address);
    assert c1.(mailfrom := Some(address)) == c2;
    RunPair(cfg, c, first, second);
    assert Delivered(Say(c1, [Ok])) == [] && Delivered(Say(c2, [Ok])) == [];
    assert [Ok] + [Ok] == [Ok, Ok];
  }

  // ---------------------------------------------------------------------------
  // RCPT

  /** RCPT before any MAIL is refused with 503 and nothing changes. */
  lemma RcptNeedsSender(cfg: Config, c: Conn, argument: string)
    requires c.phase == Verbs && c.mailfrom.None? && argument != "" && NoLineBreak(argument)
    ensures Receive(cfg, c, Line("RCPT", argument)) == Say(c, [Reply(503, "Error: need MAIL command")])
  {
    ArgumentLine(cfg, c, "RCPT", argument);
    HandlerOf(cfg, c, "RCPT", argument);
  }

  /**
    RCPT with a non-empty bracketed address once a sender is set (even the
    null one): the validator's error is answered 553 and nothing changes;
    otherwise the data it hands back is appended and 250 is sent.
  */
  lemma RcptAccepted(cfg: Config, c: Conn, kw: string, address: string)
    requires c.phase == Verbs && c.mailfrom.Some?
    requires IsKeyword(kw) && address != "" && '>' !in address && NoLineBreak(address)
    ensures Receive(cfg, c, Line("RCPT", Bracketed(kw, address)))
            == var v := Validate(cfg, address);
               if Truthy(v.error) then Say(c, [Reply(553, v.error.value)])
               else Say(c.(rcpttos := c.rcpttos + [v.data]), [Ok])
  {
    BracketedNoLineBreak(kw, address);
    BracketedParses(kw, address);
    ArgumentLine(cfg, c, "RCPT", Bracketed(kw, address));
    HandlerOf(cfg, c, "RCPT", Bracketed(kw, address));
  }

  /** Without a `recipient` listener every recipient is accepted as written. */
  lemma RcptWithoutValidator(cfg: Config, c: Conn, kw: string, address: string)
    requires cfg.validator.None? && c.phase == Verbs && c.mailfrom.Some?
    requires IsKeyword(kw) && address != "" && '>' !in address && NoLineBreak(address)
    ensures Receive(cfg, c, Line("RCPT", Bracketed(kw, address)))
            == Say(c.(rcpttos := c.rcpttos + [Some(address)]), [Ok])
  {
    RcptAccepted(cfg, c, kw, address);
  }

  /** The null address is not a recipient: 501, and nothing changes. */
  lemma RcptNullAddressRejected(cfg: Config, c: Conn, kw: string)
    requires c.phase == Verbs && c.mailfrom.Some? && IsKeyword(kw)
    ensures Receive(cfg, c, Line("RCPT", Bracketed(kw, "")))
            == Say(c, [Reply(501, SyntaxText("RCPT"))])
  {
    BracketedNoLineBreak(kw, "");
    BracketedParses(kw, "");
    ArgumentLine(cfg, c, "RCPT", Bracketed(kw, ""));
    HandlerOf(cfg, c, "RCPT", Bracketed(kw, ""));
  }

  /** Once a sender is set, a RCPT argument without `<` does not parse: 501 and nothing changes. */
  lemma RcptUnparsable(cfg: Config, c: Conn, argument: string)
    requires c.phase == Verbs && c.mailfrom.Some?
    requires argument != "" && NoLineBreak(argument) && '<' !in argument
    ensures Receive(cfg, c, Line("RCPT", argument)) == Say(c, [Reply(501, SyntaxText("RCPT"))])
  {
    NoOpenBracket(argument);
    ArgumentLine(cfg, c, "RCPT", argument);
    HandlerOf(cfg, c, "RCPT", argument);
  }

  // ---------------------------------------------------------------------------
  // VRFY, NOOP, QUIT, RSET

  /** The VRFY handler never changes the connection: one reply, no message, no upgrade. */
  lemma VrfyKeepsConnection(cfg: Config, c: Conn, argument: string)
    ensures var o := Vrfy(cfg, c, argument);
            o.conn == c && o.delivered == None && !o.upgrade && |o.replies| == 1
  {
    var o := Vrfy(cfg, c, argument);
    if argument == "" {
      assert o == Say(c, [Reply(501, SyntaxText("VRFY"))]);
    } else {
      var address := ParseEmailAddress(argument);
      if !Truthy(address) {
        assert o == Say(c, [Reply(504, "can only verify full addreses")]);
      } else if cfg.validator.None? {
        assert o == Say(c, [Reply(252, "address might be valid")]);
      } else {
        var v := cfg.validator.value(address.value);
        var r := if Truthy(v.error) then Reply(550, v.error.value)
                 else if Truthy(v.data) then Reply(250, v.data.value)
                 else Reply(252, "address might be valid");
        assert o == Say(c, [r]);
      }
    }
  }

  /** So a VRFY line, whatever its argument, leaves the connection as it was. */
  lemma VrfyReadOnly(cfg: Config, c: Conn, argument: string)
    requires c.phase == Verbs && NoLineBreak(argument)
    ensures var o := Receive(cfg, c, Line("VRFY", argument));
            o.conn == c && o.delivered == None && !o.upgrade && |o.replies| == 1
  {
    assert IsVerbWord("VRFY") && IsHandler("VRFY");
    VerbDispatch(cfg, c, "VRFY", argument);
    assert Handle(cfg, c, "VRFY", argument) == Vrfy(cfg, c, argument);
    VrfyKeepsConnection(cfg, c, argument);
  }

  /** A VRFY argument without `<` is not a full address: 504 and nothing changes. */
  lemma VrfyUnparsable(cfg: Config, c: Conn, argument: string)
    requires c.phase == Verbs && argument != "" && NoLineBreak(argument) && '<' !in argument
    ensures Receive(cfg, c, Line("VRFY", argument)) == Say(c, [Reply(504, "can only verify full addreses")])
  {
    NoOpenBracket(argument);
    ArgumentLine(cfg, c, "VRFY", argument);
    HandlerOf(cfg, c, "VRFY", argument);
  }

  /** Without a `recipient` listener VRFY of a bracketed address answers 252. */
  lemma VrfyUnknown(cfg: Config, c: Conn, kw: string, address: string)
    requires cfg.validator.None? && c.phase == Verbs
    requires IsKeyword(kw) && address != "" && '>' !in address && NoLineBreak(address)
    ensures Receive(cfg, c, Line("VRFY", Bracketed(kw, address))) == Say(c, [Reply(252, "address might be valid")])
  {
    BracketedNoLineBreak(kw, address);
    BracketedParses(kw, address);
    ArgumentLine(cfg, c, "VRFY", Bracketed(kw, address));
    HandlerOf(cfg, c, "VRFY", Bracketed(kw, address));
  }

  /** VRFY with the listener: its error gives 550, its truthy data 250 with that data, anything else 252. */
  lemma VrfyValidated(cfg: Config, c: Conn, kw: string, address: string)
    requires cfg.validator.Some? && c.phase == Verbs
    requires IsKeyword(kw) && address != "" && '>' !in address && NoLineBreak(address)
    ensures Receive(cfg, c, Line("VRFY", Bracketed(kw, address)))
            == var v := cfg.validator.value(address);
               Say(c, [if Truthy(v.error) then Reply(550, v.error.value)
                       else if Truthy(v.data) then Reply(250, v.data.value)
                       else Reply(252, "address might be valid")])
  {
    BracketedNoLineBreak(kw, address);
    BracketedParses(kw, address);
    ArgumentLine(cfg, c, "VRFY", Bracketed(kw, address));
    HandlerOf(cfg, c, "VRFY", Bracketed(kw, address));
  }

  /** NOOP answers 250 and changes nothing. */
  lemma NoopLine(cfg: Config, c: Conn)
    requires c.phase == Verbs
    ensures Receive(cfg, c, BareLine("NOOP")) == Say(c, [Ok])
  {
    BareDispatch(cfg, c, "NOOP");
    HandlerOf(cfg, c, "NOOP", "");
  }

  /** QUIT, whatever follows it, answers 221 with the host name and ends the socket; the envelope is kept. */
  lemma QuitLine(cfg: Config, c: Conn, argument: string)
    requires c.phase == Verbs && NoLineBreak(argument)
    ensures Receive(cfg, c, Line("QUIT", argument))
            == Say(c.(ended := true), [Reply(221, cfg.hostname + " closing connection")])
  {
    assert IsVerbWord("QUIT") && IsHandler("QUIT") && Syntax("QUIT") == Undefined;
    VerbDispatch(cfg, c, "QUIT", argument);
    HandlerOf(cfg, c, "QUIT", argument);
  }

  /** RSET clears the envelope, keeps the greeting, and a second RSET changes nothing more. */
  lemma RsetLine(cfg: Config, c: Conn)
    requires c.phase == Verbs
    ensures Receive(cfg, c, BareLine("RSET")) == Say(Reset(c), [Ok])
    ensures Run(cfg, c, [BareLine("RSET"), BareLine("RSET")]) == Trace(Reset(c), [Ok, Ok], [])
  {
    BareDispatch(cfg, c, "RSET");
    HandlerOf(cfg, c, "RSET", "");
    BareDispatch(cfg, Reset(c), "RSET");
    HandlerOf(cfg, Reset(c), "RSET", "");
    assert Reset(Reset(c)) == Reset(c);
    RunPair(cfg, c, BareLine("RSET"), BareLine("RSET"));
  }

  // ---------------------------------------------------------------------------
  // HELO, EHLO and STARTTLS

  /** HELO with a name, before any greeting, records the name and answers 250 with the host name and the peer address. */
  lemma HeloAccepted(cfg: Config, c: Conn, name: string)
    requires c.phase == Verbs && !Truthy(c.helo) && name != "" && NoLineBreak(name)
    ensures Receive(cfg, c, Line("HELO", name)) == Say(c.(helo := Some(name)), [Reply(250, HelloMessage(cfg, c))])
  {
    ArgumentLine(cfg, c, "HELO", name);
    HandlerOf(cfg, c, "HELO", name);
  }

  /**
    EHLO records the name too; its reply has a second line, `250 STARTTLS`,
    exactly when the server has a key and a certificate and the socket is
    not yet encrypted.
  */
  lemma EhloAccepted(cfg: Config, c: Conn, name: string)
    requires c.phase == Verbs && !Truthy(c.helo) && name != "" && NoLineBreak(name)
    ensures var o := Receive(cfg, c, Line("EHLO", name));
            && o.conn == c.(helo := Some(name)) && o.delivered == None && !o.upgrade
            && (|o.replies| == 2 <==> cfg.starttlsEnabled && !c.transport.encrypted)
            && o.replies == if |o.replies| == 2 then [ExtensionReply(250, HelloMessage(cfg, c)), Reply(250, "STARTTLS")]
                            else [Reply(250, HelloMessage(cfg, c))]
  {
    ArgumentLine(cfg, c, "EHLO", name);
    HandlerOf(cfg, c, "EHLO", name);
  }

  /** A second greeting of either kind is refused with 503 and nothing changes. */
  lemma DuplicateHello(cfg: Config, c: Conn, verb: string, name: string)
    requires c.phase == Verbs && Truthy(c.helo) && verb in {"HELO", "EHLO"} && name != "" && NoLineBreak(name)
    ensures Receive(cfg, c, Line(verb, name)) == Say(c, [Reply(503, "Duplicate HELO/EHLO")])
  {
    ArgumentLine(cfg, c, verb, name);
    HandlerOf(cfg, c, verb, name);
  }

  /** Whatever the two greetings, only the first is recorded and the second is answered 503. */
  lemma HelloOnlyOnce(cfg: Config, c: Conn, v1: string, n1: string, v2: string, n2: string)
    requires c.phase == Verbs && !Truthy(c.helo)
    requires v1 in {"HELO", "EHLO"} && n1 != "" && NoLineBreak(n1)
    requires v2 in {"HELO", "EHLO"} && n2 != "" && NoLineBreak(n2)
    ensures var t := Run(cfg, c, [Line(v1, n1), Line(v2, n2)]);
            t.conn == c.(helo := Some(n1)) && t.delivered == []
            && t.replies != [] && t.replies[|t.replies| - 1] == Reply(503, "Duplicate HELO/EHLO")
  {
    var c1 := c.(helo := Some(n1));
    if v1 == "HELO" {
      HeloAccepted(cfg, c, n1);
    } else {
      EhloAccepted(cfg, c, n1);
    }
    var o1 := Receive(cfg, c, Line(v1, n1));
    assert o1.conn == c1 && o1.delivered == None;
    DuplicateHello(cfg, c1, v2, n2);
    RunPair(cfg, c, Line(v1, n1), Line(v2, n2));
  }

  /** STARTTLS, whatever follows it, answers 220 and starts an upgrade exactly when the socket is plain. */
  lemma StartTlsLine(cfg: Config, c: Conn)
    requires c.phase == Verbs
    ensures Receive(cfg, c, BareLine("STARTTLS"))
            == Outcome(c, [Reply(220, "Ready to start TLS")], None, !c.transport.encrypted)
  {
    assert IsVerbWord("STARTTLS") && IsHandler("STARTTLS") && Syntax("STARTTLS") == Undefined;
    BareHandlerLine(cfg, c, "STARTTLS");
    HandlerOf(cfg, c, "STARTTLS", "");
  }

  /**
    After the upgrade the encrypted socket replaces the old one: the greeting
    is forgotten, so EHLO is accepted again, it no longer offers STARTTLS,
    and STARTTLS no longer starts an upgrade.
  */
  lemma UpgradeResetsGreeting(cfg: Config, c: Conn, secure: Transport, name: string)
    requires secure.encrypted && name != "" && NoLineBreak(name)
    ensures var c' := SetSocket(c, secure);
            && Receive(cfg, c', Line("EHLO", name)) == Say(c'.(helo := Some(name)), [Reply(250, HelloMessage(cfg, c'))])
            && !Receive(cfg, c', BareLine("STARTTLS")).upgrade
  {
    var c' := SetSocket(c, secure);
    EhloAccepted(cfg, c', name);
    StartTlsLine(cfg, c');
  }

  // ---------------------------------------------------------------------------
  // DATA and the message body

  /** DATA needs at least one recipient; then it answers 354 and the body phase begins. */
  lemma DataLine(cfg: Config, c: Conn)
    requires c.phase == Verbs
    ensures Receive(cfg, c, BareLine("DATA"))
            == if |c.rcpttos| == 0 then Say(c, [Reply(503, "Error: need RCPT command")])
               else Say(c.(phase := Data), [Reply(354, "End data with <CR><LF>.<CR><LF>")])
  {
    BareDispatch(cfg, c, "DATA");
    HandlerOf(cfg, c, "DATA", "");
  }

  /** The chunk a client sends for body lines: each line dot-stuffed, joined with CR LF. */
  function Body(lines: seq<string>): string {
    Join(MapStuff(lines), CRLF)
  }

  /**
    The data-phase round trip: body lines, dot-stuffed, followed by the `.`
    line and anything after it, deliver one message whose data is the stored
    lines and these lines joined by LF; the envelope is reset, the command
    phase resumes and 250 is sent.
  */
  lemma BodyDelivered(cfg: Config, c: Conn, lines: seq<string>, more: seq<string>)
    requires c.phase == Data
    requires forall i | 0 <= i < |lines| :: NoCrlf(lines[i])
    requires forall i | 0 <= i < |more| :: NoCrlf(more[i])
    ensures Receive(cfg, c, Join(MapStuff(lines) + ["."] + more, CRLF))
            == Outcome(Reset(c).(phase := Verbs), [Ok],
                       Some(Message(c.helo, c.transport.remoteAddress, c.mailfrom, c.rcpttos, Join(c.currentData + lines, "\n"))),
                       false)
  {
    EndLineFound(lines, more);
  }

  /** The pieces of a stuffed body, the `.` line and more: the `.` line is the first end line, and the lines before it unstuff to the body. */
  lemma EndLineFound(lines: seq<string>, more: seq<string>)
    requires forall i | 0 <= i < |lines| :: NoCrlf(lines[i])
    requires forall i | 0 <= i < |more| :: NoCrlf(more[i])
    ensures var parts := MapStuff(lines) + ["."] + more;
            && Lines(Join(parts, CRLF)) == parts
            && FirstEnd(parts) == |lines|
            && MapUnstuff(parts[..|lines|]) == lines
  {
    var parts := MapStuff(lines) + ["."] + more;
    forall i | 0 <= i < |parts|
      ensures NoCrlf(parts[i])
    {
      if i < |lines| {
        StuffNoCrlf(lines[i]);
      } else if i > |lines| {
        assert parts[i] == more[i - |lines| - 1];
      }
    }
    LinesJoin(parts);
    assert forall j | 0 <= j < |lines| :: !IsEnd(parts[j]) by {
      forall j | 0 <= j < |lines|
        ensures !IsEnd(parts[j])
      {
        UnstuffStuff(lines[j]);
      }
    }
    assert IsEnd(parts[|lines|]);
    assert parts[..|lines|] == MapStuff(lines);
    MapUnstuffStuff(lines);
  }

  /** Body lines without the `.` line are stored, unstuffed, and nothing is sent. */
  lemma BodyContinues(cfg: Config, c: Conn, lines: seq<string>)
    requires c.phase == Data && |lines| >= 1
    requires forall i | 0 <= i < |lines| :: NoCrlf(lines[i])
    ensures Receive(cfg, c, Body(lines)) == Say(c.(currentData := c.currentData + lines), [])
  {
    var parts := MapStuff(lines);
    forall i | 0 <= i < |parts|
      ensures NoCrlf(parts[i])
    {
      StuffNoCrlf(lines[i]);
    }
    LinesJoin(parts);
    assert forall j | 0 <= j < |parts| :: !IsEnd(parts[j]) by {
      forall j | 0 <= j < |parts|
        ensures !IsEnd(parts[j])
      {
        UnstuffStuff(lines[j]);
      }
    }
    assert FirstEnd(parts) == |parts|;
    assert parts[..|parts|] == parts;
    MapUnstuffStuff(lines);
  }

  /** A body sent in two chunks arrives as one message holding the lines of both. */
  lemma BodyAcrossChunks(cfg: Config, c: Conn, first: seq<string>, second: seq<string>)
    requires c.phase == Data && |first| >= 1
    requires forall i | 0 <= i < |first| :: NoCrlf(first[i])
    requires forall i | 0 <= i < |second| :: NoCrlf(second[i])
    ensures var t := Run(cfg, c, [Body(first), Join(MapStuff(second) + ["."], CRLF)]);
            t.delivered == [Message(c.helo, c.transport.remoteAddress, c.mailfrom, c.rcpttos,
                                    Join(c.currentData + first + second, "\n"))]
            && t.conn == Reset(c).(phase := Verbs) && t.replies == [Ok]
  {
    BodyContinues(cfg, c, first);
    var c1 := c.(currentData := c.currentData + first);
    BodyDelivered(cfg, c1, second, []);
    assert MapStuff(second) + ["."] + [] == MapStuff(second) + ["."];
    assert c1.currentData + second == c.currentData + first + second;
    assert Reset(c1) == Reset(c);
    RunPair(cfg, c, Body(first), Join(MapStuff(second) + ["."], CRLF));
  }

  // ---------------------------------------------------------------------------
  // The STARTTLS guard and the server counters

  /**
    Whatever order error-like and `secure` events arrive in, the socket is
    replaced at most once, and only if the first event is `secure`; every
    later `secure` ends the new socket instead; `returned` is set by the
    first event.
  */
  lemma {:induction false} GuardOneShot(events: seq<TlsEvent>)
    ensures var g := RunGuard(events);
            && g.returned == (events != [])
            && g.swaps == (if events != [] && events[0] == Secure then 1 else 0)
            && g.discards == (if events == [] then 0 else Occurrences(events[1..], Secure))
    decreases |events|
  {
    if events != [] {
      var init := events[..|events| - 1];
      GuardOneShot(init);
      if init != [] {
        assert init[0] == events[0];
        assert events[1..][..|events[1..]| - 1] == init[1..];
      } else {
        assert events[1..] == [];
      }
    }
  }

  /**
    The counters `stats.connections` and `stats.messages` count what
    happened: `total` the connections made, `current` those made minus those
    closed, `max` lies between them, and `messages` the completed messages.
  */
  lemma {:induction false} CountersInvariant(events: seq<ServerEvent>)
    ensures var s := Replay(events);
            && s.total == Occurrences(events, Opened)
            && s.current == Occurrences(events, Opened) - Occurrences(events, Closed)
            && s.messages == Occurrences(events, Completed)
            && 0 <= s.max <= s.total && s.current <= s.max
    decreases |events|
  {
    if events != [] {
      CountersInvariant(events[..|events| - 1]);
    }
  }

  // ---------------------------------------------------------------------------
  // A whole transaction

  /**
    A client that greets, names a sender and one recipient and sends a body
    gets the message delivered with everything it said, and the connection
    ends greeted, with a fresh envelope, back in the command phase.
  */
  lemma Transaction(cfg: Config, t: Transport, name: string, sender: string, recipient: string, lines: seq<string>)
    requires cfg.validator.None? && name != "" && NoLineBreak(name)
    requires '>' !in sender && NoLineBreak(sender)
    requires recipient != "" && '>' !in recipient && NoLineBreak(recipient)
    requires forall i | 0 <= i < |lines| :: NoCrlf(lines[i])
    ensures var r := Run(cfg, Initial(t), Envelope(name, sender, recipient) + [Join(MapStuff(lines) + ["."], CRLF)]);
            && r.delivered == [Message(Some(name), t.remoteAddress, Some(sender), [Some(recipient)], Join(lines, "\n"))]
            && r.conn == Initial(t).(helo := Some(name))
  {
    var c4 := EnvelopeAccepted(cfg, t, name, sender, recipient);
    var last := Join(MapStuff(lines) + ["."], CRLF);
    BodyDelivered(cfg, c4, lines, []);
    assert MapStuff(lines) + ["."] + [] == MapStuff(lines) + ["."];
    assert c4.currentData + lines == lines;
    RunLast(cfg, c4, last);
  }

  /** The command lines of a transaction with one recipient, up to DATA. */
  function Envelope(name: string, sender: string, recipient: string): seq<string> {
    [Line("HELO", name), Line("MAIL", Bracketed("FROM:", sender)), Line("RCPT", Bracketed("TO:", recipient)), BareLine("DATA")]
  }

  /** The envelope commands are all accepted: nothing is delivered and the body phase begins with the envelope recorded. */
  lemma EnvelopeAccepted(cfg: Config, t: Transport, name: string, sender: string, recipient: string) returns (c4: Conn)
    requires cfg.validator.None? && name != "" && NoLineBreak(name)
    requires '>' !in sender && NoLineBreak(sender)
    requires recipient != "" && '>' !in recipient && NoLineBreak(recipient)
    ensures c4 == Conn(t, Some(name), Some(sender), [Some(recipient)], [], Data, false)
    ensures forall rest: seq<string> ::
              && Run(cfg, Initial(t), Envelope(name, sender, recipient) + rest).conn == Run(cfg, c4, rest).conn
              && Run(cfg, Initial(t), Envelope(name, sender, recipient) + rest).delivered == Run(cfg, c4, rest).delivered
  {
    var c0 := Initial(t);
    var l1, l2, l3, l4 := Line("HELO", name), Line("MAIL", Bracketed("FROM:", sender)),
                          Line("RCPT", Bracketed("TO:", recipient)), BareLine("DATA");
    var c1 := c0.(helo := Some(name));
    var c2 := c1.(mailfrom := Some(sender));
    var c3 := c2.(rcpttos := [Some(recipient)]);
    c4 := c3.(phase := Data);
    GreetAndSender(cfg, c0, name, sender);
    RecipientAndData(cfg, c2, recipient);
    forall rest: seq<string>
      ensures Run(cfg, c0, Envelope(name, sender, recipient) + rest).conn == Run(cfg, c4, rest).conn
      ensures Run(cfg, c0, Envelope(name, sender, recipient) + rest).delivered == Run(cfg, c4, rest).delivered
    {
      RunFourSteps(cfg, c0, l1, c1, l2, c2, l3, c3, l4, c4, rest);
    }
  }

  lemma GreetAndSender(cfg: Config, c: Conn, name: string, sender: string)
    requires c.phase == Verbs && !Truthy(c.helo) && !Truthy(c.mailfrom) && name != "" && NoLineBreak(name)
    requires '>' !in sender && NoLineBreak(sender)
    ensures Steps(cfg, c, Line("HELO", name), c.(helo := Some(name)))
    ensures Steps(cfg, c.(helo := Some(name)), Line("MAIL", Bracketed("FROM:", sender)), c.(helo := Some(name), mailfrom := Some(sender)))
  {
    KeywordCases();
    HeloAccepted(cfg, c, name);
    MailAccepted(cfg, c.(helo := Some(name)), "FROM:", sender);
  }

  lemma RecipientAndData(cfg: Config, c: Conn, recipient: string)
    requires cfg.validator.None? && c.phase == Verbs && c.mailfrom.Some? && c.rcpttos == []
    requires recipient != "" && '>' !in recipient && NoLineBreak(recipient)
    ensures Steps(cfg, c, Line("RCPT", Bracketed("TO:", recipient)), c.(rcpttos := [Some(recipient)]))
    ensures Steps(cfg, c.(rcpttos := [Some(recipient)]), BareLine("DATA"), c.(rcpttos := [Some(recipient)], phase := Data))
  {
    KeywordCases();
    RcptWithoutValidator(cfg, c, "TO:", recipient);
    assert c.rcpttos + [Some(recipient)] == [Some(recipient)];
    DataLine(cfg, c.(rcpttos := [Some(recipient)]));
  }

  /** A chunk that takes `c` to `c'` and delivers nothing. */
  ghost predicate Steps(cfg: Config, c: Conn, chunk: string, c': Conn) {
    Receive(cfg, c, chunk).conn == c' && Receive(cfg, c, chunk).delivered == None
  }

  // ---------------------------------------------------------------------------
  // Helpers for the lemmas above

  /** Dispatch of a capitalised handler verb with an argument in the command phase. */
  lemma VerbDispatch(cfg: Config, c: Conn, verb: string, argument: string)
    requires c.phase == Verbs && IsVerbWord(verb) && IsHandler(verb) && NoLineBreak(argument)
    ensures Receive(cfg, c, Line(verb, argument))
            == if ArgumentRefused(verb, argument) then Say(c, [Reply(501, SyntaxText(verb))])
               else Handle(cfg, c, verb, argument)
  {
    UpperCapitals(verb);
    CommandLineMatches(verb, argument);
  }

  /** Dispatch of a verb that needs an argument, given one. */
  lemma ArgumentLine(cfg: Config, c: Conn, verb: string, argument: string)
    requires c.phase == Verbs && verb in {"HELO", "EHLO", "MAIL", "RCPT", "VRFY"}
    requires argument != "" && NoLineBreak(argument)
    ensures Receive(cfg, c, Line(verb, argument)) == Handle(cfg, c, verb, argument)
  {
    assert IsVerbWord(verb) && IsHandler(verb) && ExpectsArgument(Syntax(verb));
    HandlerLine(cfg, c, verb, argument);
  }

  /** Dispatch of a bare verb that refuses an argument. */
  lemma BareDispatch(cfg: Config, c: Conn, verb: string)
    requires c.phase == Verbs && verb in {"NOOP", "RSET", "DATA"}
    ensures Receive(cfg, c, BareLine(verb)) == Handle(cfg, c, verb, "")
  {
    assert IsVerbWord(verb);
    assert Syntax(verb) == Null;
    BareHandlerLine(cfg, c, verb);
  }

  /** Two chunks in a row. */
  lemma RunPair(cfg: Config, c: Conn, a: string, b: string)
    ensures var o1 := Receive(cfg, c, a);
            var o2 := Receive(cfg, o1.conn, b);
            Run(cfg, c, [a, b]) == Trace(o2.conn, o1.replies + o2.replies, Delivered(o1) + Delivered(o2))
  {
    var o1 := Receive(cfg, c, a);
    var o2 := Receive(cfg, o1.conn, b);
    assert Run(cfg, o1.conn, [b]) == Trace(o2.conn, o2.replies, Delivered(o2)) by {
      assert [b][1..] == [];
      assert o2.replies + [] == o2.replies;
      assert Delivered(o2) + [] == Delivered(o2);
    }
    assert [a, b][1..] == [b];
  }

  /** One chunk followed by others. */
  lemma RunCons(cfg: Config, c: Conn, a: string, rest: seq<string>)
    ensures var o := Receive(cfg, c, a);
            var t := Run(cfg, o.conn, rest);
            Run(cfg, c, [a] + rest) == Trace(t.conn, o.replies + t.replies, Delivered(o) + t.delivered)
  {
    assert ([a] + rest)[1..] == rest;
  }

  /** Four steps that deliver nothing, then anything: the run continues from the fourth state. */
  lemma RunFourSteps(cfg: Config, c0: Conn, l1: string, c1: Conn, l2: string, c2: Conn, l3: string, c3: Conn, l4: string, c4: Conn,
                     rest: seq<string>)
    requires Steps(cfg, c0, l1, c1) && Steps(cfg, c1, l2, c2) && Steps(cfg, c2, l3, c3) && Steps(cfg, c3, l4, c4)
    ensures Run(cfg, c0, [l1, l2, l3, l4] + rest).conn == Run(cfg, c4, rest).conn
    ensures Run(cfg, c0, [l1, l2, l3, l4] + rest).delivered == Run(cfg, c4, rest).delivered
  {
    RunSteps(cfg, c3, l4, c4, rest);
    RunSteps(cfg, c2, l3, c3, [l4] + rest);
    RunSteps(cfg, c1, l2, c2, [l3] + ([l4] + rest));
    RunSteps(cfg, c0, l1, c1, [l2] + ([l3] + ([l4] + rest)));
    assert [l1] + ([l2] + ([l3] + ([l4] + rest))) == [l1, l2, l3, l4] + rest;
  }

  /** A step that delivers nothing, followed by others: the run continues from the new fields. */
  lemma RunSteps(cfg: Config, c: Conn, a: string, c': Conn, rest: seq<string>)
    requires Steps(cfg, c, a, c')
    ensures Run(cfg, c, [a] + rest).conn == Run(cfg, c', rest).conn
    ensures Run(cfg, c, [a] + rest).delivered == Run(cfg, c', rest).delivered
  {
    RunCons(cfg, c, a, rest);
  }

  /** A single chunk. */
  lemma RunLast(cfg: Config, c: Conn, a: string)
    ensures var o := Receive(cfg, c, a);
            Run(cfg, c, [a]) == Trace(o.conn, o.replies, Delivered(o))
  {
    var o := Receive(cfg, c, a);
    assert [a][1..] == [];
    assert o.replies + [] == o.replies;
    assert Delivered(o) + [] == Delivered(o);
  }

  /** No command line delivers a message: only the `.` line of a body does. */
  lemma OnVerbDeliversNothing(cfg: Config, c: Conn, buffer: string)
    ensures OnVerb(cfg, c, buffer).delivered == None
  {
    match MatchVerb(buffer)
    case None =>
    case Some(m) =>
      var command := Upper(m.verb);
      if IsHandler(command) && !ArgumentRefused(command, m.argument) {
        HandleDeliversNothing(cfg, c, command, m.argument);
      }
  }

  /** A handler never delivers, and only STARTTLS on a plain socket begins an upgrade. */
  lemma HandleDeliversNothing(cfg: Config, c: Conn, verb: string, argument: string)
    requires IsHandler(verb)
    ensures Handle(cfg, c, verb, argument).delivered == None
    ensures Handle(cfg, c, verb, argument).upgrade <==> verb == "STARTTLS" && !c.transport.encrypted
  {
    HandlerOf(cfg, c, verb, argument);
    if verb == "HELO" {
    } else if verb == "EHLO" {
    } else if verb == "MAIL" {
    } else if verb == "RCPT" {
    } else if verb == "VRFY" {
    } else if verb == "STARTTLS" {
    } else if verb == "DATA" {
    } else if verb == "QUIT" {
    } else if verb == "RSET" {
    } else {
    }
  }

  /** Which handler each verb names. */
  lemma HandlerOf(cfg: Config, c: Conn, verb: string, argument: string)
    requires IsHandler(verb)
    ensures verb == "HELO" ==> Handle(cfg, c, verb, argument) == Helo(cfg, c, argument)
    ensures verb == "EHLO" ==> Handle(cfg, c, verb, argument) == Ehlo(cfg, c, argument)
    ensures verb == "MAIL" ==> Handle(cfg, c, verb, argument) == Mail(cfg, c, argument)
    ensures verb == "RCPT" ==> Handle(cfg, c, verb, argument) == Rcpt(cfg, c, argument)
    ensures verb == "VRFY" ==> Handle(cfg, c, verb, argument) == Vrfy(cfg, c, argument)
    ensures verb == "STARTTLS" ==> Handle(cfg, c, verb, argument) == StartTls(cfg, c)
    ensures verb == "DATA" ==> Handle(cfg, c, verb, argument) == DataVerb(cfg, c)
    ensures verb == "QUIT" ==> Handle(cfg, c, verb, argument) == Quit(cfg, c)
    ensures verb == "RSET" ==> Handle(cfg, c, verb, argument) == Rset(cfg, c)
    ensures verb == "NOOP" ==> Handle(cfg, c, verb, argument) == Noop(cfg, c)
  {
  }
}
