/** What smtpevent.js promises, stated over `EventSpec`. */
module EventProps {
  import opened Text
  import opened SmtpGrammar
  import opened LegacyGrammar
  import opened EventSpec

  // ---------------------------------------------------------------------------
  // The listener discipline

  /** With nothing armed, the connection ignores every later chunk: it says nothing, emits nothing, changes nothing. */
  lemma {:induction false} IdleIgnoresAll(p: Peer, s: Session, chunks: seq<string>)
    requires s.armed == Idle
    ensures Run(p, s, chunks) == Trace(s, [], [])
    decreases |chunks|
  {
    if chunks != [] {
      IdleIgnoresAll(p, s, chunks[1..]);
    }
  }

  /**
    The `connect` listener writes the welcome line with host name and
    version, and only then is the next chunk read as a command, against the
    session as it was.
  */
  lemma ConnectArmsVerbs(p: Peer, s: Session, buffer: string)
    ensures var st := Connect(p, s);
            && st.replies == [Reply(220, p.hostname + " node.js smtpevent server " + p.version)] && st.mail == None
            && Receive(p, st.session, buffer) == OnVerb(p, s.(armed := Idle), buffer)
  {
  }

  /** An empty chunk gets 500 and arms nothing, so the connection never reads again. */
  lemma EmptyChunkStalls(p: Peer, s: Session, rest: seq<string>)
    requires s.armed == VerbReader
    ensures Run(p, s, [""] + rest) == Trace(s.(armed := Idle), [Reply(500, "Error: bad syntax")], [])
  {
    var s' := s.(armed := Idle);
    assert Receive(p, s, "") == Step(s', [Reply(500, "Error: bad syntax")], None);
    assert ([""] + rest)[1..] == rest;
    IdleIgnoresAll(p, s', rest);
  }

  /**
    Which handler paths arm `onVerb` again: HELO, NOOP and RSET always, MAIL
    and RCPT only when they answer 250; DATA arms `onData` exactly when there
    are recipients; every other path (QUIT and the MAIL, RCPT and DATA
    errors) leaves nothing armed.
  */
  lemma RearmPaths(p: Peer, s: Session, verb: string, argument: Option<string>)
    requires s.armed == Idle && IsVerb(verb) && !ArgumentRefused(verb, argument)
    ensures var st := Handle(p, s, verb, argument);
            && (st.session.armed == VerbReader <==>
                  verb == "HELO" || verb == "NOOP" || verb == "RSET" || ((verb == "MAIL" || verb == "RCPT") && st.replies == [Ok]))
            && (st.session.armed == DataReader <==> verb == "DATA" && |s.rcpttos| > 0)
  {
    ReplyCodesDiffer();
    if verb == "HELO" {
    } else if verb == "NOOP" {
    } else if verb == "QUIT" {
    } else if verb == "MAIL" {
    } else if verb == "RCPT" {
    } else if verb == "RSET" {
    } else {
    }
  }

  /** The error lines of MAIL and RCPT are not `250 Ok`. */
  lemma ReplyCodesDiffer()
    ensures SyntaxReply("MAIL") != Ok && SyntaxReply("RCPT") != Ok
    ensures Reply(503, "Error: nested MAIL command") != Ok && Reply(503, "Error: need MAIL command") != Ok
  {
    assert Decimal(250)[0] == '2';
    assert Decimal(501)[0] == '5' && Decimal(503)[0] == '5';
    assert Ok[0] == '2';
    assert SyntaxReply("MAIL")[0] == '5' && SyntaxReply("RCPT")[0] == '5';
    assert Reply(503, "Error: nested MAIL command")[0] == '5' && Reply(503, "Error: need MAIL command")[0] == '5';
  }

  // ---------------------------------------------------------------------------
  // Splitting and the argument check

  /** A command line with an argument is dispatched on the upper-cased verb and the argument. */
  lemma LineDispatch(p: Peer, s: Session, verb: string, argument: string)
    requires ' ' !in verb && Stripped(argument)
    ensures OnVerb(p, s, Line(verb, argument)) == Dispatch(p, s, Upper(verb), Some(argument))
  {
    SplitCommandLine(verb, argument);
  }

  /** A bare command line is dispatched on the upper-cased verb with a null argument. */
  lemma BareDispatch(p: Peer, s: Session, verb: string)
    requires ' ' !in verb && verb != [] && Stripped(verb)
    ensures OnVerb(p, s, BareLine(verb)) == Dispatch(p, s, Upper(verb), None)
  {
    SplitBareVerb(verb);
  }

  /**
    The argument check of `SMTPProtocol.verbs`: HELO, MAIL and RCPT are
    refused without an argument, NOOP, RSET and DATA with one, and QUIT
    never.
  */
  lemma ArgumentTable(verb: string, argument: Option<string>)
    requires IsVerb(verb)
    ensures ArgumentRefused(verb, argument) <==>
              if verb == "HELO" || verb == "MAIL" || verb == "RCPT" then !Truthy(argument)
              else verb != "QUIT" && Truthy(argument)
  {
  }

  /** A refused argument gets `501 Syntax` and re-arms `onVerb`, changing nothing else. */
  lemma RefusedArgument(p: Peer, s: Session, command: string, argument: Option<string>)
    requires IsVerb(command) && ArgumentRefused(command, argument)
    ensures Dispatch(p, s, command, argument) == Step(s.(armed := VerbReader), [SyntaxReply(command)], None)
  {
  }

  /** An unknown verb gets 502 and re-arms `onVerb`, changing nothing else. */
  lemma UnknownVerb(p: Peer, s: Session, verb: string, argument: string)
    requires ' ' !in verb && Stripped(argument) && !IsVerb(Upper(verb))
    ensures OnVerb(p, s, Line(verb, argument))
            == Step(s.(armed := VerbReader), [Reply(502, "Error: command \"" + Upper(verb) + "\" not implemented")], None)
  {
    LineDispatch(p, s, verb, argument);
  }

  /** This revision has no EHLO: it is an unknown verb. */
  lemma EhloNotImplemented(p: Peer, s: Session, name: string)
    requires Stripped(name)
    ensures OnVerb(p, s, Line("EHLO", name))
            == Step(s.(armed := VerbReader), [Reply(502, "Error: command \"" + "EHLO" + "\" not implemented")], None)
  {
    assert Upper("EHLO") == "EHLO";
    assert !IsVerb("EHLO");
    UnknownVerb(p, s, "EHLO", name);
  }

  /** QUIT ignores its argument: with or without one, the socket is ended. */
  lemma QuitIgnoresArgument(p: Peer, s: Session, argument: Option<string>)
    ensures Dispatch(p, s, "QUIT", argument) == Step(s.(ended := true), [Reply(221, p.hostname + " closing connection")], None)
  {
  }

  // ---------------------------------------------------------------------------
  // The handlers

  /** A second HELO gets 503 and keeps the first greeting. */
  lemma DuplicateHelo(p: Peer, s: Session, argument: Option<string>)
    requires Truthy(s.greeting) && Truthy(argument)
    ensures var st := Dispatch(p, s, "HELO", argument);
            st.session.greeting == s.greeting && st.replies == [Reply(503, "Duplicate HELO/EHLO")]
  {
  }

  /** A first HELO with a hostname records it as the greeting, gets 250 with the server's name and the peer's address, and re-arms `onVerb`. */
  lemma FirstHelo(p: Peer, s: Session, argument: Option<string>)
    requires !Truthy(s.greeting) && Truthy(argument)
    ensures Dispatch(p, s, "HELO", argument)
            == Step(s.(greeting := argument, armed := VerbReader), [Reply(250, p.hostname + " Hello " + p.remoteAddress)], None)
  {
  }

  /** MAIL checks the address before the nesting: a keyword with nothing after it gets 501 whatever the sender, and nothing is armed. */
  lemma MailSyntaxFirst(p: Peer, s: Session, kw: string, rest: string)
    requires Upper(kw) == "FROM:" && AllSpace(rest)
    ensures Dispatch(p, s, "MAIL", Some(kw + rest)) == Step(s, [SyntaxReply("MAIL")], None)
  {
    GetAddressEmpty("FROM:", kw, rest);
    assert |kw + rest| >= 5;
  }

  /** MAIL FROM with a bracketed address records it (the null address as `<>`) and re-arms `onVerb`. */
  lemma MailAccepted(p: Peer, s: Session, kw: string, address: string)
    requires Upper(kw) == "FROM:" && !Truthy(s.mailfrom)
    ensures var sender := if address == "" then "<>" else address;
            Dispatch(p, s, "MAIL", Some(Bracketed(kw, address)))
              == Step(s.(mailfrom := Some(sender), armed := VerbReader), [Ok], None)
  {
    GetAddressOf("FROM:", kw, address);
  }

  /** A second MAIL with a usable address gets 503; the sender is kept and nothing is armed. */
  lemma NestedMail(p: Peer, s: Session, kw: string, address: string)
    requires Upper(kw) == "FROM:" && Truthy(s.mailfrom)
    ensures Dispatch(p, s, "MAIL", Some(Bracketed(kw, address)))
              == Step(s, [Reply(503, "Error: nested MAIL command")], None)
  {
    GetAddressOf("FROM:", kw, address);
  }

  /** RCPT without a sender gets 503 and arms nothing. */
  lemma RcptNeedsSender(p: Peer, s: Session, argument: Option<string>)
    requires !Truthy(s.mailfrom) && Truthy(argument)
    ensures Dispatch(p, s, "RCPT", argument) == Step(s, [Reply(503, "Error: need MAIL command")], None)
  {
  }

  /** RCPT with a keyword and nothing after it gets 501 and arms nothing. */
  lemma RcptBadAddress(p: Peer, s: Session, kw: string, rest: string)
    requires Upper(kw) == "TO:" && AllSpace(rest) && Truthy(s.mailfrom)
    ensures Dispatch(p, s, "RCPT", Some(kw + rest)) == Step(s, [SyntaxReply("RCPT")], None)
  {
    GetAddressEmpty("TO:", kw, rest);
    assert |kw + rest| >= 3;
  }

  /** RCPT TO with a bracketed address appends it and re-arms `onVerb`. */
  lemma RcptAccepted(p: Peer, s: Session, kw: string, address: string)
    requires Upper(kw) == "TO:" && Truthy(s.mailfrom)
    ensures var recipient := if address == "" then "<>" else address;
            Dispatch(p, s, "RCPT", Some(Bracketed(kw, address)))
              == Step(s.(rcpttos := s.rcpttos + [recipient], armed := VerbReader), [Ok], None)
  {
    GetAddressOf("TO:", kw, address);
  }

  /** RSET clears the sender and recipients, keeps the greeting, answers 250 and re-arms `onVerb`; with an argument it is refused. */
  lemma RsetClears(p: Peer, s: Session, argument: Option<string>)
    ensures var st := Dispatch(p, s, "RSET", argument);
            if Truthy(argument) then st == Step(s.(armed := VerbReader), [Reply(501, Usage("RSET"))], None)
            else st.session == Session(s.greeting, None, [], VerbReader, s.ended) && st.replies == [Ok]
  {
  }

  /** DATA refuses an argument (501); without recipients it gets 503 and arms nothing; otherwise 354 and `onData` is armed. */
  lemma DataReplies(p: Peer, s: Session, argument: Option<string>)
    ensures var st := Dispatch(p, s, "DATA", argument);
            if Truthy(argument) then st == Step(s.(armed := VerbReader), [Reply(501, Usage("DATA"))], None)
            else if |s.rcpttos| == 0 then st == Step(s, [Reply(503, "Error: need RCPT command")], None)
            else st == Step(s.(armed := DataReader), [Reply(354, "End data with <CR><LF>.<CR><LF>")], None)
  {
  }

  // ---------------------------------------------------------------------------
  // The body

  /**
    One chunk holding the dot-stuffed body lines and the terminator delivers
    the lines joined by LF, with the sender and recipients; the envelope is
    cleared and `onVerb` re-armed.
  */
  lemma BodyDelivered(p: Peer, s: Session, lines: seq<string>)
    requires forall i | 0 <= i < |lines| :: NoCrlf(lines[i])
    ensures var st := OnData(p, s, Join(MapStuff(lines), CRLF) + Terminator);
            && st.mail == Some(IncomingMail(p.remoteAddress, s.mailfrom, s.rcpttos, Join(lines, "\n")))
            && st.session == s.(mailfrom := None, rcpttos := [], armed := VerbReader)
            && st.replies == [Ok]
  {
    var body := Join(MapStuff(lines), CRLF);
    TerminatorStripped(body);
    BodyLines(lines);
    MapUnstuffStuff(lines);
  }

  /** Exactly one trailing terminator is removed. */
  lemma TerminatorStripped(body: string)
    ensures StripTerminator(body + Terminator) == body
  {
    var s := body + Terminator;
    assert s[|s| - |Terminator|..] == Terminator;
    assert s[..|s| - |Terminator|] == body;
  }

  /** Splitting the joined, stuffed body on CR LF gives the stuffed lines back (one empty line for an empty body). */
  lemma BodyLines(lines: seq<string>)
    requires forall i | 0 <= i < |lines| :: NoCrlf(lines[i])
    ensures var parts := MapStuff(lines);
            Lines(Join(parts, CRLF)) == if lines == [] then [""] else parts
  {
    var parts := MapStuff(lines);
    if lines != [] {
      forall i | 0 <= i < |parts|
        ensures NoCrlf(parts[i])
      {
        StuffNoCrlf(lines[i]);
      }
      LinesJoin(parts);
    } else {
      assert Join(parts, CRLF) == "";
    }
  }

  /**
    The whole chunk is the message: a `.` line in the middle of the chunk
    does not end it. It is delivered as an empty line, and the text after it
    stays in the body.
  */
  lemma EndLineInsideChunk(p: Peer, s: Session, before: string, after: string)
    requires NoCrlf(before) && NoCrlf(after) && after != "" && after[|after| - 1] != '\n'
    ensures OnData(p, s, before + (CRLF + ("." + (CRLF + after)))).mail.value.data
            == Unstuff(before) + ("\n" + ("" + ("\n" + Unstuff(after))))
  {
    var buffer := before + (CRLF + ("." + (CRLF + after)));
    assert buffer[|buffer| - 1] == after[|after| - 1];
    assert StripTerminator(buffer) == buffer;
    ThreeLines(before, ".", after);
    assert MapUnstuff([before, ".", after]) == [Unstuff(before), "", Unstuff(after)];
    JoinThree(Unstuff(before), "", Unstuff(after), "\n");
  }

  lemma ThreeLines(a: string, b: string, c: string)
    requires NoCrlf(a) && NoCrlf(b) && NoCrlf(c)
    ensures Lines(a + (CRLF + (b + (CRLF + c)))) == [a, b, c]
  {
    JoinThree(a, b, c, CRLF);
    LinesJoin([a, b, c]);
  }

  lemma JoinThree(a: string, b: string, c: string, sep: string)
    ensures Join([a, b, c], sep) == a + (sep + (b + (sep + c)))
  {
    var parts := [a, b, c];
    assert parts[1..] == [b, c] && parts[1..][1..] == [c];
    assert Join([c], sep) == c;
  }
}
