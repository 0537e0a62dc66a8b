/** What smtp.js promises, stated over `LegacySpec`. */
module LegacyProps {
  import opened Text
  import opened LegacyGrammar
  import opened LegacySpec

  // ---------------------------------------------------------------------------
  // The state machine

  /** Every call keeps `state` at COMMAND or DATA and never answers 451. */
  lemma StateStaysValid(p: Peer, s: Session, buffer: string)
    requires Valid(s)
    ensures var st := Receive(p, s, buffer);
            Valid(st.session) && Confusion !in st.replies
  {
    if s.state == COMMAND && buffer != "" {
      var split := SplitCommand(buffer);
      if IsCommand(split.command) {
        HandleKeepsState(p, s, split.command, split.argument);
      }
    }
  }

  /** A handler leaves `state` as it was, except that RSET sets COMMAND and a successful DATA sets DATA; none answers 451. */
  lemma HandleKeepsState(p: Peer, s: Session, verb: string, argument: Option<string>)
    requires IsCommand(verb)
    ensures var st := Handle(p, s, verb, argument);
            && (st.session.state == s.state || st.session.state == COMMAND || st.session.state == DATA)
            && Confusion !in st.replies
  {
    assert Confusion[0] == '4';
  }

  /** From a valid state, no sequence of chunks ever gets `451 Internal confusion`: the branch is unreachable. */
  lemma {:induction false} NeverConfused(p: Peer, s: Session, chunks: seq<string>)
    requires Valid(s)
    ensures var t := Run(p, s, chunks);
            Valid(t.session) && Confusion !in t.replies
    decreases |chunks|
  {
    if chunks != [] {
      var st := Receive(p, s, chunks[0]);
      StateStaysValid(p, s, chunks[0]);
      NeverConfused(p, st.session, chunks[1..]);
    }
  }

  /** The 451 branch itself: any other value of `state` answers it and changes nothing. */
  lemma ConfusedOutsideStates(p: Peer, s: Session, buffer: string)
    requires !Valid(s)
    ensures Receive(p, s, buffer) == Step(s, [Confusion], None)
  {
  }

  // ---------------------------------------------------------------------------
  // The COMMAND branch

  /** In COMMAND state an empty chunk gets 500 and changes nothing. */
  lemma EmptyCommand(p: Peer, s: Session)
    requires s.state == COMMAND
    ensures Receive(p, s, "") == Step(s, [Push("500 Error: bad syntax")], None)
  {
  }

  /** A command line with an argument reaches the handler of its upper-cased verb with the argument. */
  lemma CommandLine(p: Peer, s: Session, verb: string, argument: string)
    requires ' ' !in verb && Stripped(argument) && IsCommand(Upper(verb))
    ensures Command(p, s, Line(verb, argument)) == Handle(p, s, Upper(verb), Some(argument))
  {
    SplitCommandLine(verb, argument);
  }

  /** An unknown verb gets 502 and changes nothing. */
  lemma UnknownCommand(p: Peer, s: Session, verb: string, argument: string)
    requires ' ' !in verb && Stripped(argument) && !IsCommand(Upper(verb))
    ensures Command(p, s, Line(verb, argument)) == Step(s, [Push("502 Error: command \"" + Upper(verb) + "\" not implemented")], None)
  {
    SplitCommandLine(verb, argument);
  }

  /** HELO without an argument is refused before the duplicate check. */
  lemma HeloNeedsArgument(p: Peer, s: Session)
    ensures Handle(p, s, "HELO", None) == Step(s, [Push("501 Syntax: HELO hostname")], None)
  {
  }

  /** HELO with a hostname gets 503 when a greeting is already recorded and keeps it; otherwise it records the hostname and gets 250 with the server's name and the peer's address. */
  lemma HeloReplies(p: Peer, s: Session, argument: Option<string>)
    requires Truthy(argument)
    ensures Handle(p, s, "HELO", argument)
            == if Truthy(s.greeting) then Step(s, [Push("503 Duplicate HELO/EHLO")], None)
               else Step(s.(greeting := argument), [Push("250 " + p.hostname + " Hello " + p.remoteAddress)], None)
  {
  }

  /** NOOP and RSET refuse an argument and change nothing. */
  lemma ArgumentRefused(p: Peer, s: Session, argument: Option<string>)
    requires Truthy(argument)
    ensures Handle(p, s, "NOOP", argument) == Step(s, [Push("501 Syntax: NOOP")], None)
    ensures Handle(p, s, "RSET", argument) == Step(s, [Push("501 Syntax: RSET")], None)
  {
  }

  /** QUIT ignores its argument. */
  lemma QuitIgnoresArgument(p: Peer, s: Session, argument: Option<string>)
    ensures Handle(p, s, "QUIT", argument) == Handle(p, s, "QUIT", None)
    ensures Handle(p, s, "QUIT", argument).session == s.(ended := true)
  {
  }

  /** MAIL checks the address before the nesting: a keyword with nothing after it gets 501 whatever the sender. */
  lemma MailSyntaxFirst(p: Peer, s: Session, kw: string, rest: string)
    requires Upper(kw) == "FROM:" && AllSpace(rest)
    ensures Handle(p, s, "MAIL", Some(kw + rest)) == Step(s, [Push("501 Syntax: MAIL FROM:<address>")], None)
  {
    GetAddressEmpty("FROM:", kw, rest);
  }

  /** MAIL FROM with a bracketed address records it, the null address as `<>`; a second one gets 503. */
  lemma MailAccepted(p: Peer, s: Session, kw: string, address: string)
    requires Upper(kw) == "FROM:"
    ensures var st := Handle(p, s, "MAIL", Some(Bracketed(kw, address)));
            if Truthy(s.mailfrom) then st == Step(s, [Push("503 Error: nested MAIL command")], None)
            else st == Step(s.(mailfrom := Some(if address == "" then "<>" else address)), [Ok], None)
  {
    GetAddressOf("FROM:", kw, address);
  }

  /** RCPT without a sender gets 503; with one, a bracketed address is appended. */
  lemma RcptAccepted(p: Peer, s: Session, kw: string, address: string)
    requires Upper(kw) == "TO:"
    ensures var st := Handle(p, s, "RCPT", Some(Bracketed(kw, address)));
            if !Truthy(s.mailfrom) then st == Step(s, [Push("503 Error: need MAIL command")], None)
            else st == Step(s.(rcpttos := s.rcpttos + [if address == "" then "<>" else address]), [Ok], None)
  {
    GetAddressOf("TO:", kw, address);
  }

  /** RSET clears the sender and recipients, sets COMMAND and keeps the greeting. */
  lemma RsetClears(p: Peer, s: Session)
    ensures Handle(p, s, "RSET", None).session == Session(COMMAND, s.greeting, None, [], s.ended)
    ensures Handle(p, s, "RSET", None).replies == [Ok]
  {
  }

  /** DATA checks "no recipients" before "has an argument", and only then enters DATA and answers 354. */
  lemma DataOrder(p: Peer, s: Session, argument: Option<string>)
    requires s.state == COMMAND
    ensures var st := Handle(p, s, "DATA", argument);
            && (|s.rcpttos| == 0 ==> st == Step(s, [Push("503 Error: need RCPT command")], None))
            && (|s.rcpttos| > 0 && Truthy(argument) ==> st == Step(s, [Push("501 Syntax: DATA")], None))
            && (|s.rcpttos| > 0 && !Truthy(argument) ==> st == Step(s.(state := DATA), [Push("354 End data with <CR><LF>.<CR><LF>")], None))
            && (st.session.state == DATA <==> |s.rcpttos| > 0 && !Truthy(argument))
  {
  }

  // ---------------------------------------------------------------------------
  // The DATA branch

  /** The terminator a client sends after the body: CR LF, dot, CR LF. */
  const Terminator: string := "\r\n.\r\n"

  /**
    The terminator is not removed: the stuffed body lines followed by
    CR LF . CR LF deliver the lines joined by LF and then two more LFs, one
    for the `.` line (emptied by unstuffing) and one for the empty piece
    after the last CR LF. The envelope is cleared and the state is COMMAND.
  */
  lemma TerminatorKept(p: Peer, s: Session, lines: seq<string>)
    requires forall i | 0 <= i < |lines| :: NoCrlf(lines[i])
    ensures var st := Body(p, s, Join(MapStuff(lines), CRLF) + Terminator);
            && st.mail == Some(IncomingMail(p.remoteAddress, s.mailfrom, s.rcpttos, Join(lines, "\n") + "\n\n"))
            && st.session == s.(rcpttos := [], mailfrom := None, state := COMMAND)
            && st.replies == [Ok]
  {
    if lines == [] {
      assert Join(MapStuff(lines), CRLF) + Terminator == Terminator;
      assert Join(lines, "\n") + "\n\n" == "\n\n";
      EmptyBodyKept(p, s);
    } else {
      BodyKept(p, s, lines);
    }
  }

  /** The empty body: the chunk is the terminator alone and delivers two LFs. */
  lemma EmptyBodyKept(p: Peer, s: Session)
    ensures Body(p, s, Terminator).mail == Some(IncomingMail(p.remoteAddress, s.mailfrom, s.rcpttos, "\n\n"))
  {
    EmptyBodyLines();
    assert MapUnstuff(["", ".", ""]) == ["", "", ""];
    assert Join(["", "", ""], "\n") == "\n\n";
  }

  lemma BodyKept(p: Peer, s: Session, lines: seq<string>)
    requires lines != [] && forall i | 0 <= i < |lines| :: NoCrlf(lines[i])
    ensures Body(p, s, Join(MapStuff(lines), CRLF) + Terminator).mail
            == Some(IncomingMail(p.remoteAddress, s.mailfrom, s.rcpttos, Join(lines, "\n") + "\n\n"))
  {
    var stuffed := MapStuff(lines);
    StuffedNoCrlf(lines);
    TerminatedLines(stuffed);
    UnstuffTerminated(lines);
    JoinTwoEmpty(lines);
  }

  /** The terminator alone splits into an empty piece, the `.` line and an empty piece. */
  lemma EmptyBodyLines()
    ensures Lines(Terminator) == ["", ".", ""]
  {
    assert NoCrlf("") && NoCrlf(".");
    LinesJoin(["", ".", ""]);
    assert Join(["", ".", ""], CRLF) == Terminator;
  }

  lemma StuffedNoCrlf(lines: seq<string>)
    requires forall i | 0 <= i < |lines| :: NoCrlf(lines[i])
    ensures forall i | 0 <= i < |MapStuff(lines)| :: NoCrlf(MapStuff(lines)[i])
  {
    forall i | 0 <= i < |lines|
      ensures NoCrlf(MapStuff(lines)[i])
    {
      StuffNoCrlf(lines[i]);
    }
  }

  /** Unstuffing turns the stuffed lines back into the body and the `.` line into an empty one. */
  lemma UnstuffTerminated(lines: seq<string>)
    ensures MapUnstuff(MapStuff(lines) + [".", ""]) == lines + ["", ""]
  {
    var parts := MapStuff(lines) + [".", ""];
    forall i | 0 <= i < |parts|
      ensures MapUnstuff(parts)[i] == (lines + ["", ""])[i]
    {
      if i < |lines| {
        UnstuffStuff(lines[i]);
      }
    }
  }

  lemma JoinTwoEmpty(lines: seq<string>)
    requires lines != []
    ensures Join(lines + ["", ""], "\n") == Join(lines, "\n") + "\n\n"
  {
    JoinAppend(lines, "", "\n");
    JoinAppend(lines + [""], "", "\n");
    assert lines + ["", ""] == lines + [""] + [""];
    assert "\n\n" == "\n" + "" + ("\n" + "");
  }

  /** Splitting the stuffed lines plus the terminator on CR LF gives them back followed by `.` and an empty piece. */
  lemma TerminatedLines(stuffed: seq<string>)
    requires stuffed != [] && forall i | 0 <= i < |stuffed| :: NoCrlf(stuffed[i])
    ensures Lines(Join(stuffed, CRLF) + Terminator) == stuffed + [".", ""]
  {
    TerminatedJoin(stuffed);
    TerminatedNoCrlf(stuffed);
    LinesJoin(stuffed + [".", ""]);
  }

  lemma TerminatedNoCrlf(stuffed: seq<string>)
    requires forall i | 0 <= i < |stuffed| :: NoCrlf(stuffed[i])
    ensures var parts := stuffed + [".", ""];
            forall i | 0 <= i < |parts| :: NoCrlf(parts[i])
  {
    var parts := stuffed + [".", ""];
    forall i | 0 <= i < |parts|
      ensures NoCrlf(parts[i])
    {
      if i < |stuffed| {
        assert parts[i] == stuffed[i];
      }
    }
  }

  lemma TerminatedJoin(parts: seq<string>)
    requires parts != []
    ensures Join(parts + [".", ""], CRLF) == Join(parts, CRLF) + Terminator
  {
    var body := Join(parts, CRLF);
    JoinAppend(parts, ".", CRLF);
    JoinAppend(parts + ["."], "", CRLF);
    assert parts + [".", ""] == parts + ["."] + [""];
    assert Terminator == CRLF + "." + (CRLF + "");
  }
}
