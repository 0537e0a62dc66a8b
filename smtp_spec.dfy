/**
  smtp.js, the first revision: one permanent `data` listener that switches on
  an integer `state` (`COMMAND` or `DATA`), handlers that check their own
  arguments, and replies written with `push` as whole lines. The closure
  variables are a value `Session`; each function here is one call.
*/
module LegacySpec {
  import opened Text
  import opened LegacyGrammar

  const COMMAND: int := 0
  const DATA: int := 1

  /** The closure variables `state`, `greeting`, `mailfrom` and `rcpttos`, and whether `socket.end()` was called. */
  datatype Session = Session(state: int, greeting: Option<string>, mailfrom: Option<string>, rcpttos: seq<string>, ended: bool)

  /** What a connection reads but never changes: its host name after the `|| 'localhost'` fallback and the peer address. */
  datatype Peer = Peer(hostname: string, remoteAddress: string)

  /** One call: the new session, the lines written in order, and the mail emitted, if any. */
  datatype Step = Step(session: Session, replies: seq<string>, mail: Option<IncomingMail>)

  const Start := Session(COMMAND, None, None, [], false)

  /** The values `state` is meant to hold. */
  predicate Valid(s: Session) {
    s.state == COMMAND || s.state == DATA
  }

  /** `push(message)`: the message and CR LF. */
  function Push(message: string): string {
    message + CRLF
  }

  const Ok: string := Push("250 Ok")
  const Confusion: string := Push("451 Internal confusion")

  function HostName(hostname: Option<string>): string {
    Or(hostname, "localhost")
  }

  /** The welcome line of the `connect` listener. */
  function Welcome(p: Peer): string {
    Push("220 " + p.hostname + " node.js SMTP server")
  }

  /** The keys of the `SMTP` handler table. */
  predicate IsCommand(verb: string) {
    verb in {"HELO", "NOOP", "QUIT", "MAIL", "RCPT", "RSET", "DATA"}
  }

  function Say(s: Session, line: string): (st: Step)
    ensures st.mail == None && st.replies == [line]
  {
    Step(s, [line], None)
  }

  // ---------------------------------------------------------------------------
  // Handlers

  /** HELO: the missing argument is refused before the duplicate check. */
  function Helo(p: Peer, s: Session, argument: Option<string>): (st: Step)
    ensures st.mail == None
    ensures st.session.state == s.state
    ensures |st.replies| == 1 && st.replies[0] != [] && st.replies[0][0] != '4'
  {
    if !Truthy(argument) then Say(s, Push("501 Syntax: HELO hostname"))
    else if Truthy(s.greeting) then Say(s, Push("503 Duplicate HELO/EHLO"))
    else Say(s.(greeting := argument), Push("250 " + p.hostname + " Hello " + p.remoteAddress))
  }

  function Noop(p: Peer, s: Session, argument: Option<string>): (st: Step)
    ensures st.mail == None
    ensures st.session.state == s.state
    ensures |st.replies| == 1 && st.replies[0] != [] && st.replies[0][0] != '4'
  {
    if Truthy(argument) then Say(s, Push("501 Syntax: NOOP")) else Say(s, Ok)
  }

  /** QUIT ignores any argument. */
  function Quit(p: Peer, s: Session): (st: Step)
    ensures st.mail == None
    ensures st.session.state == s.state
    ensures |st.replies| == 1 && st.replies[0] != [] && st.replies[0][0] != '4'
  {
    Say(s.(ended := true), Push("221 " + p.hostname + " closing connection"))
  }

  /** MAIL: the address is checked before the nesting. */
  function Mail(p: Peer, s: Session, argument: Option<string>): (st: Step)
    ensures st.mail == None
    ensures st.session.state == s.state
    ensures |st.replies| == 1 && st.replies[0] != [] && st.replies[0][0] != '4'
  {
    var address := GetAddress("FROM:", argument);
    if !Truthy(address) then Say(s, Push("501 Syntax: MAIL FROM:<address>"))
    else if Truthy(s.mailfrom) then Say(s, Push("503 Error: nested MAIL command"))
    else Say(s.(mailfrom := address), Ok)
  }

  /** RCPT: a sender first, then an address. */
  function Rcpt(p: Peer, s: Session, argument: Option<string>): (st: Step)
    ensures st.mail == None
    ensures st.session.state == s.state
    ensures |st.replies| == 1 && st.replies[0] != [] && st.replies[0][0] != '4'
  {
    if !Truthy(s.mailfrom) then Say(s, Push("503 Error: need MAIL command"))
    else
      var address := GetAddress("TO:", argument);
      if !Truthy(address) then Say(s, Push("501 Syntax: RCPT TO: <address>"))
      else Say(s.(rcpttos := s.rcpttos + [address.value]), Ok)
  }

  /** RSET: refused with an argument; otherwise sender and recipients go, the greeting stays, the state is COMMAND. */
  function Rset(p: Peer, s: Session, argument: Option<string>): (st: Step)
    ensures st.mail == None
    ensures st.session.state in {s.state, COMMAND}
    ensures |st.replies| == 1 && st.replies[0] != [] && st.replies[0][0] != '4'
  {
    if Truthy(argument) then Say(s, Push("501 Syntax: RSET"))
    else Say(s.(mailfrom := None, rcpttos := [], state := COMMAND), Ok)
  }

  /** DATA: "no recipients" is checked before "has an argument". */
  function DataVerb(p: Peer, s: Session, argument: Option<string>): (st: Step)
    ensures st.mail == None
    ensures st.session.state in {s.state, DATA}
    ensures |st.replies| == 1 && st.replies[0] != [] && st.replies[0][0] != '4'
  {
    if |s.rcpttos| == 0 then Say(s, Push("503 Error: need RCPT command"))
    else if Truthy(argument) then Say(s, Push("501 Syntax: DATA"))
    else Say(s.(state := DATA), Push("354 End data with <CR><LF>.<CR><LF>"))
  }

  /** `SMTP[command](argument)`. */
  function Handle(p: Peer, s: Session, verb: string, argument: Option<string>): (st: Step)
    requires IsCommand(verb)
    ensures st.mail == None
    ensures st.session.state in {s.state, COMMAND, DATA}
    ensures |st.replies| == 1 && st.replies[0] != [] && st.replies[0][0] != '4'
  {
    if verb == "HELO" then Helo(p, s, argument)
    else if verb == "NOOP" then Noop(p, s, argument)
    else if verb == "QUIT" then Quit(p, s)
    else if verb == "MAIL" then Mail(p, s, argument)
    else if verb == "RCPT" then Rcpt(p, s, argument)
    else if verb == "RSET" then Rset(p, s, argument)
    else DataVerb(p, s, argument)
  }

  // ---------------------------------------------------------------------------
  // The `data` listener

  /** The COMMAND branch: 500 for an empty chunk, 502 for an unknown verb, otherwise the handler. */
  function Command(p: Peer, s: Session, buffer: string): (st: Step)
    ensures st.mail == None
  {
    if buffer == "" then Say(s, Push("500 Error: bad syntax"))
    else
      var split := SplitCommand(buffer);
      if !IsCommand(split.command) then Say(s, Push("502 Error: command \"" + split.command + "\" not implemented"))
      else Handle(p, s, split.command, split.argument)
  }

  /**
    The DATA branch: the chunk is split on CR LF and every line unstuffed;
    nothing is removed, so the terminator's `.` and the empty piece after its
    CR LF stay in the body. The mail is emitted with the lines joined by LF,
    the envelope cleared, the state set back to COMMAND, and 250 sent.
  */
  function Body(p: Peer, s: Session, buffer: string): Step {
    var lines := Lines(buffer);
    Step(s.(rcpttos := [], mailfrom := None, state := COMMAND), [Ok],
         Some(IncomingMail(p.remoteAddress, s.mailfrom, s.rcpttos, Join(MapUnstuff(lines), "\n"))))
  }

  /** The `data` listener: COMMAND, then anything but DATA (451), then DATA. */
  function Receive(p: Peer, s: Session, buffer: string): Step {
    if s.state == COMMAND then Command(p, s, buffer)
    else if s.state != DATA then Say(s, Confusion)
    else Body(p, s, buffer)
  }

  /** What a run of `data` events produces. */
  datatype Trace = Trace(session: Session, replies: seq<string>, mails: seq<IncomingMail>)

  function Mails(st: Step): seq<IncomingMail> {
    if st.mail.Some? then [st.mail.value] else []
  }

  function Run(p: Peer, s: Session, chunks: seq<string>): Trace
    decreases |chunks|
  {
    if chunks == [] then Trace(s, [], [])
    else
      var st := Receive(p, s, chunks[0]);
      var t := Run(p, st.session, chunks[1..]);
      Trace(t.session, st.replies + t.replies, Mails(st) + t.mails)
  }
}
