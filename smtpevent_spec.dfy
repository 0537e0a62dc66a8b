/**
  smtpevent.js, the revision that reads commands with `socket.once('data', …)`:
  every `data` event consumes the listener that was armed, and the connection
  keeps reading only on the paths that arm one again. The closure variables of
  `SMTPConnection` and the armed listener are a value `Session`; each
  function here is one listener or handler run on it.
*/
module EventSpec {
  import opened Text
  import opened SmtpGrammar
  import opened LegacyGrammar

  /** The `data` listener attached with `socket.once`, if any. */
  datatype Listener = Idle | VerbReader | DataReader

  /**
    The closure variables `greeting`, `mailfrom` and `rcpttos`, the armed
    listener, and whether `socket.end()` was called. `greeting` starts as
    the falsy `0`, modelled as `None`.
  */
  datatype Session = Session(greeting: Option<string>, mailfrom: Option<string>, rcpttos: seq<string>,
                             armed: Listener, ended: bool)

  /** What a connection reads but never changes: its host name after the `|| 'localhost'` fallback, the peer address, the server version. */
  datatype Peer = Peer(hostname: string, remoteAddress: string, version: string)

  /** One listener call: the new session, the lines written in order, and the mail emitted, if any. */
  datatype Step = Step(session: Session, replies: seq<string>, mail: Option<IncomingMail>)

  /** The closure variables before the socket connects: nothing is listening yet. */
  const Start := Session(None, None, [], Idle, false)

  const Ok: string := Reply(250, "Ok")

  /** The host name the connection uses. */
  function HostName(hostname: Option<string>): string {
    Or(hostname, "localhost")
  }

  /** The keys of `SMTPProtocol.verbs`. */
  predicate IsVerb(verb: string) {
    verb in {"HELO", "NOOP", "QUIT", "MAIL", "RCPT", "RSET", "DATA"}
  }

  /** The truthy entries of `SMTPProtocol.verbs`: the argument shape a verb requires. */
  function Shape(verb: string): Option<string> {
    if verb == "HELO" then Some("hostname")
    else if verb == "MAIL" then Some("FROM:<address>")
    else if verb == "RCPT" then Some("TO: <address>")
    else None
  }

  /** The text of `respond.Syntax(verb)`: the verb, then its shape if it has one. */
  function Usage(verb: string): string {
    "Syntax: " + verb + (if Shape(verb).Some? then " " + Shape(verb).value else "")
  }

  function SyntaxReply(verb: string): string {
    Reply(501, Usage(verb))
  }

  /**
    The argument check of `onVerb`: QUIT's entry is `undefined`, so it takes
    anything; the others need an argument exactly when their entry is truthy.
  */
  predicate ArgumentRefused(verb: string, argument: Option<string>) {
    verb != "QUIT" && Shape(verb).Some? != Truthy(argument)
  }

  /** The `connect` listener: the welcome line, then `onVerb` armed. */
  function Connect(p: Peer, s: Session): Step {
    Step(s.(armed := VerbReader), [Reply(220, p.hostname + " node.js smtpevent server " + p.version)], None)
  }

  // ---------------------------------------------------------------------------
  // Handlers. Each runs after its `once` listener has been consumed.

  function Helo(p: Peer, s: Session, argument: Option<string>): (st: Step)
    ensures st.mail == None
  {
    if Truthy(s.greeting) then Step(s.(armed := VerbReader), [Reply(503, "Duplicate HELO/EHLO")], None)
    else Step(s.(greeting := argument, armed := VerbReader), [Reply(250, p.hostname + " Hello " + p.remoteAddress)], None)
  }

  function Noop(p: Peer, s: Session): (st: Step)
    ensures st.mail == None
  {
    Step(s.(armed := VerbReader), [Ok], None)
  }

  /** QUIT ends the socket and arms nothing. */
  function Quit(p: Peer, s: Session): (st: Step)
    ensures st.mail == None
  {
    Step(s.(ended := true), [Reply(221, p.hostname + " closing connection")], None)
  }

  /** MAIL: the address is checked before the nesting; neither error re-arms the reader. */
  function Mail(p: Peer, s: Session, argument: Option<string>): (st: Step)
    ensures st.mail == None
  {
    var address := GetAddress("FROM:", argument);
    if !Truthy(address) then Step(s, [SyntaxReply("MAIL")], None)
    else if Truthy(s.mailfrom) then Step(s, [Reply(503, "Error: nested MAIL command")], None)
    else Step(s.(mailfrom := address, armed := VerbReader), [Ok], None)
  }

  /** RCPT: a sender first, then an address; neither error re-arms the reader. */
  function Rcpt(p: Peer, s: Session, argument: Option<string>): (st: Step)
    ensures st.mail == None
  {
    if !Truthy(s.mailfrom) then Step(s, [Reply(503, "Error: need MAIL command")], None)
    else
      var address := GetAddress("TO:", argument);
      if !Truthy(address) then Step(s, [SyntaxReply("RCPT")], None)
      else Step(s.(rcpttos := s.rcpttos + [address.value], armed := VerbReader), [Ok], None)
  }

  /** RSET: the sender and recipients go, the greeting stays. */
  function Rset(p: Peer, s: Session): (st: Step)
    ensures st.mail == None
  {
    Step(s.(mailfrom := None, rcpttos := [], armed := VerbReader), [Ok], None)
  }

  /** DATA: without recipients nothing is armed; otherwise `onData` is. */
  function DataVerb(p: Peer, s: Session): (st: Step)
    ensures st.mail == None
  {
    if |s.rcpttos| == 0 then Step(s, [Reply(503, "Error: need RCPT command")], None)
    else Step(s.(armed := DataReader), [Reply(354, "End data with <CR><LF>.<CR><LF>")], None)
  }

  /** `SMTP[command](argument)`. */
  function Handle(p: Peer, s: Session, verb: string, argument: Option<string>): Step
    requires IsVerb(verb)
  {
    if verb == "HELO" then Helo(p, s, argument)
    else if verb == "NOOP" then Noop(p, s)
    else if verb == "QUIT" then Quit(p, s)
    else if verb == "MAIL" then Mail(p, s, argument)
    else if verb == "RCPT" then Rcpt(p, s, argument)
    else if verb == "RSET" then Rset(p, s)
    else DataVerb(p, s)
  }

  // ---------------------------------------------------------------------------
  // Listeners

  /**
    The part of `onVerb` after the split: an unknown verb gets 502 and a
    refused argument 501, both re-arming `onVerb`; anything else goes to
    its handler.
  */
  function Dispatch(p: Peer, s: Session, command: string, argument: Option<string>): Step {
    if !IsVerb(command) then
      Step(s.(armed := VerbReader), [Reply(502, "Error: command \"" + command + "\" not implemented")], None)
    else if ArgumentRefused(command, argument) then Step(s.(armed := VerbReader), [SyntaxReply(command)], None)
    else Handle(p, s, command, argument)
  }

  /** `onVerb`: an empty chunk gets 500 and nothing is armed; otherwise the line is split at its first space and dispatched. */
  function OnVerb(p: Peer, s: Session, buffer: string): (st: Step)
    ensures st.mail == None
  {
    if buffer == "" then Step(s, [Reply(500, "Error: bad syntax")], None)
    else
      var split := SplitCommand(buffer);
      Dispatch(p, s, split.command, split.argument)
  }

  /** The terminator `onData` removes: CR LF, dot, CR LF. */
  const Terminator: string := "\r\n.\r\n"

  /** `line.replace(/\r\n\.\r\n$/, '')`: one terminator at the very end is dropped. */
  function StripTerminator(s: string): (r: string)
    ensures r <= s
  {
    if |s| >= |Terminator| && s[|s| - |Terminator|..] == Terminator then s[..|s| - |Terminator|] else s
  }

  /**
    `onData`: the chunk is taken to be the whole message. Its terminator is
    removed, the rest split on CR LF, each line unstuffed and the lines
    joined with LF; the mail is emitted, the envelope cleared, 250 sent and
    `onVerb` armed.
  */
  function OnData(p: Peer, s: Session, buffer: string): Step {
    var lines := Lines(StripTerminator(buffer));
    Step(s.(mailfrom := None, rcpttos := [], armed := VerbReader), [Ok],
         Some(IncomingMail(p.remoteAddress, s.mailfrom, s.rcpttos, Join(MapUnstuff(lines), "\n"))))
  }

  /** A `data` event: the armed listener is consumed and called; with none armed the chunk is ignored. */
  function Receive(p: Peer, s: Session, buffer: string): Step {
    match s.armed
    case Idle => Step(s, [], None)
    case VerbReader => OnVerb(p, s.(armed := Idle), buffer)
    case DataReader => OnData(p, s.(armed := Idle), buffer)
  }

  /** What a run of `data` events produces. */
  datatype Trace = Trace(session: Session, replies: seq<string>, mails: seq<IncomingMail>)

  function Mails(st: Step): seq<IncomingMail> {
    if st.mail.Some? then [st.mail.value] else []
  }

  function Run(p: Peer, s: Session, chunks: seq<string>): Trace
    decreases |chunks|
  {
    if chunks == [] then Trace(s, [], [])
    else
      var st := Receive(p, s, chunks[0]);
      var t := Run(p, st.session, chunks[1..]);
      Trace(t.session, st.replies + t.replies, Mails(st) + t.mails)
  }
}
