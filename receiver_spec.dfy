/**
  The per-connection protocol engine of index.js (`SMTPConnection`), stated as
  pure transitions over a value `Conn` that holds exactly the fields the
  handlers read and write. The `Receiver` module's classes run these
  transitions in place; the lemmas in `ReceiverProps` are about them.
*/
module ReceiverSpec {
  import opened Text
  import opened SmtpGrammar

  /** What a `recipient` listener passes to its continuation `next(error, data)`. */
  datatype Verdict = Verdict(error: Option<string>, data: Option<string>)

  /**
    What a connection reads from its `SMTPServer`: the host name, whether a
    key and a certificate were both given, and the `recipient` listener, if
    any, as a synchronous function.
  */
  datatype Config = Config(hostname: string, starttlsEnabled: bool, validator: Option<string -> Verdict>)

  /** The socket a connection owns: its peer address and whether it is a `tls.TLSSocket`. */
  datatype Transport = Transport(remoteAddress: string, encrypted: bool)

  /** Which `data` listener is attached to the socket: `onVerb` or `onData`. */
  datatype Phase = Verbs | Data

  /**
    The mutable fields of an `SMTPConnection`. `rcpttos` holds what the
    validator handed back for each accepted recipient, which may be null;
    `ended` records that `socket.end()` was called.
  */
  datatype Conn = Conn(transport: Transport, helo: Option<string>, mailfrom: Option<string>,
                       rcpttos: seq<Option<string>>, currentData: seq<string>, phase: Phase, ended: bool)

  /** `SMTPMessage`: what `server.incoming` receives for a completed transaction. */
  datatype Message = Message(helo: Option<string>, remoteAddress: string, mailfrom: Option<string>,
                             rcpttos: seq<Option<string>>, data: string)

  /**
    The effect of one call: the new fields, the lines written to the socket in
    order, the message handed to the server (if any), and whether a TLS
    upgrade was started.
  */
  datatype Outcome = Outcome(conn: Conn, replies: seq<string>, delivered: Option<Message>, upgrade: bool)

  function Say(c: Conn, replies: seq<string>): Outcome {
    Outcome(c, replies, None, false)
  }

  const Ok: string := Reply(250, "Ok")

  /** `reset`: a fresh envelope; the greeting, socket and listener are kept. */
  function Reset(c: Conn): (r: Conn)
    ensures r.mailfrom == None && r.rcpttos == [] && r.currentData == []
    ensures r.transport == c.transport && r.helo == c.helo && r.phase == c.phase && r.ended == c.ended
  {
    c.(mailfrom := None, rcpttos := [], currentData := [])
  }

  /**
    The effect of `setSocket(s)` on the fields: the new socket is installed, the
    greeting is forgotten, and `onVerb` is the `data` listener of the new
    socket. The guard `this.sockets === s` compares against a property that is
    never assigned, so it never returns early.
  */
  function SetSocket(c: Conn, t: Transport): Conn {
    c.(transport := t, helo := None, phase := Verbs)
  }

  /** The fields right after the constructor: `reset()` and then `setSocket(socket)`. */
  function Initial(t: Transport): Conn {
    Conn(t, None, None, [], [], Verbs, false)
  }

  /** The text of `respondWelcome()`: host name, server name and version, separated by spaces. */
  function WelcomeText(hostname: string, name: string, version: string): string {
    hostname + " " + name + " " + version
  }

  /** `helloMessage()`. */
  function HelloMessage(cfg: Config, c: Conn): string {
    cfg.hostname + " Hello " + c.transport.remoteAddress
  }

  /** The verbs `SMTPConnection.prototype.handlers` has an entry for. */
  predicate IsHandler(verb: string) {
    verb in {"HELO", "EHLO", "MAIL", "RCPT", "VRFY", "STARTTLS", "DATA", "QUIT", "RSET", "NOOP"}
  }

  // ---------------------------------------------------------------------------
  // Handlers

  function Helo(cfg: Config, c: Conn, argument: string): (o: Outcome)
    ensures o.delivered == None && !o.upgrade
  {
    if Truthy(c.helo) then Say(c, [Reply(503, "Duplicate HELO/EHLO")])
    else Say(c.(helo := Some(argument)), [Reply(250, HelloMessage(cfg, c))])
  }

  /** EHLO advertises STARTTLS only on a plain socket of a server that has a key and a certificate. */
  function Ehlo(cfg: Config, c: Conn, argument: string): (o: Outcome)
    ensures o.delivered == None && !o.upgrade
  {
    if Truthy(c.helo) then Say(c, [Reply(503, "Duplicate HELO/EHLO")])
    else
      var c' := c.(helo := Some(argument));
      if c.transport.encrypted then Say(c', [Reply(250, HelloMessage(cfg, c))])
      else if cfg.starttlsEnabled then
        Say(c', [ExtensionReply(250, HelloMessage(cfg, c)), Reply(250, "STARTTLS")])
      else Say(c', [Reply(250, HelloMessage(cfg, c))])
  }

  /**
    MAIL: the nesting test is JavaScript truthiness, so an empty sender counts
    as unset; the parse result is stored before it is checked, so a failed
    MAIL leaves the sender null.
  */
  function Mail(cfg: Config, c: Conn, argument: string): (o: Outcome)
    ensures o.delivered == None && !o.upgrade
  {
    if Truthy(c.mailfrom) then Say(c, [Reply(503, "Error: nested MAIL command")])
    else
      var m := ParseEmailAddress(argument);
      var c' := c.(mailfrom := m);
      if m.None? then Say(c', [Reply(501, SyntaxText("MAIL"))])
      else Say(c', [Ok])
  }

  /** The answer `next(error, data)` receives: the listener's, or `(null, address)` without one. */
  function Validate(cfg: Config, address: string): Verdict {
    if cfg.validator.Some? then cfg.validator.value(address) else Verdict(None, Some(address))
  }

  /**
    RCPT: needs a non-null sender, then a truthy address; what is appended is
    the `data` the continuation receives.
  */
  function Rcpt(cfg: Config, c: Conn, argument: string): (o: Outcome)
    ensures o.delivered == None && !o.upgrade
  {
    if c.mailfrom.None? then Say(c, [Reply(503, "Error: need MAIL command")])
    else
      var address := ParseEmailAddress(argument);
      if !Truthy(address) then Say(c, [Reply(501, SyntaxText("RCPT"))])
      else
        var v := Validate(cfg, address.value);
        if Truthy(v.error) then Say(c, [Reply(553, v.error.value)])
        else Say(c.(rcpttos := c.rcpttos + [v.data]), [Ok])
  }

  /** VRFY never changes the connection; only the reply depends on the validator. */
  function Vrfy(cfg: Config, c: Conn, argument: string): (o: Outcome)
    ensures o.delivered == None && !o.upgrade
  {
    if argument == "" then Say(c, [Reply(501, SyntaxText("VRFY"))])
    else
      var address := ParseEmailAddress(argument);
      if !Truthy(address) then Say(c, [Reply(504, "can only verify full addreses")])
      else if cfg.validator.None? then Say(c, [Reply(252, "address might be valid")])
      else
        var v := cfg.validator.value(address.value);
        if Truthy(v.error) then Say(c, [Reply(550, v.error.value)])
        else if Truthy(v.data) then Say(c, [Reply(250, v.data.value)])
        else Say(c, [Reply(252, "address might be valid")])
  }

  /**
    STARTTLS always answers 220; `starttls()` then returns at once on a TLS
    socket and otherwise begins an upgrade, whether or not the server has a
    key and a certificate.
  */
  function StartTls(cfg: Config, c: Conn): Outcome {
    Outcome(c, [Reply(220, "Ready to start TLS")], None, !c.transport.encrypted)
  }

  function DataVerb(cfg: Config, c: Conn): (o: Outcome)
    ensures o.delivered == None && !o.upgrade
  {
    if |c.rcpttos| == 0 then Say(c, [Reply(503, "Error: need RCPT command")])
    else Say(c.(phase := Data), [Reply(354, "End data with <CR><LF>.<CR><LF>")])
  }

  function Quit(cfg: Config, c: Conn): (o: Outcome)
    ensures o.delivered == None && !o.upgrade
  {
    Say(c.(ended := true), [Reply(221, cfg.hostname + " closing connection")])
  }

  function Rset(cfg: Config, c: Conn): (o: Outcome)
    ensures o.delivered == None && !o.upgrade
  {
    Say(Reset(c), [Ok])
  }

  function Noop(cfg: Config, c: Conn): (o: Outcome)
    ensures o.delivered == None && !o.upgrade
  {
    Say(c, [Ok])
  }

  /** `this.emit(command, argument)`: the handler registered for the verb. */
  function Handle(cfg: Config, c: Conn, verb: string, argument: string): Outcome
    requires IsHandler(verb)
  {
    if verb == "HELO" then Helo(cfg, c, argument)
    else if verb == "EHLO" then Ehlo(cfg, c, argument)
    else if verb == "MAIL" then Mail(cfg, c, argument)
    else if verb == "RCPT" then Rcpt(cfg, c, argument)
    else if verb == "VRFY" then Vrfy(cfg, c, argument)
    else if verb == "STARTTLS" then StartTls(cfg, c)
    else if verb == "DATA" then DataVerb(cfg, c)
    else if verb == "QUIT" then Quit(cfg, c)
    else if verb == "RSET" then Rset(cfg, c)
    else Noop(cfg, c)
  }

  // ---------------------------------------------------------------------------
  // Listeners

  /**
    The argument test of `onVerb`: a verb whose table entry is defined is
    refused when the truthiness of the entry and of the argument differ.
  */
  predicate ArgumentRefused(verb: string, argument: string) {
    Syntax(verb) != Undefined && ExpectsArgument(Syntax(verb)) != (argument != "")
  }

  /** `onVerb`: 500 if the pattern fails, then 502, then 501, then the handler. */
  function OnVerb(cfg: Config, c: Conn, buffer: string): Outcome {
    match MatchVerb(buffer)
    case None => Say(c, [Reply(500, "Error: bad syntax")])
    case Some(m) =>
      var command := Upper(m.verb);
      if !IsHandler(command) then
        Say(c, [Reply(502, "Error: command \"" + command + "\" not implemented")])
      else if ArgumentRefused(command, m.argument) then Say(c, [Reply(501, SyntaxText(command))])
      else Handle(cfg, c, command, m.argument)
  }

  /** Index of the first line that is exactly `.`, or the number of lines. */
  function FirstEnd(lines: seq<string>): (i: nat)
    ensures i <= |lines|
    ensures forall j | 0 <= j < i :: !IsEnd(lines[j])
    ensures i < |lines| ==> IsEnd(lines[i])
  {
    if lines == [] then 0
    else if IsEnd(lines[0]) then 0
    else 1 + FirstEnd(lines[1..])
  }

  /**
    `onData`: the chunk is split on CR LF; the lines before the first `.`
    line, each with one leading dot removed, join the stored lines; at the `.`
    line the message is delivered with the stored lines joined by LF, the
    envelope is reset, `onVerb` is re-armed and 250 is sent. Lines after it
    are dropped.
  */
  function OnData(cfg: Config, c: Conn, buffer: string): Outcome {
    var lines := Lines(buffer);
    var i := FirstEnd(lines);
    var data := c.currentData + MapUnstuff(lines[..i]);
    if i == |lines| then Say(c.(currentData := data), [])
    else
      Outcome(Reset(c).(phase := Verbs), [Ok],
              Some(Message(c.helo, c.transport.remoteAddress, c.mailfrom, c.rcpttos, Join(data, "\n"))), false)
  }

  /** A `data` event: handed to whichever listener the phase says is attached. */
  function Receive(cfg: Config, c: Conn, buffer: string): Outcome {
    if c.phase == Verbs then OnVerb(cfg, c, buffer) else OnData(cfg, c, buffer)
  }

  // ---------------------------------------------------------------------------
  // The STARTTLS guard

  /** What can end the handshake window: an error-like event, or `secure`. */
  datatype TlsEvent = Failure | Secure

  /**
    The closure state of one `starttls()` call: the `returned` flag, how many
    times the connection's socket was replaced, and how many times the new
    socket was ended instead.
  */
  datatype Guard = Guard(returned: bool, swaps: nat, discards: nat)

  function GuardStep(g: Guard, e: TlsEvent): Guard {
    match e
    case Failure => if g.returned then g else g.(returned := true)
    case Secure => if g.returned then g.(discards := g.discards + 1) else g.(returned := true, swaps := g.swaps + 1)
  }

  /** The guard after a sequence of events, starting from `returned = false`. */
  function RunGuard(events: seq<TlsEvent>): Guard
    decreases |events|
  {
    if events == [] then Guard(false, 0, 0)
    else GuardStep(RunGuard(events[..|events| - 1]), events[|events| - 1])
  }

  // ---------------------------------------------------------------------------
  // A sequence of chunks

  /** What a run of `data` events produces: the final fields, every reply line in order, every delivered message in order. */
  datatype Trace = Trace(conn: Conn, replies: seq<string>, delivered: seq<Message>)

  /** The message of an outcome, as a sequence of none or one. */
  function Delivered(o: Outcome): seq<Message> {
    if o.delivered.Some? then [o.delivered.value] else []
  }

  /** The chunks handed one after another to `Receive`. */
  function Run(cfg: Config, c: Conn, chunks: seq<string>): Trace
    decreases |chunks|
  {
    if chunks == [] then Trace(c, [], [])
    else
      var o := Receive(cfg, c, chunks[0]);
      var t := Run(cfg, o.conn, chunks[1..]);
      Trace(t.conn, o.replies + t.replies, Delivered(o) + t.delivered)
  }

  // ---------------------------------------------------------------------------
  // Server counters

  /** `SMTPServer.stats`: `connections.current`, `.max`, `.total` and `messages.total`. */
  datatype Stats = Stats(current: int, max: int, total: int, messages: int)

  const NoStats := Stats(0, 0, 0, 0)

  /** `register`: one more current connection, the maximum raised to it if needed, one more in total. */
  function Register(s: Stats): Stats {
    var current := s.current + 1;
    s.(current := current, max := if current > s.max then current else s.max, total := s.total + 1)
  }

  /** `unregister`: one fewer current connection. */
  function Unregister(s: Stats): Stats {
    s.(current := s.current - 1)
  }

  /** `incoming`: one more message. */
  function Incoming(s: Stats): Stats {
    s.(messages := s.messages + 1)
  }

  /** What reaches the counters: a connection made, a connection closed, a message completed. */
  datatype ServerEvent = Opened | Closed | Completed

  function StatsStep(s: Stats, e: ServerEvent): Stats {
    match e
    case Opened => Register(s)
    case Closed => Unregister(s)
    case Completed => Incoming(s)
  }

  /** The counters after a sequence of events, starting from zero. */
  function Replay(events: seq<ServerEvent>): Stats
    decreases |events|
  {
    if events == [] then NoStats
    else StatsStep(Replay(events[..|events| - 1]), events[|events| - 1])
  }

  /** How many times `e` occurs. */
  function Occurrences<T(==)>(xs: seq<T>, e: T): nat
    decreases |xs|
  {
    if xs == [] then 0
    else Occurrences(xs[..|xs| - 1], e) + (if xs[|xs| - 1] == e then 1 else 0)
  }
}
