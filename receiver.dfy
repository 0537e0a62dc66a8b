/**
  The objects of index.js as they change in place: `SMTPServer` with its
  counters, `SMTPConnection` with its envelope fields and the lines it has
  written to its socket, and the closure of one `starttls()` call. Every
  method is specified by the transition of `ReceiverSpec` it performs.
*/
module Receiver {
  import opened Text
  import opened SmtpGrammar
  import opened ReceiverSpec
  import ReceiverProps

  /**
    `SMTPServer`. The host name, server name and version are fixed at
    construction; the `recipient` listener, if any, is a synchronous
    function; `delivered` records every `incoming` event in order.
  */
  class Server {
    const hostname: string
    const name: string
    const version: string
    const starttlsEnabled: bool
    const validator: Option<string -> Verdict>
    var current: int
    var max: int
    var total: int
    var messages: int
    var delivered: seq<Message>

    /** The counters as `stats` holds them. */
    function Counters(): Stats
      reads this
    {
      Stats(current, max, total, messages)
    }

    /** What a connection reads from its server. */
    function Settings(): Config {
      Config(hostname, starttlsEnabled, validator)
    }

    /**
      The constructor: the host name falls back to the machine name, the
      server name and version to their defaults; STARTTLS is enabled only
      when both a key and a certificate are given.
    */
    constructor (hostname: Option<string>, machineName: string, optionsName: Option<string>, optionsVersion: Option<string>,
                 packageVersion: Option<string>, key: Option<string>, cert: Option<string>,
                 validator: Option<string -> Verdict>)
      ensures this.hostname == Or(hostname, machineName)
      ensures this.name == Or(optionsName, "node.js smtpevent server")
      ensures this.version == Or(optionsVersion, Or(packageVersion, "unknown"))
      ensures this.starttlsEnabled == (Truthy(key) && Truthy(cert))
      ensures this.validator == validator
      ensures Counters() == NoStats && delivered == []
    {
      this.hostname := Or(hostname, machineName);
      this.name := Or(optionsName, "node.js smtpevent server");
      this.version := Or(optionsVersion, Or(packageVersion, "unknown"));
      this.starttlsEnabled := Truthy(key) && Truthy(cert);
      this.validator := validator;
      current, max, total, messages := 0, 0, 0, 0;
      delivered := [];
    }

    /** `register`: called by every new connection. */
    method Register()
      modifies this
      ensures Counters() == ReceiverSpec.Register(old(Counters())) && delivered == old(delivered)
    {
      current := current + 1;
      if current > max {
        max := current;
      }
      total := total + 1;
    }

    /** `unregister`: called when a connection's socket closes. */
    method Unregister()
      modifies this
      ensures Counters() == ReceiverSpec.Unregister(old(Counters())) && delivered == old(delivered)
    {
      current := current - 1;
    }

    /** `incoming`: counts the message and emits it. */
    method Incoming(m: Message)
      modifies this
      ensures Counters() == ReceiverSpec.Incoming(old(Counters()))
      ensures delivered == old(delivered) + [m]
    {
      messages := messages + 1;
      delivered := delivered + [m];
    }
  }

  /**
    `SMTPConnection`. `written` is everything written to the socket, in
    order; `phase` says which `data` listener the socket has.
  */
  class Connection {
    const server: Server
    var transport: Transport
    var helo: Option<string>
    var mailfrom: Option<string>
    var rcpttos: seq<Option<string>>
    var currentData: seq<string>
    var phase: Phase
    var ended: bool
    var written: seq<string>

    /** The fields the transitions of `ReceiverSpec` are about. */
    function State(): Conn
      reads this
    {
      Conn(transport, helo, mailfrom, rcpttos, currentData, phase, ended)
    }

    function Settings(): Config {
      server.Settings()
    }

    /**
      The constructor: a fresh envelope, the socket installed, the server's
      `register` called and the welcome line written.
    */
    constructor (server: Server, socket: Transport)
      modifies server
      ensures this.server == server
      ensures State() == Initial(socket)
      ensures written == [Reply(220, WelcomeText(server.hostname, server.name, server.version))]
      ensures server.Counters() == ReceiverSpec.Register(old(server.Counters()))
      ensures server.delivered == old(server.delivered)
    {
      this.server := server;
      transport := socket;
      helo := None;
      mailfrom, rcpttos, currentData := None, [], [];
      phase := Verbs;
      ended := false;
      written := [Reply(220, WelcomeText(server.hostname, server.name, server.version))];
      new;
      server.Register();
    }

    /** `respond(code, message)`. */
    method Respond(code: nat, message: string)
      modifies this
      ensures State() == old(State()) && written == old(written) + [Reply(code, message)]
    {
      written := written + [Reply(code, message)];
    }

    /** `reset`. */
    method Reset()
      modifies this
      ensures State() == ReceiverSpec.Reset(old(State())) && written == old(written)
    {
      mailfrom := None;
      rcpttos := [];
      currentData := [];
    }

    /** `setSocket(s)`: the `this.sockets === s` guard never holds, so the body always runs. */
    method SetSocket(s: Transport)
      modifies this
      ensures State() == ReceiverSpec.SetSocket(old(State()), s) && written == old(written)
    {
      helo := None;
      transport := s;
      phase := Verbs;
    }

    method ListenForVerbs()
      modifies this
      ensures State() == old(State()).(phase := Verbs) && written == old(written)
    {
      phase := Verbs;
    }

    method ListenForData()
      modifies this
      ensures State() == old(State()).(phase := Data) && written == old(written)
    {
      phase := Data;
    }

    // -------------------------------------------------------------------------
    // Handlers

    method Helo(argument: string)
      modifies this
      ensures var o := ReceiverSpec.Helo(Settings(), old(State()), argument);
              State() == o.conn && written == old(written) + o.replies
    {
      if Truthy(helo) {
        Respond(503, "Duplicate HELO/EHLO");
        return;
      }
      var hello := HelloMessage(Settings(), State());
      helo := Some(argument);
      Respond(250, hello);
    }

    method Ehlo(argument: string)
      modifies this
      ensures var o := ReceiverSpec.Ehlo(Settings(), old(State()), argument);
              State() == o.conn && written == old(written) + o.replies
    {
      if Truthy(helo) {
        Respond(503, "Duplicate HELO/EHLO");
        return;
      }
      var hello := HelloMessage(Settings(), State());
      helo := Some(argument);
      if transport.encrypted {
        Respond(250, hello);
      } else if server.starttlsEnabled {
        written := written + [ExtensionReply(250, hello)];
        Respond(250, "STARTTLS");
      } else {
        Respond(250, hello);
      }
    }

    /** MAIL: the parse result is stored before it is checked. */
    method Mail(argument: string)
      modifies this
      ensures var o := ReceiverSpec.Mail(Settings(), old(State()), argument);
              State() == o.conn && written == old(written) + o.replies
    {
      if Truthy(mailfrom) {
        Respond(503, "Error: nested MAIL command");
        return;
      }
      mailfrom := ParseEmailAddress(argument);
      if mailfrom.None? {
        Respond(501, SyntaxText("MAIL"));
        return;
      }
      Respond(250, "Ok");
    }

    /** RCPT: the continuation `next(error, data)` appends what the validator hands back. */
    method Rcpt(argument: string)
      modifies this
      ensures var o := ReceiverSpec.Rcpt(Settings(), old(State()), argument);
              State() == o.conn && written == old(written) + o.replies
    {
      if mailfrom.None? {
        Respond(503, "Error: need MAIL command");
        return;
      }
      var address := ParseEmailAddress(argument);
      if !Truthy(address) {
        Respond(501, SyntaxText("RCPT"));
        return;
      }
      var v := Validate(Settings(), address.value);
      if Truthy(v.error) {
        Respond(553, v.error.value);
        return;
      }
      rcpttos := rcpttos + [v.data];
      Respond(250, "Ok");
    }

    method Vrfy(argument: string)
      modifies this
      ensures var o := ReceiverSpec.Vrfy(Settings(), old(State()), argument);
              State() == o.conn && written == old(written) + o.replies
    {
      if argument == "" {
        Respond(501, SyntaxText("VRFY"));
        return;
      }
      var address := ParseEmailAddress(argument);
      if !Truthy(address) {
        Respond(504, "can only verify full addreses");
        return;
      }
      if server.validator.None? {
        Respond(252, "address might be valid");
        return;
      }
      var v := server.validator.value(address.value);
      if Truthy(v.error) {
        Respond(550, v.error.value);
      } else if Truthy(v.data) {
        Respond(250, v.data.value);
      } else {
        Respond(252, "address might be valid");
      }
    }

    /**
      STARTTLS: 220, then `starttls()`, which does nothing more on an
      encrypted socket and otherwise arms a guard for the new TLS socket.
    */
    method StartTls() returns (upgrade: TlsUpgrade?)
      modifies this
      ensures var o := ReceiverSpec.StartTls(Settings(), old(State()));
              State() == o.conn && written == old(written) + o.replies && (upgrade != null <==> o.upgrade)
      ensures upgrade != null ==> fresh(upgrade) && upgrade.Fresh(this)
    {
      Respond(220, "Ready to start TLS");
      if transport.encrypted {
        return null;
      }
      upgrade := new TlsUpgrade(this, Transport(transport.remoteAddress, true));
    }

    method DataVerb()
      modifies this
      ensures var o := ReceiverSpec.DataVerb(Settings(), old(State()));
              State() == o.conn && written == old(written) + o.replies
    {
      if |rcpttos| == 0 {
        Respond(503, "Error: need RCPT command");
        return;
      }
      ListenForData();
      Respond(354, "End data with <CR><LF>.<CR><LF>");
    }

    method Quit()
      modifies this
      ensures var o := ReceiverSpec.Quit(Settings(), old(State()));
              State() == o.conn && written == old(written) + o.replies
    {
      Respond(221, server.hostname + " closing connection");
      ended := true;
    }

    method Rset()
      modifies this
      ensures var o := ReceiverSpec.Rset(Settings(), old(State()));
              State() == o.conn && written == old(written) + o.replies
    {
      Reset();
      Respond(250, "Ok");
    }

    method Noop()
      modifies this
      ensures var o := ReceiverSpec.Noop(Settings(), old(State()));
              State() == o.conn && written == old(written) + o.replies
    {
      Respond(250, "Ok");
    }

    /** `this.emit(command, argument)`. */
    method Emit(verb: string, argument: string) returns (upgrade: TlsUpgrade?)
      requires IsHandler(verb)
      modifies this
      ensures var o := Handle(Settings(), old(State()), verb, argument);
              State() == o.conn && written == old(written) + o.replies && (upgrade != null <==> o.upgrade)
      ensures upgrade != null ==> fresh(upgrade) && upgrade.Fresh(this)
    {
      upgrade := null;
      if verb == "HELO" {
        Helo(argument);
      } else if verb == "EHLO" {
        Ehlo(argument);
      } else if verb == "MAIL" {
        Mail(argument);
      } else if verb == "RCPT" {
        Rcpt(argument);
      } else if verb == "VRFY" {
        Vrfy(argument);
      } else if verb == "STARTTLS" {
        upgrade := StartTls();
      } else if verb == "DATA" {
        DataVerb();
      } else if verb == "QUIT" {
        Quit();
      } else if verb == "RSET" {
        Rset();
      } else {
        Noop();
      }
    }

    // -------------------------------------------------------------------------
    // Listeners

    /** `onVerb`. */
    method OnVerb(buffer: string) returns (upgrade: TlsUpgrade?)
      modifies this
      ensures var o := ReceiverSpec.OnVerb(Settings(), old(State()), buffer);
              State() == o.conn && written == old(written) + o.replies && (upgrade != null <==> o.upgrade)
      ensures upgrade != null ==> fresh(upgrade) && upgrade.Fresh(this)
    {
      upgrade := null;
      var matches := MatchVerb(buffer);
      if matches.None? {
        Respond(500, "Error: bad syntax");
        return;
      }
      var command := Upper(matches.value.verb);
      var argument := matches.value.argument;
      if !IsHandler(command) {
        Respond(502, "Error: command \"" + command + "\" not implemented");
        return;
      }
      if ArgumentRefused(command, argument) {
        Respond(501, SyntaxText(command));
        return;
      }
      upgrade := Emit(command, argument);
    }

    /**
      `onData`: walks the lines of the chunk, storing each one unstuffed
      until the `.` line, which hands the message to the server.
    */
    method OnData(buffer: string)
      modifies this, server
      ensures var o := ReceiverSpec.OnData(Settings(), old(State()), buffer);
              && State() == o.conn && written == old(written) + o.replies
              && server.delivered == old(server.delivered) + Delivered(o)
              && server.Counters() == if o.delivered.Some? then ReceiverSpec.Incoming(old(server.Counters()))
                                      else old(server.Counters())
    {
      var lines := Lines(buffer);
      var i := 0;
      while i < |lines|
        invariant 0 <= i <= |lines|
        invariant forall j | 0 <= j < i :: !IsEnd(lines[j])
        invariant State() == old(State()).(currentData := old(currentData) + MapUnstuff(lines[..i]))
        invariant written == old(written)
        invariant server.Counters() == old(server.Counters()) && server.delivered == old(server.delivered)
      {
        if IsEnd(lines[i]) {
          assert FirstEnd(lines) == i;
          server.Incoming(Message(helo, transport.remoteAddress, mailfrom, rcpttos, Join(currentData, "\n")));
          Reset();
          ListenForVerbs();
          Respond(250, "Ok");
          return;
        }
        assert lines[..i + 1] == lines[..i] + [lines[i]];
        currentData := currentData + [Unstuff(lines[i])];
        i := i + 1;
      }
      assert FirstEnd(lines) == |lines|;
      assert lines[..i] == lines;
    }

    /** A `data` event on the socket, handed to the listener the phase names. */
    method Receive(buffer: string) returns (upgrade: TlsUpgrade?)
      modifies this, server
      ensures var o := ReceiverSpec.Receive(Settings(), old(State()), buffer);
              && State() == o.conn && written == old(written) + o.replies && (upgrade != null <==> o.upgrade)
              && server.delivered == old(server.delivered) + Delivered(o)
              && server.Counters() == if o.delivered.Some? then ReceiverSpec.Incoming(old(server.Counters()))
                                      else old(server.Counters())
      ensures upgrade != null ==> fresh(upgrade) && upgrade.Fresh(this)
    {
      ghost var c := State();
      if phase == Verbs {
        assert ReceiverSpec.Receive(Settings(), c, buffer) == ReceiverSpec.OnVerb(Settings(), c, buffer);
        ReceiverProps.OnVerbDeliversNothing(Settings(), c, buffer);
        upgrade := OnVerb(buffer);
      } else {
        assert ReceiverSpec.Receive(Settings(), c, buffer) == ReceiverSpec.OnData(Settings(), c, buffer);
        OnData(buffer);
        upgrade := null;
      }
    }
  }

  /**
    The closure of one `starttls()` call on a plain socket: the `returned`
    flag shared by the error listeners and the `secure` listener, and the
    TLS socket that may replace the connection's socket.
  */
  class TlsUpgrade {
    const connection: Connection
    const secure: Transport
    var returned: bool
    var swaps: nat
    var discards: nat

    function Guard(): Guard
      reads this
    {
      ReceiverSpec.Guard(returned, swaps, discards)
    }

    /** Just armed for `c`: nothing has happened yet. */
    predicate Fresh(c: Connection)
      reads this
    {
      connection == c && secure.encrypted && Guard() == ReceiverSpec.Guard(false, 0, 0)
    }

    constructor (connection: Connection, secure: Transport)
      requires secure.encrypted
      ensures Fresh(connection) && this.secure == secure
    {
      this.connection := connection;
      this.secure := secure;
      returned, swaps, discards := false, 0, 0;
    }

    /** `onError`: any of the error-like events. */
    method OnError()
      modifies this
      ensures Guard() == GuardStep(old(Guard()), Failure)
    {
      if returned {
        return;
      }
      returned := true;
    }

    /** The `secure` listener: the first to arrive swaps the socket; after that the TLS socket is ended instead. */
    method OnSecure()
      modifies this, connection
      ensures Guard() == GuardStep(old(Guard()), Secure)
      ensures connection.State() == if old(returned) then old(connection.State())
                                    else ReceiverSpec.SetSocket(old(connection.State()), secure)
      ensures connection.written == old(connection.written)
    {
      if returned {
        discards := discards + 1;
        return;
      }
      returned := true;
      swaps := swaps + 1;
      connection.SetSocket(secure);
    }
  }
}
