/**
  The objects of smtpevent.js as they change in place: the server, which
  records the `incoming-mail` events it emits, and one `SMTPConnection`,
  whose closure variables, armed listener and socket output are fields.
  Every method is specified by the function of `EventSpec` it performs.
*/
module EventConnection {
  import opened Text
  import opened SmtpGrammar
  import opened LegacyGrammar
  import opened EventSpec

  /** `SMTPServer`: its version string and the `incoming-mail` events emitted so far. */
  class Server {
    const version: string
    var emitted: seq<IncomingMail>

    constructor ()
      ensures version == "0.0.2" && emitted == []
    {
      version := "0.0.2";
      emitted := [];
    }

    method Emit(m: IncomingMail)
      modifies this
      ensures emitted == old(emitted) + [m]
    {
      emitted := emitted + [m];
    }
  }

  /** One `SMTPConnection`. `written` is everything written to the socket, in order. */
  class Connection {
    const server: Server
    const hostname: string
    const remoteAddress: string
    var greeting: Option<string>
    var mailfrom: Option<string>
    var rcpttos: seq<string>
    var armed: Listener
    var ended: bool
    var written: seq<string>

    function Session(): Session
      reads this
    {
      EventSpec.Session(greeting, mailfrom, rcpttos, armed, ended)
    }

    function Peer(): Peer {
      EventSpec.Peer(hostname, remoteAddress, server.version)
    }

    /** The closure variables as the constructor leaves them; the host name falls back to `localhost`. */
    constructor (hostname: Option<string>, server: Server, remoteAddress: string)
      ensures this.server == server && this.remoteAddress == remoteAddress
      ensures this.hostname == HostName(hostname)
      ensures Session() == Start && written == []
    {
      this.server := server;
      this.hostname := HostName(hostname);
      this.remoteAddress := remoteAddress;
      greeting, mailfrom, rcpttos := None, None, [];
      armed := Idle;
      ended := false;
      written := [];
    }

    /** `respond(code, message)`. */
    method Respond(code: nat, message: string)
      modifies this
      ensures Session() == old(Session()) && written == old(written) + [Reply(code, message)]
    {
      written := written + [Reply(code, message)];
    }

    /** The `connect` listener. */
    method Connect()
      modifies this
      ensures var st := EventSpec.Connect(Peer(), old(Session()));
              Session() == st.session && written == old(written) + st.replies
    {
      Respond(220, hostname + " node.js smtpevent server " + server.version);
      armed := VerbReader;
    }

    method Helo(argument: Option<string>)
      modifies this
      ensures var st := EventSpec.Helo(Peer(), old(Session()), argument);
              Session() == st.session && written == old(written) + st.replies
    {
      if Truthy(greeting) {
        Respond(503, "Duplicate HELO/EHLO");
      } else {
        greeting := argument;
        Respond(250, hostname + " Hello " + remoteAddress);
      }
      armed := VerbReader;
    }

    method Noop()
      modifies this
      ensures var st := EventSpec.Noop(Peer(), old(Session()));
              Session() == st.session && written == old(written) + st.replies
    {
      Respond(250, "Ok");
      armed := VerbReader;
    }

    method Quit()
      modifies this
      ensures var st := EventSpec.Quit(Peer(), old(Session()));
              Session() == st.session && written == old(written) + st.replies
    {
      Respond(221, hostname + " closing connection");
      ended := true;
    }

    method Mail(argument: Option<string>)
      modifies this
      ensures var st := EventSpec.Mail(Peer(), old(Session()), argument);
              Session() == st.session && written == old(written) + st.replies
    {
      var address := GetAddress("FROM:", argument);
      if !Truthy(address) {
        Respond(501, Usage("MAIL"));
        return;
      }
      if Truthy(mailfrom) {
        Respond(503, "Error: nested MAIL command");
        return;
      }
      mailfrom := address;
      Respond(250, "Ok");
      armed := VerbReader;
    }

    method Rcpt(argument: Option<string>)
      modifies this
      ensures var st := EventSpec.Rcpt(Peer(), old(Session()), argument);
              Session() == st.session && written == old(written) + st.replies
    {
      if !Truthy(mailfrom) {
        Respond(503, "Error: need MAIL command");
        return;
      }
      var address := GetAddress("TO:", argument);
      if !Truthy(address) {
        Respond(501, Usage("RCPT"));
        return;
      }
      rcpttos := rcpttos + [address.value];
      Respond(250, "Ok");
      armed := VerbReader;
    }

    method Rset()
      modifies this
      ensures var st := EventSpec.Rset(Peer(), old(Session()));
              Session() == st.session && written == old(written) + st.replies
    {
      mailfrom := None;
      rcpttos := [];
      Respond(250, "Ok");
      armed := VerbReader;
    }

    method DataVerb()
      modifies this
      ensures var st := EventSpec.DataVerb(Peer(), old(Session()));
              Session() == st.session && written == old(written) + st.replies
    {
      if |rcpttos| == 0 {
        Respond(503, "Error: need RCPT command");
        return;
      }
      Respond(354, "End data with <CR><LF>.<CR><LF>");
      armed := DataReader;
    }

    /** `SMTP[command](argument)`. */
    method Handle(verb: string, argument: Option<string>)
      requires IsVerb(verb)
      modifies this
      ensures var st := EventSpec.Handle(Peer(), old(Session()), verb, argument);
              Session() == st.session && written == old(written) + st.replies
    {
      if verb == "HELO" {
        Helo(argument);
      } else if verb == "NOOP" {
        Noop();
      } else if verb == "QUIT" {
        Quit();
      } else if verb == "MAIL" {
        Mail(argument);
      } else if verb == "RCPT" {
        Rcpt(argument);
      } else if verb == "RSET" {
        Rset();
      } else {
        DataVerb();
      }
    }

    /** `onVerb`. */
    method OnVerb(buffer: string)
      modifies this
      ensures var st := EventSpec.OnVerb(Peer(), old(Session()), buffer);
              Session() == st.session && written == old(written) + st.replies
    {
      if buffer == "" {
        Respond(500, "Error: bad syntax");
        return;
      }
      var split := SplitCommand(buffer);
      var command, argument := split.command, split.argument;
      if !IsVerb(command) {
        armed := VerbReader;
        Respond(502, "Error: command \"" + command + "\" not implemented");
        return;
      }
      if ArgumentRefused(command, argument) {
        armed := VerbReader;
        Respond(501, Usage(command));
      } else {
        Handle(command, argument);
      }
    }

    /**
      `onData`: the lines of the chunk, terminator removed, are unstuffed one
      by one into `currentData`; the mail is emitted with them joined by LF.
    */
    method OnData(buffer: string)
      modifies this, server
      ensures var st := EventSpec.OnData(Peer(), old(Session()), buffer);
              && Session() == st.session && written == old(written) + st.replies
              && server.emitted == old(server.emitted) + [st.mail.value]
    {
      var lines := Lines(StripTerminator(buffer));
      var currentData: seq<string> := [];
      var i := 0;
      while i < |lines|
        invariant 0 <= i <= |lines|
        invariant currentData == MapUnstuff(lines[..i])
      {
        var text := lines[i];
        if |text| > 0 && text[0] == '.' {
          currentData := currentData + [text[1..]];
        } else {
          currentData := currentData + [text];
        }
        assert lines[..i + 1] == lines[..i] + [lines[i]];
        i := i + 1;
      }
      assert lines[..i] == lines;
      server.Emit(IncomingMail(remoteAddress, mailfrom, rcpttos, Join(currentData, "\n")));
      rcpttos := [];
      mailfrom := None;
      Respond(250, "Ok");
      armed := VerbReader;
    }

    /** A `data` event: the armed `once` listener is removed and called. */
    method Receive(buffer: string)
      modifies this, server
      ensures var st := EventSpec.Receive(Peer(), old(Session()), buffer);
              && Session() == st.session && written == old(written) + st.replies
              && server.emitted == old(server.emitted) + Mails(st)
    {
      ghost var s := Session();
      var listener := armed;
      armed := Idle;
      match listener
      case Idle =>
      case VerbReader =>
        assert EventSpec.Receive(Peer(), s, buffer) == EventSpec.OnVerb(Peer(), Session(), buffer);
        OnVerb(buffer);
      case DataReader =>
        assert EventSpec.Receive(Peer(), s, buffer) == EventSpec.OnData(Peer(), Session(), buffer);
        OnData(buffer);
    }
  }
}
