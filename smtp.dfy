/**
  The objects of smtp.js as they change in place: the server, which records
  the `incoming-mail` events it emits, and one `SMTPConnection`, whose
  closure variables and socket output are fields. Every method is specified
  by the function of `LegacySpec` it performs.
*/
module LegacyConnection {
  import opened Text
  import opened LegacyGrammar
  import opened LegacySpec

  /** `SMTPServer`: the `incoming-mail` events emitted so far. */
  class Server {
    var emitted: seq<IncomingMail>

    constructor ()
      ensures emitted == []
    {
      emitted := [];
    }

    method Emit(m: IncomingMail)
      modifies this
      ensures emitted == old(emitted) + [m]
    {
      emitted := emitted + [m];
    }
  }

  /** One `SMTPConnection`. `written` is everything pushed to the socket, in order. */
  class Connection {
    const server: Server
    const hostname: string
    const remoteAddress: string
    var state: int
    var greeting: Option<string>
    var mailfrom: Option<string>
    var rcpttos: seq<string>
    var ended: bool
    var written: seq<string>

    function Session(): Session
      reads this
    {
      LegacySpec.Session(state, greeting, mailfrom, rcpttos, ended)
    }

    function Peer(): Peer {
      LegacySpec.Peer(hostname, remoteAddress)
    }

    /** The closure variables as the constructor leaves them; the host name falls back to `localhost`. */
    constructor (hostname: Option<string>, server: Server, remoteAddress: string)
      ensures this.server == server && this.remoteAddress == remoteAddress
      ensures this.hostname == HostName(hostname)
      ensures Session() == Start && written == []
    {
      this.server := server;
      this.hostname := HostName(hostname);
      this.remoteAddress := remoteAddress;
      state := COMMAND;
      greeting, mailfrom, rcpttos := None, None, [];
      ended := false;
      written := [];
    }

    /** `push(message)`. */
    method Push(message: string)
      modifies this
      ensures Session() == old(Session()) && written == old(written) + [LegacySpec.Push(message)]
    {
      written := written + [message + CRLF];
    }

    /** The `connect` listener. */
    method Connect()
      modifies this
      ensures Session() == old(Session()) && written == old(written) + [Welcome(Peer())]
    {
      Push("220 " + hostname + " node.js SMTP server");
    }

    method Helo(argument: Option<string>)
      modifies this
      ensures var st := LegacySpec.Helo(Peer(), old(Session()), argument);
              Session() == st.session && written == old(written) + st.replies
    {
      if !Truthy(argument) {
        Push("501 Syntax: HELO hostname");
        return;
      }
      if Truthy(greeting) {
        Push("503 Duplicate HELO/EHLO");
      } else {
        greeting := argument;
        Push("250 " + hostname + " Hello " + remoteAddress);
      }
    }

    method Noop(argument: Option<string>)
      modifies this
      ensures var st := LegacySpec.Noop(Peer(), old(Session()), argument);
              Session() == st.session && written == old(written) + st.replies
    {
      if Truthy(argument) {
        Push("501 Syntax: NOOP");
      } else {
        Push("250 Ok");
      }
    }

    method Quit()
      modifies this
      ensures var st := LegacySpec.Quit(Peer(), old(Session()));
              Session() == st.session && written == old(written) + st.replies
    {
      Push("221 " + hostname + " closing connection");
      ended := true;
    }

    method Mail(argument: Option<string>)
      modifies this
      ensures var st := LegacySpec.Mail(Peer(), old(Session()), argument);
              Session() == st.session && written == old(written) + st.replies
    {
      var address := GetAddress("FROM:", argument);
      if !Truthy(address) {
        Push("501 Syntax: MAIL FROM:<address>");
        return;
      }
      if Truthy(mailfrom) {
        Push("503 Error: nested MAIL command");
        return;
      }
      mailfrom := address;
      Push("250 Ok");
    }

    method Rcpt(argument: Option<string>)
      modifies this
      ensures var st := LegacySpec.Rcpt(Peer(), old(Session()), argument);
              Session() == st.session && written == old(written) + st.replies
    {
      if !Truthy(mailfrom) {
        Push("503 Error: need MAIL command");
        return;
      }
      var address := GetAddress("TO:", argument);
      if !Truthy(address) {
        Push("501 Syntax: RCPT TO: <address>");
        return;
      }
      rcpttos := rcpttos + [address.value];
      Push("250 Ok");
    }

    method Rset(argument: Option<string>)
      modifies this
      ensures var st := LegacySpec.Rset(Peer(), old(Session()), argument);
              Session() == st.session && written == old(written) + st.replies
    {
      if Truthy(argument) {
        Push("501 Syntax: RSET");
        return;
      }
      mailfrom := None;
      rcpttos := [];
      state := COMMAND;
      Push("250 Ok");
    }

    method DataVerb(argument: Option<string>)
      modifies this
      ensures var st := LegacySpec.DataVerb(Peer(), old(Session()), argument);
              Session() == st.session && written == old(written) + st.replies
    {
      if |rcpttos| == 0 {
        Push("503 Error: need RCPT command");
        return;
      }
      if Truthy(argument) {
        Push("501 Syntax: DATA");
        return;
      }
      state := DATA;
      Push("354 End data with <CR><LF>.<CR><LF>");
    }

    /** `SMTP[command](argument)`. */
    method Handle(verb: string, argument: Option<string>)
      requires IsCommand(verb)
      modifies this
      ensures var st := LegacySpec.Handle(Peer(), old(Session()), verb, argument);
              Session() == st.session && written == old(written) + st.replies
    {
      if verb == "HELO" {
        Helo(argument);
      } else if verb == "NOOP" {
        Noop(argument);
      } else if verb == "QUIT" {
        Quit();
      } else if verb == "MAIL" {
        Mail(argument);
      } else if verb == "RCPT" {
        Rcpt(argument);
      } else if verb == "RSET" {
        Rset(argument);
      } else {
        DataVerb(argument);
      }
    }

    /** The COMMAND branch of the `data` listener. */
    method Command(buffer: string)
      modifies this
      ensures var st := LegacySpec.Command(Peer(), old(Session()), buffer);
              Session() == st.session && written == old(written) + st.replies
    {
      if buffer == "" {
        Push("500 Error: bad syntax");
        return;
      }
      var split := SplitCommand(buffer);
      if !IsCommand(split.command) {
        Push("502 Error: command \"" + split.command + "\" not implemented");
        return;
      }
      Handle(split.command, split.argument);
    }

    /** The DATA branch: every line of the chunk, unstuffed, goes into `currentData`; the mail is emitted with them joined by LF. */
    method Body(buffer: string)
      modifies this, server
      ensures var st := LegacySpec.Body(Peer(), old(Session()), buffer);
              && Session() == st.session && written == old(written) + st.replies
              && server.emitted == old(server.emitted) + [st.mail.value]
    {
      var lines := Lines(buffer);
      var currentData: seq<string> := [];
      var i := 0;
      while i < |lines|
        invariant 0 <= i <= |lines|
        invariant currentData == MapUnstuff(lines[..i])
      {
        var text := lines[i];
        if |text| > 0 && text[0] == '.' {
          currentData := currentData + [text[1..]];
        } else {
          currentData := currentData + [text];
        }
        assert lines[..i + 1] == lines[..i] + [lines[i]];
        i := i + 1;
      }
      assert lines[..i] == lines;
      server.Emit(IncomingMail(remoteAddress, mailfrom, rcpttos, Join(currentData, "\n")));
      rcpttos := [];
      mailfrom := None;
      state := COMMAND;
      Push("250 Ok");
    }

    /** The `data` listener. */
    method Receive(buffer: string)
      modifies this, server
      ensures var st := LegacySpec.Receive(Peer(), old(Session()), buffer);
              && Session() == st.session && written == old(written) + st.replies
              && server.emitted == old(server.emitted) + Mails(st)
    {
      if state == COMMAND {
        Command(buffer);
      } else if state != DATA {
        Push("451 Internal confusion");
      } else {
        Body(buffer);
      }
    }
  }
}
