# node-smtp-receiver: the per-connection SMTP engine, modelled in Dafny

node-smtp-receiver accepts SMTP connections and turns each one into a stream of
replies and, for every finished transaction, one delivered message made of a
greeting, a sender, recipients and a body. The repository holds three
revisions of that engine, and each is modelled in its own modules:

- **index.js** is the current revision.
  - `SMTPGrammar` is the table of argument shapes, the verb pattern, the
    address pattern and the end-of-data pattern. Its two regular expressions
    are written here as hand-made recognisers and proved equal to the
    pattern, in both directions (`SmtpGrammar`).
  - `SMTPConnection` is stated as pure transitions over a value `Conn`
    (`ReceiverSpec`). It is also written as classes whose methods update
    fields in place and are each proved to perform their transition
    (`Receiver`). The classes are `Server`, `Connection`, and `TlsUpgrade`,
    which is the closure of one `starttls()` call.
  - `ReceiverProps` proves the protocol's promises about the transitions:
    recognition and dispatch order, the envelope rules, the data-phase
    round trip, the one-shot TLS guard and the server counters.
- **smtpevent.js** reads commands through `socket.once`, so each `data`
  event consumes the armed listener.
  - `EventSpec` holds the transitions, with the armed listener as part of
    the state.
  - `EventConnection` is the in-place connection object.
  - `EventProps` holds the properties.
- **smtp.js** has one permanent listener that switches on an integer
  `state`.
  - `LegacySpec`, `LegacyConnection` and `LegacyProps` follow the same
    pattern. The model proves that the `451 Internal confusion` branch
    cannot be reached.

Shared helpers:

- `Text` holds JavaScript string behaviour: truthiness, `||`, ASCII `\s`,
  ASCII `toUpperCase`, `strip`, `split('\r\n')`, `join`, and dot
  transparency.
- `LegacyGrammar` holds `get_address` and the first-space split, which
  smtpevent.js and smtp.js share word for word.

Several things are inputs rather than state:

- Socket input is a sequence of chunks.
- Socket output is the sequence of lines written (`written`, or `replies`
  in the transitions).
- An `incoming`/`incoming-mail` event is a value appended to a sequence.
- The `recipient` listener is an optional synchronous function from an
  address to `Verdict(error, data)`.
- The machine name and `package.json` version are constructor parameters.

Where the prose description of the system and the code differ, the model
follows the code:

- STARTTLS starts an upgrade on any plain socket, even when the server has
  no key and certificate.
- The MAIL nesting test uses truthiness, so a null sender `""` counts as
  unset.
- The verb pattern drops at most one space before the argument.
- QUIT only calls `socket.end()`, which the model records as a flag. index.js
  does not stop processing after it.

## Model

| member | source | states |
|---|---|---|
| Text.Or | index.js:61-63 | `a \|\| fallback`: the value itself when truthy, otherwise the fallback |
| Text.Strip | smtpevent.js:58-60 | `strip` (also smtp.js:41-43); StripShape, StripIdempotent and StripPadded state what it returns |
| Text.StripIdempotent | smtpevent.js:58-60 | `strip` applied twice equals `strip` applied once |
| Text.StripShape | smtpevent.js:58-60 | the input is whitespace, then the stripped text, then whitespace; the stripped text starts and ends with a non-space |
| Text.StripPadded | smtp.js:41-43 | whitespace padding around a stripped core strips back to the core |
| Text.Lines | index.js:377 | `split('\r\n')` always yields at least one piece, and the first piece is a prefix of the input |
| Text.JoinLines | index.js:377 | joining the pieces of `split('\r\n')` with CR LF rebuilds the chunk |
| Text.LinesJoin | smtpevent.js:227 | `split('\r\n')` undoes `join('\r\n')` when no part holds CR LF |
| Text.LinesNoCrlf | index.js:377 | no piece of the split holds CR LF |
| Text.UnstuffStuff | index.js:386 | removing one leading dot undoes dot-stuffing, and a stuffed line is never the lone `.` |
| Text.MapUnstuffStuff | smtp.js:217-224 | unstuffing every line of a stuffed body gives the body back |
| SmtpGrammar.MatchVerb | index.js:28 | the verb pattern as a recogniser; MatchVerbSound and MatchVerbComplete state that it matches exactly the pattern's decompositions |
| SmtpGrammar.MatchVerbSound | index.js:28 | every match of the verb recogniser decomposes the line as the pattern does: whitespace, 4-8 letters (fewer only before a non-letter), an optional space, an argument up to the first line break, trailing whitespace |
| SmtpGrammar.MatchVerbComplete | index.js:28 | every such decomposition is found by the recogniser with the same verb and argument |
| SmtpGrammar.MatchArgumentSound | index.js:28 | after the verb, a match splits the rest into an optional space, an argument without line breaks, and whitespace up to the end |
| SmtpGrammar.MatchArgumentComplete | index.js:28 | every such split is matched, with the argument captured |
| SmtpGrammar.ParseBracketedSound | index.js:30 | after `<` the address runs to the first `>`, and only whitespace may follow that `>` (or nothing at all) |
| SmtpGrammar.ParseBracketedComplete | index.js:30 | every such text yields exactly the address |
| SmtpGrammar.ParseEmailAddress | index.js:243-246 | `parse_email_address`; ParseEmailAddressSound and ParseEmailAddressComplete state that it returns exactly the address the pattern captures, and ReceiverProps.NoOpenBracket that it returns null without `<` |
| SmtpGrammar.ParseEmailAddressSound | index.js:30 | every address returned comes from whitespace, an optional `FROM:`/`TO:` in any case, whitespace, `<`, text without `>`, and then nothing or `>` and whitespace |
| SmtpGrammar.ParseEmailAddressComplete | index.js:243-246 | every argument of that shape is parsed to exactly its captured address |
| SmtpGrammar.KeywordsInterchangeable | index.js:30 | `FROM:` and `TO:` in any case are interchangeable before an address |
| SmtpGrammar.ReplyShape | index.js:253 | a reply is the three digits of its code, one space, the message and CR LF |
| SmtpGrammar.DecimalInjective | index.js:253 | distinct three-digit codes give distinct reply prefixes |
| LegacyGrammar.GetAddress | smtpevent.js:68-81 | the address is present exactly when the argument is truthy and starts with the keyword, compared upper-cased |
| LegacyGrammar.GetAddressNull | smtp.js:51-68 | a null, empty or keyword-less argument gives null |
| LegacyGrammar.GetAddressBracketed | smtpevent.js:68-81 | a keyword in any case, whitespace, `<address>` and whitespace give the address back, and `<>` is kept literally |
| LegacyGrammar.GetAddressOf | smtp.js:59-65 | the same round trip for a keyword written directly before the bracket |
| LegacyGrammar.GetAddressEmpty | smtpevent.js:71-72 | after the keyword, the (falsy) empty address arises exactly when only whitespace follows |
| LegacyGrammar.SplitCommand | smtpevent.js:188-195 | the first-space split (also smtp.js:188-196); SplitCommandLine and SplitBareVerb state its two outcomes |
| LegacyGrammar.SplitCommandLine | smtpevent.js:188-195 | `VERB arg` + CR LF splits into the upper-cased verb and the stripped argument |
| LegacyGrammar.SplitBareVerb | smtp.js:188-191 | a bare verb + CR LF splits into the upper-cased, stripped verb and a null argument |
| ReceiverSpec.Reset | index.js:232-236 | a fresh envelope: null sender, no recipients, no stored data; greeting, socket, phase and ended flag kept |
| ReceiverSpec.Mail | index.js:288-293 | the MAIL handler never delivers a message or starts an upgrade |
| ReceiverSpec.Helo | index.js:269-273 | HELO never delivers a message or starts an upgrade |
| ReceiverSpec.Vrfy | index.js:311-329 | VRFY never delivers a message or starts an upgrade |
| ReceiverSpec.Quit | index.js:339-342 | QUIT never delivers a message or starts an upgrade |
| ReceiverSpec.Initial | index.js:141-175 | the state after the constructor's `reset()` and `setSocket(socket)`; Receiver.Connection.constructor ensures it |
| ReceiverSpec.Validate | index.js:296-309 | the `recipient` emit and the `next(error, data)` it answers, or `next(null, address)` without a listener; ReceiverProps.RcptAccepted, RcptWithoutValidator and VrfyValidated state its use |
| ReceiverSpec.Noop | index.js:347-349 | NOOP never delivers or upgrades; ReceiverProps.NoopLine states its reply |
| ReceiverSpec.Rset | index.js:343-346 | RSET never delivers or upgrades; ReceiverProps.RsetLine states its effect |
| ReceiverSpec.DataVerb | index.js:334-338 | DATA never delivers or upgrades; ReceiverProps.DataLine states its replies |
| ReceiverSpec.Handle | index.js:369 | `this.emit(command, argument)` runs the handler; ReceiverProps.HandleDeliversNothing states what no handler does, and the handler rows what each does |
| ReceiverSpec.Receive | index.js:391-399 | a `data` event goes to `onVerb` or `onData` by phase; ReceiverProps.HandlerLine, BodyDelivered and Transaction state its outcomes |
| ReceiverSpec.Rcpt | index.js:294-310 | RCPT never delivers or upgrades; ReceiverProps.RcptNeedsSender, RcptUnparsable, RcptNullAddressRejected, RcptAccepted and RcptWithoutValidator state every reply |
| ReceiverSpec.Ehlo | index.js:274-287 | EHLO never delivers or upgrades; ReceiverProps.EhloAccepted and DuplicateHello state its replies |
| ReceiverSpec.StartTls | index.js:330-333 | the STARTTLS handler; ReceiverProps.StartTlsLine states its reply and when it upgrades |
| ReceiverSpec.SetSocket | index.js:154-173 | `setSocket`; ReceiverProps.UpgradeResetsGreeting states what the swap changes |
| ReceiverSpec.GuardStep | index.js:193-229 | one error-like or `secure` event on the upgrade guard; ReceiverProps.GuardOneShot states the result of every event order |
| ReceiverSpec.Register | index.js:84-87 | `register`; ReceiverProps.CountersInvariant states what the counters count |
| ReceiverSpec.Unregister | index.js:89-92 | `unregister`; covered by ReceiverProps.CountersInvariant |
| ReceiverSpec.Incoming | index.js:97-100 | the counter part of `incoming`; covered by ReceiverProps.CountersInvariant |
| ReceiverSpec.OnVerb | index.js:355-370 | `onVerb`; ReceiverProps.ShortVerbRejected, TextAfterLineBreakRejected, UnknownVerbRejected, CommandDispatch and OnVerbDeliversNothing state its outcomes |
| ReceiverSpec.OnData | index.js:375-389 | `onData`; ReceiverProps.BodyDelivered, EndLineFound, BodyContinues and BodyAcrossChunks state its outcomes |
| ReceiverSpec.FirstEnd | index.js:378-379 | the index of the first `.` line: no earlier line is `.`, and the line there is `.` unless it is the count of lines |
| ReceiverProps.CommandLineMatches | index.js:28 | `VERB argument` + CR LF is recognised with that verb and argument |
| ReceiverProps.BareCommandMatches | index.js:28 | a bare verb of 4-8 letters + CR LF is recognised with an empty argument |
| ReceiverProps.ArgumentRejected | index.js:28 | a non-space after a line break in the argument defeats the pattern |
| ReceiverProps.HandlerLine | index.js:355-369 | in the command phase a handler verb with an acceptable argument reaches its handler with that argument |
| ReceiverProps.BareHandlerLine | index.js:355-369 | the same for a bare verb, with an empty argument |
| ReceiverProps.ShortVerbRejected | index.js:357-358 | fewer than four leading letters gives `500 Error: bad syntax` and no change |
| ReceiverProps.TextAfterLineBreakRejected | index.js:357-358 | non-whitespace after the first line break gives 500 and no change |
| ReceiverProps.UnknownVerbRejected | index.js:363 | an unknown verb gives `502 Error: command "VERB" not implemented` in upper case, and no change |
| ReceiverProps.ArgumentPolicy | index.js:365-367 | the argument is required for HELO, EHLO, MAIL, RCPT and VRFY, forbidden for NOOP, RSET and DATA, and ignored for QUIT and STARTTLS |
| ReceiverProps.SyntaxTable | index.js:15-25 | which verbs have a truthy, `null` or missing table entry |
| ReceiverProps.SyntaxTextOfMail | index.js:256 | the MAIL 501 hint is `Syntax: MAIL FROM:<address>` |
| ReceiverProps.SyntaxTextOfRcpt | index.js:256 | the RCPT 501 hint is `Syntax: RCPT TO: <address>` |
| ReceiverProps.SyntaxTextsOfHello | index.js:256 | the HELO and VRFY hints name the verb and its shape |
| ReceiverProps.SyntaxTextsWithoutShape | index.js:256 | for NOOP, RSET and DATA the hint names the verb alone |
| ReceiverProps.CommandDispatch | index.js:360-369 | a handler verb in any case gives 501 with the hint when the argument rule is broken, and otherwise reaches its handler |
| ReceiverProps.MissingArgumentRejected | index.js:367 | a verb that needs an argument, sent bare, gives 501 and no change |
| ReceiverProps.ExtraArgumentRejected | index.js:367 | a verb that refuses an argument, sent with one, gives 501 and no change |
| ReceiverProps.NullAddress | index.js:30 | `<>` and `FROM:<>` parse to the empty string |
| ReceiverProps.NoOpenBracket | index.js:243-246 | an argument without `<` parses to null |
| ReceiverProps.BracketedParses | index.js:243-246 | `<address>` after an optional keyword parses back to the address |
| ReceiverProps.MailAccepted | index.js:288-292 | MAIL with a bracketed address and no truthy sender stores the address and answers 250 |
| ReceiverProps.NestedMailRejected | index.js:289 | MAIL while a truthy sender is set gives 503 and no change |
| ReceiverProps.FailedMailClearsSender | index.js:290-291 | a MAIL argument without `<` gives 501 and leaves the sender null, even if it was `""` |
| ReceiverProps.NullSenderIsNotNested | index.js:289-292 | after `MAIL FROM:<>` a second MAIL is accepted and replaces the empty sender |
| ReceiverProps.RcptNeedsSender | index.js:295 | RCPT with a null sender gives 503 and no change |
| ReceiverProps.RcptAccepted | index.js:296-309 | after any non-null sender (even `""`), RCPT of an address gives 553 and no change on a validator error, and otherwise appends the validator's data and answers 250 |
| ReceiverProps.RcptUnparsable | index.js:296-297 | once a sender is set, an argument without `<` gives `501 Syntax: RCPT TO: <address>` and no change |
| ReceiverProps.RcptWithoutValidator | index.js:307-308 | with no `recipient` listener the address itself is appended |
| ReceiverProps.RcptNullAddressRejected | index.js:297 | RCPT of `<>` gives 501 and no change |
| ReceiverProps.VrfyKeepsConnection | index.js:311-329 | VRFY never changes the connection: one reply, no message, no upgrade |
| ReceiverProps.VrfyReadOnly | index.js:311-329 | so no VRFY line changes the connection |
| ReceiverProps.VrfyUnparsable | index.js:315-316 | an argument without `<` gives `504 can only verify full addreses` and no change |
| ReceiverProps.VrfyUnknown | index.js:318-319 | with no listener, VRFY of an address gives 252 |
| ReceiverProps.VrfyValidated | index.js:322-328 | with a listener, an error gives 550, truthy data gives 250 with the data, and anything else gives 252 |
| ReceiverProps.NoopLine | index.js:347-349 | NOOP answers 250 and changes nothing |
| ReceiverProps.QuitLine | index.js:339-342 | QUIT, with any argument, answers 221 with the host name and ends the socket; the envelope is kept |
| ReceiverProps.RsetLine | index.js:343-346 | RSET resets the envelope, keeps the greeting and answers 250; a second RSET changes nothing more |
| ReceiverProps.HeloAccepted | index.js:269-273 | HELO before a greeting records it and answers 250 with the hello message |
| ReceiverProps.EhloAccepted | index.js:274-287 | EHLO records the greeting; its reply is `250-hello` then `250 STARTTLS` exactly when TLS is enabled and the socket is plain, and otherwise one `250 hello` |
| ReceiverProps.DuplicateHello | index.js:270 | a second HELO or EHLO gives 503 and no change |
| ReceiverProps.HelloOnlyOnce | index.js:270-271 | of two greetings, only the first is recorded and the last reply is 503 |
| ReceiverProps.StartTlsLine | index.js:330-333 | STARTTLS answers 220 and starts an upgrade exactly when the socket is not TLS |
| ReceiverProps.UpgradeResetsGreeting | index.js:163 | after the socket swap the greeting is cleared, so EHLO is accepted again without offering STARTTLS, and STARTTLS no longer upgrades |
| ReceiverProps.DataLine | index.js:334-338 | DATA without recipients gives 503 and no change; otherwise it answers 354 and enters the data phase |
| ReceiverProps.BodyDelivered | index.js:375-389 | stuffed body lines, the `.` line and anything after it deliver one message with the stored and new lines joined by LF; the envelope is reset, the command phase resumes, 250 is sent, and the lines after `.` are dropped |
| ReceiverProps.EndLineFound | index.js:378-386 | in such a chunk the `.` line is the first end line, and the lines before it unstuff to the body |
| ReceiverProps.BodyContinues | index.js:386 | a chunk without the `.` line stores its lines unstuffed and sends nothing |
| ReceiverProps.BodyAcrossChunks | index.js:375-389 | a body sent in two chunks arrives as one message holding the lines of both |
| ReceiverProps.GuardOneShot | index.js:192-229 | for any event order, `returned` is set by the first event, the socket is swapped at most once and only if `secure` comes first, and every later `secure` ends the new socket |
| ReceiverProps.CountersInvariant | index.js:82-100 | `total` counts connections made, `current` is made minus closed, `messages` counts messages, and `current <= max <= total` |
| ReceiverProps.Transaction | index.js:268-389 | HELO, MAIL, RCPT, DATA and a body deliver exactly the greeting, peer, sender, recipient and body, and leave a greeted connection with a fresh envelope |
| ReceiverProps.EnvelopeAccepted | index.js:268-338 | the four envelope commands are accepted, deliver nothing, and reach the data phase with the envelope recorded |
| ReceiverProps.GreetAndSender | index.js:269-292 | HELO then `MAIL FROM:<sender>` record the greeting and then the sender, deliver nothing, and change nothing else |
| ReceiverProps.RecipientAndData | index.js:294-338 | without a validator, `RCPT TO:<recipient>` records the recipient and DATA enters the data phase; neither delivers or changes anything else |
| ReceiverProps.OnVerbDeliversNothing | index.js:355-370 | no command line delivers a message |
| ReceiverProps.HandleDeliversNothing | index.js:268-350 | no handler delivers, and only STARTTLS on a plain socket starts an upgrade |
| Receiver.Server.constructor | index.js:58-82 | the host name falls back to the machine name, and the name and version to their defaults; STARTTLS is enabled iff both key and certificate are truthy; counters start at zero |
| Receiver.Server.Register | index.js:84-87 | `current` and `total` go up by one, and `max` is raised to `current` |
| Receiver.Server.Unregister | index.js:89-92 | `current` goes down by one |
| Receiver.Server.Incoming | index.js:97-100 | `messages` goes up by one and the message is emitted after the earlier ones |
| Receiver.Connection.constructor | index.js:127-178 | fresh envelope and no greeting, the socket installed with `onVerb`, `register` called, and the welcome line written |
| Receiver.Connection.Reset | index.js:232-236 | the fields become `ReceiverSpec.Reset` of the old ones, and nothing is written |
| Receiver.Connection.SetSocket | index.js:154-173 | the misspelt guard never fires: the new socket is installed, the greeting cleared and `onVerb` armed |
| Receiver.Connection.Respond | index.js:253 | one reply line is written and nothing else changes |
| Receiver.Connection.ListenForVerbs | index.js:391-394 | the phase becomes the command phase |
| Receiver.Connection.ListenForData | index.js:396-399 | the phase becomes the data phase |
| Receiver.Connection.Helo | index.js:269-273 | performs `ReceiverSpec.Helo`: new fields and appended replies |
| Receiver.Connection.Ehlo | index.js:274-287 | performs `ReceiverSpec.Ehlo` |
| Receiver.Connection.Mail | index.js:288-293 | performs `ReceiverSpec.Mail`, storing the parse result before checking it |
| Receiver.Connection.Rcpt | index.js:294-310 | performs `ReceiverSpec.Rcpt` |
| Receiver.Connection.Vrfy | index.js:311-329 | performs `ReceiverSpec.Vrfy` |
| Receiver.Connection.StartTls | index.js:330-333 | performs `ReceiverSpec.StartTls`, and returns a freshly armed guard exactly when an upgrade starts |
| Receiver.Connection.DataVerb | index.js:334-338 | performs `ReceiverSpec.DataVerb` |
| Receiver.Connection.Quit | index.js:339-342 | performs `ReceiverSpec.Quit` |
| Receiver.Connection.Rset | index.js:343-346 | performs `ReceiverSpec.Rset` |
| Receiver.Connection.Noop | index.js:347-349 | performs `ReceiverSpec.Noop` |
| Receiver.Connection.Emit | index.js:369 | runs the handler of the verb, as `ReceiverSpec.Handle` |
| Receiver.Connection.OnVerb | index.js:355-370 | performs `ReceiverSpec.OnVerb`: 500, 502, 501, then the handler |
| Receiver.Connection.OnData | index.js:375-389 | the loop stores lines unstuffed up to the first `.` line, then hands the message to the server (counted) and resets, as `ReceiverSpec.OnData` |
| Receiver.Connection.Receive | index.js:167 | a `data` event goes to the listener of the phase; the server receives exactly the delivered message |
| Receiver.TlsUpgrade.constructor | index.js:192 | a new guard with `returned` false |
| Receiver.TlsUpgrade.OnError | index.js:193-198 | the first error-like event sets `returned`, and later ones do nothing |
| Receiver.TlsUpgrade.OnSecure | index.js:210-229 | if nothing has happened yet, `secure` swaps the connection's socket; after that it ends the TLS socket and leaves the connection alone |
| EventSpec.Receive | smtpevent.js:114 | a `data` event consumes the `once` listener and runs it; EventProps.IdleIgnoresAll, EmptyChunkStalls and ConnectArmsVerbs state its outcomes |
| EventSpec.Handle | smtpevent.js:208 | `SMTP[command](argument)`; EventProps.RearmPaths states what every handler arms |
| EventSpec.Connect | smtpevent.js:249-253 | the `connect` listener; EventProps.ConnectArmsVerbs states its reply and what it arms |
| EventSpec.OnVerb | smtpevent.js:178-211 | `onVerb` never emits a mail; EventProps.EmptyChunkStalls, LineDispatch and BareDispatch state its outcomes |
| EventSpec.Dispatch | smtpevent.js:197-208 | the verb check, the argument check, then the handler; EventProps.UnknownVerb, RefusedArgument, EhloNotImplemented and ArgumentTable state it |
| EventSpec.OnData | smtpevent.js:216-246 | `onData`; EventProps.BodyDelivered, TerminatorStripped and EndLineInsideChunk state its outcomes |
| EventSpec.Helo | smtpevent.js:107-115 | HELO emits no mail; EventProps.DuplicateHelo and FirstHelo state its replies and greeting, RearmPaths its re-arm |
| EventSpec.Noop | smtpevent.js:116-119 | NOOP emits no mail; EventProps.RearmPaths states that it re-arms `onVerb` |
| EventSpec.Quit | smtpevent.js:120-123 | QUIT emits no mail; EventProps.QuitIgnoresArgument states its reply |
| EventSpec.Mail | smtpevent.js:124-141 | MAIL emits no mail; EventProps.MailSyntaxFirst, MailAccepted and NestedMail state its replies |
| EventSpec.Rcpt | smtpevent.js:142-157 | RCPT emits no mail; EventProps.RcptNeedsSender, RcptBadAddress and RcptAccepted state its replies |
| EventSpec.Rset | smtpevent.js:158-164 | RSET emits no mail; EventProps.RsetClears states its effect |
| EventSpec.DataVerb | smtpevent.js:165-172 | DATA emits no mail; EventProps.DataReplies states its replies and RearmPaths when it arms `onData` |
| EventProps.ConnectArmsVerbs | smtpevent.js:249-253 | `connect` writes `220 host node.js smtpevent server version`, and the next chunk is read by `onVerb` against the unchanged session |
| EventProps.IdleIgnoresAll | smtpevent.js:114-172 | with no listener armed, every later chunk is ignored: no reply, no mail, no change |
| EventProps.EmptyChunkStalls | smtpevent.js:181-184 | an empty chunk gives 500 and arms nothing, so the connection never reads again |
| EventProps.RearmPaths | smtpevent.js:114-171 | `onVerb` is re-armed exactly after HELO, NOOP, RSET, and MAIL or RCPT answered 250; `onData` exactly after DATA with recipients |
| EventProps.LineDispatch | smtpevent.js:188-195 | a line with a space is dispatched on the upper-cased verb and the stripped argument |
| EventProps.BareDispatch | smtpevent.js:189-191 | a bare line is dispatched on the stripped, upper-cased verb and a null argument |
| EventProps.ArgumentTable | smtpevent.js:41-49 | HELO, MAIL and RCPT refuse a falsy argument, NOOP, RSET and DATA a truthy one, and QUIT neither |
| EventProps.RefusedArgument | smtpevent.js:203-206 | a refused argument gives `501 Syntax…` and re-arms `onVerb` |
| EventProps.UnknownVerb | smtpevent.js:197-200 | an unknown verb gives 502 and re-arms `onVerb` |
| EventProps.EhloNotImplemented | smtpevent.js:41-49 | EHLO is unknown to this revision: 502 |
| EventProps.QuitIgnoresArgument | smtpevent.js:120-123 | QUIT with any argument answers 221 and ends the socket |
| EventProps.DuplicateHelo | smtpevent.js:108-109 | a second HELO gives 503 and keeps the first greeting |
| EventProps.FirstHelo | smtpevent.js:107-115 | a first HELO with a hostname records it as the greeting, gives 250 `<hostname> Hello <remoteAddress>` and re-arms `onVerb`, emitting no mail |
| EventProps.MailSyntaxFirst | smtpevent.js:128-131 | MAIL with an empty address gives 501 whatever the sender, and arms nothing |
| EventProps.MailAccepted | smtpevent.js:124-141 | MAIL FROM with a bracketed address records it (`<>` literally) and re-arms |
| EventProps.NestedMail | smtpevent.js:132-135 | MAIL with a usable address while a sender is set gives 503 and arms nothing |
| EventProps.RcptNeedsSender | smtpevent.js:144-147 | RCPT without a truthy sender gives 503 and arms nothing |
| EventProps.RcptBadAddress | smtpevent.js:148-152 | RCPT with an empty address gives 501 and arms nothing |
| EventProps.RcptAccepted | smtpevent.js:148-156 | RCPT TO with a bracketed address appends it and re-arms |
| EventProps.RsetClears | smtpevent.js:158-164 | RSET clears sender and recipients, keeps the greeting, answers 250 and re-arms; with an argument it gives 501 |
| EventProps.DataReplies | smtpevent.js:165-172 | DATA with an argument gives the 501 hint and re-arms `onVerb`; without recipients `503 Error: need RCPT command` and nothing armed; otherwise `354 End data with <CR><LF>.<CR><LF>` and `onData` armed |
| EventProps.BodyDelivered | smtpevent.js:216-246 | stuffed lines plus `\r\n.\r\n` in one chunk deliver the lines joined by LF; the envelope is cleared, 250 sent and `onVerb` armed |
| EventProps.BodyLines | smtpevent.js:227 | splitting the joined, stuffed body on CR LF gives back the stuffed lines |
| EventProps.TerminatorStripped | smtpevent.js:223 | exactly one trailing terminator is removed |
| EventProps.EndLineInsideChunk | smtpevent.js:223-235 | a `.` line inside the chunk does not end the message: it becomes an empty line, and the text after it stays in the body |
| EventSpec.StripTerminator | smtpevent.js:223 | the result is a prefix of the chunk |
| EventConnection.Server.constructor | smtpevent.js:35 | the version is `0.0.2` |
| EventConnection.Connection.constructor | smtpevent.js:86-91 | the host name falls back to `localhost`; no greeting, sender or recipients, and nothing armed |
| EventConnection.Connection.Respond | smtpevent.js:98 | one `code message CRLF` line is written and nothing else changes |
| EventConnection.Connection.Connect | smtpevent.js:249-253 | performs `EventSpec.Connect`: the welcome line, then `onVerb` armed |
| EventConnection.Connection.Helo | smtpevent.js:107-115 | performs `EventSpec.Helo` |
| EventConnection.Connection.Noop | smtpevent.js:116-119 | performs `EventSpec.Noop` |
| EventConnection.Connection.Quit | smtpevent.js:120-123 | performs `EventSpec.Quit` |
| EventConnection.Connection.Mail | smtpevent.js:124-141 | performs `EventSpec.Mail` |
| EventConnection.Connection.Rcpt | smtpevent.js:142-157 | performs `EventSpec.Rcpt` |
| EventConnection.Connection.Rset | smtpevent.js:158-164 | performs `EventSpec.Rset` |
| EventConnection.Connection.DataVerb | smtpevent.js:165-172 | performs `EventSpec.DataVerb` |
| EventConnection.Connection.Handle | smtpevent.js:208 | runs the handler of the verb, as `EventSpec.Handle` |
| EventConnection.Connection.OnVerb | smtpevent.js:178-211 | performs `EventSpec.OnVerb` |
| EventConnection.Connection.OnData | smtpevent.js:216-246 | the loop unstuffs each line of the stripped chunk; the mail is emitted, as `EventSpec.OnData` |
| EventConnection.Connection.Receive | smtpevent.js:114 | a `data` event consumes the armed listener and runs it; the emitted mails are those of `EventSpec.Receive` |
| LegacySpec.Push | smtp.js:162-164 | a line is the message and CR LF; LegacyConnection.Connection.Push writes it |
| LegacySpec.Welcome | smtp.js:169 | the `connect` welcome line; LegacyConnection.Connection.Connect writes it |
| LegacySpec.Receive | smtp.js:172-236 | the `data` listener; LegacyProps.StateStaysValid, NeverConfused, ConfusedOutsideStates and EmptyCommand state its outcomes |
| LegacySpec.Body | smtp.js:214-234 | the DATA branch; LegacyProps.TerminatorKept states what it delivers |
| LegacySpec.Helo | smtp.js:74-85 | one non-4xx reply, `state` kept, no mail; LegacyProps.HeloNeedsArgument and HeloReplies state its replies and greeting in check order |
| LegacySpec.Noop | smtp.js:86-92 | one non-4xx reply, `state` kept, no mail; LegacyProps.ArgumentRefused states the 501 |
| LegacySpec.Quit | smtp.js:93-97 | one non-4xx reply, `state` kept, no mail; LegacyProps.QuitIgnoresArgument states its effect |
| LegacySpec.Mail | smtp.js:98-114 | one non-4xx reply, `state` kept, no mail; LegacyProps.MailSyntaxFirst and MailAccepted state its replies |
| LegacySpec.Rcpt | smtp.js:115-129 | one non-4xx reply, `state` kept, no mail; LegacyProps.RcptAccepted states its replies |
| LegacySpec.Handle | smtp.js:73-154 | each handler writes one line, never a 4xx one, and leaves `state` as it was or sets COMMAND or DATA |
| LegacySpec.Command | smtp.js:181-206 | the COMMAND branch never emits a mail |
| LegacySpec.Rset | smtp.js:130-140 | RSET leaves `state` unchanged (when refused) or sets COMMAND |
| LegacySpec.DataVerb | smtp.js:141-153 | DATA leaves `state` unchanged or sets DATA; LegacyProps.DataOrder states its replies |
| LegacyProps.StateStaysValid | smtp.js:181-235 | from COMMAND or DATA, a chunk leaves `state` at COMMAND or DATA and never gets 451 |
| LegacyProps.HandleKeepsState | smtp.js:73-154 | no handler answers `451 Internal confusion` or moves `state` outside COMMAND and DATA |
| LegacyProps.NeverConfused | smtp.js:210-213 | from a valid state, no sequence of chunks ever gets `451 Internal confusion` |
| LegacyProps.ConfusedOutsideStates | smtp.js:210-213 | any other `state` gives 451 and changes nothing |
| LegacyProps.EmptyCommand | smtp.js:183-186 | in COMMAND state an empty chunk gives 500 and no change |
| LegacyProps.CommandLine | smtp.js:188-203 | a line with an argument reaches the handler of its upper-cased verb |
| LegacyProps.UnknownCommand | smtp.js:198-202 | an unknown verb gives 502 and no change |
| LegacyProps.HeloNeedsArgument | smtp.js:75-78 | HELO without an argument gives `501 Syntax: HELO hostname` before the duplicate check |
| LegacyProps.HeloReplies | smtp.js:74-85 | HELO with a hostname gives 503 and keeps the session when a greeting is recorded, otherwise records the hostname and gives 250 `<hostname> Hello <remoteAddress>`; `state` kept, no mail |
| LegacyProps.ArgumentRefused | smtp.js:86-92 | NOOP and RSET with an argument give 501 and no change |
| LegacyProps.QuitIgnoresArgument | smtp.js:93-97 | QUIT ignores its argument and ends the socket |
| LegacyProps.MailSyntaxFirst | smtp.js:102-105 | MAIL with an empty address gives 501 whatever the sender |
| LegacyProps.MailAccepted | smtp.js:98-114 | with a truthy sender MAIL gives 503; otherwise it records the bracketed address (`<>` literally) and answers 250 |
| LegacyProps.RcptAccepted | smtp.js:115-129 | without a sender RCPT gives 503; otherwise it appends the bracketed address and answers 250 |
| LegacyProps.RsetClears | smtp.js:130-140 | RSET clears sender and recipients, sets COMMAND, keeps the greeting and answers 250 |
| LegacyProps.DataOrder | smtp.js:141-153 | "no recipients" (503) is checked before "has an argument" (501); when both pass, `state` becomes DATA and `354 End data with <CR><LF>.<CR><LF>` is sent, and only then |
| LegacyProps.TerminatorKept | smtp.js:214-234 | stuffed lines (none at all included) plus `\r\n.\r\n` deliver the lines joined by LF and then `\n\n`; the envelope is cleared, `state` is COMMAND and 250 is sent |
| LegacyProps.UnstuffTerminated | smtp.js:217-224 | unstuffing gives the body back, and the `.` line becomes empty |
| LegacyProps.TerminatedLines | smtp.js:216 | splitting stuffed lines plus the terminator gives them back, followed by `.` and an empty piece |
| LegacyConnection.Connection.constructor | smtp.js:23-32 | the host name falls back to `localhost`; the state is COMMAND with an empty envelope |
| LegacyConnection.Connection.Push | smtp.js:162-164 | one line plus CR LF is written and nothing else changes |
| LegacyConnection.Connection.Connect | smtp.js:167-170 | writes the welcome line |
| LegacyConnection.Connection.Helo | smtp.js:74-85 | performs `LegacySpec.Helo` |
| LegacyConnection.Connection.Noop | smtp.js:86-92 | performs `LegacySpec.Noop` |
| LegacyConnection.Connection.Quit | smtp.js:93-97 | performs `LegacySpec.Quit` |
| LegacyConnection.Connection.Mail | smtp.js:98-114 | performs `LegacySpec.Mail` |
| LegacyConnection.Connection.Rcpt | smtp.js:115-129 | performs `LegacySpec.Rcpt` |
| LegacyConnection.Connection.Rset | smtp.js:130-140 | performs `LegacySpec.Rset` |
| LegacyConnection.Connection.DataVerb | smtp.js:141-153 | performs `LegacySpec.DataVerb` |
| LegacyConnection.Connection.Handle | smtp.js:203 | runs the handler of the verb, as `LegacySpec.Handle` |
| LegacyConnection.Connection.Command | smtp.js:181-206 | performs `LegacySpec.Command`: 500, 502, then the handler |
| LegacyConnection.Connection.Body | smtp.js:214-234 | the loop unstuffs every line of the chunk; the mail is emitted, as `LegacySpec.Body` |
| LegacyConnection.Connection.Receive | smtp.js:172-236 | COMMAND, then 451 for any other state except DATA, then DATA; the emitted mails are those of `LegacySpec.Receive` |

## Left out

- Sockets, `net.Server`, listening, and the `connection`/`connect`/`close` event wiring are not modelled.
  - Input is a sequence of chunks, and output is the sequence of lines written.
  - Each chunk is taken as given. A command split across two chunks, or two commands in one chunk, behave as the code does on that exact chunk.
- Buffer decoding is not modelled: `buffer.toString()` is the chunk as characters.
- `unregister` on `close` is modelled as a method, but the `close` wiring and `delete this` are not.
- TLS internals are not modelled: `tls.TLSSocket`, `createSecureContext`, `SNICallback`, the SHA-1 `sessionIdContext` and `tlsOptions`.
  - The upgraded socket is a transport flagged `encrypted`.
  - All five error-like events and the old socket's `error` are one `Failure` event of the guard.
- The event emitter is not modelled.
  - Handlers are called directly.
  - The `recipient` listener is an optional synchronous function, so a continuation that is late, repeated or never called is not modelled.
  - `listenerCount` greater than zero is "a validator is present".
- Logging, `log_stats`, the random connection id, `createServer` and the `listening` log line are left out, because they produce no protocol output.
- `socket.end()` is a flag. Whether a socket delivers data after it ends is socket behaviour, so no revision's model stops there.
- Implicit globals are not modelled across connections. Each model holds one connection.
  - smtp.js assigns `SMTP` (smtp.js:73) without `var`. Every connection's `data` listener therefore calls the handlers of the most recently built connection, which read that connection's session and push to its socket. The model gives each connection its own handlers, so this cross-talk is not captured.
  - smtp.js also assigns `address` (smtp.js:121) without `var`. smtpevent.js does the same with `address` (smtpevent.js:148) and `expected` (smtpevent.js:203). Each of these is written and read back within one synchronous call, so sharing them has no observable effect.
  - index.js assigns `server` (index.js:120), `verb` (index.js:145) and `socketOptions` (index.js:187) without a declaration. `createServer` returns `server` straight away, the `verb` loop binds each handler as it goes, and `socketOptions` is used within the same `starttls` call, so none of them has an observable effect.
- smtpevent.js: whether an accepted server socket emits `connect` (the only place `onVerb` is first armed) is socket-library behaviour. `Connect` is an operation the caller invokes.
- index.js: `options.key` on a null `options` would throw. The constructor takes the option values already read.
- `\s` is ASCII whitespace (space, tab, LF, VT, FF, CR), and `toUpperCase` is ASCII. Unicode whitespace and case mapping are not modelled. The regular-expression `.` is taken to exclude only CR and LF, so input is assumed free of U+2028 and U+2029, which `.` also does not match.
- server.js and the Python tests are not part of this model.
- ReceiverProps.SyntaxTextsOfHello: the EHLO 501 hint is not stated as a literal string. It is covered through `ArgumentPolicy` and `SyntaxTable`.
