# IPK24-CHAT client: a verified model

The repository is a chat client for the IPK24-CHAT protocol in two variants: UDP, where the client itself
must retransmit, confirm and drop repeated datagrams, and TCP, where it must cut lines out of a byte stream.
This project models both session machines, both wire formats and the parser of user lines, and proves what
they keep over every run.

## How the model is laid out

| files | contents |
|---|---|
| `Chat`, `UserLine`, `Messages` | shared vocabulary; the parser of user lines as a loop that branches on a type it changes, and the table of commands it computes; the class the loop works on |
| `UdpWire`, `UdpMessages` | the datagram format, its round trips, and the message class with its growing output buffer |
| `UdpSession` | the UDP client as one flat state machine; the poll loop, the retransmission loop nested in it and the wait for the confirmation of BYE are its control locations |
| `UdpInvariants`, `UdpGate`, `UdpTurns` | what every turn keeps, and what one turn can change |
| `UdpTheorems`, `UdpStopAndWait`, `UdpPorts`, `UdpMemory`, `UdpLines`, `UdpNumbers`, `UdpLimits` | whole-run theorems: requests and authentication, stop and wait, the port switch, remembered ids, every datagram sent, the numbers, bounds and the wedged wait |
| `UdpDelivery`, `UdpAnswers`, `UdpRuns` | end-to-end delivery, the exact answer to every other event, and concrete runs on which the code falls short |
| `UdpClients` | the client as the program is written, an object with nested loops, proved to follow the flat machine |
| `TcpWire`, `TcpMessages`, `TcpSession`, `TcpTheorems`, `TcpLines`, `TcpCases`, `TcpDelivery`, `TcpAnswers`, `TcpRuns`, `TcpClients` | the same for TCP, with the in-place buffer and the byte-by-byte receive loop |

Each client exists twice: as a class whose methods update its fields, with the loops of the source, and as
a flat machine on values (`Step`, `Run`). `UdpClient.StartUdpChat` and `TcpClient.StartTcpChat` prove that
the object is, after the turns it consumed, exactly where the machine is, so every theorem about `Run` is a
theorem about the object. Many proof bodies start with `hide`, which only keeps irrelevant definitions away
from the solver.

**The environment** is a script. One `Turn` is what the outside does in one iteration of whichever loop
runs: what `poll` reports, what the receive yields (a datagram with its source port, a timeout, or a
failure), what `getline` yields. Nothing is assumed about it: datagrams are arbitrary bytes that may be
lost, repeated or reordered. The bit that `poll` reports for standard input is kept between calls, because
with `nfds` equal to 1 it is not refreshed; its initial value is arbitrary. An empty datagram leaves the
program looking at an old `errno`, so it behaves as one of the other two outcomes. Bytes are characters below
256. For TCP the connection is the string of bytes the server sends before it closes. `exit_program` does
not return in the source; here it clears `running` and its callers stop.

## Where the code differs from what it promises

- The destination port is meant to become the port of the server's REPLY (README.md:102). Any REPLY that
  arrives while the AUTH is pending switches it, whatever request it answers: `UdpRuns.ForeignReplyTakesPort`.
  And a REPLY that arrives before the CONFIRM of the AUTH is received by the retransmission loop, which does not
  record its port; the client then talks to port 65535: `UdpRuns.EarlyReplyLosesServer`. `UdpPorts.PortTurn` says
  exactly when the port changes and to what, `UdpPorts.OpeningPort` exactly when an opened session talks to the
  port of the REPLY that opened it.
- The retransmission loop is meant to be left on the right CONFIRM (README.md:114). It does not remove the
  confirmed id from the queue, so a repeated CONFIRM clears the pending mark of a later wait, which then cannot
  be left any more: `UdpRuns.RepeatedConfirmWedges`, `UdpLimits.WedgedForever`. A wait is safe from that exactly
  when its id is the head of the queue as it begins: `UdpLimits.WaitSafeExact`.
- User input is meant to be blocked while an answer is outstanding (README.md:111). It is, except at a
  wake-up of `poll` without POLLIN on the socket while an old bit of standard input is set:
  `UdpTurns.GateExact`, `TcpTheorems.GateExact`. Requests and replies stay paired exactly as long as no second
  request slips through there: `RequestPairing` and `StaleBitBreaksPairing` of both variants. After a second AUTH
  the REPLY to the first one opens the session (`UdpRuns.OlderAuthOpens`); `UdpTheorems.OpeningAuth` says exactly
  when it is the reply to the last one.
- Stop and wait fails exactly when a wait ends in a failed receive and the user's next message is sent before the
  missing CONFIRM is received: `UdpStopAndWait.StopAndWaitExact`, `UdpRuns.FailedReceiveBreaksStopAndWait`.
- An ERR that arrives during a wait in the open state is shown twice (`UdpDelivery.ErrEndsSession`), and BYE
  ends the UDP client with the exit code of a failure, the TCP client with success (`ByeEndsSession` of both).
- A repeated datagram is dropped without confirming it again: `UdpDelivery.RepeatDropped`.
- The id of every received message is meant to be remembered (README.md:117). `UdpMemory.RememberedTurn` says
  exactly which are: new messages that decode, outside the start state, to a REPLY or, in the open state, to a
  MSG. While the session goes on, a new message is forgotten exactly when, in the authentication state, it is a
  REPLY of fewer than eight bytes, or a BYE received by the retransmission loop: `UdpMemory.ForgottenExact`,
  `UdpRuns.ShortReplyForgotten`, `UdpRuns.ByeForgotten`. At-most-once delivery still holds: `UdpLimits.DeliveredOnce`.
- A UDP REPLY with empty content is taken for an invalid message, and a MSG or ERR whose name and content
  together have fewer than two bytes for an ERR: `UdpWire.ReplyRoundTrip`, `UdpWire.TextRoundTrip`.
- The TCP decoder takes the first "is" of a line in any letter case as the keyword, so a display name that
  contains it garbles the message: `TcpWire.TextLineRoundTrip`. A REPLY whose content is blank is
  refused: `TcpWire.ReplyRoundTrip`.
- `/rename` validates its argument as an id, not as a display name (README.md:70): `UserLine.CheckIsGrammar`.
- An `/auth` that is refused in the open state still renames the user: `NameTurn` in `UdpLines` and `TcpLines`
  says exactly when the name changes, `RefusedAuthRenames` in `UdpRuns` and `TcpRuns` is such an input.
- A line that cannot be sent is meant to be refused with a message on the console (README.md:186). Blank lines and
  chat that is too long or not printable are sent, in the open state, as empty messages: `LineSent` in `UdpLines`
  and `TcpLines` says exactly when a message is empty, `BlankLineSent` in `UdpRuns` and `TcpRuns` is such an input.
- Every line of the TCP client is meant to be of the grammar. When a message of the server arrives before the user
  has chosen a display name, the client sends an ERR without one, which is not; in all other runs every line is:
  `TcpLines.GrammarExact`, `TcpRuns.NamelessErrSent`.

## Model

| member | source | states |
|---|---|---|
| UdpStopAndWait.StopAndWaitExact | clients.cpp:336-380 | For every run: any two user messages have a CONFIRM with the id of the earlier one received between them, whatever stale or repeated CONFIRMs arrive, if and only if no message whose wait ended in a failed receive with its CONFIRM missing is followed by another user message before a datagram confirming it is received. |
| UdpStopAndWait.StopAndWaitSafety | clients.cpp:336-380 | In particular over every run in which no receive of the retransmission loop fails; then the poll loop never runs with a CONFIRM missing. |
| UdpStopAndWait.MonitorDecides | clients.cpp:366-376 | The stop-and-wait monitor reports a violation exactly when some user message was sent before an earlier one was confirmed; while it waits there is an unconfirmed message, and every unconfirmed message carries the id it waits for. |
| UdpStopAndWait.WaitStep | clients.cpp:345-376 | One turn keeps the discipline of the wait if and only if it is not a failed receive in the retransmission loop with the CONFIRM still missing. |
| UdpStopAndWait.TurnMonitored | clients.cpp:345-376 | What one turn of either loop does to the missing CONFIRM: sending a line asks for one, exactly a datagram confirming the id settles it; and the retransmission loop ends in the poll loop only by that CONFIRM or a failed receive. |
| UdpTheorems.RequestPairing | clients.cpp:424-459 | At all points of a run the queue of requests is exactly the pending AUTH or JOIN, and requests sent are replies printed plus the pending one, if and only if no turn takes a second request through the stale bit of poll. |
| UdpTheorems.GateStep | clients.cpp:550-566 | One turn keeps that pairing if and only if it is not such a turn; and it enters the open state only by a positive REPLY to the most recently sent AUTH. |
| UdpTheorems.FifoStep | clients.cpp:424-459 | With no assumption on the turn: the queue stays a suffix of the requests sent, every earlier request has one printed reply, no chat message was sent before the open state, and that state is entered only by a positive REPLY to the head of the queue. |
| UdpTheorems.AuthenticationSafety | clients.cpp:391-441 | Over every run, each entry to the open state is by a REPLY_OK with a reply pending whose RefID is the oldest unanswered AUTH, a session in the open state entered it in some turn, and before that no JOIN, MSG or blank line was sent. |
| UdpTheorems.OpeningAuth | clients.cpp:432-437 | The RefID of the opening REPLY is the id of the most recently sent AUTH if and only if the head of the queue is also its last id; that holds in every run without a second request. |
| UdpTurns.GateExact | clients.cpp:550-612 | While an answer is outstanding, in whichever loop, a line of the user is consumed if and only if poll wakes up without POLLIN on the socket while the bit of standard input is still set from before. |
| UdpTurns.SubmitDoes | clients.cpp:632-677 | What a parsed line does to both queues, the flags, the state, the numbers and the missing CONFIRM: a message that is sent puts its id at the end of the queue of ids, a request also at the end of the queue of requests, and one that is not sent changes neither queue nor the log. |
| UdpTurns.SubmitAsks | clients.cpp:635-677 | Which parsed lines are sent, and which of them are requests: /auth before the open state, /join in it. |
| UdpInvariants.StepInv | clients.cpp:382-534 | One turn of any loop keeps the invariant: names, at-most-once, numbering and the queue of ids, the language of messages and the faithful copy being retransmitted. |
| UdpInvariants.RunInv | clients.cpp:537-680 | The invariant holds after any number of turns. |
| UdpInvariants.HandleInv | clients.cpp:382-534 | fsm_logic_handler keeps the invariant on any datagram, first or repeated. |
| UdpInvariants.ReceiveInv | clients.cpp:566-606 | The poll loop's checks and answers to an unexpected datagram keep the invariant. |
| UdpInvariants.SubmitInv | clients.cpp:628-677 | A parsed line keeps the invariant, sent or not. |
| UdpGate.HandleEffect | clients.cpp:382-534 | Handling a datagram sends no user message, changes the port only by the one-shot switch, takes a pending request off the queue only together with printing its reply, and opens the session only by an answered REPLY_OK. |
| UdpGate.ReceiveEffect | clients.cpp:566-609 | The same for a datagram received in the poll loop. |
| UdpLimits.DeliveredOnce | clients.cpp:384-386 | Over every run, under any loss, repetition or reordering, no id is handled twice, no MSG is shown and no REPLY printed twice, and while the client runs the CONFIRMs it sent are exactly the handled ids in order. |
| UdpLimits.IdDiscipline | clients.cpp:623-672 | Over every run the client's own messages are numbered with strictly increasing counters, hence have distinct ids while the counter fits 16 bits; their types form a word of AUTH* (JOIN or MSG)* [ERR] [BYE]; every retransmission equals the last user message; the queue of ids is a suffix of the ids of the user messages sent. |
| UdpLimits.NameDiscipline | clients.cpp:628-630 | The display name is empty or 1 to 20 printable characters, non-empty once an AUTH was sent, and the port switch has happened in the open state. |
| UdpLines.WireOfRun | messages.cpp:276-352 | Over every run, every datagram sent starts with the type of its message and its number in network byte order, and goes on with exactly the fields of its type, which splitting at NUL reads back: non-empty parameters of their patterns in AUTH, JOIN and MSG, a valid or empty name in ERR, nothing in BYE and CONFIRM; only a MSG or a blank line may be an empty datagram. |
| UdpLines.WireCodes | messages.hpp:17-23 | The first byte of every datagram sent is 2, 3, 4, 254, 255 or 0 for AUTH, JOIN, MSG, ERR, BYE and CONFIRM, and the next two are its number modulo 65536, high byte first. |
| UdpLines.HeaderCodes | messages.cpp:354-387 | A received datagram of three bytes or more is a CONFIRM, REPLY, MSG, ERR or BYE exactly if its first byte is 0, 1, 4, 254 or 255, and its next two are read as its RefID or id; anything else is invalid. |
| UdpNumbers.NumberTurn | clients.cpp:632-634 | In a turn the counter grows by one if a line is taken that is blank, a good /auth, a good /join or chat, in every state and whether or not it is sent, by one more for an ERR sent, and not otherwise; BYE is sent under the number it then has. |
| UdpNumbers.NumbersOfRun | clients.cpp:323-334 | Over every run, the counter is the number of such lines and of ERRs so far, and while BYE waits for its confirmation it is the last message sent, under that number. |
| UdpNumbers.NumberOfMessage | clients.cpp:623-634 | Over every run, while the client runs, the number that the next message of the user gets is the count of the lines taken before it that take one. |
| UdpLines.LineSent | clients.cpp:632-677 | A line that is sent leaves as one datagram under the current number, which is what is then waited for and repeated; it is empty if and only if the line is blank or is chat that is too long or not printable. |
| UdpLines.NameTurn | clients.cpp:628-630 | The display name after a turn is that of a good /auth or /rename if such a line was taken, in any state and whether or not it was sent, and otherwise the old one. |
| UdpMemory.RememberedTurn | clients.cpp:419-525 | The list of handled ids grows in a turn if and only if a new message arrives that decodes, outside the start state, to a REPLY or, in the open state, to a MSG; then by its id, at the end. |
| UdpMemory.ForgottenExact | clients.cpp:391-463 | A new message with an id is not remembered although the session goes on if and only if, in the authentication state, it is a REPLY of fewer than eight bytes or a BYE received by the retransmission loop. |
| UdpMemory.RememberedRun | clients.cpp:384-386 | Over every run, the list holds exactly the ids that some earlier turn remembered. |
| UdpMemory.RepeatsOfRun | clients.cpp:384-386 | Over every run, a message with an id that some earlier turn remembered changes nothing and is not answered, and one with any other id is not taken for a repetition. |
| UdpAnswers.TimeoutTurn | clients.cpp:348-363 | A timeout of the retransmission loop, exactly: below the limit the same bytes are sent again to the current port and the count grows, at the limit BYE is sent under the current number and the client leaves with failure; nothing else changes. |
| UdpAnswers.ReleaseTurn | clients.cpp:371-376 | The awaited CONFIRM returns to the poll loop and clears the mark; its id stays in the queue. |
| UdpAnswers.OtherConfirm | clients.cpp:409-417 | Any other CONFIRM outside the start state, in either loop, takes its id off the head of the queue and clears the mark if it is there, and otherwise does nothing. |
| UdpAnswers.FarewellTurn | main.cpp:44-69 | In the wait for the confirmation of BYE the program exits with its code if and only if the receive fails, a timeout finds the limit reached, or the CONFIRM for the number of the counter arrives; a timeout below the limit is counted, any other datagram dropped, nothing sent. |
| UdpAnswers.FarewellRun | main.cpp:44-69 | Over every run the client still waits there if and only if no turn so far ended the wait. |
| UdpAnswers.FarewellOfRun | main.cpp:64-67 | Over every run a datagram ends that wait if and only if it is a CONFIRM for the number of the last message sent, which is the BYE. |
| UdpAnswers.IdleTurn | clients.cpp:559-618 | A turn of the poll loop with neither datagram nor line: the end of the input sends BYE and leaves with failure, a failing poll or receive leaves with failure at once, and otherwise nothing happens. |
| UdpAnswers.WatchTurn | clients.cpp:554-559 | The bit of standard input takes a new value if and only if poll succeeds with no answer outstanding. |
| UdpAnswers.RefusedTurn | clients.cpp:622-671 | A line that is not sent changes the name and the counter at most, and sends nothing. |
| UdpAnswers.StartAnswered | clients.cpp:591-596 | In the start state a new MSG, REPLY or BYE, or a CONFIRM, is answered with a CONFIRM, ERR and BYE; for a CONFIRM that CONFIRM carries id 65535. |
| UdpAnswers.ByeBeforeOpen | clients.cpp:598-604 | A new BYE in the authentication state is answered with its CONFIRM, ERR and BYE by the poll loop, and ignored by the retransmission loop. |
| UdpAnswers.UnmatchedReply | clients.cpp:419-460 | A new REPLY that answers no pending request is remembered and confirmed, not printed, and changes nothing else but, in the authentication state with a reply pending, an open port switch. |
| UdpAnswers.ShortReplyAnswered | messages.cpp:408-413 | A new REPLY of fewer than eight bytes is ignored in the authentication state and answered with a CONFIRM under the own counter, ERR and BYE in the open state. |
| UdpAnswers.ShortTextAnswered | messages.cpp:433-439 | A new MSG or ERR of fewer than seven bytes is confirmed, answered with BYE and not shown; before the open state the poll loop answers such a MSG with ERR as well. |
| UdpLimits.WaitTurn | clients.cpp:348-363 | One receive of the retransmission loop: a timeout below the limit repeats the same bytes and counts, the timeout at the limit gives up, and nothing else changes the count. |
| UdpLimits.BoundedRetransmission | clients.cpp:341-363 | During one wait, with any other datagrams in between, the message is repeated byte for byte once per timeout, at most max times, and a timeout gives up exactly when max repetitions were made. |
| UdpLimits.BoundedFarewell | main.cpp:44-70 | The wait for the confirmation of BYE sends nothing further and survives at most max timeouts. |
| UdpPorts.PortTurn | clients.cpp:419-452 | The destination changes if and only if, in the authentication state with a reply pending and the switch open, a well-formed REPLY with a new id arrives, whatever its RefID; the new port is the recorded one, which is that of the REPLY at hand if and only if the poll loop received it or the last datagram of the poll loop came from the same port. |
| UdpPorts.PortRecorded | clients.cpp:130-147 | The recorded port is always the source port of the last datagram that the poll loop received, and 65535 before there was one. |
| UdpPorts.OpeningPort | clients.cpp:424-437 | The session that a REPLY opens talks to the port of that REPLY if and only if, with the switch still open, the poll loop received it or the recorded port is the same, or, with the switch closed, the port switched to before is the same. |
| UdpPorts.OpenPort | clients.cpp:426-430 | Over every run, a client whose switch is open talks to the original port and is not in the open state; otherwise some turn closed the switch and it talks to the port which that turn gave. |
| UdpPorts.PortOnce | clients.cpp:426-430 | After the switch the port never changes again, and before it it is the original one. |
| UdpPorts.PortsUsed | clients.cpp:99-104 | Over every run everything was sent to the original port or to the one port switched to. |
| UdpLimits.ReleaseExact | clients.cpp:369-376 | The retransmission loop returns to its caller if and only if the awaited CONFIRM arrives while the confirmation is marked pending, or the receive fails. |
| UdpLimits.WaitSafeExact | clients.cpp:366-376 | Of a wait that begins: whatever arrives while it lasts, it is never wedged, if and only if its id is the head of the queue of ids. |
| UdpLimits.StaleConfirmWedges | clients.cpp:409-417 | A CONFIRM for an older id at the front of the queue clears the pending mark of the current wait. |
| UdpLimits.WedgedForever | clients.cpp:369-378 | From then on, unless a receive fails, whatever arrives, the right CONFIRM included, the client goes on waiting for the same id or leaves the program. |
| UdpDelivery.ChatDelivered | clients.cpp:522-525 | A fresh MSG datagram of any peer is shown in the open state with its exact name and text, its id is remembered and confirmed to the current port, and nothing else changes, in either loop. |
| UdpDelivery.ReplyDelivered | clients.cpp:419-460 | The REPLY to the oldest pending request, in the authentication and in the open state and in either loop, is printed with its exact text and unblocks the user; a positive one opens the session, an open switch is closed to the recorded port, and the CONFIRM goes to the port that is then current. |
| UdpDelivery.ErrEndsSession | clients.cpp:474-479 | A fresh ERR of any peer is shown with its exact name and text, confirmed and answered with BYE under the current number, and the program ends with failure; the retransmission loop in the open state shows it twice. |
| UdpDelivery.ByeEndsSession | clients.cpp:481-486 | A fresh BYE in the open state is confirmed and ends the program with failure, without a BYE in return. |
| UdpDelivery.ChatBeforeOpen | clients.cpp:598-604 | A fresh MSG in the start or authentication state is answered with its CONFIRM, ERR under the current number and BYE under the next, in either loop; only the retransmission loop shows it. |
| UdpDelivery.MalformedAnswered | clients.cpp:577-589 | A datagram that is too short or of unknown type is answered with a CONFIRM under the client's own counter, ERR and BYE, except that the retransmission loop ignores it before the open state. |
| UdpDelivery.RepeatDropped | clients.cpp:384-386 | A datagram with an id handled before changes nothing and sends nothing. |
| UdpRuns.EarlyReplyLosesServer | clients.cpp:345-347 | For every user, server port and id: AUTH answered by a REPLY before its CONFIRM leaves the client in the open state talking to port 65535. |
| UdpRuns.ForeignReplyTakesPort | clients.cpp:424-432 | For every user, every REPLY to a request the client did not make and every pair of ports: that REPLY, received by the poll loop while the AUTH is pending, fixes the port, and the session that the true REPLY opens talks to it. |
| UdpRuns.OlderAuthOpens | clients.cpp:554-558 | A run with a second AUTH in which the REPLY to the first one, not to the most recent, opens the session. |
| UdpRuns.RepeatedConfirmWedges | clients.cpp:369-376 | For every user and chat line: a CONFIRM of the AUTH that arrives once more during the wait for message 1 wedges that wait. |
| UdpRuns.ByeForgotten | clients.cpp:409-471 | For every user and id: a BYE before the AUTH is confirmed is neither remembered nor answered, and the client goes on waiting. |
| UdpRuns.ShortReplyForgotten | messages.cpp:408-413 | For every user, id and result: a REPLY of seven bytes, after the confirmation of the AUTH, is neither remembered nor answered. |
| UdpRuns.RefusedAuthRenames | clients.cpp:628-630 | An /auth typed in any open session that blocks no input changes the display name and the counter, and sends nothing. |
| UdpRuns.BlankLineSent | clients.cpp:672-675 | A blank line typed there is sent, numbered and waited for as an empty datagram. |
| UdpRuns.StaleBitBreaksPairing | clients.cpp:554-558 | A run in which a second AUTH is taken while the first has no reply. |
| UdpRuns.FailedReceiveBreaksStopAndWait | clients.cpp:364-367 | A run in which a failed receive lets a second message out before the first is confirmed. |
| UdpWire.TextRoundTrip | messages.cpp:433-463 | An encoded MSG or ERR of NUL-free name and content that fits the buffer is read back with its type, id, name and content if and only if name and content have at least two characters together; a shorter one is taken for an ERR and not shown. |
| UdpWire.ReplyRoundTrip | messages.cpp:408-431 | A REPLY datagram is read back with its id, result, RefID and content if and only if its content is not empty; otherwise it is an invalid message. |
| UdpWire.ConfirmByeRoundTrip | messages.cpp:354-395 | CONFIRM and BYE carry every 16-bit id across the wire. |
| UdpWire.AuthDecodable | messages.cpp:289-309 | For every accepted /auth line, splitting the datagram at NUL gives user name, display name and secret, although the user types the secret second. |
| UdpWire.JoinDecodable | messages.cpp:310-319 | For every accepted /join line, splitting the datagram at NUL gives the channel and the current display name. |
| UdpWire.SplitFields | messages.cpp:289-345 | Splitting at NUL undoes the layout of any list of NUL-free fields. |
| UserLine.CheckIsGrammar | messages.cpp:90-210 | For every line and display name, the loop that switches on the type it changes computes the table of commands: result, type, ready flag, display name and parameters in wire order. |
| UserLine.CheckOwn | messages.cpp:93-96 | The messages the client makes itself pass the same parser unchanged. |
| UserLine.GrammarName | messages.cpp:172-192 | Only an accepted /auth or /rename changes the display name, which stays 1 to 20 printable characters. |
| UserLine.GrammarReady | messages.cpp:100-149 | What is ready to send is an /auth, a /join, a chat line or a blank line; only an invalid chat line is ready without being valid. |
| UserLine.GrammarParts | messages.cpp:575-624 | Parameters of accepted commands are non-empty and keep to their patterns. |
| UserLine.ParamExact | messages.cpp:575-624 | A parameter is valid if and only if it has at most 20, 128, 20 or 1400 characters, as an id, secret, display name or text, and all of them are letters, digits and hyphens, or have codes 33 to 126, or 32 to 126. |
| UserLine.SpaceExact | messages.cpp:104-107 | The characters that separate words. |
| Messages.SplitFragments | messages.cpp:98-108 | Reads exactly the space-separated fragments of a line. |
| Messages.NetworkMessage.CheckFragment | messages.cpp:109-204 | One turn of the parser's loop, in place. |
| Messages.NetworkMessage.CheckUserMessage | messages.cpp:90-210 | The whole parser in place: result, parameters, type, ready flag and display name are those of the specification that CheckIsGrammar equates with the table. |
| UdpMessages.UdpMessage.ProcessOutgoing | messages.cpp:276-352 | The output buffer holds the encoding of the parsed message, or nothing if it is not valid; type, name and ready flag are the parser's. |
| UdpMessages.UdpMessage.ValidateUniqueId | messages.cpp:354-396 | Type and ids are those of the received bytes, and the result says exactly whether the id was handled before. |
| UdpMessages.UdpMessage.ProcessInbound | messages.cpp:398-471 | The decoded message and the console line are those that the round trips are about; malformed datagrams change type as in the source. |
| UdpClients.UdpClient.constructor | clients.cpp:13-20 | The client starts in the initial state of the machine. |
| UdpClients.UdpClient.StartUdpChat | clients.cpp:537-680 | After the turns it consumed the object is exactly where the flat machine is, and it stops only at the end of the script or of the program. |
| UdpClients.UdpClient.ChatTurn | clients.cpp:550-679 | One iteration of the poll loop, with any retransmission loop inside it, is one poll turn of the machine followed by turns of the other loops. |
| UdpClients.UdpClient.HandleTimeout | clients.cpp:336-380 | The retransmission loop follows the machine turn by turn from the first wait until it is released or the program ends. |
| UdpClients.UdpClient.WaitPacket | clients.cpp:365-378 | A datagram in that loop: the awaited CONFIRM releases it, anything else goes to fsm_logic_handler. |
| UdpClients.UdpClient.FsmLogicHandler | clients.cpp:382-534 | Decoding, printing, queues, port, state, confirmations and exits on one datagram are those of the machine. |
| UdpClients.UdpClient.HandleAuthMsg | clients.cpp:409-471 | The branch of the authentication state. |
| UdpClients.UdpClient.HandleOpenMsg | clients.cpp:473-533 | The branch of the open state. |
| UdpClients.UdpClient.HandleConfirm | clients.cpp:488-493 | The -1 that stands for an empty queue never equals a 16-bit id, so the head is only erased where there is one. |
| UdpClients.UdpClient.SwitchServerPort | clients.cpp:424-430 | The one-shot switch to the recorded port. |
| UdpClients.UdpClient.AcceptMsg | clients.cpp:130-150 | recvfrom of the poll loop, which records the source port; a timeout changes nothing, a failure leaves the program. |
| UdpClients.UdpClient.ReceiveMsg | clients.cpp:566-609 | The poll loop's checks before fsm_logic_handler, with their error exits. |
| UdpClients.UdpClient.SocketTurn | clients.cpp:566-610 | A POLLIN of the socket: receive, checks and handling. |
| UdpClients.UdpClient.DeliverMsg | clients.cpp:635-676 | A message that is ready, by the state of the session: refused, or queued, sent and waited for. |
| UdpClients.UdpClient.SubmitMsg | clients.cpp:628-677 | A parsed message: renaming before the state check, numbering, then delivery. |
| UdpClients.UdpClient.UserMsg | clients.cpp:622-677 | A line of the user from parsing to the end of the wait for its confirmation. |
| UdpClients.UdpClient.SendConfirmExit | clients.cpp:309-321 | Confirms a message and, if asked to, leaves with the exit code of its type. |
| UdpClients.UdpClient.SendErrorExit | clients.cpp:323-334 | ERR under the counter, BYE under the next number, and the end of the program. |
| UdpClients.UdpClient.ExitProgram | main.cpp:27-75 | BYE under the current counter if asked for, then the bounded wait for its confirmation. |
| TcpTheorems.TraceLanguage | clients.cpp:181-304 | Over every run the non-empty lines sent form a word of AUTH* (JOIN or MSG)* [ERR] [BYE], at least one AUTH before any JOIN or MSG; each is one line of the grammar that fits the buffer with CRLF at its end only, except an ERR sent before any name was chosen; the display name is valid, and non-empty outside the start state. |
| TcpLines.GrammarExact | clients.cpp:186-194 | Over every run, every non-empty line sent is a line of the grammar, without exception, if and only if no message of the server arrives in the start state before the user has chosen a display name. |
| TcpLines.StrictDecides | messages.cpp:235-274 | The summary of a log says exactly whether every non-empty line in it is of the grammar. |
| TcpLines.NamelessIsForeign | messages.cpp:258-262 | An ERR without a name is not a line of the grammar, whatever its text. |
| TcpLines.NameTurn | clients.cpp:268-271 | The display name after an iteration is that of a good /auth or /rename if such a line was taken, in any state and whether or not it was sent, and otherwise the old one. |
| TcpLines.LineSent | clients.cpp:274-304 | A line that is sent leaves as one text; it is empty if and only if the line is blank or is chat that is too long or not printable. |
| TcpRuns.NamelessErrSent | clients.cpp:186-194 | For every stream that begins with BYE: the first iteration sends a line that is not of the grammar. |
| TcpRuns.RefusedAuthRenames | clients.cpp:269-271 | An /auth typed in any open session with no reply pending changes the display name and sends nothing. |
| TcpRuns.BlankLineSent | clients.cpp:295-296 | A blank line typed there is sent as an empty text. |
| TcpTheorems.StepInv | clients.cpp:153-307 | One iteration keeps that invariant. |
| TcpTheorems.GrammarEncoded | messages.cpp:235-274 | Whatever the user types, the line written for it is empty or well-formed, for the type the parser chose. |
| TcpTheorems.GateExact | clients.cpp:168-251 | With a reply pending, one iteration consumes a line of the user without printing that reply if and only if poll wakes up without POLLIN on the socket while the bit of standard input is still set from before. |
| TcpTheorems.RequestPairing | clients.cpp:186-304 | At all points of a run requests sent equal replies printed plus the pending one, if and only if no turn takes a second request there. |
| TcpRuns.StaleBitBreaksPairing | clients.cpp:166-171 | For every stream, user and initial bit: a run in which a second AUTH is taken while the first has no reply. |
| TcpTheorems.PairedStep | clients.cpp:168-304 | One iteration keeps that equation if and only if it is not such a turn; only a positive REPLY with an AUTH pending opens the session. |
| TcpTheorems.AuthenticationSafety | clients.cpp:196-204 | Over every run, each entry to the open state is by a positive REPLY received while an AUTH was pending, and a session in the open state entered it in some turn. |
| TcpDelivery.LineReceived | clients.cpp:181-185 | A POLLIN with a frame at the front of the stream takes exactly that frame, which always decodes, and dispatches it. |
| TcpDelivery.ChatDelivered | clients.cpp:238-239 | A MSG line at the front of the stream whose name is without "is" is shown in the open state with its exact name and text, and nothing else changes. |
| TcpDelivery.ReplyDelivered | clients.cpp:197-238 | The REPLY to a pending request, in any letter case and with "is" anywhere in its content, is printed with its exact content; a positive one opens the session, and only in the open state does the iteration go on to standard input. |
| TcpDelivery.ErrEndsSession | clients.cpp:210-223 | An ERR line outside the start state is shown with its exact name and text and answered with BYE, nothing else, and the program ends with failure. |
| TcpDelivery.ByeEndsSession | clients.cpp:212-225 | A BYE line ends an open session with success and no answer; in the start and authentication states it is answered with ERR and BYE. |
| TcpAnswers.LineAnswered | clients.cpp:181-249 | The exact result of an iteration with a line or a full buffer to take from the stream, by state, kind of line and pending REPLY: shown, printed, answered with ERR and BYE, with BYE or not at all, ended with which code, and whether standard input is looked at; only a full buffer that is no line can abort the program. |
| TcpAnswers.ChatBeforeOpen | clients.cpp:212-219 | A MSG line in any letter case before the open state is shown with its exact name and text, answered with ERR and BYE, and ends the program with failure. |
| TcpAnswers.ClosedTurn | clients.cpp:112-116 | A failing poll, or a connection that closes before a frame is complete, ends the program with failure and sends nothing. |
| TcpAnswers.StdinTurn | clients.cpp:251-276 | The end of the input sends BYE and ends the program with failure; an empty line does nothing, and a line that is not sent changes at most the name. |
| TcpAnswers.StdinSends | clients.cpp:274-304 | A line that is sent: one text, the name, the authentication state after an /auth, and a pending REPLY after a request, and nothing else. |
| TcpAnswers.QuietTurn | clients.cpp:166-178 | Without POLLIN on the socket an iteration only looks at standard input, whose bit a poll refreshes only with no REPLY pending. |
| TcpCases.AuthDecodable | messages.cpp:244-252 | For every accepted /auth line, the words of the line sent are AUTH, the user name, AS, the display name, USING and the secret, although the user types the secret second. |
| TcpCases.JoinDecodable | messages.cpp:253-257 | For every accepted /join line, the words of the line sent are JOIN, the channel, AS and the current display name. |
| TcpCases.InboundKinds | messages.cpp:483-572 | For every frame, exactly which words make it a BYE, a positive or negative REPLY, an ERR or a MSG, in any letter case; everything else is invalid. |
| TcpCases.TextAnyCase | messages.cpp:490-492 | A MSG or ERR line with its keywords in any letter case is read with its exact name and content if and only if the name does not contain "is". |
| TcpCases.StripExact | messages.cpp:226-233 | Exactly one final LF and then one final CR are taken off any text. |
| TcpCases.FullBuffer | clients.cpp:111 | A stream without a terminator is taken in pieces of 1500 bytes. |
| TcpCases.ByeAnyCase | messages.cpp:490-498 | BYE is read in any letter case. |
| TcpWire.NextFrameIs | clients.cpp:106-128 | One call of accept_msg takes n bytes if and only if they are the shortest prefix that ends in CRLF, or a full buffer without one. |
| TcpWire.FramesRoundTrip | clients.cpp:106-128 | Repeated calls split any concatenation of frames of at most 1500 bytes, CRLF only at their ends, back into exactly those frames. |
| TcpClients.RescanAgrees | clients.cpp:119-124 | Searching the whole buffer for CRLF agrees with looking at its last two bytes, as long as no shorter prefix ended in it. |
| TcpWire.InboundRange | messages.cpp:503-569 | Decoding raises an exception if and only if the line carries text and its first "is" stands at its very end. |
| TcpWire.InboundTotal | messages.cpp:473-573 | A frame that ends in CRLF is always decoded to a definite type. |
| TcpWire.TextLineRoundTrip | messages.cpp:258-273 | A MSG or ERR line is read back with the name and content it was written from if and only if the name does not contain "is" in any letter case. |
| TcpWire.ReplyRoundTrip | messages.cpp:496-535 | A REPLY line in any letter case is read back with its exact content if and only if the content holds something besides spaces. |
| TcpMessages.TcpMessage.AddToBuffer | messages.cpp:212-217 | Appends the C string to the C string in the fixed buffer, in place. |
| TcpMessages.TcpMessage.AddLineEnding | messages.cpp:219-224 | Appends CRLF and terminates the string. |
| TcpMessages.TcpMessage.RemoveLineEnding | messages.cpp:226-233 | Takes a final LF and then a final CR off. |
| TcpMessages.TcpMessage.ProcessOutgoing | messages.cpp:235-274 | The buffer holds, as a C string, the line of the parsed message, or nothing if it is not valid. |
| TcpMessages.TcpMessage.ProcessInbound | messages.cpp:473-573 | The decoded type, text and console line, or the exception, are those that the round trips are about. |
| TcpClients.TcpClient.constructor | clients.hpp:14-19 | The client starts in the initial state of the machine. |
| TcpClients.TcpClient.AcceptMsg | clients.cpp:106-128 | The receive loop with its rescan fills the buffer with exactly the next frame, or ends the program when the connection closes first. |
| TcpClients.TcpClient.StartTcpChat | clients.cpp:153-307 | After the turns it consumed the object is exactly where the flat machine is. |
| TcpClients.TcpClient.ChatTurn | clients.cpp:166-306 | One iteration of the poll loop is one step of the machine. |
| TcpClients.TcpClient.ReceiveMsg | clients.cpp:181-249 | A POLLIN of the socket, and whether the same iteration goes on to standard input. |
| TcpClients.TcpClient.SubmitMsg | clients.cpp:268-303 | A parsed message: renaming before the state check, then the state's rule for sending it. |
| TcpClients.TcpClient.ReadLine | clients.cpp:251-304 | The standard-input half of an iteration. |
| TcpClients.TcpClient.ExitProgram | main.cpp:27-34 | BYE if asked for, and the end of the program. |

## Left out

- Sockets, DNS, `connect`, `poll`, `setsockopt` and `recvfrom` themselves: they are the script of the environment.
- A send that fails: the source reports it and goes on, so the model takes every send as made.
- Real time: a timeout is an event; the timer of the source restarts on any datagram, as its README says.
- `arg_parser.cpp`, `socket.cpp`, destructors and freeing of memory: plumbing; the retransmission limit is a parameter.
- SIGINT: the handler only calls `exit_program`, which is modelled.
- Console wording of error messages; of the console only received messages and printed replies are recorded.
- The server, delivery in bounded time and eventual confirmation: the network is arbitrary, so there is no liveness claim.
- `std::regex` in general: only the case-insensitive search for "is" and the four parameter patterns.
- The branch of `validate_msg_param` for an unknown pattern name, which no caller reaches.
- Overflow of the `int` counter: the counter is unbounded, its 16-bit field is `% 65536`.
- The uninitialised `ref_message_id` of a fresh message: it starts as 0; nothing reads it before it is set.
- A `recv` of -1 on TCP is not noticed by the source, which then scans an unchanged byte; the stream of the model may hold any byte there.
- `retry_count` and `timeout_happened`, which nothing uses.
- Inheritance: message and client classes hold their common part instead of inheriting it.
- UdpClients.UdpClient.SendErrorExit: does not model the call of `handle_timeout` as returning, because with its last argument true it only calls `exit_program`.
