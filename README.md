# Causal messaging with vector clocks, in Dafny

This project models the messaging core of a small distributed-systems teaching repository.
Processes stamp every message with a Fidge/Mattern vector clock. They deliver a message only when
its stamp passes a causal test, and park it until then. A UDP layer adds message ids and
acknowledgements, and has a retry path that nothing in the repository schedules. A browser page sends messages, polls for new ones and shows a status bar.

The modules follow the source files:

| module | file | what it holds |
|---|---|---|
| `Outcomes` | (shared) | `Option`, `Result`, the Python exceptions as `Fault`, and `Effect` (the state reached plus the exception raised, if any) |
| `Text` | (shared) | the Python built-ins the code relies on: `str()`/`int()` of integers, `strip()`, `split(sep)`, `split(sep, 1)`, `join`, `replace(c, '')` |
| `VectorClocks` | Components/VectorClock.py | the clock as functions on `seq<int>` (`Ticked`, `Merged`, `Updated`, `Render`, `ParseVector`) and the `VectorClock` class that updates its `vector` field in place |
| `CausalDelivery` | Components/ThreadProcess.py | the `content:pid:ip:vector` framing, the receive/drain specification (`Receive`, `Drain`) and the `ThreadProcess` class with its two FIFO queues and the drain loop |
| `HtmlFraming` | Components/Server1.py | the `msg<br>[<strong>v</strong>]` framing, the lazy regular-expression search of `extrair_vetor`, and the `Process` class |
| `Datagrams` | Components/VirtualSocket.py | the acknowledgement table, the set of received ids, the send socket, the datagrams sent and the timers scheduled, as a `Station` value, plus the `VirtualSocket` class |
| `PageScript` | Components/static/scripts.js | the page state, one handler per event, runs of events, and the `Page` class |

Exceptions are values. An operation that raises part-way keeps what it changed before the raise. For example, `update` stores the merged vector and only then raises `IndexError` for a bad process id.

Python list indexing is modelled with negative indices (`VectorClocks.Slot`).

The clock test `expected_clock(sender)` is called by Components/ThreadProcess.py:132 and :180. No class in the repository defines it, so the model takes it as a parameter: an arbitrary function of the receiver's vector and the sender id.

A few behaviours of the source are stated as lemmas rather than hidden:

- A `:` inside the content of a ThreadProcess frame breaks the round trip (`ColonInContentIsLost`).
- The empty vector is sent as `""`, which does not parse back (`EmptyVectorDoesNotRoundTrip`).
- `_send` closes the socket after its first successful datagram, so a retry sends nothing unless `create_send_message_socket` ran again in between (`RetryAfterSendIsSilent` is about the state right after the send). A later `send_message` at Components/ThreadProcess.py:105 or Components/Server1.py:35 does open a new socket. Also, nothing in the repository schedules `_check_ack`: `send_message` schedules only the first `_send` with retries 0, so the source never retries at all.
- Each status-bar revert timer writes "Pronto" unconditionally, so an earlier timer overwrites a later status (`EarlierRevertOverwritesLaterStatus`).

## Model

| member | source | states |
|---|---|---|
| VectorClocks.VectorClock.constructor | Components/VectorClock.py:40-43 | the vector is `number_processes` zeros (empty for a non-positive count) and the owner id is stored |
| VectorClocks.Slot | Components/VectorClock.py:48 | a Python index into a list of length n resolves to a position below n; indices -n..-1 count from the end |
| VectorClocks.Ticked | Components/VectorClock.py:46-49 | defines increment on a vector: add 1 at the Python-resolved owner slot, or IndexError for a bad owner id |
| VectorClocks.Merged | Components/VectorClock.py:53 | defines the list comprehension of update: the slot-wise max over the local length, or IndexError when the received vector is shorter |
| VectorClocks.Updated | Components/VectorClock.py:51-55 | defines update: the merge is stored, then the owner slot is advanced; the raise from either step keeps what was stored before it |
| VectorClocks.VectorClock.Increment | Components/VectorClock.py:46-49 | the owner's slot goes up by one; a bad owner id raises IndexError and leaves the vector unchanged |
| VectorClocks.TickedAdvancesOwnSlot | Components/VectorClock.py:46-49 | increment succeeds exactly for a valid index, adds exactly 1 to that slot, keeps the length and every other slot, and the result is strictly after the old vector |
| VectorClocks.VectorClock.Update | Components/VectorClock.py:51-55 | the vector becomes the slot-wise max over the local length, then the owner's slot is advanced, with both raising points modelled |
| VectorClocks.UpdatedFaults | Components/VectorClock.py:51-55 | update raises exactly when the received vector is shorter (nothing changes) or the owner id is bad (the merge is kept); the length never changes |
| VectorClocks.UpdatedDominatesBoth | Components/VectorClock.py:53-54 | after update the vector dominates the old vector and the received one, and is strictly greater in the owner's slot than both |
| VectorClocks.MergedIsLeastUpperBound | Components/VectorClock.py:53 | the merge is the least upper bound: any vector above both inputs is above the merge |
| VectorClocks.SendHappensBeforeReceive | Components/VectorClock.py:46-55 | the clock condition: a stamp produced by increment happens before the receiver's clock after update with it |
| VectorClocks.Render | Components/VectorClock.py:57-60 | defines send_vector: `str` of each slot joined with ',' |
| VectorClocks.ParseInts | Components/VectorClock.py:64 | defines `list(map(int, pieces))`: `int()` of each piece left to right, ValueError at the first that fails |
| VectorClocks.ParseVector | Components/VectorClock.py:62-65 | defines receive_vector: split at ',' and `int()` of each piece (skipping only the white space `int()` itself skips), ValueError on the first non-numeral |
| VectorClocks.VectorClock.SendVector | Components/VectorClock.py:57-60 | send_vector on the object: `Render` of the current vector field |
| VectorClocks.UpdatedNeverGoesBack | Components/VectorClock.py:51-55 | update never lowers a slot or changes the length, also when it raises part-way |
| VectorClocks.RenderAlphabet | Components/VectorClock.py:57-60 | send_vector writes only digits, '-' and ',' |
| VectorClocks.RenderRoundTrip | Components/VectorClock.py:57-65 | receive_vector(send_vector(v)) == v for every non-empty vector |
| VectorClocks.EmptyVectorDoesNotRoundTrip | Components/VectorClock.py:57-65 | the empty vector is sent as "" and parsing "" raises ValueError |
| Text.IntToStringRoundTrip | Components/VectorClock.py:59-64 | int(str(i)) == i for every integer |
| Text.IntToString | Components/VectorClock.py:59 | defines Python's `str()` of an int: '-' before the decimal digits of a negative number |
| Text.Strip | Components/ThreadProcess.py:127 | defines `str.strip()` with no argument: every `str.isspace()` character removed at both ends |
| Text.Split | Components/VectorClock.py:64 | defines `str.split(sep)` for a one-character separator: the pieces between separators, at least one |
| Text.Join | Components/VectorClock.py:59 | defines `sep.join(pieces)` for a one-character separator |
| Text.SplitOnce | Components/VirtualSocket.py:85 | defines the two-name unpacking of `str.split(sep, 1)`: text before the first separator and everything after, ValueError when there is none |
| Text.RemoveChar | Components/ThreadProcess.py:127-128 | defines `str.replace(c, '')`: every occurrence of c removed |
| Text.SplitJoin | Components/VectorClock.py:59-64 | split undoes join when no piece holds the separator |
| Text.ParseInt | Components/VectorClock.py:64 | defines `int()` of a string: white space skipped at both ends except U+001C..U+001F, an optional sign, then at least one decimal digit |
| Text.StripKeepsParsedInt | Components/ThreadProcess.py:127 | `int(x.strip())` equals `int(x)` wherever `int(x)` succeeds |
| Text.StripRescuesSeparatorPadding | Components/ThreadProcess.py:127 | `int(x.strip())` is not `int(x)`: for "\x1c5" the stripped form parses to 5 while the bare one raises ValueError |
| CausalDelivery.FrameText | Components/ThreadProcess.py:75-88 | defines the frame of _build_message: content, process id, ip and vector text joined by ':' |
| CausalDelivery.ThreadProcess.BuildMessage | Components/ThreadProcess.py:75-88 | _build_message on the object: `FrameText` with the process id and the clock's current send_vector |
| CausalDelivery.ParseFrame | Components/ThreadProcess.py:121-129 | defines the parsing in receive_message: split at every ':', IndexError for a missing piece 1, 2 or 3, ValueError for a non-numeral id (bare `int()`) or a non-numeral slot (`int()` after `strip()`), in the source's order |
| CausalDelivery.ParseVectorField | Components/ThreadProcess.py:127-129 | defines the vector field parsing: '[' and ']' removed, split at ',', each piece stripped then `int()`-ed |
| CausalDelivery.StrippedIntsAgree | Components/ThreadProcess.py:127-129 | wherever receive_vector's bare `int()` succeeds on the pieces, the stripped parsing gives the same vector |
| CausalDelivery.CanProcess | Components/ThreadProcess.py:162-180 | defines can_process_pending_message: the same parsing of pieces 1 (bare `int()`) and 3 (stripped pieces) only, then the clock test |
| CausalDelivery.ThreadProcess.CanProcessPendingMessage | Components/ThreadProcess.py:162-180 | can_process_pending_message on the object: `CanProcess` with the current clock |
| CausalDelivery.Receive | Components/ThreadProcess.py:110-144 | defines receive_message: parse, then on a passing test update, enqueue and drain; otherwise park the frame as received |
| CausalDelivery.Drain | Components/ThreadProcess.py:146-160 | defines process_pending_messages: take the oldest parked frame, drop it on a failing test, hand it to receive_message on a passing one |
| CausalDelivery.FrameSplit | Components/ThreadProcess.py:87-88 | a frame from _build_message splits at ':' into exactly content, sender id, ip and vector text, when none of them holds ':' |
| CausalDelivery.FrameRoundTrip | Components/ThreadProcess.py:121-129 | parsing in receive_message recovers content, sender id, ip and vector from a frame _build_message produced, when content and ip hold no ':' and the vector is non-empty |
| CausalDelivery.BracketedFrameRoundTrip | Components/ThreadProcess.py:127-129 | a vector field wrapped in '[' ']' parses to the same vector |
| CausalDelivery.ColonInContentIsLost | Components/ThreadProcess.py:121-122 | content holding ':' never comes back as the same content |
| CausalDelivery.CanProcessAgreesWithReceive | Components/ThreadProcess.py:162-180 | can_process_pending_message fails exactly when receive_message's parsing fails, with the same exception, and accepts exactly the frames receive_message would deliver |
| CausalDelivery.ReceiveParks | Components/ThreadProcess.py:141-144 | a parsed frame that fails the test is appended to pending as received, with its ip; clock and message queue unchanged |
| CausalDelivery.DeliveryEmptiesPending | Components/ThreadProcess.py:132-139 | a frame that passes is appended to the message queue before any pending frame, is never parked, pending only shrinks, and pending is empty afterwards unless something raised |
| CausalDelivery.DrainEmptiesPending | Components/ThreadProcess.py:146-160 | a drain leaves pending empty unless something raised, only appends to the message queue (at most one delivery per parked frame) and only removes parked frames |
| CausalDelivery.DrainDropsRejected | Components/ThreadProcess.py:153-160 | a parked frame that fails the test is removed and not put back |
| CausalDelivery.ReceiveGrowsClock | Components/ThreadProcess.py:110-144 | receive_message never moves the clock back, through all the updates of the nested drains |
| CausalDelivery.DrainGrowsClock | Components/ThreadProcess.py:146-160 | process_pending_messages never moves the clock back |
| CausalDelivery.DeliveryCoversStamp | Components/ThreadProcess.py:132-139 | once a delivered frame's update succeeds, the final clock has the old length, covers the frame's stamp slot by slot and is strictly after the clock before the delivery |
| CausalDelivery.ReceiveRaisesOnlyUpdateFaults | Components/ThreadProcess.py:110-144 | with every parked frame parsable, receiving a well-formed frame raises nothing but update's IndexError |
| CausalDelivery.DrainRaisesOnlyUpdateFaults | Components/ThreadProcess.py:146-180 | with every parked frame parsable, a drain raises nothing but update's IndexError: the re-parsing never fails |
| CausalDelivery.ReceiveKeepsParkedFramesParsable | Components/ThreadProcess.py:141-144 | only parsed frames are parked, so every parked frame keeps parsing |
| CausalDelivery.SentFrameCarriesTick | Components/ThreadProcess.py:101-102 | the frame send_message builds carries the post-increment vector, which is strictly after the clock before the send |
| CausalDelivery.ThreadProcess.constructor | Components/ThreadProcess.py:64-71 | a fresh clock of zeros for the process and two empty queues |
| CausalDelivery.ThreadProcess.SendMessage | Components/ThreadProcess.py:90-102 | the clock is incremented, then the frame built from the new vector is returned; a bad owner id raises IndexError first |
| CausalDelivery.ThreadProcess.ReceiveMessage | Components/ThreadProcess.py:110-144 | the clock and both queues end as `Receive` specifies, with the same exception |
| CausalDelivery.ThreadProcess.ProcessPendingMessages | Components/ThreadProcess.py:146-160 | the drain loop ends in the state `Drain` specifies, with the same exception |
| HtmlFraming.HtmlFrame | Components/Server1.py:34 | defines the text Process.send_message sends: `msg<br>[<strong>v</strong>]` |
| HtmlFraming.ExtractVector | Components/Server1.py:18-22 | defines extrair_vetor: the first search match's group split at ',' and `int()`-ed without a strip; no match is AttributeError, a non-numeral ValueError |
| HtmlFraming.LazyClose | Components/Server1.py:19 | the lazy group stops at the first `</strong>` after its start, and only if no newline comes first |
| HtmlFraming.Search | Components/Server1.py:19 | a match is an open tag followed by its lazy group; the reported span is that group |
| HtmlFraming.SearchIsLeftmost | Components/Server1.py:19 | re.search reports the leftmost match, and no match means there is none anywhere |
| HtmlFraming.ExtractReadsTaggedText | Components/Server1.py:18-22 | a successful extrair_vetor parsed the newline-free text between the leftmost matching open tag and the first close tag after it |
| HtmlFraming.ExtractWithoutTagFails | Components/Server1.py:19-21 | a text with no `<strong>` raises AttributeError at match.group |
| HtmlFraming.SearchFindsFrame | Components/Server1.py:34 | on a frame from Process.send_message whose message holds no `<strong>`, the search finds the group around the vector text |
| HtmlFraming.ExtractSentVector | Components/Server1.py:18-22 | extrair_vetor of a frame from Process.send_message returns the sender's vector, when the message holds no `<strong>` and the vector is non-empty |
| HtmlFraming.HtmlSendHappensBeforeReceive | Components/Server1.py:31-40 | a sent stamp is extracted intact and the receiver's clock after update is strictly after it |
| HtmlFraming.Process.constructor | Components/Server1.py:24-29 | a fresh clock of zeros and nothing sent yet |
| HtmlFraming.Process.SendMessage | Components/Server1.py:31-36 | increment, then exactly one message `msg<br>[<strong>v</strong>]` with the new vector goes to the given address |
| HtmlFraming.Process.ReceiveMessage | Components/Server1.py:38-40 | exactly update with the extracted vector: no causal check, no buffering, extraction errors raised before any change |
| Datagrams.Transmit | Components/VirtualSocket.py:120 | defines sendto on the send socket: one datagram to the stored address; AttributeError with no socket, OSError on a closed one |
| Datagrams.SendAck | Components/VirtualSocket.py:132-137 | defines _send_ack: a new socket for the host, "ACK:"+id to the given address, then close |
| Datagrams.Listen | Components/VirtualSocket.py:74-95 | defines the body of the _listen loop for one datagram: an ack marks its id, a data datagram is recorded and acknowledged once |
| Datagrams.Register | Components/VirtualSocket.py:98-104 | defines send_message with the random id given: id registered as unacknowledged, one first attempt scheduled |
| Datagrams.SendAttempt | Components/VirtualSocket.py:106-124 | defines _send: the "ACK:" pre-send outside the try, the retry guard, then one send and close inside the try |
| Datagrams.AckCheck | Components/VirtualSocket.py:126-130 | defines _check_ack: KeyError for an unknown id, a retry with retries+1 while unacknowledged |
| Datagrams.AckSplits | Components/VirtualSocket.py:78-80 | an "ACK:" datagram always has a second ':'-piece, so index 1 exists |
| Datagrams.AckRoundTrip | Components/VirtualSocket.py:132-137 | _send_ack sends "ACK:"+id, and _listen marks exactly that id acknowledged and changes nothing else, when the id holds no ':' |
| Datagrams.DataDatagram | Components/VirtualSocket.py:83-95 | a data datagram is cut at its first ':' only; a new id is recorded with its content and reply address and acknowledged once to (sender host, send port); a known id changes nothing |
| Datagrams.MissingColonIsError | Components/VirtualSocket.py:85 | a datagram with no ':' raises ValueError at the unpacking, before any change |
| Datagrams.ListenIdempotent | Components/VirtualSocket.py:87-88 | handling the same datagram again changes nothing more |
| Datagrams.ListenGrowsIds | Components/VirtualSocket.py:87-95 | the received ids only grow, by at most the id the datagram carries |
| Datagrams.RegisteredIdShape | Components/VirtualSocket.py:100 | an id from randint(1000, 9999) is four decimal digits, so it holds no ':' |
| Datagrams.RegisterEffect | Components/VirtualSocket.py:98-104 | send_message registers its id as False, keeps every other entry, and schedules exactly one first attempt with retries 0 |
| Datagrams.SendGuard | Components/VirtualSocket.py:113-115 | past the retry limit _send changes nothing for a non-"ACK:" message |
| Datagrams.SendWithinLimit | Components/VirtualSocket.py:117-124 | within the limit, an open socket sends exactly one "id:message" datagram to the stored address and is closed; a missing or closed socket raises inside the try, which is caught, so nothing changes |
| Datagrams.RetryAfterSendIsSilent | Components/VirtualSocket.py:117-130 | right after a successful send, the next _send of the message (a retry from _check_ack included) sends nothing, since the socket is closed |
| Datagrams.CheckAckResendsOnlyUnacked | Components/VirtualSocket.py:126-130 | _check_ack raises KeyError exactly for an unregistered id, resends with retries+1 exactly while unacknowledged, and otherwise changes nothing |
| Datagrams.DeliveryIsAcknowledged | Components/VirtualSocket.py:70-137 | end to end: a registered message reaches the receiver with its content, the receiver acknowledges to the sender's host, and the acknowledgement marks the sender's id |
| Datagrams.VirtualSocket.constructor | Components/VirtualSocket.py:44-59 | an empty table and id set, empty content, no reply address and no send socket |
| Datagrams.VirtualSocket.CreateSendMessageSocket | Components/VirtualSocket.py:65-68 | a new open socket together with the address (host, send port) |
| Datagrams.VirtualSocket.SendTo | Components/VirtualSocket.py:120 | sendto appends one datagram to the stored address; no socket raises AttributeError, a closed one OSError |
| Datagrams.VirtualSocket.SendAckTo | Components/VirtualSocket.py:132-137 | a new socket for the host, one "ACK:"+id datagram to the given address, then the socket is closed |
| Datagrams.VirtualSocket.HandleDatagram | Components/VirtualSocket.py:74-95 | the fields end as `Listen` specifies for one datagram, with the same exception |
| Datagrams.VirtualSocket.SendMessage | Components/VirtualSocket.py:98-104 | the ack table and the timers end as `Register` specifies |
| Datagrams.VirtualSocket.Send | Components/VirtualSocket.py:106-124 | the fields end as `SendAttempt` specifies, with the same exception |
| Datagrams.VirtualSocket.CheckAck | Components/VirtualSocket.py:126-130 | the fields end as `AckCheck` specifies, with the same exception |
| PageScript.Truthy | Components/static/scripts.js:49 | defines JavaScript truthiness of a JSON poll value: false for undefined, null, false, 0 and "" |
| PageScript.Display | Components/static/scripts.js:53 | defines what a template literal `${v}` writes for a JSON poll value |
| PageScript.RequestBody | Components/static/scripts.js:11 | defines the POST body: `message=` and `address=` with both values encodeURIComponent-ed, joined by '&' |
| PageScript.ReportStatus | Components/static/scripts.js:31-42 | defines updateStatusBar on the page state: text and colour set, one more revert timer pending |
| PageScript.Step | Components/static/scripts.js:1-80 | defines one handler per event: click, send success and failure, inbound and pid polls, and the revert timer |
| PageScript.Page.constructor | Components/static/scripts.js:3-6 | the page as loaded, an assumption: the elements the handlers look up start empty (no log, empty inputs, no badge), nothing is in flight, and the status is the given one; the markup that sets them is not part of this model |
| PageScript.EncodeComponent | Components/static/scripts.js:11 | encodeURIComponent writes only unreserved characters, '%' and upper-case hexadecimal digits |
| PageScript.BodyFields | Components/static/scripts.js:10-11 | the POST body splits at '&' into exactly the message field and the address field, and each splits at '=' into its name and encoded value |
| PageScript.ClickValidates | Components/static/scripts.js:1-29 | exactly one POST with both inputs encoded when both are non-empty; otherwise none, and the status becomes the red validation message; log and inputs unchanged |
| PageScript.ResponseReadsCurrentInput | Components/static/scripts.js:13-18 | on success the logged "Enviado" text is the input as it is when the response arrives, the input is cleared, the address kept, and the status is the green confirmation |
| PageScript.SendFailureOnlyReports | Components/static/scripts.js:21 | a failed send changes only the status (red error) and the pending timers |
| PageScript.InboundAppendsTruthy | Components/static/scripts.js:44-62 | a truthy message appends exactly one "Recebido" entry and sets the status; a falsy one changes nothing; the same message twice is logged twice |
| PageScript.PidReplacesBadge | Components/static/scripts.js:65-80 | a truthy pid replaces the badge and nothing else; a falsy pid or a failed poll changes nothing |
| PageScript.EarlierRevertOverwritesLaterStatus | Components/static/scripts.js:31-42 | an earlier report's revert timer sets "Pronto" over a later status while the later timer is still pending |
| PageScript.StepAppendsAtMostOne | Components/static/scripts.js:13-57 | each handler appends at most one entry and edits none; an "Enviado" entry is appended exactly on send success |
| PageScript.RunAppendsOnly | Components/static/scripts.js:1-80 | over any run of events the log is append-only and gains exactly one "Enviado" entry per successful send |
| PageScript.Page.UpdateStatusBar | Components/static/scripts.js:31-42 | text and colour replaced together and one more revert timer pending |
| PageScript.Page.OnClick | Components/static/scripts.js:1-29 | the page ends as `Step` specifies for a click |
| PageScript.Page.OnSendSucceeded | Components/static/scripts.js:13-18 | the page ends as `Step` specifies for a successful response |
| PageScript.Page.OnSendFailed | Components/static/scripts.js:21 | the page ends as `Step` specifies for a failed request |
| PageScript.Page.OnInbound | Components/static/scripts.js:47-57 | the page ends as `Step` specifies for an inbound poll result |
| PageScript.Page.OnPid | Components/static/scripts.js:69-76 | the page ends as `Step` specifies for a pid poll result |
| PageScript.Page.OnRevert | Components/static/scripts.js:37-40 | status back to "Pronto" on blue, one timer fewer pending |

## Left out

- Sockets, threads and timers are not modelled as such. The listening thread, `threading.Timer`, `recvfrom` with its 1024-byte limit and byte decoding are left out. The `waiting_message` loop of Components/ThreadProcess.py:183-202 and `listen_for_messages` of Components/Server1.py:42-52 are concurrency and are also left out. A datagram sent is an output event, and one datagram handled is one call.
- Randomness and floating point are left out. The id `random.randint(1000, 9999)` is an input. The delay, `max_delay` and the loss probabilities are stored by the source but never used for a decision.
- Only the socket operations the modelled code reaches are covered: `sendto` and `close` on the send socket. Creating and binding the listening socket, and `close()` of the whole object, are left out.
- Components/ThreadProcess.py:67 calls the eight-argument `VirtualSocket` constructor with four arguments, which raises TypeError. Components/ThreadProcess.py:102 also calls `get_local_ip` on the socket, and `VirtualSocket` defines no such method. The model takes the clock, the ids and the local ip as given, and the frame is returned to the caller instead of being handed to a socket.
- `expected_clock` is not defined anywhere in the repository, so running the source would raise AttributeError at Components/ThreadProcess.py:132. The model takes any function in its place.
- `Text.ParseInt`: Python's `int()` also accepts '_' between digits and non-ASCII decimal digits. Neither can occur in the texts the code itself writes, so both are left out.
- `CausalDelivery.ReceiveRaisesOnlyUpdateFaults` and `CausalDelivery.DrainRaisesOnlyUpdateFaults`: `Receive` and `Drain` recurse without a depth limit. In Python, receive_message calls process_pending_messages (Components/ThreadProcess.py:139), which calls receive_message again for every parked frame that now passes (:160). A long chain of such deliveries, some 500 with the default recursion limit of 1000, raises RecursionError part-way, with the clock and the queues partly updated. Python's recursion limit is not modelled, so the two lemmas do not cover that exception.
- `Text.IntToStringRoundTrip` and `VectorClocks.RenderRoundTrip` hold for every integer in the model. Since Python 3.11, `str()` and `int()` raise ValueError by default beyond 4300 decimal digits. That limit is not modelled.
- `PageScript.EncodeComponent`: encodeURIComponent throws URIError on a lone surrogate. It would throw at Components/static/scripts.js:11 before `fetch`, so there would be no POST and no status change. Dafny characters are Unicode scalar values, so a lone surrogate cannot occur in the model. A click with both inputs non-empty therefore always posts (`PageScript.Step`).
- `HtmlFraming.Process.SendMessage` hands the framed text to the socket as an `Outgoing` record. The datagram layer is modelled separately, in `Datagrams`.
- `PageScript`: `fetch`, `setInterval` and `setTimeout` scheduling are abstract events, and real time is left out. Markup (`innerHTML`, the `<p>` and `<h3>` wrappers), scrolling and the unused timestamp are also left out.
- `PageScript.Json`: JSON objects, arrays and fractional numbers are left out of the poll values. JSON numbers are modelled as unbounded integers written in decimal. In JavaScript they are doubles: `response.json()` rounds integers above 2^53, and a template string writes 1e21 and above in exponent form ("1e+21"). The model does not capture either.
- `PageScript.PageState`: a continuation answers the oldest outstanding request, which the model tracks only as counts. The POST bodies are recorded, but which response belongs to which request is not.
- Logging and printing everywhere are left out.
- Components/Server.py (the Flask routes), main.py, Components/Sender.py and Components/View.py are not part of this model.
