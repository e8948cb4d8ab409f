/** The page script of Components/static/scripts.js: the send button's click handler and the
    continuations of its request, the status bar and its revert timer, and the handlers of the
    two polls (inbound messages and process id). Every handler runs to completion, so the page is
    a state machine driven by events: the user typing or clicking, a request settling, a timer
    firing. Requests and timers are counted so that a continuation only runs for one issued. */
module PageScript {
  import opened Outcomes
  import opened Text

  // ---------------------------------------------------------------------------------------
  // Values the handlers receive

  /** The JSON values a poll response field can hold (objects, arrays and fractions left out);
      Undefined is a field the response does not have. */
  datatype Json = Undefined | Null | Bool(b: bool) | Number(n: int) | Str(s: string)

  /** JavaScript truthiness: false, 0, "" , null and undefined are falsy. */
  predicate Truthy(v: Json)
  {
    match v
    case Undefined => false
    case Null => false
    case Bool(b) => b
    case Number(n) => n != 0
    case Str(s) => s != ""
  }

  /** What a template literal ${v} writes for the value. */
  function Display(v: Json): string
  {
    match v
    case Undefined => "undefined"
    case Null => "null"
    case Bool(b) => if b then "true" else "false"
    case Number(n) => IntToString(n)
    case Str(s) => s
  }

  // ---------------------------------------------------------------------------------------
  // encodeURIComponent

  /** The characters encodeURIComponent leaves as they are. */
  predicate Unreserved(c: char)
  {
    'A' <= c <= 'Z' || 'a' <= c <= 'z' || '0' <= c <= '9'
    || c == '-' || c == '_' || c == '.' || c == '!' || c == '~' || c == '*' || c == '\'' || c == '(' || c == ')'
  }

  predicate HexDigit(c: char) { '0' <= c <= '9' || 'A' <= c <= 'F' }

  /** The characters an encoded component is made of. */
  predicate EncodedChar(c: char) { Unreserved(c) || c == '%' || HexDigit(c) }

  function Hex(d: nat): (c: char)
    requires d < 16
    ensures HexDigit(c)
  {
    if d < 10 then (48 + d) as char else (55 + d) as char
  }

  /** The UTF-8 bytes of a character. */
  function Utf8(c: char): (bytes: seq<nat>)
    ensures 1 <= |bytes| <= 4 && forall i :: 0 <= i < |bytes| ==> bytes[i] < 256
  {
    var k := c as int;
    if k < 0x80 then [k]
    else if k < 0x800 then [0xC0 + k / 64, 0x80 + k % 64]
    else if k < 0x10000 then [0xE0 + k / 4096, 0x80 + k / 64 % 64, 0x80 + k % 64]
    else [0xF0 + k / 262144, 0x80 + k / 4096 % 64, 0x80 + k / 64 % 64, 0x80 + k % 64]
  }

  /** %XX for each byte, with upper-case hexadecimal digits. */
  function PercentBytes(bytes: seq<nat>): (r: string)
    requires forall i :: 0 <= i < |bytes| ==> bytes[i] < 256
    ensures |r| == 3 * |bytes|
    ensures forall i :: 0 <= i < |r| ==> r[i] == '%' || HexDigit(r[i])
  {
    if bytes == [] then ""
    else ['%', Hex(bytes[0] / 16), Hex(bytes[0] % 16)] + PercentBytes(bytes[1..])
  }

  /** encodeURIComponent: unreserved characters kept, every other one written as the
      percent-encoded bytes of its UTF-8 form. */
  function EncodeComponent(s: string): (r: string)
    ensures forall i :: 0 <= i < |r| ==> EncodedChar(r[i])
  {
    if s == [] then ""
    else (if Unreserved(s[0]) then [s[0]] else PercentBytes(Utf8(s[0]))) + EncodeComponent(s[1..])
  }

  /** The body of the POST the click handler issues. */
  function RequestBody(message: string, address: string): string
  {
    "message=" + EncodeComponent(message) + "&address=" + EncodeComponent(address)
  }

  // ---------------------------------------------------------------------------------------
  // The page

  datatype Direction = Sent | Received

  /** One paragraph of the message box: "Enviado: " or "Recebido: " and the text. */
  datatype Entry = Entry(direction: Direction, text: string)

  /** What the handlers read and write: the message box, the two inputs, the status bar, the
      process id badge, the bodies of the POSTs issued, the requests whose continuation has not
      run yet and the revert timers that have not fired yet. */
  datatype PageState = PageState(
    log: seq<Entry>,
    messageInput: string,
    addressInput: string,
    statusText: string,
    statusColor: string,
    badge: Option<string>,
    posts: seq<string>,
    sendsInFlight: nat,
    revertsPending: nat)

  const Ready: string := "Pronto"
  const Blue: string := "#2196F3"
  const Green: string := "#4CAF50"
  const Red: string := "#f44336"
  const FillBoth: string := "Por favor, preencha ambos os campos"
  const SendOkText: string := "Mensagem enviada"
  const SendErrorText: string := "Erro ao enviar mensagem"
  const ReceivedText: string := "Mensagem recebida"

  /** The events the page reacts to. */
  datatype Event =
    | Type(message: string, address: string)   // the user edits the two inputs
    | Click                                     // the send button is clicked
    | SendOk                                    // the oldest pending POST resolves with JSON
    | SendError                                 // the oldest pending POST rejects
    | Inbound(data: Json)                       // a /receive_message poll resolves
    | Pid(pid: Json)                            // a /get_id poll resolves
    | PollFailed                                // either poll rejects
    | Revert                                    // a status revert timer fires

  /** updateStatusBar: text and colour replaced together and one more revert timer scheduled. */
  function ReportStatus(p: PageState, text: string, color: string): PageState
  {
    p.(statusText := text, statusColor := color, revertsPending := p.revertsPending + 1)
  }

  /** A continuation can only run for a request that was issued, a timer that was scheduled. */
  predicate Enabled(p: PageState, e: Event)
  {
    match e
    case SendOk => p.sendsInFlight > 0
    case SendError => p.sendsInFlight > 0
    case Revert => p.revertsPending > 0
    case _ => true
  }

  /** One handler run to completion. */
  function Step(p: PageState, e: Event): PageState
    requires Enabled(p, e)
  {
    match e
    case Type(m, a) => p.(messageInput := m, addressInput := a)
    case Click =>
      if p.messageInput != "" && p.addressInput != "" then
        p.(posts := p.posts + [RequestBody(p.messageInput, p.addressInput)], sendsInFlight := p.sendsInFlight + 1)
      else ReportStatus(p, FillBoth, Red)
    case SendOk =>
      var logged := p.(log := p.log + [Entry(Sent, p.messageInput)], messageInput := "", sendsInFlight := p.sendsInFlight - 1);
      ReportStatus(logged, SendOkText, Green)
    case SendError => ReportStatus(p.(sendsInFlight := p.sendsInFlight - 1), SendErrorText, Red)
    case Inbound(m) =>
      if Truthy(m) then ReportStatus(p.(log := p.log + [Entry(Received, Display(m))]), ReceivedText, Blue)
      else p
    case Pid(pid) => if Truthy(pid) then p.(badge := Some(Display(pid))) else p
    case PollFailed => p
    case Revert => p.(statusText := Ready, statusColor := Blue, revertsPending := p.revertsPending - 1)
  }

  /** The events one after the other; None as soon as one cannot happen. */
  function Run(p: PageState, events: seq<Event>): Option<PageState>
    decreases |events|
  {
    if events == [] then Some(p)
    else if !Enabled(p, events[0]) then None
    else Run(Step(p, events[0]), events[1..])
  }

  function CountSent(log: seq<Entry>): nat
  {
    if log == [] then 0 else (if log[0].direction == Sent then 1 else 0) + CountSent(log[1..])
  }

  function CountSendOk(events: seq<Event>): nat
  {
    if events == [] then 0 else (if events[0].SendOk? then 1 else 0) + CountSendOk(events[1..])
  }

  // ---------------------------------------------------------------------------------------
  // Properties of the handlers

  /** A form field name=value whose value is encoded holds no '&' and splits back at its '='. */
  lemma EncodedField(name: string, v: string)
    requires '&' !in name && '=' !in name
    requires forall i :: 0 <= i < |v| ==> EncodedChar(v[i])
    ensures '&' !in name + ['='] + v
    ensures SplitOnce(name + ['='] + v, '=') == Some((name, v))
  {
    var field := name + ['='] + v;
    forall i | 0 <= i < |field| ensures field[i] != '&' {
      if i > |name| {
        assert field[i] == v[i - |name| - 1];
      }
    }
    SplitOnceRoundTrip(name, v, '=');
  }

  /** encodeURIComponent escapes '&' and '=', so the body splits into its two fields and each
      field into its name and the encoded value. */
  lemma BodyFields(message: string, address: string)
    ensures Split(RequestBody(message, address), '&') == ["message=" + EncodeComponent(message), "address=" + EncodeComponent(address)]
    ensures SplitOnce("message=" + EncodeComponent(message), '=') == Some(("message", EncodeComponent(message)))
    ensures SplitOnce("address=" + EncodeComponent(address), '=') == Some(("address", EncodeComponent(address)))
  {
    var m, a := EncodeComponent(message), EncodeComponent(address);
    var first, second := "message" + ['='] + m, "address" + ['='] + a;
    assert first == "message=" + m && second == "address=" + a;
    assert RequestBody(message, address) == first + ['&'] + second;
    EncodedField("message", m);
    EncodedField("address", a);
    SplitAtFirst(first, second, '&');
    SplitWithoutSeparator(second, '&');
  }

  /** The click handler issues exactly one POST, with both inputs encoded, when both are
      non-empty; otherwise it issues none and reports the validation error in red. Nothing
      else changes. */
  lemma ClickValidates(p: PageState)
    ensures var q := Step(p, Click);
      && q.log == p.log && q.messageInput == p.messageInput && q.addressInput == p.addressInput
      && (p.messageInput != "" && p.addressInput != "" <==> |q.posts| == |p.posts| + 1)
      && (p.messageInput != "" && p.addressInput != "" ==>
            q.posts == p.posts + [RequestBody(p.messageInput, p.addressInput)]
            && q.statusText == p.statusText && q.sendsInFlight == p.sendsInFlight + 1)
      && (p.messageInput == "" || p.addressInput == "" ==>
            q.posts == p.posts && q.statusText == FillBoth && q.statusColor == Red
            && q.sendsInFlight == p.sendsInFlight)
  {
  }

  /** On success the entry logged is the message input as it is when the response arrives, not
      as it was at the click: text typed in between is what the box shows. */
  lemma ResponseReadsCurrentInput(p: PageState, typed: string)
    requires p.messageInput != "" && p.addressInput != ""
    ensures var q := Run(p, [Click, Type(typed, p.addressInput), SendOk]);
      && q.Some?
      && q.value.log == p.log + [Entry(Sent, typed)]
      && q.value.posts == p.posts + [RequestBody(p.messageInput, p.addressInput)]
      && q.value.messageInput == "" && q.value.addressInput == p.addressInput
      && q.value.statusText == SendOkText && q.value.statusColor == Green
  {
    var p1 := Step(p, Click);
    var p2 := Step(p1, Type(typed, p.addressInput));
    var p3 := Step(p2, SendOk);
    assert Run(p, [Click, Type(typed, p.addressInput), SendOk]) == Run(p1, [Type(typed, p.addressInput), SendOk]);
    assert Run(p1, [Type(typed, p.addressInput), SendOk]) == Run(p2, [SendOk]);
    assert Run(p2, [SendOk]) == Run(p3, []);
  }

  /** A failed send changes only the status (and schedules its revert): the log, both inputs,
      the badge and the POSTs stay. */
  lemma SendFailureOnlyReports(p: PageState)
    requires p.sendsInFlight > 0
    ensures var q := Step(p, SendError);
      q == p.(statusText := SendErrorText, statusColor := Red, sendsInFlight := p.sendsInFlight - 1, revertsPending := p.revertsPending + 1)
  {
  }

  /** An inbound poll appends one "Recebido" entry exactly when its message is truthy, and
      changes nothing otherwise; the same message arriving twice is logged twice. */
  lemma InboundAppendsTruthy(p: PageState, m: Json)
    ensures Truthy(m) ==>
      Step(p, Inbound(m)).log == p.log + [Entry(Received, Display(m))] && Step(p, Inbound(m)).statusText == ReceivedText
    ensures !Truthy(m) ==> Step(p, Inbound(m)) == p
    ensures Truthy(m) ==>
      (Run(p, [Inbound(m), Inbound(m)]).Some?
       && Run(p, [Inbound(m), Inbound(m)]).value.log == p.log + [Entry(Received, Display(m)), Entry(Received, Display(m))])
  {
    if Truthy(m) {
      var p1 := Step(p, Inbound(m));
      var p2 := Step(p1, Inbound(m));
      assert Run(p, [Inbound(m), Inbound(m)]) == Run(p1, [Inbound(m)]);
      assert Run(p1, [Inbound(m)]) == Run(p2, []);
    }
  }

  /** A truthy process id replaces the badge and touches nothing else; a falsy one and a failed
      poll change nothing. */
  lemma PidReplacesBadge(p: PageState, pid: Json)
    ensures Truthy(pid) ==> Step(p, Pid(pid)) == p.(badge := Some(Display(pid)))
    ensures !Truthy(pid) ==> Step(p, Pid(pid)) == p
    ensures Step(p, PollFailed) == p
  {
  }

  /** Every revert callback writes "Pronto" unconditionally: after two status reports, the
      first report's timer overwrites the second status while the second timer is still due. */
  lemma EarlierRevertOverwritesLaterStatus(p: PageState, m: Json)
    requires p.sendsInFlight > 0 && Truthy(m)
    ensures var q := Run(p, [SendError, Inbound(m), Revert]);
      && q.Some?
      && q.value.statusText == Ready && q.value.statusColor == Blue
      && q.value.revertsPending == p.revertsPending + 1
  {
    var p1 := Step(p, SendError);
    var p2 := Step(p1, Inbound(m));
    var p3 := Step(p2, Revert);
    assert Run(p, [SendError, Inbound(m), Revert]) == Run(p1, [Inbound(m), Revert]);
    assert Run(p1, [Inbound(m), Revert]) == Run(p2, [Revert]);
    assert Run(p2, [Revert]) == Run(p3, []);
  }

  /** Each handler appends at most one entry and never edits or removes one. */
  lemma StepAppendsAtMostOne(p: PageState, e: Event)
    requires Enabled(p, e)
    ensures var q := Step(p, e);
      (q.log == p.log || (|q.log| == |p.log| + 1 && q.log[..|p.log|] == p.log))
    ensures var q := Step(p, e);
      (|q.log| == |p.log| + 1 && q.log[|p.log|].direction == Sent) <==> e.SendOk?
  {
    var q := Step(p, e);
    if e.SendOk? {
      assert q.log[..|p.log|] == p.log;
    } else if e.Inbound? && Truthy(e.data) {
      assert q.log[..|p.log|] == p.log;
    }
  }

  lemma {:induction false} CountSentAppend(log: seq<Entry>, x: Entry)
    ensures CountSent(log + [x]) == CountSent(log) + (if x.direction == Sent then 1 else 0)
  {
    if log != [] {
      assert (log + [x])[1..] == log[1..] + [x];
      CountSentAppend(log[1..], x);
    } else {
      assert [x][1..] == [];
    }
  }

  /** Over any run of events, the log only grows, and it gains exactly one "Enviado" entry per
      successful send. */
  lemma {:induction false} RunAppendsOnly(p: PageState, events: seq<Event>)
    requires Run(p, events).Some?
    ensures var q := Run(p, events).value;
      && |p.log| <= |q.log| && q.log[..|p.log|] == p.log
      && CountSent(q.log) == CountSent(p.log) + CountSendOk(events)
    decreases |events|
  {
    if events != [] {
      var e := events[0];
      var p1 := Step(p, e);
      StepAppendsAtMostOne(p, e);
      RunAppendsOnly(p1, events[1..]);
      var q := Run(p, events).value;
      assert q == Run(p1, events[1..]).value;
      assert q.log[..|p.log|] == q.log[..|p1.log|][..|p.log|];
      if p1.log != p.log {
        assert p1.log == p.log + [p1.log[|p.log|]];
        CountSentAppend(p.log, p1.log[|p.log|]);
      }
    }
  }

  // ---------------------------------------------------------------------------------------

  /** The page, its elements and the timers and requests in flight, changed in place. */
  class Page {
    var log: seq<Entry>
    var messageInput: string
    var addressInput: string
    var statusText: string
    var statusColor: string
    var badge: Option<string>
    var posts: seq<string>
    var sendsInFlight: nat
    var revertsPending: nat

    /** The page as loaded, with the status bar's text and colour from the markup. */
    constructor (statusText: string, statusColor: string)
      ensures State() == PageState([], "", "", statusText, statusColor, None, [], 0, 0)
    {
      log := [];
      messageInput := "";
      addressInput := "";
      this.statusText := statusText;
      this.statusColor := statusColor;
      badge := None;
      posts := [];
      sendsInFlight := 0;
      revertsPending := 0;
    }

    function State(): PageState
      reads this
    {
      PageState(log, messageInput, addressInput, statusText, statusColor, badge, posts, sendsInFlight, revertsPending)
    }

    method TypeInto(message: string, address: string)
      modifies this
      ensures State() == Step(old(State()), Type(message, address))
    {
      messageInput := message;
      addressInput := address;
    }

    method UpdateStatusBar(text: string, color: string)
      modifies this
      ensures State() == ReportStatus(old(State()), text, color)
    {
      statusText := text;
      statusColor := color;
      revertsPending := revertsPending + 1;
    }

    method OnClick()
      modifies this
      ensures State() == Step(old(State()), Click)
    {
      var message := messageInput;
      var address := addressInput;
      if message != "" && address != "" {
        posts := posts + [RequestBody(message, address)];
        sendsInFlight := sendsInFlight + 1;
      } else {
        UpdateStatusBar(FillBoth, Red);
      }
    }

    method OnSendSucceeded()
      requires sendsInFlight > 0
      modifies this
      ensures State() == Step(old(State()), SendOk)
    {
      sendsInFlight := sendsInFlight - 1;
      log := log + [Entry(Sent, messageInput)];
      messageInput := "";
      UpdateStatusBar(SendOkText, Green);
    }

    method OnSendFailed()
      requires sendsInFlight > 0
      modifies this
      ensures State() == Step(old(State()), SendError)
    {
      sendsInFlight := sendsInFlight - 1;
      UpdateStatusBar(SendErrorText, Red);
    }

    method OnInbound(message: Json)
      modifies this
      ensures State() == Step(old(State()), Inbound(message))
    {
      if Truthy(message) {
        log := log + [Entry(Received, Display(message))];
        UpdateStatusBar(ReceivedText, Blue);
      }
    }

    method OnPid(pid: Json)
      modifies this
      ensures State() == Step(old(State()), Pid(pid))
    {
      if Truthy(pid) {
        badge := Some(Display(pid));
      }
    }

    method OnRevert()
      requires revertsPending > 0
      modifies this
      ensures State() == Step(old(State()), Revert)
    {
      statusText := Ready;
      statusColor := Blue;
      revertsPending := revertsPending - 1;
    }
  }
}
