/** The causal-delivery layer of Components/ThreadProcess.py: frames of the form
    content:pid:ip:v0,v1,... carry the sender's vector clock; a frame that passes the clock
    test is delivered into the message queue, any other is parked in the pending queue, and
    every delivery drains the pending queue once more. */
module CausalDelivery {
  import opened Outcomes
  import opened Text
  import opened VectorClocks

  /** The clock test `expected_clock(sender)`, which the clock class of this repository does
      not define: any function of the receiver's vector and the sender id. */
  type ClockTest = (seq<int>, int) -> seq<int>

  /** A parsed frame. */
  datatype Frame = Frame(content: string, sender: int, senderIp: string, vector: seq<int>)

  /** An entry of message_queue: (content, sender ip). */
  datatype Delivery = Delivery(content: string, senderIp: string)

  /** An entry of pending_messages: (the whole frame as received, sender ip). */
  datatype Parked = Parked(frame: string, senderIp: string)

  /** The state receive_message and process_pending_messages work on. */
  datatype Buffers = Buffers(vector: seq<int>, queue: seq<Delivery>, pending: seq<Parked>)

  /** _build_message: content, sender id, sender ip and vector text joined by ':'. */
  function FrameText(content: string, sender: int, senderIp: string, vectorText: string): string
  {
    content + ":" + IntToString(sender) + ":" + senderIp + ":" + vectorText
  }

  /** int(x.strip()) of every piece, left to right; the first failure is the ValueError. */
  function ParseStrippedInts(pieces: seq<string>): Result<seq<int>>
  {
    if pieces == [] then Ok([])
    else
      match ParseInt(Strip(pieces[0]))
      case None => Err(ValueError)
      case Some(x) =>
        match ParseStrippedInts(pieces[1..])
        case Err(f) => Err(f)
        case Ok(xs) => Ok([x] + xs)
  }

  /** The vector field with every '[' and ']' removed, split at ',', and each piece stripped
      and int()-ed. */
  function ParseVectorField(field: string): Result<seq<int>>
  {
    ParseStrippedInts(Split(RemoveChar(RemoveChar(field, '['), ']'), ','))
  }

  /** Stripping each piece first changes nothing where int() of the bare pieces succeeds. */
  lemma {:induction false} StrippedIntsAgree(pieces: seq<string>)
    requires ParseInts(pieces).Ok?
    ensures ParseStrippedInts(pieces) == ParseInts(pieces)
  {
    if pieces != [] {
      StripKeepsParsedInt(pieces[0]);
      StrippedIntsAgree(pieces[1..]);
    }
  }

  /** The parsing half of receive_message: split at every ':', piece 1 is the sender id, piece 2
      the ip, piece 3 the vector; pieces after the fourth are ignored. A missing piece is an
      IndexError, a non-numeral a ValueError, raised in that order. */
  function ParseFrame(message: string): Result<Frame>
  {
    var parts := Split(message, ':');
    if |parts| < 2 then Err(IndexError)
    else
      match ParseInt(parts[1])
      case None => Err(ValueError)
      case Some(sender) =>
        if |parts| < 3 then Err(IndexError)
        else if |parts| < 4 then Err(IndexError)
        else
          match ParseVectorField(parts[3])
          case Err(f) => Err(f)
          case Ok(v) => Ok(Frame(parts[0], sender, parts[2], v))
  }

  /** can_process_pending_message: the clock test on a parked frame, parsing only the sender
      id and the vector. */
  function CanProcess(expected: ClockTest, vector: seq<int>, message: string): Result<bool>
  {
    var parts := Split(message, ':');
    if |parts| < 2 then Err(IndexError)
    else
      match ParseInt(parts[1])
      case None => Err(ValueError)
      case Some(sender) =>
        if |parts| < 4 then Err(IndexError)
        else
          match ParseVectorField(parts[3])
          case Err(f) => Err(f)
          case Ok(v) => Ok(expected(vector, sender) == v)
  }

  /** receive_message on the abstract state. A frame that passes the test updates the clock,
      is appended to the queue and triggers a drain; one that fails is parked unchanged. */
  function Receive(expected: ClockTest, owner: int, b: Buffers, message: string): Effect<Buffers>
    decreases |b.pending|, 1
  {
    match ParseFrame(message)
    case Err(f) => Effect(b, Some(f))
    case Ok(fr) =>
      if expected(b.vector, fr.sender) == fr.vector then
        var u := Updated(b.vector, fr.vector, owner);
        if u.raised.Some? then Effect(b.(vector := u.state), u.raised)
        else Drain(expected, owner, b.(vector := u.state, queue := b.queue + [Delivery(fr.content, fr.senderIp)]))
      else Effect(b.(pending := b.pending + [Parked(message, fr.senderIp)]), None)
  }

  /** process_pending_messages on the abstract state: take the oldest parked frame; drop it
      when the test fails; hand it to receive_message when it passes. In that case the nested
      drain empties the queue (DeliveryEmptiesPending), so the outer loop ends there. */
  function Drain(expected: ClockTest, owner: int, b: Buffers): Effect<Buffers>
    decreases |b.pending|, 0
  {
    if b.pending == [] then Effect(b, None)
    else
      var head := b.pending[0];
      var rest := b.(pending := b.pending[1..]);
      match CanProcess(expected, b.vector, head.frame)
      case Err(f) => Effect(rest, Some(f))
      case Ok(pass) =>
        if pass then Receive(expected, owner, rest, head.frame)
        else Drain(expected, owner, rest)
  }

  /** The frame passes the clock test against vector. */
  predicate Passes(expected: ClockTest, vector: seq<int>, message: string)
  {
    ParseFrame(message).Ok? && expected(vector, ParseFrame(message).value.sender) == ParseFrame(message).value.vector
  }

  predicate IsSuffix<T(==)>(s: seq<T>, t: seq<T>)
  {
    |s| <= |t| && s == t[|t| - |s|..]
  }

  /** Every parked frame parses. */
  predicate ParkedFramesParse(b: Buffers)
  {
    forall i :: 0 <= i < |b.pending| ==> ParseFrame(b.pending[i].frame).Ok?
  }

  // ---------------------------------------------------------------------------------------
  // Framing

  lemma FrameSplit(content: string, sender: int, senderIp: string, v: seq<int>, vectorText: string)
    requires ':' !in content && ':' !in senderIp && ':' !in vectorText
    ensures Split(FrameText(content, sender, senderIp, vectorText), ':') == [content, IntToString(sender), senderIp, vectorText]
  {
    var id := IntToString(sender);
    IntToStringShape(sender);
    assert ':' !in id by {
      forall k | 0 <= k < |id| ensures id[k] != ':' { assert NumeralChar(id[k]); }
    }
    var pieces := [content, id, senderIp, vectorText];
    assert Join(pieces, ':') == FrameText(content, sender, senderIp, vectorText) by {
      assert Join(pieces[3..], ':') == vectorText;
      assert Join(pieces[2..], ':') == senderIp + [':'] + vectorText;
      assert Join(pieces[1..], ':') == id + [':'] + senderIp + [':'] + vectorText;
    }
    SplitJoin(pieces, ':');
  }

  lemma RenderHasNoFrameSeparators(v: seq<int>)
    ensures ':' !in Render(v) && '[' !in Render(v) && ']' !in Render(v)
  {
    RenderAlphabet(v);
    var r := Render(v);
    forall k | 0 <= k < |r| ensures r[k] != ':' && r[k] != '[' && r[k] != ']' {
      assert VectorTextChar(r[k]);
    }
  }

  /** The vector field as _build_message writes it parses back to the vector. */
  lemma VectorFieldRoundTrip(v: seq<int>)
    requires |v| > 0
    ensures ParseVectorField(Render(v)) == Ok(v)
  {
    var r := Render(v);
    RenderHasNoFrameSeparators(v);
    RemoveCharAbsent(r, '[');
    RemoveCharAbsent(r, ']');
    RenderRoundTrip(v);
    StrippedIntsAgree(Split(r, ','));
  }

  /** Parsing in receive_message recovers what _build_message framed, when the content and the
      ip hold no ':' and the vector is not empty. */
  lemma FrameRoundTrip(content: string, sender: int, senderIp: string, v: seq<int>)
    requires ':' !in content && ':' !in senderIp && |v| > 0
    ensures ParseFrame(FrameText(content, sender, senderIp, Render(v))) == Ok(Frame(content, sender, senderIp, v))
  {
    RenderHasNoFrameSeparators(v);
    FrameSplit(content, sender, senderIp, v, Render(v));
    IntToStringRoundTrip(sender);
    VectorFieldRoundTrip(v);
    ParseFourPieces(FrameText(content, sender, senderIp, Render(v)), content, IntToString(sender), senderIp, Render(v));
  }

  /** A message that splits into four well-formed pieces parses to them. */
  lemma ParseFourPieces(message: string, content: string, id: string, ip: string, field: string)
    requires Split(message, ':') == [content, id, ip, field]
    requires ParseInt(id).Some? && ParseVectorField(field).Ok?
    ensures ParseFrame(message) == Ok(Frame(content, ParseInt(id).value, ip, ParseVectorField(field).value))
  {
  }

  lemma BracketsRemoved(r: string)
    requires '[' !in r && ']' !in r
    ensures RemoveChar(RemoveChar("[" + r + "]", '['), ']') == r
  {
    var closed := r + "]";
    assert "[" + r + "]" == "[" + closed;
    RemoveCharConcat("[", closed, '[');
    RemoveCharAbsent(closed, '[');
    var once := RemoveChar("[" + r + "]", '[');
    assert once == closed;
    RemoveCharConcat(r, "]", ']');
    RemoveCharAbsent(r, ']');
    assert RemoveChar(closed, ']') == r + RemoveChar("]", ']');
  }

  /** A vector field wrapped in '[' ']' parses to the same vector. */
  lemma BracketedFieldRoundTrip(v: seq<int>)
    requires |v| > 0
    ensures ParseVectorField("[" + Render(v) + "]") == Ok(v)
  {
    var r := Render(v);
    RenderHasNoFrameSeparators(v);
    BracketsRemoved(r);
    RenderRoundTrip(v);
    StrippedIntsAgree(Split(r, ','));
  }

  /** The vector field may also arrive wrapped in '[' ']' (the printed form of a Python list). */
  lemma BracketedFrameRoundTrip(content: string, sender: int, senderIp: string, v: seq<int>)
    requires ':' !in content && ':' !in senderIp && |v| > 0
    ensures ParseFrame(FrameText(content, sender, senderIp, "[" + Render(v) + "]")) == Ok(Frame(content, sender, senderIp, v))
  {
    var r := Render(v);
    var field := "[" + r + "]";
    RenderHasNoFrameSeparators(v);
    assert ':' !in field by {
      forall k | 0 <= k < |field| ensures field[k] != ':' {
        if 0 < k < |field| - 1 { assert field[k] == r[k - 1]; }
      }
    }
    FrameSplit(content, sender, senderIp, v, field);
    IntToStringRoundTrip(sender);
    BracketedFieldRoundTrip(v);
    ParseFourPieces(FrameText(content, sender, senderIp, field), content, IntToString(sender), senderIp, field);
  }

  /** A ':' inside the content is taken for a field separator: the parsed content is never the
      content that was framed. */
  lemma ColonInContentIsLost(content: string, sender: int, senderIp: string, v: seq<int>)
    requires ':' in content
    ensures ParseFrame(FrameText(content, sender, senderIp, Render(v))).Ok? ==>
      ParseFrame(FrameText(content, sender, senderIp, Render(v))).value.content != content
  {
  }

  /** can_process_pending_message and receive_message apply the same test to the same fields
      and fail with the same exception. */
  lemma CanProcessAgreesWithReceive(expected: ClockTest, vector: seq<int>, message: string)
    ensures CanProcess(expected, vector, message).Err? <==> ParseFrame(message).Err?
    ensures CanProcess(expected, vector, message).Err? ==>
      CanProcess(expected, vector, message).fault == ParseFrame(message).fault
    ensures CanProcess(expected, vector, message) == Ok(true) <==> Passes(expected, vector, message)
  {
    var parts := Split(message, ':');
    if 2 <= |parts| && ParseInt(parts[1]).Some? && 4 <= |parts| {
      var sender := ParseInt(parts[1]).value;
      var field := ParseVectorField(parts[3]);
      if field.Ok? {
        assert ParseFrame(message) == Ok(Frame(parts[0], sender, parts[2], field.value));
        assert CanProcess(expected, vector, message) == Ok(expected(vector, sender) == field.value);
      }
    }
  }

  // ---------------------------------------------------------------------------------------
  // Delivery

  /** A frame that fails the test is parked as it came, with its ip; the clock and the message
      queue do not change. */
  lemma ReceiveParks(expected: ClockTest, owner: int, b: Buffers, message: string)
    requires ParseFrame(message).Ok? && !Passes(expected, b.vector, message)
    ensures Receive(expected, owner, b, message)
      == Effect(b.(pending := b.pending + [Parked(message, ParseFrame(message).value.senderIp)]), None)
  {
  }

  /** A frame that passes the test is delivered and never parked: its content and ip follow the
      old queue, the pending queue only loses frames, and unless something raised it is empty. */
  lemma {:induction false} DeliveryEmptiesPending(expected: ClockTest, owner: int, b: Buffers, message: string)
    requires Passes(expected, b.vector, message)
    ensures var r, fr := Receive(expected, owner, b, message), ParseFrame(message).value;
      && b.queue <= r.state.queue
      && |r.state.queue| <= |b.queue| + 1 + |b.pending|
      && IsSuffix(r.state.pending, b.pending)
      && (Updated(b.vector, fr.vector, owner).raised.None? ==>
            |r.state.queue| > |b.queue| && r.state.queue[|b.queue|] == Delivery(fr.content, fr.senderIp))
      && (r.raised.None? ==> r.state.pending == [])
    decreases |b.pending|, 1
  {
    var fr := ParseFrame(message).value;
    var u := Updated(b.vector, fr.vector, owner);
    if u.raised.None? {
      var b' := b.(vector := u.state, queue := b.queue + [Delivery(fr.content, fr.senderIp)]);
      DrainEmptiesPending(expected, owner, b');
    }
  }

  /** A drain ends with an empty pending queue unless something raised; it only appends to the
      message queue, at most once per parked frame, and only removes parked frames. */
  lemma {:induction false} DrainEmptiesPending(expected: ClockTest, owner: int, b: Buffers)
    ensures var r := Drain(expected, owner, b);
      && b.queue <= r.state.queue
      && |r.state.queue| <= |b.queue| + |b.pending|
      && IsSuffix(r.state.pending, b.pending)
      && (r.raised.None? ==> r.state.pending == [])
    decreases |b.pending|, 0
  {
    if b.pending != [] {
      var head := b.pending[0];
      var rest := b.(pending := b.pending[1..]);
      var verdict := CanProcess(expected, b.vector, head.frame);
      if verdict.Ok? {
        var r := if verdict.value then Receive(expected, owner, rest, head.frame) else Drain(expected, owner, rest);
        assert Drain(expected, owner, b) == r;
        if verdict.value {
          CanProcessAgreesWithReceive(expected, b.vector, head.frame);
          DeliveryEmptiesPending(expected, owner, rest, head.frame);
        } else {
          DrainEmptiesPending(expected, owner, rest);
        }
        SuffixOfTail(r.state.pending, b.pending);
      }
    }
  }

  lemma SuffixOfTail<T>(s: seq<T>, t: seq<T>)
    requires t != [] && IsSuffix(s, t[1..])
    ensures IsSuffix(s, t)
  {
    assert t[1..][|t| - 1 - |s|..] == t[|t| - |s|..];
  }

  /** A parked frame that fails the test is dropped: it is not put back. */
  lemma DrainDropsRejected(expected: ClockTest, owner: int, b: Buffers)
    requires b.pending != [] && CanProcess(expected, b.vector, b.pending[0].frame) == Ok(false)
    ensures Drain(expected, owner, b) == Drain(expected, owner, b.(pending := b.pending[1..]))
  {
  }

  /** receive_message never moves the clock back: update at Components/ThreadProcess.py:135
      only raises slots, and the drain it triggers only applies more updates. */
  lemma {:induction false} ReceiveGrowsClock(expected: ClockTest, owner: int, b: Buffers, message: string)
    ensures Dominates(Receive(expected, owner, b, message).state.vector, b.vector)
    decreases |b.pending|, 1
  {
    match ParseFrame(message)
    case Err(_) =>
    case Ok(fr) =>
      if expected(b.vector, fr.sender) == fr.vector {
        var u := Updated(b.vector, fr.vector, owner);
        UpdatedNeverGoesBack(b.vector, fr.vector, owner);
        if u.raised.None? {
          var b' := b.(vector := u.state, queue := b.queue + [Delivery(fr.content, fr.senderIp)]);
          DrainGrowsClock(expected, owner, b');
          DominatesTransitive(Drain(expected, owner, b').state.vector, u.state, b.vector);
        }
      }
  }

  /** process_pending_messages never moves the clock back. */
  lemma {:induction false} DrainGrowsClock(expected: ClockTest, owner: int, b: Buffers)
    ensures Dominates(Drain(expected, owner, b).state.vector, b.vector)
    decreases |b.pending|, 0
  {
    if b.pending != [] {
      var head := b.pending[0];
      var rest := b.(pending := b.pending[1..]);
      match CanProcess(expected, b.vector, head.frame)
      case Err(_) =>
      case Ok(pass) =>
        if pass {
          ReceiveGrowsClock(expected, owner, rest, head.frame);
        } else {
          DrainGrowsClock(expected, owner, rest);
        }
    }
  }

  /** Once a delivered frame's update succeeds, the clock receive_message ends with covers the
      frame's stamp slot by slot and is strictly after the clock before the delivery, whatever
      the drain that follows does. */
  lemma DeliveryCoversStamp(expected: ClockTest, owner: int, b: Buffers, message: string)
    requires Passes(expected, b.vector, message)
    requires Updated(b.vector, ParseFrame(message).value.vector, owner).raised.None?
    ensures var w, stamp := Receive(expected, owner, b, message).state.vector, ParseFrame(message).value.vector;
      && |w| == |b.vector|
      && (forall i :: 0 <= i < |w| ==> stamp[i] <= w[i])
      && Before(b.vector, w)
  {
    var fr := ParseFrame(message).value;
    var u := Updated(b.vector, fr.vector, owner).state;
    UpdatedDominatesBoth(b.vector, fr.vector, owner);
    var b' := b.(vector := u, queue := b.queue + [Delivery(fr.content, fr.senderIp)]);
    assert Receive(expected, owner, b, message) == Drain(expected, owner, b');
    DrainGrowsClock(expected, owner, b');
    var w := Drain(expected, owner, b').state.vector;
    DominatesTransitive(w, u, b.vector);
    var k := Slot(owner, |b.vector|).value;
    assert w[k] >= u[k] > b.vector[k];
  }

  /** When every parked frame parses, the only exception receive_message of a well-formed
      frame can raise is the IndexError of update: the parsing in
      can_process_pending_message and in the nested receive_message never fails. */
  lemma {:induction false} ReceiveRaisesOnlyUpdateFaults(expected: ClockTest, owner: int, b: Buffers, message: string)
    requires ParkedFramesParse(b) && ParseFrame(message).Ok?
    ensures Receive(expected, owner, b, message).raised in {None, Some(IndexError)}
    decreases |b.pending|, 1
  {
    var fr := ParseFrame(message).value;
    if expected(b.vector, fr.sender) == fr.vector {
      var u := Updated(b.vector, fr.vector, owner);
      UpdatedFaults(b.vector, fr.vector, owner);
      if u.raised.None? {
        var b' := b.(vector := u.state, queue := b.queue + [Delivery(fr.content, fr.senderIp)]);
        DrainRaisesOnlyUpdateFaults(expected, owner, b');
      }
    }
  }

  /** When every parked frame parses, a drain raises nothing but the IndexError of update. */
  lemma {:induction false} DrainRaisesOnlyUpdateFaults(expected: ClockTest, owner: int, b: Buffers)
    requires ParkedFramesParse(b)
    ensures Drain(expected, owner, b).raised in {None, Some(IndexError)}
    decreases |b.pending|, 0
  {
    if b.pending != [] {
      var head := b.pending[0];
      var rest := b.(pending := b.pending[1..]);
      TailKeepsParse(b);
      CanProcessAgreesWithReceive(expected, b.vector, head.frame);
      var pass := CanProcess(expected, b.vector, head.frame).value;
      if pass {
        assert Drain(expected, owner, b) == Receive(expected, owner, rest, head.frame);
        ReceiveRaisesOnlyUpdateFaults(expected, owner, rest, head.frame);
      } else {
        assert Drain(expected, owner, b) == Drain(expected, owner, rest);
        DrainRaisesOnlyUpdateFaults(expected, owner, rest);
      }
    }
  }

  /** The parked frames after the oldest one still parse, and so does the oldest. */
  lemma TailKeepsParse(b: Buffers)
    requires b.pending != [] && ParkedFramesParse(b)
    ensures ParseFrame(b.pending[0].frame).Ok?
    ensures ParkedFramesParse(b.(pending := b.pending[1..]))
  {
    forall i | 0 <= i < |b.pending| - 1 ensures ParseFrame(b.pending[1..][i].frame).Ok? {
      assert b.pending[1..][i] == b.pending[i + 1];
    }
  }

  /** Only frames that parsed are ever parked, so a parked frame never fails to parse later. */
  lemma ReceiveKeepsParkedFramesParsable(expected: ClockTest, owner: int, b: Buffers, message: string)
    requires ParkedFramesParse(b)
    ensures ParkedFramesParse(Receive(expected, owner, b, message).state)
  {
    var r := Receive(expected, owner, b, message);
    if Passes(expected, b.vector, message) {
      DeliveryEmptiesPending(expected, owner, b, message);
      SuffixKeepsParse(r.state, b);
    } else if ParseFrame(message).Ok? {
      ReceiveParks(expected, owner, b, message);
    }
  }

  lemma SuffixKeepsParse(c: Buffers, b: Buffers)
    requires IsSuffix(c.pending, b.pending) && ParkedFramesParse(b)
    ensures ParkedFramesParse(c)
  {
    forall i | 0 <= i < |c.pending| ensures ParseFrame(c.pending[i].frame).Ok? {
      assert c.pending[i] == b.pending[|b.pending| - |c.pending| + i];
    }
  }

  /** send_message ticks the clock before framing: the frame carries the post-increment vector,
      which happens after the clock before the send. */
  lemma SentFrameCarriesTick(content: string, owner: int, senderIp: string, v: seq<int>)
    requires ':' !in content && ':' !in senderIp && Ticked(v, owner).Ok?
    ensures var w := Ticked(v, owner).value;
      ParseFrame(FrameText(content, owner, senderIp, Render(w))) == Ok(Frame(content, owner, senderIp, w))
      && Before(v, w)
  {
    TickedAdvancesOwnSlot(v, owner);
    FrameRoundTrip(content, owner, senderIp, Ticked(v, owner).value);
  }

  // ---------------------------------------------------------------------------------------

  /** One process of the causal-delivery layer: its clock and its two FIFO queues. */
  class ThreadProcess {
    const processId: int
    const clock: VectorClock
    const expected: ClockTest
    var messageQueue: seq<Delivery>
    var pendingMessages: seq<Parked>

    constructor (processId: int, totalProcesses: int, expected: ClockTest)
      ensures fresh(clock) && clock.processId == processId && clock.vector == Zeros(totalProcesses)
      ensures this.processId == processId && this.expected == expected
      ensures messageQueue == [] && pendingMessages == []
    {
      this.processId := processId;
      clock := new VectorClock(totalProcesses, processId);
      this.expected := expected;
      messageQueue := [];
      pendingMessages := [];
    }

    function State(): Buffers
      reads this, clock
    {
      Buffers(clock.vector, messageQueue, pendingMessages)
    }

    function BuildMessage(message: string, senderIp: string): string
      reads this, clock
    {
      FrameText(message, processId, senderIp, clock.SendVector())
    }

    /** The clock and framing part of send_message; the frame is what goes to the socket. */
    method SendMessage(message: string, localIp: string) returns (frame: Result<string>)
      modifies clock
      ensures Ticked(old(clock.vector), clock.processId).Err? ==>
        clock.vector == old(clock.vector) && frame == Err(IndexError)
      ensures Ticked(old(clock.vector), clock.processId).Ok? ==>
        clock.vector == Ticked(old(clock.vector), clock.processId).value
        && frame == Ok(FrameText(message, processId, localIp, Render(clock.vector)))
    {
      var raised := clock.Increment();
      if raised.Some? {
        return Err(raised.value);
      }
      frame := Ok(BuildMessage(message, localIp));
    }

    function CanProcessPendingMessage(message: string): Result<bool>
      reads this, clock
    {
      CanProcess(expected, clock.vector, message)
    }

    method ReceiveMessage(message: string) returns (raised: Option<Fault>)
      modifies this, clock
      ensures State() == Receive(expected, clock.processId, old(State()), message).state
      ensures raised == Receive(expected, clock.processId, old(State()), message).raised
      decreases |pendingMessages|, 1
    {
      var parsed := ParseFrame(message);
      if parsed.Err? {
        return Some(parsed.fault);
      }
      var fr := parsed.value;
      if expected(clock.vector, fr.sender) == fr.vector {
        raised := clock.Update(fr.vector);
        if raised.Some? {
          return;
        }
        messageQueue := messageQueue + [Delivery(fr.content, fr.senderIp)];
        raised := ProcessPendingMessages();
      } else {
        pendingMessages := pendingMessages + [Parked(message, fr.senderIp)];
        raised := None;
      }
    }

    method ProcessPendingMessages() returns (raised: Option<Fault>)
      modifies this, clock
      ensures State() == Drain(expected, clock.processId, old(State())).state
      ensures raised == Drain(expected, clock.processId, old(State())).raised
      decreases |pendingMessages|, 0
    {
      while pendingMessages != []
        invariant |pendingMessages| <= old(|pendingMessages|)
        invariant Drain(expected, clock.processId, State()) == Drain(expected, clock.processId, old(State()))
        decreases |pendingMessages|
      {
        var head := pendingMessages[0];
        pendingMessages := pendingMessages[1..];
        ghost var rest := State();
        var verdict := CanProcessPendingMessage(head.frame);
        if verdict.Err? {
          return Some(verdict.fault);
        }
        if verdict.value {
          CanProcessAgreesWithReceive(expected, clock.vector, head.frame);
          DeliveryEmptiesPending(expected, clock.processId, rest, head.frame);
          raised := ReceiveMessage(head.frame);
          if raised.Some? {
            return;
          }
        }
      }
      raised := None;
    }
  }
}
