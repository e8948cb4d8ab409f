/** The second framing of Components/Server1.py: the vector travels inside the message text as
    msg<br>[<strong>v0,v1,...</strong>], is found again with the regular expression
    <strong>(.*?)</strong>, and is merged into the receiver's clock with no causal check. */
module HtmlFraming {
  import opened Outcomes
  import opened Text
  import opened VectorClocks

  const OpenTag: string := "<strong>"
  const CloseTag: string := "</strong>"

  /** What Process.send_message writes between the message and the vector, and after the vector. */
  const Opening: string := "<br>[<strong>"
  const Closing: string := "</strong>]"

  /** The text Process.send_message hands to the socket. */
  function HtmlFrame(message: string, vectorText: string): string
  {
    message + Opening + vectorText + Closing
  }

  /** The lazy group (.*?)</strong> from position j: the first close tag reached before any
      newline ('.' does not match a newline), or no match. */
  function LazyClose(s: string, j: nat): (r: Option<nat>)
    requires j <= |s|
    ensures r.Some? ==> j <= r.value && At(s, r.value, CloseTag)
    ensures r.Some? ==> forall k :: j <= k < r.value ==> s[k] != '\n' && !At(s, k, CloseTag)
    decreases |s| - j
  {
    if At(s, j, CloseTag) then Some(j)
    else if j == |s| || s[j] == '\n' then None
    else LazyClose(s, j + 1)
  }

  /** re.search from position i: the leftmost start of <strong> that has a lazy close after it;
      the result is the span of the captured group. */
  function Search(s: string, i: nat): (r: Option<(nat, nat)>)
    requires i <= |s|
    ensures r.Some? ==>
      && i + |OpenTag| <= r.value.0 <= r.value.1 <= |s|
      && At(s, r.value.0 - |OpenTag|, OpenTag)
      && LazyClose(s, r.value.0) == Some(r.value.1)
    decreases |s| - i
  {
    if At(s, i, OpenTag) && LazyClose(s, i + |OpenTag|).Some? then
      Some((i + |OpenTag|, LazyClose(s, i + |OpenTag|).value))
    else if i == |s| then None
    else Search(s, i + 1)
  }

  /** extrair_vetor: the text of the first <strong>...</strong> group, split at ',' and int()-ed.
      With no match, match.group is an attribute lookup on None. */
  function ExtractVector(text: string): Result<seq<int>>
  {
    match Search(text, 0)
    case None => Err(AttributeError)
    case Some(span) => ParseVector(text[span.0..span.1])
  }

  /** A match starts at k: an open tag there, and a close tag after it on the same line. */
  predicate MatchAt(s: string, k: nat)
  {
    At(s, k, OpenTag) && LazyClose(s, k + |OpenTag|).Some?
  }

  /** re.search finds the leftmost match: none starts before the one it reports, and when it
      reports none there is none at all. */
  lemma {:induction false} SearchIsLeftmost(s: string, i: nat)
    requires i <= |s|
    ensures Search(s, i).Some? ==> forall k :: i <= k < Search(s, i).value.0 - |OpenTag| ==> !MatchAt(s, k)
    ensures Search(s, i).None? ==> forall k :: i <= k <= |s| ==> !MatchAt(s, k)
    decreases |s| - i
  {
    if !MatchAt(s, i) && i < |s| {
      SearchIsLeftmost(s, i + 1);
    }
  }

  predicate HasOpenTag(s: string)
  {
    exists k :: 0 <= k <= |s| && At(s, k, OpenTag)
  }

  // ---------------------------------------------------------------------------------------

  /** Positions with no close tag and no newline do not stop the lazy group. */
  lemma {:induction false} LazyCloseSkips(s: string, j: nat, k: nat)
    requires j <= k <= |s|
    requires forall x :: j <= x < k ==> s[x] != '\n' && !At(s, x, CloseTag)
    ensures LazyClose(s, j) == LazyClose(s, k)
    decreases k - j
  {
    if j < k {
      LazyCloseSkips(s, j + 1, k);
    }
  }

  /** Positions where no open tag starts do not stop the search. */
  lemma {:induction false} SearchSkips(s: string, i: nat, k: nat)
    requires i <= k <= |s|
    requires forall x :: i <= x < k ==> !At(s, x, OpenTag)
    ensures Search(s, i) == Search(s, k)
    decreases k - i
  {
    if i < k {
      SearchSkips(s, i + 1, k);
    }
  }

  /** Where each part of a frame sits. */
  lemma HtmlFrameLayout(m: string, r: string)
    ensures var s := HtmlFrame(m, r);
      && |s| == |m| + 13 + |r| + 10
      && s[..|m|] == m
      && s[|m|..|m| + 13] == Opening
      && s[|m| + 13..|m| + 13 + |r|] == r
      && s[|m| + 13 + |r|..] == Closing
  {
  }

  /** No open tag starts before the one Process.send_message writes, when the message has none. */
  lemma NoEarlierOpenTag(m: string, r: string, x: nat)
    requires !HasOpenTag(m)
    requires x < |m| + 5
    ensures !At(HtmlFrame(m, r), x, OpenTag)
  {
    var s := HtmlFrame(m, r);
    HtmlFrameLayout(m, r);
    if x + 8 <= |m| {
      assert s[x..x + 8] == m[x..x + 8];
      assert !At(m, x, OpenTag);
    } else if x < |m| {
      // the tag would have to cover s[|m|] == '<', which only its first character is
      NotAtWhenCharDiffers(s, x, OpenTag, |m| - x);
    } else if x == |m| {
      NotAtWhenCharDiffers(s, x, OpenTag, 1);
    } else {
      NotAtWhenCharDiffers(s, x, OpenTag, 0);
    }
  }

  /** The lazy group runs to the first close tag when the text before it has no newline
      and no '<'. */
  lemma LazyCloseFinds(s: string, a: nat, b: nat)
    requires a <= b <= |s| && At(s, b, CloseTag)
    requires forall x :: a <= x < b ==> s[x] != '\n' && s[x] != '<'
    ensures LazyClose(s, a) == Some(b)
  {
    forall x | a <= x < b ensures s[x] != '\n' && !At(s, x, CloseTag) {
      NotAtWhenCharDiffers(s, x, CloseTag, 0);
    }
    LazyCloseSkips(s, a, b);
  }

  /** Between a prefix and a suffix that starts with a close tag, a text with no newline and
      no '<' is exactly what the lazy group captures. */
  lemma GroupBetween(p: string, r: string, q: string)
    requires forall k :: 0 <= k < |r| ==> r[k] != '\n' && r[k] != '<'
    requires At(q, 0, CloseTag)
    ensures LazyClose(p + r + q, |p|) == Some(|p| + |r|)
  {
    var s := p + r + q;
    assert s == p + r + q + [];
    AtExtended(p + r, q, [], 0, CloseTag);
    PlainMiddle(p, r, q);
    LazyCloseFinds(s, |p|, |p| + |r|);
  }

  /** The characters of the middle part keep their values in the joined text. */
  lemma PlainMiddle(p: string, r: string, q: string)
    requires forall k :: 0 <= k < |r| ==> r[k] != '\n' && r[k] != '<'
    ensures forall x :: |p| <= x < |p| + |r| ==> (p + r + q)[x] != '\n' && (p + r + q)[x] != '<'
  {
    forall x | |p| <= x < |p| + |r| ensures (p + r + q)[x] == r[x - |p|] {
    }
  }

  /** The lazy group opened by the frame's own tag closes right after the vector text, when
      that text has no newline and no '<'. */
  lemma FrameGroupCloses(m: string, r: string)
    requires forall k :: 0 <= k < |r| ==> r[k] != '\n' && r[k] != '<'
    ensures LazyClose(HtmlFrame(m, r), |m + Opening|) == Some(|m + Opening| + |r|)
  {
    assert At(Closing, 0, CloseTag);
    GroupBetween(m + Opening, r, Closing);
  }

  /** The fixed parts of a frame: the open tag ends the opening, the close tag starts the closing. */
  lemma FrameParts()
    ensures |Opening| == 13 && At(Opening, 5, OpenTag)
    ensures |Closing| == 10 && At(Closing, 0, CloseTag)
  {
    assert Opening[5..13] == OpenTag;
    assert Closing[0..9] == CloseTag;
  }

  /** An occurrence stays one when text is added in front (shifted) or behind. */
  lemma AtExtended(p: string, q: string, z: string, i: nat, t: string)
    requires At(q, i, t)
    ensures At(p + q + z, |p| + i, t)
  {
    assert (p + q + z)[|p| + i..|p| + i + |t|] == q[i..i + |t|];
  }

  /** A match starting at i is the one re.search reports from i. */
  lemma SearchStartsAt(s: string, i: nat, e: nat)
    requires At(s, i, OpenTag) && LazyClose(s, i + 8) == Some(e)
    ensures Search(s, i) == Some((i + 8, e))
  {
  }

  /** No match starts in a frame before the open tag Process.send_message writes. */
  lemma FrameSkipsToTag(m: string, r: string)
    requires !HasOpenTag(m)
    ensures Search(HtmlFrame(m, r), 0) == Search(HtmlFrame(m, r), |m| + 5)
  {
    var s := HtmlFrame(m, r);
    forall x | 0 <= x < |m| + 5 ensures !At(s, x, OpenTag) {
      NoEarlierOpenTag(m, r, x);
    }
    SearchSkips(s, 0, |m| + 5);
  }

  /** The open tag Process.send_message writes sits five characters after the message. */
  lemma FrameTagAt(m: string, r: string)
    ensures At(HtmlFrame(m, r), |m| + 5, OpenTag)
  {
    FrameParts();
    AtExtended(m, Opening, r + Closing, 5, OpenTag);
    assert HtmlFrame(m, r) == m + Opening + (r + Closing);
  }

  /** re.search on a frame from Process.send_message finds the group around the vector text. */
  lemma SearchFindsFrame(m: string, r: string)
    requires !HasOpenTag(m)
    requires forall k :: 0 <= k < |r| ==> r[k] != '\n' && r[k] != '<'
    ensures Search(HtmlFrame(m, r), 0) == Some((|m| + 13, |m| + 13 + |r|))
  {
    FrameSkipsToTag(m, r);
    FrameMatchesAtTag(m, r, |m| + 5);
  }

  /** re.search from the frame's own open tag reports the group around the vector text. */
  lemma FrameMatchesAtTag(m: string, r: string, i: nat)
    requires i == |m| + 5
    requires forall k :: 0 <= k < |r| ==> r[k] != '\n' && r[k] != '<'
    ensures i + 8 + |r| <= |HtmlFrame(m, r)|
    ensures Search(HtmlFrame(m, r), i) == Some((i + 8, i + 8 + |r|))
  {
    FrameTagAt(m, r);
    FrameGroupAt(m, r, i);
    SearchStartsAt(HtmlFrame(m, r), i, i + 8 + |r|);
  }

  /** The lazy group opened by the frame's own tag, in absolute positions: the tag starts at i. */
  lemma FrameGroupAt(m: string, r: string, i: nat)
    requires i == |m| + 5
    requires forall k :: 0 <= k < |r| ==> r[k] != '\n' && r[k] != '<'
    ensures |HtmlFrame(m, r)| == i + 8 + |r| + 10
    ensures LazyClose(HtmlFrame(m, r), i + 8) == Some(i + 8 + |r|)
  {
    assert |m + Opening| == i + 8;
    FrameGroupCloses(m, r);
  }

  /** extrair_vetor on a frame from Process.send_message gives back the sender's vector, when
      the message text holds no <strong> and the vector is not empty. */
  lemma ExtractSentVector(m: string, v: seq<int>)
    requires !HasOpenTag(m) && |v| > 0
    ensures ExtractVector(HtmlFrame(m, Render(v))) == Ok(v)
  {
    var r := Render(v);
    RenderAlphabet(v);
    forall k | 0 <= k < |r| ensures r[k] != '\n' && r[k] != '<' {
      assert VectorTextChar(r[k]);
    }
    SearchFindsFrame(m, r);
    HtmlFrameLayout(m, r);
    RenderRoundTrip(v);
  }

  /** A text with no <strong> has no match: match.group raises AttributeError. */
  lemma ExtractWithoutTagFails(text: string)
    requires !HasOpenTag(text)
    ensures ExtractVector(text) == Err(AttributeError)
  {
  }

  /** A successful extraction read the text between the leftmost open tag that has a close
      tag after it on the same line and the first close tag after that open tag. */
  lemma ExtractReadsTaggedText(text: string)
    requires ExtractVector(text).Ok?
    ensures exists a: nat, b: nat ::
      (8 <= a <= b <= |text| && At(text, a - 8, OpenTag) && At(text, b, CloseTag)
       && '\n' !in text[a..b] && (forall k :: a <= k < b ==> !At(text, k, CloseTag))
       && (forall x :: 0 <= x < a - 8 ==> !MatchAt(text, x))
       && ExtractVector(text) == ParseVector(text[a..b]))
  {
    var span := Search(text, 0).value;
    var a, b := span.0, span.1;
    assert '\n' !in text[a..b] by {
      forall k | a <= k < b ensures text[k] != '\n' { }
    }
    assert forall k :: a <= k < b ==> !At(text, k, CloseTag);
    SearchIsLeftmost(text, 0);
    assert 8 <= a <= b <= |text| && At(text, a - 8, OpenTag) && At(text, b, CloseTag);
    assert ExtractVector(text) == ParseVector(text[a..b]);
  }

  // ---------------------------------------------------------------------------------------

  /** A message the process handed to its socket, with the address it was sent to. */
  datatype Outgoing = Outgoing(address: string, text: string)

  /** The Process class of Server1.py: a clock and the messages given to the socket. */
  class Process {
    const processId: int
    const clock: VectorClock
    var outbox: seq<Outgoing>

    constructor (processId: int, totalProcesses: int)
      ensures fresh(clock) && clock.processId == processId && clock.vector == Zeros(totalProcesses)
      ensures this.processId == processId && outbox == []
    {
      this.processId := processId;
      clock := new VectorClock(totalProcesses, processId);
      outbox := [];
    }

    /** Tick, then send the message with the new vector appended in the HTML framing. */
    method SendMessage(message: string, sendAddress: string) returns (raised: Option<Fault>)
      modifies this, clock
      ensures Ticked(old(clock.vector), clock.processId).Err? ==>
        clock.vector == old(clock.vector) && outbox == old(outbox) && raised == Some(IndexError)
      ensures Ticked(old(clock.vector), clock.processId).Ok? ==>
        && clock.vector == Ticked(old(clock.vector), clock.processId).value
        && outbox == old(outbox) + [Outgoing(sendAddress, HtmlFrame(message, Render(clock.vector)))]
        && raised == None
    {
      raised := clock.Increment();
      if raised.Some? {
        return;
      }
      var vectorString := clock.SendVector();
      outbox := outbox + [Outgoing(sendAddress, HtmlFrame(message, vectorString))];
    }

    /** extrair_vetor, then update with the result: no causal check and no buffering. */
    method ReceiveMessage(message: string) returns (raised: Option<Fault>)
      modifies clock
      ensures ExtractVector(message).Err? ==>
        clock.vector == old(clock.vector) && raised == Some(ExtractVector(message).fault)
      ensures ExtractVector(message).Ok? ==>
        var e := Updated(old(clock.vector), ExtractVector(message).value, clock.processId);
        clock.vector == e.state && raised == e.raised
    {
      var extracted := ExtractVector(message);
      if extracted.Err? {
        return Some(extracted.fault);
      }
      raised := clock.Update(extracted.value);
    }
  }

  /** One HTML-framed message between two processes with clocks of the same length: the
      receiver's clock ends strictly after the vector the sender put on the message. */
  lemma HtmlSendHappensBeforeReceive(m: string, senderBefore: seq<int>, sender: int, receiverBefore: seq<int>, receiver: int)
    requires !HasOpenTag(m)
    requires Ticked(senderBefore, sender).Ok?
    requires |senderBefore| == |receiverBefore| && Slot(receiver, |receiverBefore|).Some?
    ensures var stamp := Ticked(senderBefore, sender).value;
      && ExtractVector(HtmlFrame(m, Render(stamp))) == Ok(stamp)
      && Updated(receiverBefore, stamp, receiver).raised.None?
      && Before(stamp, Updated(receiverBefore, stamp, receiver).state)
  {
    var stamp := Ticked(senderBefore, sender).value;
    TickedAdvancesOwnSlot(senderBefore, sender);
    ExtractSentVector(m, stamp);
    SendHappensBeforeReceive(senderBefore, sender, receiverBefore, receiver);
  }
}
