/** The Fidge/Mattern vector clock of Components/VectorClock.py: one integer slot per process,
    the owner's slot advanced on each local event, pointwise maximum on receipt, and a
    comma-separated text form for the wire. */
module VectorClocks {
  import opened Outcomes
  import opened Text

  function Max(a: int, b: int): int { if a < b then b else a }

  /** Python list indexing: a list of length n accepts the indices -n .. n-1, the negative
      ones counting from the end; any other index raises IndexError (None here). */
  function Slot(index: int, n: nat): (r: Option<nat>)
    ensures r.Some? ==> r.value < n
  {
    if 0 <= index < n then Some(index)
    else if -(n as int) <= index < 0 then Some(index + n)
    else None
  }

  /** [0] * n: n zeros, or the empty list when n is not positive. */
  function Zeros(n: int): seq<int>
  {
    seq(if n < 0 then 0 else n, _ => 0)
  }

  /** increment: the owner's slot plus one; IndexError when the owner's id is not an index. */
  function Ticked(v: seq<int>, owner: int): Result<seq<int>>
  {
    match Slot(owner, |v|)
    case None => Err(IndexError)
    case Some(k) => Ok(v[k := v[k] + 1])
  }

  /** The list comprehension of update: max of both vectors slot by slot over the length of
      the local vector; IndexError as soon as the received vector runs out. */
  function Merged(v: seq<int>, received: seq<int>): Result<seq<int>>
  {
    if |received| < |v| then Err(IndexError)
    else Ok(seq(|v|, i requires 0 <= i < |v| => Max(v[i], received[i])))
  }

  /** update: the merge replaces the vector, then the owner's slot is advanced. A short received
      vector raises before anything changes; a bad owner id raises after the merge is stored. */
  function Updated(v: seq<int>, received: seq<int>, owner: int): Effect<seq<int>>
  {
    match Merged(v, received)
    case Err(f) => Effect(v, Some(f))
    case Ok(m) =>
      match Ticked(m, owner)
      case Err(f) => Effect(m, Some(f))
      case Ok(w) => Effect(w, None)
  }

  /** w is at least v in every slot, and they have the same length. */
  predicate Dominates(w: seq<int>, v: seq<int>)
  {
    |w| == |v| && forall i :: 0 <= i < |v| ==> v[i] <= w[i]
  }

  /** The happened-before order of vector timestamps: dominated and different. */
  predicate Before(v: seq<int>, w: seq<int>)
  {
    Dominates(w, v) && v != w
  }

  function Renderings(v: seq<int>): (pieces: seq<string>)
    ensures |pieces| == |v|
  {
    if v == [] then [] else [IntToString(v[0])] + Renderings(v[1..])
  }

  /** send_vector: the decimal form of each slot, joined by ','. */
  function Render(v: seq<int>): string
  {
    Join(Renderings(v), ',')
  }

  /** int() of every piece, left to right; the first failure is the ValueError. */
  function ParseInts(pieces: seq<string>): Result<seq<int>>
  {
    if pieces == [] then Ok([])
    else
      match ParseInt(pieces[0])
      case None => Err(ValueError)
      case Some(x) =>
        match ParseInts(pieces[1..])
        case Err(f) => Err(f)
        case Ok(xs) => Ok([x] + xs)
  }

  /** receive_vector: split at ',' and int() each piece. */
  function ParseVector(s: string): Result<seq<int>>
  {
    ParseInts(Split(s, ','))
  }

  predicate VectorTextChar(c: char) { NumeralChar(c) || c == ',' }

  // ---------------------------------------------------------------------------------------
  // Properties of the clock operations

  /** increment adds exactly one to the owner's slot and keeps the length and every other slot. */
  lemma TickedAdvancesOwnSlot(v: seq<int>, owner: int)
    ensures Ticked(v, owner).Ok? <==> Slot(owner, |v|).Some?
    ensures Ticked(v, owner).Ok? ==>
      var w, k := Ticked(v, owner).value, Slot(owner, |v|).value;
      |w| == |v| && w[k] == v[k] + 1 && (forall i :: 0 <= i < |v| && i != k ==> w[i] == v[i])
      && Before(v, w)
  {
  }

  /** update fails exactly on a short received vector (nothing changes) or a bad owner id
      (the merge is kept); otherwise the new vector has the old length. */
  lemma UpdatedFaults(v: seq<int>, received: seq<int>, owner: int)
    ensures var e := Updated(v, received, owner);
      && (e.raised.Some? <==> |received| < |v| || Slot(owner, |v|).None?)
      && (e.raised.Some? ==> e.raised == Some(IndexError))
      && (|received| < |v| ==> e.state == v)
      && (|received| >= |v| && Slot(owner, |v|).None? ==> e.state == Merged(v, received).value)
      && |e.state| == |v|
  {
  }

  /** After update the vector dominates the old vector and the received one, and is strictly
      ahead of both in the owner's slot. */
  lemma UpdatedDominatesBoth(v: seq<int>, received: seq<int>, owner: int)
    requires Updated(v, received, owner).raised.None?
    ensures var w, k := Updated(v, received, owner).state, Slot(owner, |v|).value;
      && Dominates(w, v) && Before(v, w)
      && (forall i :: 0 <= i < |v| ==> received[i] <= w[i])
      && w[k] > v[k] && w[k] > received[k]
  {
    var m := Merged(v, received).value;
    var k := Slot(owner, |v|).value;
    var w := Updated(v, received, owner).state;
    assert w == m[k := m[k] + 1];
    assert w[k] != v[k];
  }

  /** update never moves the clock back, whether it raises or not: a short received vector
      leaves it as it was, a bad owner id leaves the merge. */
  lemma UpdatedNeverGoesBack(v: seq<int>, received: seq<int>, owner: int)
    ensures Dominates(Updated(v, received, owner).state, v)
  {
    match Merged(v, received)
    case Err(_) =>
    case Ok(m) =>
      assert Dominates(m, v);
      match Ticked(m, owner)
      case Err(_) =>
      case Ok(w) =>
        var k := Slot(owner, |m|).value;
        assert forall i :: 0 <= i < |v| ==> w[i] == if i == k then m[i] + 1 else m[i];
  }

  lemma DominatesTransitive(u: seq<int>, w: seq<int>, v: seq<int>)
    requires Dominates(u, w) && Dominates(w, v)
    ensures Dominates(u, v)
  {
  }

  /** The merge is the least vector above both: any vector that dominates the local vector
      and the received one (over the local length) dominates the merge. */
  lemma MergedIsLeastUpperBound(v: seq<int>, received: seq<int>, u: seq<int>)
    requires |received| >= |v|
    requires Dominates(u, v)
    requires forall i :: 0 <= i < |v| ==> received[i] <= u[i]
    ensures Merged(v, received).Ok? && Dominates(u, Merged(v, received).value)
  {
  }

  /** The clock condition: the timestamp a sender puts on a message happens before the
      receiver's clock once the receiver has applied update with it. */
  lemma SendHappensBeforeReceive(senderBefore: seq<int>, sender: int, receiverBefore: seq<int>, receiver: int)
    requires Ticked(senderBefore, sender).Ok?
    requires |senderBefore| == |receiverBefore|
    requires Slot(receiver, |receiverBefore|).Some?
    ensures var stamp := Ticked(senderBefore, sender).value;
      var e := Updated(receiverBefore, stamp, receiver);
      e.raised.None? && Before(stamp, e.state) && Before(receiverBefore, e.state)
  {
    var stamp := Ticked(senderBefore, sender).value;
    var e := Updated(receiverBefore, stamp, receiver);
    UpdatedFaults(receiverBefore, stamp, receiver);
    UpdatedDominatesBoth(receiverBefore, stamp, receiver);
    var k := Slot(receiver, |receiverBefore|).value;
    assert e.state[k] != stamp[k];
  }

  // ---------------------------------------------------------------------------------------
  // The text form

  lemma ParseIntsCons(piece: string, x: int, rest: seq<string>, xs: seq<int>)
    requires ParseInt(piece) == Some(x) && ParseInts(rest) == Ok(xs)
    ensures ParseInts([piece] + rest) == Ok([x] + xs)
  {
    assert ([piece] + rest)[1..] == rest;
  }

  lemma {:induction false} ParseRenderings(v: seq<int>)
    ensures ParseInts(Renderings(v)) == Ok(v)
  {
    if v != [] {
      var head, tail := IntToString(v[0]), Renderings(v[1..]);
      assert Renderings(v) == [head] + tail;
      IntToStringRoundTrip(v[0]);
      ParseRenderings(v[1..]);
      ParseIntsCons(head, v[0], tail, v[1..]);
      assert [v[0]] + v[1..] == v;
    }
  }

  /** receive_vector(send_vector(v)) == v for every non-empty vector. */
  lemma RenderRoundTrip(v: seq<int>)
    requires |v| > 0
    ensures ParseVector(Render(v)) == Ok(v)
  {
    var pieces := Renderings(v);
    forall i | 0 <= i < |pieces| ensures ',' !in pieces[i] {
      RenderingsAlphabet(v, i);
    }
    SplitJoin(pieces, ',');
    ParseRenderings(v);
  }

  /** The empty vector is sent as "" and "" does not parse back: int('') raises ValueError. */
  lemma EmptyVectorDoesNotRoundTrip()
    ensures Render([]) == ""
    ensures ParseVector("") == Err(ValueError)
  {
    assert Split("", ',') == [""];
  }

  lemma {:induction false} RenderingsAlphabet(v: seq<int>, i: nat)
    requires i < |v|
    ensures Renderings(v)[i] == IntToString(v[i])
    ensures forall k :: 0 <= k < |Renderings(v)[i]| ==> NumeralChar(Renderings(v)[i][k])
  {
    if i > 0 {
      RenderingsAlphabet(v[1..], i - 1);
    }
    IntToStringShape(v[i]);
  }

  /** send_vector writes only digits, '-' and ','; in particular no ':', '<', '[', ']' or newline. */
  lemma {:induction false} RenderAlphabet(v: seq<int>)
    ensures forall k :: 0 <= k < |Render(v)| ==> VectorTextChar(Render(v)[k])
  {
    if |v| >= 2 {
      RenderAlphabet(v[1..]);
      IntToStringShape(v[0]);
      assert Renderings(v)[1..] == Renderings(v[1..]);
      assert Render(v) == IntToString(v[0]) + [','] + Render(v[1..]);
    } else if |v| == 1 {
      IntToStringShape(v[0]);
    }
  }

  // ---------------------------------------------------------------------------------------

  /** The clock object of one process: the vector is updated in place. */
  class VectorClock {
    var vector: seq<int>
    const processId: int

    constructor (numberProcesses: int, processId: int)
      ensures vector == Zeros(numberProcesses) && this.processId == processId
    {
      vector := Zeros(numberProcesses);
      this.processId := processId;
    }

    method Increment() returns (raised: Option<Fault>)
      modifies this
      ensures Ticked(old(vector), processId).Ok? ==> vector == Ticked(old(vector), processId).value && raised == None
      ensures Ticked(old(vector), processId).Err? ==> vector == old(vector) && raised == Some(IndexError)
    {
      var slot := Slot(processId, |vector|);
      if slot.None? {
        return Some(IndexError);
      }
      var k := slot.value;
      vector := vector[k := vector[k] + 1];
      raised := None;
    }

    method Update(received: seq<int>) returns (raised: Option<Fault>)
      modifies this
      ensures vector == Updated(old(vector), received, processId).state
      ensures raised == Updated(old(vector), received, processId).raised
    {
      var v := vector;
      if |received| < |v| {
        return Some(IndexError);
      }
      vector := seq(|v|, i requires 0 <= i < |v| => Max(v[i], received[i]));
      raised := Increment();
    }

    function SendVector(): string
      reads this
    {
      Render(vector)
    }
  }
}
