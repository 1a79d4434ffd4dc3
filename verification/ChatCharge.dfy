/** The answer stream that settles once, however it is consumed. */
module ChatCharge {
  import opened Wrappers

  /** What the consumer asks of the iterator, and what the source answers. */
  datatype Call =
    | NextChunk(text: string)
    | NextDone
    | NextFails
    | Return
    | Throw

  /** A ledger write: by the provider's count, or by an estimate from the text streamed so far. */
  datatype Charge = ByProvider | Estimated(text: string)

  /**
   * What the meter holds at a call: the provider's count, or nothing, and then
   * the tokens an estimate would count, absent when counting them throws.
   */
  datatype Meter = Reported | Silent(estimate: Option<nat>)

  /** A failed estimate leaves the meter empty, as does one of no tokens, and the ledger writes nothing for it. */
  function ChargeOf(m: Meter, text: string): seq<Charge> {
    if m.Reported? then [ByProvider]
    else if m.estimate.Some? && m.estimate.value > 0 then [Estimated(text)]
    else []
  }

  predicate Ends(c: Call) { !c.NextChunk? }

  class Stream {
    var settled: bool
    var streamed: string
    var charges: seq<Charge>

    constructor ()
      ensures !settled && streamed == "" && charges == []
    {
      settled, streamed, charges := false, "", [];
    }

    method Settle(m: Meter)
      modifies this
      ensures settled && streamed == old(streamed)
      ensures charges == old(charges) + if old(settled) then [] else ChargeOf(m, streamed)
    {
      if settled { return; }
      settled := true;
      charges := charges + ChargeOf(m, streamed);
    }

    /** One call of `next`, `return` or `throw`; `m`: what the meter holds by now. */
    method Handle(c: Call, m: Meter)
      modifies this
      ensures streamed == old(streamed) + if c.NextChunk? then c.text else ""
      ensures settled == (old(settled) || Ends(c))
      ensures charges == old(charges) + if old(settled) || !Ends(c) then [] else ChargeOf(m, old(streamed))
    {
      match c
      case NextChunk(text) => streamed := streamed + text;
      case NextDone => Settle(m);
      case NextFails => Settle(m);
      case Return => Settle(m);
      case Throw => Settle(m);
    }

    /**
     * Any use of the iterator: nothing is charged before the first ending call,
     * and that call charges once, unless nothing was reported and the estimate
     * fails or counts nothing.
     */
    method Consume(calls: seq<Call>, meters: seq<Meter>)
      requires !settled && streamed == "" && charges == [] && |meters| == |calls|
      modifies this
      ensures var n := FirstEnd(calls); charges == if n == |calls| then [] else ChargeOf(meters[n], Text(calls[..n]))
    {
      var i := 0;
      while i < |calls|
        invariant i <= |calls| && settled == (FirstEnd(calls) < i)
        invariant !settled ==> charges == [] && streamed == Text(calls[..i])
        invariant settled ==> var n := FirstEnd(calls); charges == ChargeOf(meters[n], Text(calls[..n]))
      {
        if FirstEnd(calls) >= i { FirstEndAt(calls, i); }
        assert calls[..i + 1][..i] == calls[..i];
        Handle(calls[i], meters[i]);
        i := i + 1;
      }
    }
  }

  /** The position of the first call that ends the stream, or the number of calls. */
  function FirstEnd(calls: seq<Call>): (n: nat)
    ensures n <= |calls| && (n < |calls| ==> Ends(calls[n])) && forall j :: 0 <= j < n ==> !Ends(calls[j])
  {
    if calls == [] || Ends(calls[0]) then 0 else FirstEnd(calls[1..]) + 1
  }

  lemma {:induction false} FirstEndAt(calls: seq<Call>, i: nat)
    requires i < |calls| && FirstEnd(calls) >= i
    ensures FirstEnd(calls) == i <==> Ends(calls[i])
  {
  }

  /** The text of the chunks. */
  function Text(calls: seq<Call>): string {
    if calls == [] then ""
    else Text(calls[..|calls| - 1]) + if calls[|calls| - 1].NextChunk? then calls[|calls| - 1].text else ""
  }
}
