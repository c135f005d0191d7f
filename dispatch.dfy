/** The dispatcher of the push-channel client: a decoded frame is routed to
    the bucket named by its `event` (or to "message") and its `data` is
    handed to every handler of that bucket in registration order, until one
    of them throws.  `JSON.parse` is not modelled: its result arrives as a
    `Decoded` value, and `Frame` gives the envelope `onmessage` reads from
    it, or `None` when reading it throws. */
module Dispatch {
  import opened Wrappers
  import opened Registry

  /** The wire unit `{ event, data, timestamp }`; `event` is `None` when the
      field is absent. */
  datatype Envelope<P> = Envelope(event: Option<string>, data: P, timestamp: string)

  /** One call of a handler with a payload. */
  datatype Delivery<P> = Delivery(handler: HandlerId, payload: P)

  /** What one frame does: the handler calls it makes, and whether an
      exception reached the `catch` of `onmessage` (a parse failure or a
      throwing handler), which only logs it. */
  datatype Outcome<P> = Outcome(deliveries: seq<Delivery<P>>, caught: bool)

  const DefaultKey: string := "message"

  /** `data.event || "message"`: an absent or empty event name falls back to
      the catch-all bucket. */
  function RouteKey<P>(e: Envelope<P>): (key: string)
    ensures key != ""
    ensures key == DefaultKey <==> e.event.None? || e.event.value == "" || e.event.value == DefaultKey
    ensures e.event.Some? && e.event.value != "" ==> key == e.event.value
  {
    match e.event
    case None => DefaultKey
    case Some(name) => if name == "" then DefaultKey else name
  }

  /** `forEach((handler) => handler(data))` over `hs`: each handler is called
      in turn, and the first one in `throwing` ends the iteration after its
      own call. */
  function Deliver<P>(hs: seq<HandlerId>, payload: P, throwing: set<HandlerId>): (r: seq<Delivery<P>>)
    ensures |r| <= |hs|
    ensures forall i :: 0 <= i < |r| ==> r[i] == Delivery(hs[i], payload)
    ensures forall i :: 0 <= i < |r| - 1 ==> hs[i] !in throwing
    ensures |r| < |hs| ==> |r| > 0 && hs[|r| - 1] in throwing
  {
    if hs == [] then []
    else if hs[0] in throwing then [Delivery(hs[0], payload)]
    else [Delivery(hs[0], payload)] + Deliver(hs[1..], payload, throwing)
  }

  /** True when some handler of `hs` throws, so that the exception escapes
      `emit`. */
  predicate Throws(hs: seq<HandlerId>, throwing: set<HandlerId>) {
    exists i :: 0 <= i < |hs| && hs[i] in throwing
  }

  /** The whole `onmessage` callback for one frame. */
  function Dispatch<P>(reg: Handlers, frame: Option<Envelope<P>>, throwing: set<HandlerId>): (o: Outcome<P>)
    ensures frame.None? ==> o == Outcome([], true)
    ensures frame.Some? ==> o.deliveries == Deliver(Lookup(reg, RouteKey(frame.value)), frame.value.data, throwing)
    ensures frame.Some? ==> o.caught == Throws(Lookup(reg, RouteKey(frame.value)), throwing)
    ensures frame.Some? ==> |o.deliveries| <= |Lookup(reg, RouteKey(frame.value))|
    ensures forall i :: 0 <= i < |o.deliveries| ==> o.deliveries[i].payload == frame.value.data
  {
    match frame
    case None => Outcome([], true)
    case Some(e) =>
      var hs := Lookup(reg, RouteKey(e));
      Outcome(Deliver(hs, e.data, throwing), Throws(hs, throwing))
  }

  /** What `JSON.parse` yields, as far as `onmessage` reads it: a parse
      failure, `null`, a value on which `.event` and `.data` are both
      `undefined` (a number, a string, a boolean), or an object with the
      envelope's fields. */
  datatype Decoded<P> = ParseError | Null | Primitive | Object(envelope: Envelope<P>)

  /** The frame `onmessage` acts on.  Reading `.event` of `null` throws
      inside the `try`, like a parse failure; a primitive is routed to
      "message" with the payload `undefined`, the value of `P` given as
      `undefined`. */
  function Frame<P>(d: Decoded<P>, undefined: P): (f: Option<Envelope<P>>)
    ensures f.None? <==> d.ParseError? || d.Null?
    ensures d.Primitive? ==> f.Some? && RouteKey(f.value) == DefaultKey && f.value.data == undefined
    ensures d.Object? ==> f == Some(d.envelope)
  {
    match d
    case ParseError => None
    case Null => None
    case Primitive => Some(Envelope(None, undefined, ""))
    case Object(e) => Some(e)
  }

  /** A primitive frame reaches every "message" handler with `undefined`,
      until one throws. */
  lemma PrimitiveFrameReachesMessage<P>(reg: Handlers, undefined: P, throwing: set<HandlerId>)
    ensures Dispatch(reg, Frame(Primitive, undefined), throwing).deliveries == Deliver(Lookup(reg, DefaultKey), undefined, throwing)
    ensures Dispatch(reg, Frame(Null, undefined), throwing) == Outcome([], true)
  {
  }

  /** A frame whose event is a non-empty name is delivered to that name's
      bucket. */
  lemma DispatchNamed<P>(reg: Handlers, name: string, data: P, ts: string, throwing: set<HandlerId>)
    requires name != ""
    ensures Dispatch(reg, Some(Envelope(Some(name), data, ts)), throwing).deliveries == Deliver(Lookup(reg, name), data, throwing)
  {
  }

  /** When no handler throws, every handler is called exactly once, in
      registration order, with the payload. */
  lemma {:induction false} DeliverAllWhenNoneThrow<P>(hs: seq<HandlerId>, payload: P, throwing: set<HandlerId>)
    requires !Throws(hs, throwing)
    ensures Deliver(hs, payload, throwing) == seq(|hs|, i requires 0 <= i < |hs| => Delivery(hs[i], payload))
  {
    if hs != [] {
      assert hs[0] !in throwing;
      assert !Throws(hs[1..], throwing);
      DeliverAllWhenNoneThrow(hs[1..], payload, throwing);
    }
  }

  /** A handler that throws stops delivery: exactly the handlers up to and
      including the first thrower are called. */
  lemma {:induction false} DeliverStopsAtFirstThrower<P>(hs: seq<HandlerId>, payload: P, throwing: set<HandlerId>, k: nat)
    requires k < |hs| && hs[k] in throwing
    requires forall j :: 0 <= j < k ==> hs[j] !in throwing
    ensures |Deliver(hs, payload, throwing)| == k + 1
  {
    if k > 0 {
      assert hs[0] !in throwing;
      DeliverStopsAtFirstThrower(hs[1..], payload, throwing, k - 1);
    }
  }

  /** The exception escapes `emit` exactly when a handler throws, and then
      every handler after the first thrower is skipped. */
  lemma {:induction false} DeliverShortIffThrows<P>(hs: seq<HandlerId>, payload: P, throwing: set<HandlerId>)
    ensures Throws(hs, throwing) <==> exists i :: 0 <= i < |Deliver(hs, payload, throwing)| && hs[i] in throwing
  {
    if hs != [] && hs[0] !in throwing {
      var tail := hs[1..];
      DeliverShortIffThrows(tail, payload, throwing);
      if Throws(hs, throwing) {
        var i :| 0 <= i < |hs| && hs[i] in throwing;
        assert tail[i - 1] in throwing;
        var j :| 0 <= j < |Deliver(tail, payload, throwing)| && tail[j] in throwing;
        assert hs[j + 1] in throwing;
      }
      if exists i :: 0 <= i < |Deliver(hs, payload, throwing)| && hs[i] in throwing {
        var i :| 0 <= i < |Deliver(hs, payload, throwing)| && hs[i] in throwing;
        assert tail[i - 1] in throwing;
      }
    } else if hs != [] {
      assert Deliver(hs, payload, throwing)[0].handler == hs[0];
    }
  }

  /** A registry whose buckets are sets calls each handler at most once per
      frame. */
  lemma DeliverOncePerHandler<P>(hs: seq<HandlerId>, payload: P, throwing: set<HandlerId>)
    requires NoDup(hs)
    ensures forall i, j :: 0 <= i < j < |Deliver(hs, payload, throwing)| ==>
      Deliver(hs, payload, throwing)[i].handler != Deliver(hs, payload, throwing)[j].handler
  {
  }

  /** A malformed frame calls nobody and is caught. */
  lemma MalformedFrameDropped<P>(reg: Handlers, throwing: set<HandlerId>)
    ensures Dispatch<P>(reg, None, throwing) == Outcome([], true)
  {
  }

  /** An event name nobody listens to calls nobody and raises nothing. */
  lemma UnknownEventIsSilent<P>(reg: Handlers, e: Envelope<P>, throwing: set<HandlerId>)
    requires Lookup(reg, RouteKey(e)) == []
    ensures Dispatch(reg, Some(e), throwing) == Outcome([], false)
  {
  }

  /** Delivery through a prefix of handlers none of which throws calls each
      of them; one more handler adds one more call, and a throwing one ends
      delivery there: the step of `emit`'s loop. */
  lemma {:induction false} DeliverPrefixStep<P>(hs: seq<HandlerId>, payload: P, throwing: set<HandlerId>, i: nat)
    requires i < |hs|
    requires forall j :: 0 <= j < i ==> hs[j] !in throwing
    ensures Deliver(hs[..i + 1], payload, throwing) == Deliver(hs[..i], payload, throwing) + [Delivery(hs[i], payload)]
    ensures hs[i] in throwing ==> Deliver(hs, payload, throwing) == Deliver(hs[..i + 1], payload, throwing)
  {
    if i > 0 {
      assert hs[0] !in throwing;
      assert hs[..i + 1][1..] == hs[1..][..i];
      assert hs[..i][1..] == hs[1..][..i - 1];
      DeliverPrefixStep(hs[1..], payload, throwing, i - 1);
    }
  }
}
