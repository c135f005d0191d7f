/** The subscription registry of the push-channel client: a map from event
    name to an insertion-ordered set of handler references.  A handler is
    modelled by an opaque id; a JavaScript `Set` of handlers is a sequence
    without duplicates, in insertion order. */
module Registry {
  import opened Seqs

  /** An opaque reference to a handler closure; two closures are the same
      reference only when they have the same id. */
  type HandlerId = nat

  type Handlers = map<string, seq<HandlerId>>

  /** A `Set` never holds a reference twice. */
  predicate NoDup(s: seq<HandlerId>) {
    forall i, j :: 0 <= i < j < |s| ==> s[i] != s[j]
  }

  /** Every bucket of the registry is a proper set. */
  predicate WellFormed(reg: Handlers) {
    forall k :: k in reg ==> NoDup(reg[k])
  }

  /** `Set.prototype.add`: appends a reference that is not yet present. */
  function Insert(s: seq<HandlerId>, h: HandlerId): (r: seq<HandlerId>)
    ensures forall x :: x in r <==> x in s || x == h
    ensures |s| <= |r| <= |s| + 1 && r[..|s|] == s
    ensures h in s ==> r == s
    ensures NoDup(s) ==> NoDup(r)
  {
    if h in s then s else s + [h]
  }

  /** `Set.prototype.delete`: removes the reference, keeping the order of
      the others. */
  function Delete(s: seq<HandlerId>, h: HandlerId): (r: seq<HandlerId>)
    ensures forall x :: x in r <==> x in s && x != h
    ensures h !in s ==> r == s
    ensures |r| <= |s| && IsSubseq(r, s)
    ensures NoDup(s) ==> NoDup(r)
    ensures NoDup(s) && h in s ==> |r| == |s| - 1
  {
    if s == [] then []
    else if s[0] == h then Delete(s[1..], h)
    else
      assert NoDup(s) ==> s[0] !in s[1..];
      [s[0]] + Delete(s[1..], h)
  }

  /** The handlers registered under `key` (`handlers.get(key)`), empty when
      the key was never used. */
  function Lookup(reg: Handlers, key: string): (r: seq<HandlerId>)
    ensures key !in reg ==> r == []
    ensures key in reg ==> r == reg[key]
    ensures WellFormed(reg) ==> NoDup(r)
  {
    if key in reg then reg[key] else []
  }

  /** `on(event, handler)`: creates the bucket on first use, then adds the
      reference to it. */
  function On(reg: Handlers, key: string, h: HandlerId): (r: Handlers)
    ensures r.Keys == reg.Keys + {key}
    ensures r[key] == Insert(Lookup(reg, key), h)
    ensures forall k :: k in reg && k != key ==> r[k] == reg[k]
    ensures WellFormed(reg) ==> WellFormed(r)
  {
    reg[key := Insert(Lookup(reg, key), h)]
  }

  /** `off(event, handler)`: deletes the reference from an existing bucket;
      an unknown key is left alone, and an emptied bucket stays in the map. */
  function Off(reg: Handlers, key: string, h: HandlerId): (r: Handlers)
    ensures r.Keys == reg.Keys
    ensures key in reg ==> r[key] == Delete(reg[key], h)
    ensures forall k :: k in reg && k != key ==> r[k] == reg[k]
    ensures WellFormed(reg) ==> WellFormed(r)
  {
    if key in reg then reg[key := Delete(reg[key], h)] else reg
  }

  /** Registering a reference that is already present changes nothing. */
  lemma OnIdempotent(reg: Handlers, key: string, h: HandlerId)
    ensures On(On(reg, key, h), key, h) == On(reg, key, h)
  {
  }

  /** A new handler goes last: earlier registrations keep their positions. */
  lemma OnAppendsLast(reg: Handlers, key: string, h: HandlerId)
    requires h !in Lookup(reg, key)
    ensures Lookup(On(reg, key, h), key) == Lookup(reg, key) + [h]
  {
  }

  /** `off` with a reference that is not registered under the key (or a key
      that was never used) leaves the registry exactly as it was. */
  lemma OffUnknownIsNoop(reg: Handlers, key: string, h: HandlerId)
    requires h !in Lookup(reg, key)
    ensures Off(reg, key, h) == reg
  {
  }

  /** `off` removes exactly the given reference and no other. */
  lemma OffRemovesExactly(reg: Handlers, key: string, h: HandlerId, g: HandlerId)
    ensures h !in Lookup(Off(reg, key, h), key)
    ensures g != h ==> (g in Lookup(Off(reg, key, h), key) <==> g in Lookup(reg, key))
  {
  }

  /** `off` with a reference that was never registered, after `on` of a
      new one, leaves the new one registered last. */
  lemma OffStrayKeeps(reg: Handlers, key: string, h: HandlerId, stray: HandlerId)
    requires h !in Lookup(reg, key) && stray != h && stray !in Lookup(reg, key)
    ensures Lookup(Off(On(reg, key, h), key, stray), key) == Lookup(reg, key) + [h]
  {
    OnFresh(reg, key, h);
    OffUnknownIsNoop(On(reg, key, h), key, stray);
  }

  /** `off` undoes an `on` of the same, new reference, except that a bucket
      created by that `on` stays behind, empty. */
  lemma OffUndoesOn(reg: Handlers, key: string, h: HandlerId)
    requires h !in Lookup(reg, key)
    ensures Off(On(reg, key, h), key, h) == reg[key := Lookup(reg, key)]
    ensures key in reg ==> Off(On(reg, key, h), key, h) == reg
  {
    OnFresh(reg, key, h);
    OffAppended(reg, key, h);
    if key in reg {
      assert reg[key := reg[key]] == reg;
    }
  }

  /** `on` with a new reference appends it to the bucket. */
  lemma OnFresh(reg: Handlers, key: string, h: HandlerId)
    requires h !in Lookup(reg, key)
    ensures On(reg, key, h) == reg[key := Lookup(reg, key) + [h]]
  {
  }

  /** `off` of the reference appended last restores the bucket. */
  lemma OffAppended(reg: Handlers, key: string, h: HandlerId)
    requires h !in Lookup(reg, key)
    ensures Off(reg[key := Lookup(reg, key) + [h]], key, h) == reg[key := Lookup(reg, key)]
  {
    DeleteAppended(Lookup(reg, key), h);
  }

  lemma {:induction false} DeleteAppended(s: seq<HandlerId>, h: HandlerId)
    requires h !in s
    ensures Delete(s + [h], h) == s
  {
    if s != [] {
      assert (s + [h])[1..] == s[1..] + [h];
      DeleteAppended(s[1..], h);
    }
  }
}
