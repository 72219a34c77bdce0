/** Serialising one session's change of an entity (golem/eventual_state.go, golem/compact_state.go). */
module EventualFrames {
  import opened Identifiers
  import opened Datagrams
  import opened StateTracker
  import opened NoLostUpdate
  import opened OwnerRedaction
  import S = SendRefinement
  import P = Packing
  import R = OwnerReplication

  /** What an entity's own marshalling yields: an error, nil, or bytes. */
  datatype Encoded = Failed | Nil | Data(data: bytes)

  /** The current values of all entities, as they marshal them: in full, without owner-only fields, or the
      fields of a mask, compactly or not. An entity without a compact form answers nil. */
  datatype Marshalling = Marshalling(
    full: Id -> Encoded, publicFull: Id -> Encoded, compact: (Id, Bits) -> Encoded, delta: (Id, Bits) -> Encoded)

  function Streamed(e: Encoded): Option<P.Frame>
  {
    match e
    case Failed => None
    case Nil => Some(P.OnStream([]))
    case Data(data) => Some(P.OnStream(data))
  }

  /** eventualFrameForChange. None is an error. */
  function FrameFor(kinds: map<Id, Kind>, m: Marshalling, ch: Change): Option<P.Frame>
  {
    if ch.id !in kinds then Some(P.Dead)
    else if ch.isPublic && !kinds[ch.id].scoped then None
    else if ch.full then Streamed(if ch.isPublic then m.publicFull(ch.id) else m.full(ch.id))
    else if ch.isPublic && ch.mask * kinds[ch.id].publicMask == {} then Some(P.Nothing)
    else PartialFrame(kinds[ch.id], m, ch, if ch.isPublic then ch.mask * kinds[ch.id].publicMask else ch.mask)
  }

  /** The fields of a mask: in a datagram if the entity has a compact form that fits, else over the stream. */
  function PartialFrame(kind: Kind, m: Marshalling, ch: Change, mask: Bits): Option<P.Frame>
  {
    var compact := if mask == {} then Nil else m.compact(ch.id, mask);
    if compact.Failed? then None
    else if compact.Data? && P.PayloadLen(compact.data) <= P.BUDGET then Some(P.Compact(compact.data))
    else if !kind.deltas then Streamed(if ch.isPublic then m.publicFull(ch.id) else m.full(ch.id))
    else if m.delta(ch.id, mask).Nil? then Some(P.Nothing)
    else Streamed(m.delta(ch.id, mask))
  }

  function Serialised(kinds: map<Id, Kind>, m: Marshalling): P.Serialiser { ch => FrameFor(kinds, m, ch) }

  /** An entity answers nil only for a mask none of whose bits the session is shown. */
  ghost predicate NilMeansNothing(w: World, m: Marshalling)
  {
    forall id, mask, b :: b in mask && m.delta(id, mask).Nil? ==> (id, b) !in w.shown
  }

  /** The registry is the one the session is shown. */
  ghost predicate Registered(w: World, kinds: map<Id, Kind>)
  {
    w.live == kinds.Keys && forall id :: id in kinds ==> w.masks(id) == kinds[id].publicMask
  }

  /** Every change of the session's flavour is serialised truthfully: a frame is missing only for an entity
      that is gone, and empty only when the session is shown nothing of the change. */
  lemma SerialiserIsTruthful(w: World, kinds: map<Id, Kind>, m: Marshalling)
    requires Registered(w, kinds) && NilMeansNothing(w, m)
    ensures S.TruthfulSerialiser(w, Serialised(kinds, m)) && R.FitsBudget(Serialised(kinds, m))
  {
    forall ch | Suits(w, ch) && FrameFor(kinds, m, ch).Some? ensures S.Truthful(w, P.Item(ch, FrameFor(kinds, m, ch).value)) {
      FrameIsTruthful(w, kinds, m, ch);
    }
  }

  lemma FramesFit(kinds: map<Id, Kind>, m: Marshalling)
    ensures R.FitsBudget(Serialised(kinds, m))
  {
  }

  lemma FrameIsTruthful(w: World, kinds: map<Id, Kind>, m: Marshalling, ch: Change)
    requires Registered(w, kinds) && NilMeansNothing(w, m) && Suits(w, ch) && FrameFor(kinds, m, ch).Some?
    ensures S.Truthful(w, P.Item(ch, FrameFor(kinds, m, ch).value))
  {
    if FrameFor(kinds, m, ch).value.Nothing? {
      var mask := if ch.isPublic then ch.mask * kinds[ch.id].publicMask else ch.mask;
      assert forall b :: b in ch.mask && (ch.id, b) in w.shown ==> b in mask;
    }
  }

  /** Two states of the game that differ in owner-only fields at most. */
  ghost predicate SamePublicly(kinds: map<Id, Kind>, m: Marshalling, m': Marshalling)
  {
    && (forall id :: id in kinds && kinds[id].scoped ==> m.publicFull(id) == m'.publicFull(id))
    && (forall id, mask :: id in kinds && kinds[id].scoped && mask <= kinds[id].publicMask ==>
          m.compact(id, mask) == m'.compact(id, mask) && m.delta(id, mask) == m'.delta(id, mask))
  }

  /** A public change reveals nothing of the owner-only fields, whatever private bits its mask has picked up. */
  lemma PublicFrameRevealsNothing(kinds: map<Id, Kind>, m: Marshalling, m': Marshalling, ch: Change)
    requires SamePublicly(kinds, m, m') && ch.isPublic
    ensures FrameFor(kinds, m, ch) == FrameFor(kinds, m', ch)
  {
    if ch.id in kinds && kinds[ch.id].scoped && !ch.full {
      var mask := ch.mask * kinds[ch.id].publicMask;
      assert mask <= kinds[ch.id].publicMask;
    }
  }

  /** The bits have a compact form that fits a datagram. */
  predicate Fitting(m: Marshalling, id: Id, bits: Bits)
  {
    bits != {} && m.compact(id, bits).Data? && 4 + |m.compact(id, bits).data| <= P.BUDGET
  }

  /** Which frame a change of a live entity becomes. A datagram if and only if it is a partial change whose bits have a
      compact form that fits, and then it holds exactly these bits. Nothing if and only if no public bit is left of a
      public change, or there is no compact form that fits and the entity has nothing to say of the bits. On the stream
      it holds the bits, or all that a session of that flavour may see if it is a full change or the entity cannot be
      sent in parts. */
  lemma FrameIsRight(kinds: map<Id, Kind>, m: Marshalling, ch: Change)
    requires ch.id in kinds && FrameFor(kinds, m, ch).Some?
    ensures var f, bits, kind := FrameFor(kinds, m, ch).value, SentBits(kinds, ch), kinds[ch.id];
            && !f.Dead? && (ch.isPublic ==> kind.scoped)
            && (f.Compact? <==> !ch.full && Fitting(m, ch.id, bits))
            && (f.Compact? ==> m.compact(ch.id, bits) == Data(f.data))
            && (f.Nothing? <==> !ch.full && !Fitting(m, ch.id, bits) &&
                                ((ch.isPublic && bits == {}) || (kind.deltas && m.delta(ch.id, bits).Nil?)))
            && (f.OnStream? ==>
                  Some(f) == Streamed(if !ch.full && kind.deltas then m.delta(ch.id, bits)
                                      else if ch.isPublic then m.publicFull(ch.id) else m.full(ch.id)))
  {
  }

  /** Serialising a change of a live entity fails if and only if it is public but the entity has no owner-only fields,
      or the marshalling it needs fails. */
  lemma FrameFails(kinds: map<Id, Kind>, m: Marshalling, ch: Change)
    requires ch.id in kinds
    ensures var bits, kind := SentBits(kinds, ch), kinds[ch.id];
            var whole := if ch.isPublic then m.publicFull(ch.id) else m.full(ch.id);
            FrameFor(kinds, m, ch).None? <==>
              || (ch.isPublic && !kind.scoped)
              || (ch.full && whole.Failed?)
              || (!ch.full && bits != {} && m.compact(ch.id, bits).Failed?)
              || (!ch.full && !(ch.isPublic && bits == {}) && !Fitting(m, ch.id, bits) &&
                  if kind.deltas then m.delta(ch.id, bits).Failed? else whole.Failed?)
  {
  }
}
