/** What one session's client still has to be told: dirty masks and in-flight tokens
    (golem/eventual_state.go), on values. A uint64 mask is the set of its bit positions. */
module StateTracker {
  import opened Identifiers

  type Bit = b: nat | b < 64
  type Bits = set<Bit>
  type Token = nat

  const ALL_BITS: Bits := set b: Bit | 0 <= b < 64

  datatype Change = Change(id: Id, mask: Bits, full: bool, isPublic: bool)

  const NO_CHANGE := Change(0, {}, false, false)

  /** The bits of the entity a change is about. */
  function Cover(ch: Change): Bits { if ch.full then ALL_BITS else ch.mask }

  datatype Tracker = Tracker(dirty: map<Id, Change>, queue: seq<Id>, inFlight: map<Token, seq<Change>>)

  const NOTHING_TRACKED := Tracker(map[], [], map[])

  // ---- marking ----

  /** Two pending changes of one entity become one; once public, always public. */
  function Merge(existing: Change, ch: Change): Change
  {
    var pub := existing.isPublic || ch.isPublic;
    if existing.full || ch.full then existing.(isPublic := pub, full := true, mask := {})
    else existing.(isPublic := pub, mask := existing.mask + ch.mask)
  }

  predicate Ignored(ch: Change) { ch.id == 0 || (!ch.full && ch.mask == {}) }

  function Filter(queue: seq<Id>, keep: set<Id>): (r: seq<Id>)
    ensures forall id :: id in r <==> id in queue && id in keep
    ensures |r| <= |queue|
  {
    if queue == [] then []
    else
      var r := Filter(queue[..|queue| - 1], keep);
      if queue[|queue| - 1] in keep then r + [queue[|queue| - 1]] else r
  }

  /** compactDirtyQueueNow. */
  function Compacted(queue: seq<Id>, dirty: map<Id, Change>): seq<Id>
  {
    if |queue| == 0 || |queue| == |dirty| then queue
    else if |dirty| == 0 then []
    else Filter(queue, dirty.Keys)
  }

  /** compactDirtyQueue, after a send: put off while the queue is not much longer than it needs to be. */
  function Tidied(t: Tracker): Tracker
  {
    if |t.dirty| != 0 && |t.queue| <= |t.dirty| * 2 + 32 then t else t.(queue := Compacted(t.queue, t.dirty))
  }

  /** markDirtyChange. */
  function MarkDirty(t: Tracker, ch: Change): Tracker
  {
    if Ignored(ch) then t
    else if ch.id in t.dirty then t.(dirty := t.dirty[ch.id := Merge(t.dirty[ch.id], ch)])
    else
      var queue := if |t.queue| != |t.dirty| then Compacted(t.queue, t.dirty) else t.queue;
      t.(dirty := t.dirty[ch.id := ch], queue := queue + [ch.id])
  }

  // ---- sending and clearing ----

  function Ids(changes: seq<Change>): set<Id> { set i | 0 <= i < |changes| :: changes[i].id }

  function ClearDirty(t: Tracker, ids: set<Id>): Tracker { t.(dirty := t.dirty - ids) }

  /** markSent. */
  function MarkSent(t: Tracker, token: Token, changes: seq<Change>): Tracker
  {
    if changes == [] then t
    else ClearDirty(t.(inFlight := t.inFlight[token := changes]), Ids(changes))
  }

  function Without(changes: seq<Change>, id: Id): (r: seq<Change>)
    ensures forall ch :: ch in r <==> ch in changes && ch.id != id
    ensures |r| <= |changes|
  {
    if changes == [] then []
    else
      var r := Without(changes[..|changes| - 1], id);
      if changes[|changes| - 1].id != id then r + [changes[|changes| - 1]] else r
  }

  /** clearEntity. */
  function ClearEntity(t: Tracker, id: Id): Tracker
  {
    t.(dirty := t.dirty - {id}, inFlight := ClearedFlight(t.inFlight, id))
  }

  function ClearedFlight(inFlight: map<Token, seq<Change>>, id: Id): map<Token, seq<Change>>
  {
    map token | token in inFlight && Without(inFlight[token], id) != [] :: Without(inFlight[token], id)
  }

  // ---- feedback ----

  /** Some token newer than the lost one has the whole entity in flight. */
  predicate NewerFull(inFlight: map<Token, seq<Change>>, lost: Token, id: Id)
  {
    exists token :: token in inFlight && token > lost && FullIn(inFlight[token], id)
  }

  predicate FullIn(changes: seq<Change>, id: Id)
  {
    exists i :: 0 <= i < |changes| && changes[i].id == id && changes[i].full
  }

  predicate BitIn(changes: seq<Change>, id: Id, b: Bit)
  {
    exists i :: 0 <= i < |changes| && changes[i].id == id && b in Cover(changes[i])
  }

  /** Some token newer than the lost one has this bit in flight. */
  predicate NewerBit(inFlight: map<Token, seq<Change>>, lost: Token, id: Id, b: Bit)
  {
    exists token :: token in inFlight && token > lost && BitIn(inFlight[token], id, b)
  }

  function Uncovered(mask: Bits, inFlight: map<Token, seq<Change>>, lost: Token, id: Id): Bits
  {
    set b | b in mask && !NewerBit(inFlight, lost, id, b)
  }

  /** subtractNewerInFlight: what of a lost change no newer token carries. */
  function Remaining(inFlight: map<Token, seq<Change>>, lost: Token, ch: Change): Change
  {
    if ch.full then
      if NewerFull(inFlight, lost, ch.id) then NO_CHANGE else ch
    else
      var mask := Uncovered(ch.mask, inFlight, lost, ch.id);
      if mask == {} then NO_CHANGE else Change(ch.id, mask, false, ch.isPublic)
  }

  /** The loop over a lost token's changes. */
  function Requeue(t: Tracker, lost: Token, changes: seq<Change>, live: set<Id>): Tracker
    decreases |changes|
  {
    if changes == [] then t
    else
      var t1 := Requeue(t, lost, changes[..|changes| - 1], live);
      var ch := changes[|changes| - 1];
      if ch.id in live then MarkDirty(t1, Remaining(t1.inFlight, lost, ch)) else t1
  }

  /** applyFeedback for one report. */
  function Settle(t: Tracker, token: Token, delivered: bool, live: set<Id>): Tracker
  {
    if token !in t.inFlight then t
    else
      var t1 := t.(inFlight := t.inFlight - {token});
      if delivered then t1
      else Requeue(t1.(queue := Compacted(t.queue, t.dirty)), token, t.inFlight[token], live)
  }

  // ---- what marking and feedback do to single bits ----

  predicate DirtyBit(t: Tracker, id: Id, b: Bit) { id in t.dirty && b in Cover(t.dirty[id]) }

  /** Marking makes exactly the bits of the change dirty, and settles its flavour. */
  lemma MarkIsExact(t: Tracker, ch: Change)
    ensures var t' := MarkDirty(t, ch);
            && t'.inFlight == t.inFlight
            && (forall id, b :: DirtyBit(t', id, b) <==>
                                  DirtyBit(t, id, b) || (id == ch.id && id != 0 && b in Cover(ch)))
            && (forall id :: id in t'.dirty && id != ch.id ==> id in t.dirty && t'.dirty[id] == t.dirty[id])
            && (ch.id in t'.dirty && !Ignored(ch) ==>
                  && (t'.dirty[ch.id].isPublic <==> ch.isPublic || (ch.id in t.dirty && t.dirty[ch.id].isPublic))
                  && (t'.dirty[ch.id].full <==> ch.full || (ch.id in t.dirty && t.dirty[ch.id].full)))
  {
  }

  /** A lost change holds the bit, and no newer token in flight makes up for it. */
  ghost predicate Owed(inFlight: map<Token, seq<Change>>, lost: Token, ch: Change, b: Bit)
  {
    && b in Cover(ch)
    && forall token, newer :: token in inFlight && token > lost && newer in inFlight[token] && newer.id == ch.id ==>
         if ch.full then !newer.full else b !in Cover(newer)
  }

  ghost predicate OwedBit(inFlight: map<Token, seq<Change>>, lost: Token, changes: seq<Change>, live: set<Id>, id: Id, b: Bit)
  {
    id in live && id != 0 && exists ch :: ch in changes && ch.id == id && Owed(inFlight, lost, ch, b)
  }

  lemma RemainingIsOwed(inFlight: map<Token, seq<Change>>, lost: Token, ch: Change, b: Bit)
    requires ch.id != 0
    ensures var r := Remaining(inFlight, lost, ch); r.id == ch.id && b in Cover(r) <==> Owed(inFlight, lost, ch, b)
  {
    forall token | token in inFlight
      ensures FullIn(inFlight[token], ch.id) <==> exists newer :: newer in inFlight[token] && newer.id == ch.id && newer.full
      ensures BitIn(inFlight[token], ch.id, b) <==> exists newer :: newer in inFlight[token] && newer.id == ch.id && b in Cover(newer)
    {
      CarriedBy(inFlight[token], ch.id, b);
    }
    if b in Cover(ch) {
      if ch.full {
        assert NewerFull(inFlight, lost, ch.id) <==> !Owed(inFlight, lost, ch, b);
      } else {
        assert NewerBit(inFlight, lost, ch.id, b) <==> !Owed(inFlight, lost, ch, b);
        assert b in Uncovered(ch.mask, inFlight, lost, ch.id) <==> Owed(inFlight, lost, ch, b);
      }
    }
  }

  /** The lost token itself is not newer. */
  lemma OwedWithout(inFlight: map<Token, seq<Change>>, lost: Token, ch: Change, b: Bit)
    ensures Owed(inFlight - {lost}, lost, ch, b) <==> Owed(inFlight, lost, ch, b)
  {
    var rest: map<Token, seq<Change>> := inFlight - {lost};
    assert forall token :: token in inFlight && token > lost <==> token in rest && token > lost;
    if Owed(rest, lost, ch, b) {
      forall token: Token, newer: Change | token in inFlight && token > lost && newer in inFlight[token] && newer.id == ch.id
        ensures if ch.full then !newer.full else b !in Cover(newer)
      {
        assert newer in rest[token];
      }
    }
    if Owed(inFlight, lost, ch, b) {
      forall token: Token, newer: Change | token in rest && token > lost && newer in rest[token] && newer.id == ch.id
        ensures if ch.full then !newer.full else b !in Cover(newer)
      {
        assert newer in inFlight[token];
      }
    }
  }

  lemma CarriedBy(changes: seq<Change>, id: Id, b: Bit)
    ensures FullIn(changes, id) <==> exists ch :: ch in changes && ch.id == id && ch.full
    ensures BitIn(changes, id, b) <==> exists ch :: ch in changes && ch.id == id && b in Cover(ch)
  {
    if ch :| ch in changes && ch.id == id && ch.full {
      var i :| 0 <= i < |changes| && changes[i] == ch;
    }
    if ch :| ch in changes && ch.id == id && b in Cover(ch) {
      var i :| 0 <= i < |changes| && changes[i] == ch;
    }
  }

  lemma {:induction false} RequeueIsExact(t: Tracker, lost: Token, changes: seq<Change>, live: set<Id>, id: Id, b: Bit)
    ensures var t' := Requeue(t, lost, changes, live);
            && t'.inFlight == t.inFlight
            && (DirtyBit(t', id, b) <==> DirtyBit(t, id, b) || OwedBit(t.inFlight, lost, changes, live, id, b))
    decreases |changes|
  {
    if changes != [] {
      var p, ch := changes[..|changes| - 1], changes[|changes| - 1];
      RequeueIsExact(t, lost, p, live, id, b);
      assert changes == p + [ch];
      var t1 := Requeue(t, lost, p, live);
      MarkIsExact(t1, Remaining(t1.inFlight, lost, ch));
      if ch.id != 0 { RemainingIsOwed(t1.inFlight, lost, ch, b); }
    }
  }

  /** One report, answered: a token that is not in flight changes nothing; a delivered one leaves flight and
      nothing else; a lost one makes exactly those bits dirty that it owes. */
  ghost predicate Answered(t: Tracker, token: Token, delivered: bool, live: set<Id>, t': Tracker)
  {
    && t'.inFlight == t.inFlight - {token}
    && (token !in t.inFlight || delivered ==> t'.dirty == t.dirty && t'.queue == t.queue)
    && (token in t.inFlight && !delivered ==>
          forall id, b :: DirtyBit(t', id, b) <==> DirtyBit(t, id, b) || OwedBit(t.inFlight, token, t.inFlight[token], live, id, b))
  }

  lemma SettleIsExact(t: Tracker, token: Token, delivered: bool, live: set<Id>)
    ensures Answered(t, token, delivered, live, Settle(t, token, delivered, live))
  {
    var t' := Settle(t, token, delivered, live);
    if token !in t.inFlight {
      assert t.inFlight - {token} == t.inFlight;
    } else if !delivered {
      var t1 := t.(inFlight := t.inFlight - {token}, queue := Compacted(t.queue, t.dirty));
      var changes := t.inFlight[token];
      assert t'.inFlight == t1.inFlight by { RequeueIsExact(t1, token, changes, live, 0, 0); }
      forall id, b ensures DirtyBit(t', id, b) <==> DirtyBit(t, id, b) || OwedBit(t.inFlight, token, changes, live, id, b) {
        RequeueIsExact(t1, token, changes, live, id, b);
        forall ch | ch in changes ensures Owed(t1.inFlight, token, ch, b) <==> Owed(t.inFlight, token, ch, b) {
          OwedWithout(t.inFlight, token, ch, b);
        }
      }
    }
  }

  // ---- the dirty queue ----

  /** The queue lists every dirty id, and nothing twice. */
  ghost predicate QueueOk(t: Tracker)
  {
    NoDup(t.queue) && forall id :: id in t.dirty ==> id in t.queue
  }

  /** Equal lengths mean equal sets: the tests on lengths in the code are tests of staleness. */
  lemma EqualLengthsMeanEqualSets(t: Tracker)
    requires QueueOk(t)
    ensures |t.dirty| <= |t.queue|
    ensures |t.queue| == |t.dirty| <==> forall id :: id in t.queue ==> id in t.dirty
  {
    NoDupSize(t.queue);
    var q := ToSet(t.queue);
    assert t.dirty.Keys <= q;
    SubsetSize(t.dirty.Keys, q);
    if forall id :: id in t.queue ==> id in t.dirty { assert q == t.dirty.Keys; }
  }

  lemma {:induction false} FilterKeepsNoDup(queue: seq<Id>, keep: set<Id>)
    requires NoDup(queue)
    ensures NoDup(Filter(queue, keep))
  {
    if queue != [] {
      FilterKeepsNoDup(queue[..|queue| - 1], keep);
      assert queue[|queue| - 1] !in queue[..|queue| - 1];
    }
  }

  /** a comes before b. */
  ghost predicate Precedes(s: seq<Id>, a: Id, b: Id)
  {
    exists i, j :: 0 <= i < j < |s| && s[i] == a && s[j] == b
  }

  lemma {:induction false} FilterKeepsOrder(queue: seq<Id>, keep: set<Id>, a: Id, b: Id)
    requires NoDup(queue)
    ensures Precedes(Filter(queue, keep), a, b) <==> Precedes(queue, a, b) && a in keep && b in keep
    decreases |queue|
  {
    if queue != [] {
      var p, last := queue[..|queue| - 1], queue[|queue| - 1];
      FilterKeepsOrder(p, keep, a, b);
      var r := Filter(p, keep);
      PrecedesLast(p, last, a, b);
      PrecedesLast(r, last, a, b);
      assert queue == p + [last];
    }
  }

  lemma PrecedesLast(p: seq<Id>, last: Id, a: Id, b: Id)
    ensures Precedes(p + [last], a, b) <==> Precedes(p, a, b) || (a in p && b == last)
  {
    var s := p + [last];
    if Precedes(s, a, b) {
      var i, j :| 0 <= i < j < |s| && s[i] == a && s[j] == b;
      if j < |p| { assert p[i] == a && p[j] == b; } else { assert p[i] == a; }
    }
    if Precedes(p, a, b) {
      var i, j :| 0 <= i < j < |p| && p[i] == a && p[j] == b;
      assert s[i] == a && s[j] == b;
    }
    if a in p && b == last {
      var i :| 0 <= i < |p| && p[i] == a;
      assert s[i] == a && s[|p|] == b;
    }
  }

  /** After compaction the queue is exactly the dirty ids, in the order they had. */
  lemma CompactedIsExact(t: Tracker)
    requires QueueOk(t)
    ensures NoDup(Compacted(t.queue, t.dirty))
    ensures forall id :: id in Compacted(t.queue, t.dirty) <==> id in t.dirty
    ensures forall a, b :: a in t.dirty && b in t.dirty ==>
              (Precedes(Compacted(t.queue, t.dirty), a, b) <==> Precedes(t.queue, a, b))
  {
    EqualLengthsMeanEqualSets(t);
    FilterKeepsNoDup(t.queue, t.dirty.Keys);
    forall a, b | a in t.dirty && b in t.dirty
      ensures Precedes(Filter(t.queue, t.dirty.Keys), a, b) <==> Precedes(t.queue, a, b)
    {
      FilterKeepsOrder(t.queue, t.dirty.Keys, a, b);
    }
    if |t.dirty| == 0 { assert t.dirty.Keys == {}; }
  }

  lemma TidyingKeepsQueue(t: Tracker)
    requires QueueOk(t)
    ensures QueueOk(Tidied(t))
  {
    CompactedIsExact(t);
  }

  lemma MarkDirtyKeepsQueue(t: Tracker, ch: Change)
    requires QueueOk(t)
    ensures QueueOk(MarkDirty(t, ch))
  {
    if !Ignored(ch) && ch.id !in t.dirty {
      EqualLengthsMeanEqualSets(t);
      CompactedIsExact(t);
      var queue := if |t.queue| != |t.dirty| then Compacted(t.queue, t.dirty) else t.queue;
      assert ch.id !in queue;
    }
  }

  /** Marking queues an entity behind all that are pending, whose order stays. */
  lemma MarkQueuesLast(t: Tracker, ch: Change)
    requires QueueOk(t)
    ensures var t' := MarkDirty(t, ch);
            && (forall a, b :: a in t.dirty && b in t.dirty ==> (Precedes(t'.queue, a, b) <==> Precedes(t.queue, a, b)))
            && (!Ignored(ch) && ch.id !in t.dirty ==> forall a :: a in t.dirty ==> Precedes(t'.queue, a, ch.id))
  {
    if !Ignored(ch) && ch.id !in t.dirty {
      var queue := if |t.queue| != |t.dirty| then Compacted(t.queue, t.dirty) else t.queue;
      CompactedIsExact(t);
      EqualLengthsMeanEqualSets(t);
      forall a, b | a in t.dirty && b in t.dirty ensures Precedes(queue + [ch.id], a, b) <==> Precedes(t.queue, a, b) {
        PrecedesLast(queue, ch.id, a, b);
      }
      forall a | a in t.dirty ensures Precedes(queue + [ch.id], a, ch.id) { PrecedesLast(queue, ch.id, a, ch.id); }
    }
  }

  lemma {:induction false} RequeueKeepsQueue(t: Tracker, lost: Token, changes: seq<Change>, live: set<Id>)
    requires QueueOk(t)
    ensures QueueOk(Requeue(t, lost, changes, live))
    ensures Requeue(t, lost, changes, live).inFlight == t.inFlight
    decreases |changes|
  {
    if changes != [] {
      RequeueKeepsQueue(t, lost, changes[..|changes| - 1], live);
      var t1 := Requeue(t, lost, changes[..|changes| - 1], live);
      MarkDirtyKeepsQueue(t1, Remaining(t1.inFlight, lost, changes[|changes| - 1]));
    }
  }

  lemma SettleKeepsQueue(t: Tracker, token: Token, delivered: bool, live: set<Id>)
    requires QueueOk(t)
    ensures QueueOk(Settle(t, token, delivered, live))
  {
    if token in t.inFlight && !delivered {
      CompactedIsExact(t);
      var t1 := t.(inFlight := t.inFlight - {token}, queue := Compacted(t.queue, t.dirty));
      RequeueKeepsQueue(t1, token, t.inFlight[token], live);
    }
  }

  /** After a send the queue is not much longer than what is pending, and lists it in the same order. */
  lemma TidiedIsBounded(t: Tracker)
    requires QueueOk(t)
    ensures |Tidied(t).queue| <= 2 * |t.dirty| + 32 && Tidied(t) == t.(queue := Tidied(t).queue)
    ensures DirtyChanges(Tidied(t).queue, t.dirty) == DirtyChanges(t.queue, t.dirty)
  {
    if |t.dirty| == 0 || |t.queue| > |t.dirty| * 2 + 32 {
      CompactedSize(t);
      CompactedListsTheSame(t);
    }
  }

  lemma CompactedSize(t: Tracker)
    requires QueueOk(t)
    ensures |Compacted(t.queue, t.dirty)| == |t.dirty|
  {
    CompactedIsExact(t);
    EqualLengthsMeanEqualSets(t.(queue := Compacted(t.queue, t.dirty)));
  }

  lemma CompactedListsTheSame(t: Tracker)
    ensures DirtyChanges(Compacted(t.queue, t.dirty), t.dirty) == DirtyChanges(t.queue, t.dirty)
  {
    if |t.dirty| == 0 {
      NothingListed(t.queue, t.dirty);
    } else {
      FilteredListsTheSame(t.queue, t.dirty);
    }
  }

  lemma {:induction false} NothingListed(queue: seq<Id>, dirty: map<Id, Change>)
    requires |dirty| == 0
    ensures DirtyChanges(queue, dirty) == []
  {
    if queue != [] { NothingListed(queue[..|queue| - 1], dirty); }
  }

  lemma {:induction false} FilteredListsTheSame(queue: seq<Id>, dirty: map<Id, Change>)
    ensures DirtyChanges(Filter(queue, dirty.Keys), dirty) == DirtyChanges(queue, dirty)
  {
    if queue != [] {
      var p, id := queue[..|queue| - 1], queue[|queue| - 1];
      FilteredListsTheSame(p, dirty);
      var r := Filter(p, dirty.Keys);
      assert (r + [id])[..|r|] == r;
    }
  }

  /** dirtyChangesInto: the pending changes in queue order. */
  function DirtyChanges(queue: seq<Id>, dirty: map<Id, Change>): seq<Change>
  {
    if queue == [] then []
    else
      var r := DirtyChanges(queue[..|queue| - 1], dirty);
      var id := queue[|queue| - 1];
      if id in dirty then r + [dirty[id]] else r
  }

  /** Every pending change is listed, exactly once, in queue order. */
  lemma {:induction false} DirtyChangesExact(queue: seq<Id>, dirty: map<Id, Change>)
    requires NoDup(queue) && forall id :: id in dirty ==> dirty[id].id == id
    ensures var r := DirtyChanges(queue, dirty);
            && (forall ch :: ch in r <==> ch.id in queue && ch.id in dirty && dirty[ch.id] == ch)
            && (forall i, j :: 0 <= i < j < |r| ==> r[i].id != r[j].id && Precedes(queue, r[i].id, r[j].id))
  {
    if queue != [] {
      var p, id := queue[..|queue| - 1], queue[|queue| - 1];
      DirtyChangesExact(p, dirty);
      assert queue == p + [id] && id !in p;
      var q, r := DirtyChanges(p, dirty), DirtyChanges(queue, dirty);
      forall i | 0 <= i < |q| ensures q[i].id != id && q[i].id in p { assert q[i] in q; }
      forall i, j | 0 <= i < j < |r| ensures Precedes(queue, r[i].id, r[j].id) { PrecedesLast(p, id, r[i].id, r[j].id); }
    }
  }
}
