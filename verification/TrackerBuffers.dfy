/** The tracker as the server holds it: in-flight changes live in buffers that are recycled through
    a free list (golem/eventual_state.go). No buffer is ever in two places, so the heap object behaves
    as the value-level tracker of StateTracker. */
module TrackerBuffers {
  import opened Identifiers
  import opened StateTracker

  const FREE_LIMIT := 64
  const FREE_MAX_CAP := 256

  /** A slice with its backing store: what `items` holds is visible through every reference to it. */
  class Buffer {
    const capacity: nat
    var items: seq<Change>

    constructor (capacity: nat)
      ensures this.capacity == capacity && items == []
    {
      this.capacity := capacity;
      items := [];
    }
  }

  ghost predicate Injective(m: map<Token, Buffer>)
  {
    forall s, t :: s in m && t in m && m[s] == m[t] ==> s == t
  }

  lemma InjectiveAdd(m: map<Token, Buffer>, token: Token, b: Buffer)
    requires Injective(m) && b !in m.Values && token !in m
    ensures Injective(m[token := b]) && m[token := b].Values == m.Values + {b}
  {
    var m' := m[token := b];
    assert m'[token] == b;
    assert forall t :: t in m ==> m'[t] == m[t] && m[t] in m.Values;
  }

  lemma InjectiveRemove(m: map<Token, Buffer>, token: Token)
    requires Injective(m) && token in m
    ensures Injective(m - {token}) && (m - {token}).Values == m.Values - {m[token]}
  {
    var m' := m - {token};
    forall b | b in m.Values && b != m[token] ensures b in m'.Values {
      var t :| t in m && m[t] == b;
      assert m'[t] == b;
    }
  }

  class EventualTracker {
    var dirtySet: map<Id, Change>
    var dirtyQueue: seq<Id>
    var inFlight: map<Token, Buffer>
    var inFlightFree: seq<Buffer>
    ghost var flying: map<Token, seq<Change>>  // what the buffers in flight hold, by token

    /** Every buffer in flight or free, each in exactly one place. */
    ghost predicate Separate()
      reads this`inFlight, this`inFlightFree
    {
      Injective(inFlight) && NoDup(inFlightFree) && forall b :: b in inFlightFree ==> b !in inFlight.Values
    }

    ghost function Buffers(): set<Buffer>
      reads this`inFlight, this`inFlightFree
    {
      inFlight.Values + set b | b in inFlightFree
    }

    ghost predicate PoolOk()
      reads this`inFlight, this`inFlightFree, this`flying, inFlight.Values
    {
      && Separate()
      && |inFlightFree| <= FREE_LIMIT
      && (forall b :: b in inFlightFree ==> 0 < b.capacity <= FREE_MAX_CAP)
      && flying.Keys == inFlight.Keys
      && (forall t :: t in inFlight ==> inFlight[t].items == flying[t] && 0 < |flying[t]| <= inFlight[t].capacity)
    }

    /** The dirty side of the tracker. */
    ghost function Dirty(): Tracker
      reads this`dirtySet, this`dirtyQueue
    {
      Tracker(dirtySet, dirtyQueue, map[])
    }

    ghost predicate Valid()
      reads this, inFlight.Values
    {
      PoolOk() && QueueOk(Dirty())
    }

    ghost function View(): Tracker
      reads this
    {
      Tracker(dirtySet, dirtyQueue, flying)
    }

    constructor ()
      ensures Valid() && View() == NOTHING_TRACKED && inFlightFree == []
    {
      dirtySet, dirtyQueue, inFlight, inFlightFree, flying := map[], [], map[], [], map[];
    }

    // ---- the dirty queue ----

    /** compactDirtyQueueNow, filtering in place. */
    method CompactDirtyQueueNow()
      requires QueueOk(Dirty())
      modifies this`dirtyQueue
      ensures QueueOk(Dirty()) && dirtyQueue == Compacted(old(dirtyQueue), dirtySet)
    {
      CompactedIsExact(Dirty());
      if |dirtyQueue| == 0 || |dirtyQueue| == |dirtySet| {
        return;
      }
      if |dirtySet| == 0 {
        dirtyQueue := [];
        return;
      }
      dirtyQueue := FilteredQueue();
    }

    /** The filtering loop. */
    method FilteredQueue() returns (dst: seq<Id>)
      ensures dst == Filter(dirtyQueue, dirtySet.Keys)
    {
      dst := [];
      for i := 0 to |dirtyQueue|
        invariant dst == Filter(dirtyQueue[..i], dirtySet.Keys)
      {
        assert dirtyQueue[..i + 1][..i] == dirtyQueue[..i];
        if dirtyQueue[i] in dirtySet {
          dst := dst + [dirtyQueue[i]];
        }
      }
      assert dirtyQueue[..|dirtyQueue|] == dirtyQueue;
    }

    /** compactDirtyQueue: the lazy form used after sends. */
    method CompactDirtyQueue()
      requires QueueOk(Dirty())
      modifies this`dirtyQueue
      ensures QueueOk(Dirty()) && View() == Tidied(old(View()))
    {
      if |dirtyQueue| == 0 || |dirtyQueue| == |dirtySet| {
        return;
      }
      if |dirtySet| == 0 {
        CompactedIsExact(Dirty());
        dirtyQueue := [];
        return;
      }
      if |dirtyQueue| <= |dirtySet| * 2 + 32 {
        return;
      }
      CompactDirtyQueueNow();
    }

    /** markDirtyChange. The second look-up after compaction never finds anything. */
    method MarkDirtyChange(ch: Change)
      requires QueueOk(Dirty())
      modifies this`dirtySet, this`dirtyQueue
      ensures QueueOk(Dirty()) && View() == MarkDirty(old(View()), ch)
    {
      MarkDirtyKeepsQueue(Dirty(), ch);
      if ch.id == 0 || (!ch.full && ch.mask == {}) {
        return;
      }
      if ch.id in dirtySet {
        MergeDirty(ch);
        return;
      }
      if |dirtyQueue| != |dirtySet| {
        CompactDirtyQueueNow();
        if ch.id in dirtySet {
          assert false;
        }
      }
      dirtySet := dirtySet[ch.id := ch];
      dirtyQueue := dirtyQueue + [ch.id];
    }

    method MergeDirty(ch: Change)
      requires ch.id in dirtySet
      modifies this`dirtySet
      ensures dirtySet == old(dirtySet)[ch.id := Merge(old(dirtySet)[ch.id], ch)]
    {
      var existing := dirtySet[ch.id];
      existing := existing.(isPublic := existing.isPublic || ch.isPublic);
      if existing.full || ch.full {
        existing := existing.(full := true, mask := {});
      } else {
        existing := existing.(mask := existing.mask + ch.mask);
      }
      dirtySet := dirtySet[ch.id := existing];
    }

    /** dirtyChangesInto: each pending change exactly once, in queue order. */
    method DirtyChangesInto() returns (changes: seq<Change>)
      requires QueueOk(Dirty())
      ensures changes == DirtyChanges(dirtyQueue, dirtySet)
    {
      changes := [];
      if |dirtySet| == 0 {
        NoChanges(dirtyQueue, dirtySet);
        return;
      }
      for i := 0 to |dirtyQueue|
        invariant changes == DirtyChanges(dirtyQueue[..i], dirtySet)
      {
        assert dirtyQueue[..i + 1][..i] == dirtyQueue[..i];
        if dirtyQueue[i] in dirtySet {
          changes := changes + [dirtySet[dirtyQueue[i]]];
        }
      }
      assert dirtyQueue[..|dirtyQueue|] == dirtyQueue;
    }

    // ---- the buffer pool ----

    /** borrowInFlightChanges: a free buffer of sufficient capacity, or a new one. */
    method Borrow(n: nat) returns (buf: Buffer)
      requires PoolOk() && n > 0
      modifies this`inFlightFree
      ensures PoolOk() && buf.capacity >= n && buf !in Buffers()
      ensures fresh(buf) || buf in old(inFlightFree)
      ensures forall b :: b in inFlightFree ==> b in old(inFlightFree)
    {
      var i := |inFlightFree| - 1;
      while i >= 0
        invariant -1 <= i < |inFlightFree|
      {
        if inFlightFree[i].capacity >= n {
          buf := inFlightFree[i];
          var last := |inFlightFree| - 1;
          inFlightFree := inFlightFree[i := inFlightFree[last]][..last];
          return;
        }
        i := i - 1;
      }
      buf := new Buffer(n);
    }

    /** releaseInFlightChanges: keeps the buffer unless it is too large or the list is full. */
    method Release(buf: Buffer)
      requires PoolOk() && buf !in Buffers()
      modifies this`inFlightFree
      ensures PoolOk()
      ensures inFlightFree == old(inFlightFree) + if 0 < buf.capacity <= FREE_MAX_CAP && |old(inFlightFree)| < FREE_LIMIT then [buf] else []
    {
      if buf.capacity == 0 || buf.capacity > FREE_MAX_CAP || |inFlightFree| >= FREE_LIMIT {
        return;
      }
      inFlightFree := inFlightFree + [buf];
    }

    // ---- tokens ----

    /** Takes a token's buffer out of the map. */
    method Detach(token: Token) returns (buf: Buffer)
      requires PoolOk() && token in inFlight
      modifies this`inFlight, this`flying
      ensures PoolOk() && inFlight == old(inFlight) - {token} && flying == old(flying) - {token}
      ensures buf == old(inFlight)[token] && buf.items == old(flying)[token] && buf !in Buffers()
      ensures inFlight.Values <= old(inFlight.Values)
    {
      buf := inFlight[token];
      InjectiveRemove(inFlight, token);
      inFlight := inFlight - {token};
      flying := flying - {token};
    }

    method Drop(token: Token)
      requires PoolOk() && token in inFlight
      modifies this`inFlight, this`flying, this`inFlightFree
      ensures PoolOk() && inFlight == old(inFlight) - {token} && flying == old(flying) - {token}
      ensures inFlight.Values <= old(inFlight.Values)
      ensures forall b :: b in inFlightFree ==> b in old(Buffers())
    {
      var existing := Detach(token);
      assert existing in old(inFlight.Values);
      Release(existing);
    }

    /** Puts a buffer that is nowhere else under a token and fills it. */
    method Fill(token: Token, cp: Buffer, changes: seq<Change>)
      requires PoolOk() && token !in inFlight && 0 < |changes| <= cp.capacity && cp !in Buffers()
      modifies this`inFlight, this`flying, cp
      ensures PoolOk() && flying == old(flying)[token := changes]
    {
      InjectiveAdd(inFlight, token, cp);
      cp.items := changes;
      inFlight := inFlight[token := cp];
      flying := flying[token := changes];
    }

    method Attach(token: Token, changes: seq<Change>)
      requires PoolOk() && token !in inFlight && |changes| > 0
      modifies this`inFlight, this`flying, this`inFlightFree, inFlightFree
      ensures PoolOk() && flying == old(flying)[token := changes]
    {
      var cp := Borrow(|changes|);
      Fill(token, cp, changes);
    }

    /** markSent: the changes are copied into a pool buffer and cleared from the dirty set. */
    method MarkSent(token: Token, changes: seq<Change>)
      requires Valid()
      modifies this, Buffers()
      ensures Valid() && View() == StateTracker.MarkSent(old(View()), token, changes)
    {
      if |changes| == 0 {
        return;
      }
      Replace(token, changes);
      ClearDirtyAll(changes);
    }

    method Replace(token: Token, changes: seq<Change>)
      requires PoolOk() && |changes| > 0
      modifies this`inFlight, this`flying, this`inFlightFree, Buffers()
      ensures PoolOk() && flying == old(flying)[token := changes]
    {
      if token in inFlight {
        Drop(token);
      }
      Attach(token, changes);
    }

    method ClearDirtyAll(changes: seq<Change>)
      requires QueueOk(Dirty())
      modifies this`dirtySet
      ensures QueueOk(Dirty()) && dirtySet == old(dirtySet) - Ids(changes)
    {
      for i := 0 to |changes|
        invariant dirtySet == old(dirtySet) - Ids(changes[..i])
      {
        IdsAppend(changes, i);
        dirtySet := dirtySet - {changes[i].id};
      }
      assert changes[..|changes|] == changes;
    }

    // ---- removal ----

    /** One token's share of clearEntity: filtered in place, or dropped when nothing is left. */
    method ClearToken(token: Token, id: Id)
      requires PoolOk() && token in inFlight
      modifies this`inFlight, this`flying, this`inFlightFree, inFlight[token]
      ensures PoolOk() && inFlight.Values <= old(inFlight.Values)
      ensures flying == if Without(old(flying)[token], id) == [] then old(flying) - {token}
                        else old(flying)[token := Without(old(flying)[token], id)]
    {
      var changes := inFlight[token];
      var kept := FilterOut(changes.items, id);
      if |kept| == 0 {
        Drop(token);
        return;
      }
      assert |kept| <= |changes.items|;
      changes.items := kept;
      flying := flying[token := kept];
    }

    /** clearEntity: the tokens are visited in any order. */
    method ClearEntity(id: Id)
      requires Valid()
      modifies this`dirtySet, this`inFlight, this`flying, this`inFlightFree, inFlight.Values
      ensures Valid() && View() == StateTracker.ClearEntity(old(View()), id)
    {
      ClearFlight(id);
      dirtySet := dirtySet - {id};
    }

    method ClearFlight(id: Id)
      requires PoolOk()
      modifies this`inFlight, this`flying, this`inFlightFree, inFlight.Values
      ensures PoolOk() && flying == ClearedFlight(old(flying), id)
    {
      ghost var was, buffers := flying, inFlight.Values;
      var rest := inFlight.Keys;
      while rest != {}
        invariant PoolOk() && rest <= was.Keys && inFlight.Values <= buffers
        invariant flying == ClearedUpTo(was, rest, id)
        decreases rest
      {
        var token :| token in rest;
        ClearedStep(was, rest, token, id);
        rest := rest - {token};
        ClearToken(token, id);
      }
      assert ClearedUpTo(was, {}, id) == ClearedFlight(was, id);
    }

    // ---- feedback ----

    /** subtractNewerInFlight: the tokens are visited in any order, with early exits; the answer does
        not depend on it. */
    method SubtractNewerInFlight(lost: Token, ch: Change) returns (r: Change)
      requires PoolOk()
      ensures r == Remaining(flying, lost, ch) || (Ignored(r) && Ignored(Remaining(flying, lost, ch)))
    {
      var rest := inFlight.Keys;
      if ch.full {
        while rest != {}
          invariant rest <= inFlight.Keys
          invariant forall t :: t in flying && t !in rest && t > lost ==> !FullIn(flying[t], ch.id)
          decreases rest
        {
          var token :| token in rest;
          rest := rest - {token};
          if token > lost {
            var found := HasFull(inFlight[token].items, ch.id);
            if found {
              return NO_CHANGE;
            }
          }
        }
        return ch;
      }
      var mask := ch.mask;
      while rest != {}
        invariant rest <= inFlight.Keys
        invariant mask == Uncovered(ch.mask, flying - rest, lost, ch.id)
        decreases rest
      {
        var token :| token in rest;
        UncoveredStep(ch.mask, flying, rest, token, lost, ch.id);
        rest := rest - {token};
        if token > lost {
          mask := SubtractToken(inFlight[token].items, ch.id, mask);
          if mask == {} {
            NothingLeft(ch.mask, flying, rest, lost, ch.id);
            return NO_CHANGE;
          }
        }
      }
      assert flying - {} == flying;
      return Change(ch.id, mask, false, ch.isPublic);
    }

    /** The loop over a lost token's changes. */
    method RequeueAll(token: Token, changes: seq<Change>, live: set<Id>)
      requires Valid()
      modifies this`dirtySet, this`dirtyQueue
      ensures Valid() && View() == Requeue(old(View()), token, changes, live)
    {
      for i := 0 to |changes|
        invariant Valid()
        invariant View() == Requeue(old(View()), token, changes[..i], live)
      {
        assert changes[..i + 1][..i] == changes[..i];
        if changes[i].id in live {
          var remaining := SubtractNewerInFlight(token, changes[i]);
          MarkDirtyChange(remaining);
        }
      }
      assert changes[..|changes|] == changes;
    }

    /** One report of applyFeedback: a lost token's changes are rebased unless a newer token has them. */
    method SettleToken(token: Token, delivered: bool, live: set<Id>)
      requires Valid()
      modifies this
      ensures Valid() && View() == Settle(old(View()), token, delivered, live)
      ensures inFlight.Values <= old(inFlight.Values)
    {
      if token !in inFlight {
        return;
      }
      var changes := Detach(token);
      if delivered {
        Release(changes);
        return;
      }
      CompactDirtyQueueNow();
      RequeueAll(token, changes.items, live);
      Release(changes);
    }

    /** applyFeedback. */
    method ApplyFeedback(feedback: seq<(Token, bool)>, live: set<Id>)
      requires Valid()
      modifies this
      ensures Valid() && View() == SettleAll(old(View()), feedback, live)
      ensures AnsweredInTurn(old(View()), feedback, live, View())
    {
      AllAnswered(View(), feedback, live);
      for i := 0 to |feedback|
        invariant Valid() && inFlight.Values <= old(inFlight.Values)
        invariant View() == SettleAll(old(View()), feedback[..i], live)
      {
        assert feedback[..i + 1][..i] == feedback[..i];
        SettleToken(feedback[i].0, feedback[i].1, live);
      }
      assert feedback[..|feedback|] == feedback;
    }
  }

  function SettleAll(t: Tracker, feedback: seq<(Token, bool)>, live: set<Id>): Tracker
  {
    if feedback == [] then t
    else
      var (token, delivered) := feedback[|feedback| - 1];
      Settle(SettleAll(t, feedback[..|feedback| - 1], live), token, delivered, live)
  }

  /** Reports are answered one after the other, the trackers in between being `stages`. */
  ghost predicate Stages(stages: seq<Tracker>, feedback: seq<(Token, bool)>, live: set<Id>)
    requires |stages| == |feedback| + 1
  {
    forall i :: 0 <= i < |feedback| ==> Answered(stages[i], feedback[i].0, feedback[i].1, live, stages[i + 1])
  }

  ghost predicate AnsweredInTurn(t: Tracker, feedback: seq<(Token, bool)>, live: set<Id>, t': Tracker)
  {
    exists stages: seq<Tracker> ::
      |stages| == |feedback| + 1 && stages[0] == t && stages[|feedback|] == t' && Stages(stages, feedback, live)
  }

  lemma AllAnswered(t: Tracker, feedback: seq<(Token, bool)>, live: set<Id>)
    ensures AnsweredInTurn(t, feedback, live, SettleAll(t, feedback, live))
  {
    var stages := AnswerStages(t, feedback, live);
  }

  lemma {:induction false} AnswerStages(t: Tracker, feedback: seq<(Token, bool)>, live: set<Id>) returns (stages: seq<Tracker>)
    ensures |stages| == |feedback| + 1 && stages[0] == t && stages[|feedback|] == SettleAll(t, feedback, live)
    ensures Stages(stages, feedback, live)
    decreases |feedback|
  {
    if feedback == [] {
      stages := [t];
    } else {
      var p, last := feedback[..|feedback| - 1], feedback[|feedback| - 1];
      var before := AnswerStages(t, p, live);
      var t1, t2 := SettleAll(t, p, live), SettleAll(t, feedback, live);
      SettleIsExact(t1, last.0, last.1, live);
      OneMoreStage(before, p, last, live, t2);
      assert feedback == p + [last];
      stages := before + [t2];
    }
  }

  lemma OneMoreStage(stages: seq<Tracker>, p: seq<(Token, bool)>, last: (Token, bool), live: set<Id>, t': Tracker)
    requires |stages| == |p| + 1 && Stages(stages, p, live) && Answered(stages[|p|], last.0, last.1, live, t')
    ensures Stages(stages + [t'], p + [last], live)
  {
    var all, feedback := stages + [t'], p + [last];
    forall i | 0 <= i < |feedback| ensures Answered(all[i], feedback[i].0, feedback[i].1, live, all[i + 1]) {
      if i < |p| { assert all[i] == stages[i] && all[i + 1] == stages[i + 1] && feedback[i] == p[i]; }
    }
  }

  ghost function ClearedUpTo(was: map<Token, seq<Change>>, rest: set<Token>, id: Id): map<Token, seq<Change>>
  {
    map t | t in was && (t in rest || Without(was[t], id) != []) :: if t in rest then was[t] else Without(was[t], id)
  }

  method FilterOut(changes: seq<Change>, id: Id) returns (r: seq<Change>)
    ensures r == Without(changes, id)
  {
    r := [];
    for i := 0 to |changes|
      invariant r == Without(changes[..i], id)
    {
      assert changes[..i + 1][..i] == changes[..i];
      if changes[i].id != id {
        r := r + [changes[i]];
      }
    }
    assert changes[..|changes|] == changes;
  }

  method HasFull(changes: seq<Change>, id: Id) returns (found: bool)
    ensures found <==> FullIn(changes, id)
  {
    for i := 0 to |changes|
      invariant forall j :: 0 <= j < i ==> !(changes[j].id == id && changes[j].full)
    {
      if changes[i].id == id && changes[i].full {
        return true;
      }
    }
    return false;
  }

  function NotIn(start: Bits, changes: seq<Change>, id: Id): Bits { set b | b in start && !BitIn(changes, id, b) }

  /** The inner loop: bits of newer changes of the same entity, all of them at a full one. */
  method SubtractToken(changes: seq<Change>, id: Id, start: Bits) returns (mask: Bits)
    ensures mask == NotIn(start, changes, id)
  {
    mask := start;
    for i := 0 to |changes|
      invariant mask == NotIn(start, changes[..i], id)
    {
      BitInAppend(changes, i, id);
      var newer := changes[i];
      if newer.id == id {
        if newer.full {
          FullHidesAll(changes, i, id);
          return {};
        }
        mask := mask - newer.mask;
      }
    }
    assert changes[..|changes|] == changes;
  }

  lemma BitInAppend(changes: seq<Change>, i: nat, id: Id)
    requires i < |changes|
    ensures forall b :: BitIn(changes[..i + 1], id, b) <==>
              BitIn(changes[..i], id, b) || (changes[i].id == id && b in Cover(changes[i]))
  {
    forall b | BitIn(changes[..i], id, b) ensures BitIn(changes[..i + 1], id, b) {
      var j :| 0 <= j < i && changes[..i][j].id == id && b in Cover(changes[..i][j]);
      assert changes[..i + 1][j] == changes[j];
    }
    forall b | BitIn(changes[..i + 1], id, b)
      ensures BitIn(changes[..i], id, b) || (changes[i].id == id && b in Cover(changes[i]))
    {
      var j :| 0 <= j < i + 1 && changes[..i + 1][j].id == id && b in Cover(changes[..i + 1][j]);
      if j < i { assert changes[..i][j] == changes[j]; }
    }
    assert changes[..i + 1][i] == changes[i];
  }

  lemma FullHidesAll(changes: seq<Change>, i: nat, id: Id)
    requires i < |changes| && changes[i].id == id && changes[i].full
    ensures forall b: Bit :: BitIn(changes, id, b)
  {
    forall b: Bit ensures BitIn(changes, id, b) { assert b in Cover(changes[i]); }
  }

  lemma NewerBitStep(flying: map<Token, seq<Change>>, rest: set<Token>, token: Token, lost: Token, id: Id, b: Bit)
    requires token in rest && token in flying
    ensures NewerBit(flying - (rest - {token}), lost, id, b) <==>
              NewerBit(flying - rest, lost, id, b) || (token > lost && BitIn(flying[token], id, b))
  {
    var now, before := flying - (rest - {token}), flying - rest;
    assert now[token] == flying[token];
    if NewerBit(before, lost, id, b) {
      var t :| t in before && t > lost && BitIn(before[t], id, b);
      assert t in now && BitIn(now[t], id, b);
    }
    if NewerBit(now, lost, id, b) {
      var t :| t in now && t > lost && BitIn(now[t], id, b);
      if t != token { assert t in before && BitIn(before[t], id, b); }
    }
  }

  lemma UncoveredStep(mask: Bits, flying: map<Token, seq<Change>>, rest: set<Token>, token: Token, lost: Token, id: Id)
    requires token in rest && token in flying
    ensures var before := Uncovered(mask, flying - rest, lost, id);
            Uncovered(mask, flying - (rest - {token}), lost, id) ==
              if token > lost then NotIn(before, flying[token], id) else before
  {
    forall b: Bit
      ensures NewerBit(flying - (rest - {token}), lost, id, b) <==>
                NewerBit(flying - rest, lost, id, b) || (token > lost && BitIn(flying[token], id, b))
    {
      NewerBitStep(flying, rest, token, lost, id, b);
    }
  }

  /** Once no bit is left, no further token can bring one back. */
  lemma NothingLeft(mask: Bits, flying: map<Token, seq<Change>>, rest: set<Token>, lost: Token, id: Id)
    requires Uncovered(mask, flying - rest, lost, id) == {}
    ensures Uncovered(mask, flying, lost, id) == {}
  {
    forall b | b in mask ensures NewerBit(flying, lost, id, b) {
      assert b !in Uncovered(mask, flying - rest, lost, id);
      var t :| t in flying - rest && t > lost && BitIn((flying - rest)[t], id, b);
      assert BitIn(flying[t], id, b);
    }
  }

  lemma ClearedStep(was: map<Token, seq<Change>>, rest: set<Token>, token: Token, id: Id)
    requires token in rest && token in was
    ensures var before := ClearedUpTo(was, rest, id);
            && token in before && before[token] == was[token]
            && ClearedUpTo(was, rest - {token}, id) ==
                 if Without(was[token], id) == [] then before - {token} else before[token := Without(was[token], id)]
  {
  }

  lemma IdsAppend(changes: seq<Change>, i: nat)
    requires i < |changes|
    ensures Ids(changes[..i + 1]) == Ids(changes[..i]) + {changes[i].id}
  {
    var p := changes[..i + 1];
    assert p[i].id in Ids(p);
    forall id | id in Ids(p) ensures id in Ids(changes[..i]) + {changes[i].id} {
      var j :| 0 <= j < |p| && p[j].id == id;
      if j < i { assert changes[..i][j].id == id; }
    }
    forall id | id in Ids(changes[..i]) ensures id in Ids(p) {
      var j :| 0 <= j < i && changes[..i][j].id == id;
      assert p[j].id == id;
    }
  }

  lemma {:induction false} NoChanges(queue: seq<Id>, dirty: map<Id, Change>)
    requires dirty == map[]
    ensures DirtyChanges(queue, dirty) == []
  {
    if queue != [] { NoChanges(queue[..|queue| - 1], dirty); }
  }
}
