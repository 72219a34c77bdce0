/** The code that sends is a run of the no-lost-update model: whatever branch sendSessionEventualState takes,
    what it does to the tracker is a sequence of that model's steps (golem/eventual_state.go, golem/loop.go). */
module SendRefinement {
  import opened Identifiers
  import opened Datagrams
  import opened StateTracker
  import opened NoLostUpdate
  import P = Packing
  import R = OwnerReplication

  // ---- putting runs together ----

  lemma ExtendRun(w: World, steps: seq<Step>, s: Step)
    requires IsRun(w, steps) && Enabled(Run(w, steps), s)
    ensures IsRun(w, steps + [s]) && Run(w, steps + [s]) == Next(Run(w, steps), s)
  {
    assert (steps + [s])[..|steps|] == steps;
  }

  lemma {:induction false} JoinRuns(w: World, a: seq<Step>, b: seq<Step>)
    requires IsRun(w, a) && IsRun(Run(w, a), b)
    ensures IsRun(w, a + b) && Run(w, a + b) == Run(Run(w, a), b)
    decreases |b|
  {
    if b == [] {
      assert a + b == a;
    } else {
      var p, last := b[..|b| - 1], b[|b| - 1];
      JoinRuns(w, a, p);
      LastOfBoth(a, b);
      LastStep(Run(w, a), p, last);
      ExtendRun(w, a + p, last);
    }
  }

  lemma LastOfBoth(a: seq<Step>, b: seq<Step>)
    requires b != []
    ensures var p, last := b[..|b| - 1], b[|b| - 1]; b == p + [last] && a + b == (a + p) + [last]
  {
  }

  lemma LastStep(w: World, steps: seq<Step>, s: Step)
    requires IsRun(w, steps + [s])
    ensures IsRun(w, steps) && Enabled(Run(w, steps), s) && Run(w, steps + [s]) == Next(Run(w, steps), s)
  {
    assert (steps + [s])[..|steps|] == steps;
  }

  /** What a step leaves alone. */
  ghost predicate SameScene(w: World, w': World) { w'.live == w.live && w'.shown == w.shown && w'.masks == w.masks }

  // ---- what a stretch of a run means for the client ----

  /** Cells that changed; what each new datagram holds; what went out over the stream after that. */
  datatype News = News(cells: set<Cell>, wires: map<Token, set<Cell>>, streamed: set<Cell>)

  const NO_NEWS := News({}, map[], {})

  /** Every shown cell that was outdated or changed is outdated, unless the stream brought it; a new datagram
      counts for no more than it holds, and an older one for none of the cells that changed. */
  ghost predicate Follows(w: World, news: News, w': World)
  {
    && SameScene(w, w')
    && (forall c :: c in w.shown && (c in w.stale || c in news.cells) && c !in news.streamed ==> c in w'.stale)
    && (forall token :: token in w'.carries ==>
          if token in news.wires then w'.carries[token] <= news.wires[token]
          else token in w.carries && w'.carries[token] <= w.carries[token] - news.cells)
  }

  function Both(a: News, b: News): News { News(a.cells + b.cells, a.wires + b.wires, b.streamed) }

  lemma ChangedThenSent(cells: set<Cell>, news: News)
    requires news.cells == {}
    ensures Both(News(cells, map[], {}), news) == news.(cells := cells)
  {
  }

  lemma FollowsBoth(w: World, a: News, w1: World, b: News, w2: World)
    requires Follows(w, a, w1) && Follows(w1, b, w2) && a.streamed == {}
    ensures Follows(w, Both(a, b), w2)
  {
    var news := Both(a, b);
    forall token | token in w2.carries
      ensures if token in news.wires then w2.carries[token] <= news.wires[token]
              else token in w.carries && w2.carries[token] <= w.carries[token] - news.cells
    {
      if token !in b.wires { assert token in w1.carries && w2.carries[token] <= w1.carries[token] - b.cells; }
    }
  }

  ghost predicate Achieves(w: World, steps: seq<Step>, news: News) { IsRun(w, steps) && Follows(w, news, Run(w, steps)) }

  lemma Extend(w: World, steps: seq<Step>, a: News, s: Step, b: News)
    requires Achieves(w, steps, a) && a.streamed == {}
    requires Enabled(Run(w, steps), s) && Follows(Run(w, steps), b, Next(Run(w, steps), s))
    ensures Achieves(w, steps + [s], Both(a, b)) && Run(w, steps + [s]) == Next(Run(w, steps), s)
  {
    ExtendRun(w, steps, s);
    FollowsBoth(w, a, Run(w, steps), b, Next(Run(w, steps), s));
  }

  lemma Join(w: World, first: seq<Step>, a: News, then_: seq<Step>, b: News)
    requires Achieves(w, first, a) && Achieves(Run(w, first), then_, b) && a.streamed == {}
    ensures Achieves(w, first + then_, Both(a, b)) && Run(w, first + then_) == Run(Run(w, first), then_)
  {
    JoinRuns(w, first, then_);
    FollowsBoth(w, a, Run(w, first), b, Run(Run(w, first), then_));
  }

  /** What is on the wire depends on the scene alone. */
  lemma SameWire(w: World, w': World, changes: seq<Change>)
    requires SameScene(w, w')
    ensures Wire(w', changes) == Wire(w, changes)
  {
  }

  lemma CellsAppend(a: seq<Change>, b: seq<Change>)
    ensures AllCells(a + b) == AllCells(a) + AllCells(b)
  {
    forall c ensures c in AllCells(a + b) <==> c in AllCells(a) || c in AllCells(b) {
      BitsOfAll(a + b, c);
      BitsOfAll(a, c);
      BitsOfAll(b, c);
      BitsAppend(a, b, c);
    }
  }

  lemma BitsAppend(a: seq<Change>, b: seq<Change>, c: Cell)
    ensures BitIn(a + b, c.0, c.1) <==> BitIn(a, c.0, c.1) || BitIn(b, c.0, c.1)
  {
    var all := a + b;
    if BitIn(all, c.0, c.1) {
      var i :| 0 <= i < |all| && all[i].id == c.0 && c.1 in Cover(all[i]);
      if i < |a| { assert a[i] == all[i]; } else { assert b[i - |a|] == all[i]; }
    }
    if BitIn(a, c.0, c.1) {
      var i :| 0 <= i < |a| && a[i].id == c.0 && c.1 in Cover(a[i]);
      assert all[i] == a[i];
    }
    if BitIn(b, c.0, c.1) {
      var i :| 0 <= i < |b| && b[i].id == c.0 && c.1 in Cover(b[i]);
      assert all[|a| + i] == b[i];
    }
  }

  // ---- the serialiser tells the truth ----

  /** A frame is dead only for a dead entity, and empty only when the session is shown nothing of the change. */
  predicate Truthful(w: World, item: P.Item)
  {
    && (item.frame.Dead? ==> item.change.id !in w.live)
    && (item.frame.Nothing? ==> NothingToShow(w, item.change))
  }

  ghost predicate AllTruthful(w: World, items: seq<P.Item>)
  {
    forall i :: 0 <= i < |items| ==> Truthful(w, items[i])
  }

  /** eventualFrameForChange's reason for an empty frame: no public bit is left of a public change. */
  lemma EmptyPublicMaskIsTruthful(w: World, ch: Change)
    requires Suits(w, ch) && ch.isPublic && !ch.full && ch.mask * w.masks(ch.id) == {}
    ensures NothingToShow(w, ch)
  {
    forall b | b in Cover(ch) ensures (ch.id, b) !in w.shown {
      assert b !in ch.mask * w.masks(ch.id);
    }
  }

  // ---- distinct entities ----

  ghost predicate OneEach(items: seq<P.Item>)
  {
    forall i, j :: 0 <= i < j < |items| ==> items[i].change.id != items[j].change.id
  }

  /** The pending entry of each item is the item's change. */
  ghost predicate AllPending(t: Tracker, items: seq<P.Item>)
  {
    forall i :: 0 <= i < |items| ==> items[i].change.id in t.dirty && t.dirty[items[i].change.id] == items[i].change
  }

  lemma PendingChanges(t: Tracker, items: seq<P.Item>)
    requires AllPending(t, items)
    ensures Pending(t, P.Changes(items))
  {
  }

  // ---- datagrams ----

  lemma {:induction false} SentDirty(t: Tracker, done: seq<P.Batch>, first: Token)
    ensures P.AfterSends(t, done, first).dirty == t.dirty - Ids(P.Changes(P.Concat(done)))
    ensures P.AfterSends(t, done, first).queue == t.queue
  {
    if done == [] {
      assert P.Changes(P.Concat(done)) == [] && Ids([]) == {};
      assert t.dirty - {} == t.dirty;
    } else {
      var p, last := done[..|done| - 1], done[|done| - 1];
      SentDirty(t, p, first);
      P.IdsOfAppend(P.Concat(p), last.items);
      P.MinusTwice(t.dirty, Ids(P.Changes(P.Concat(p))), Ids(P.Changes(last.items)));
      if last.items == [] {
        assert P.Changes(last.items) == [] && Ids([]) == {};
        assert Ids(P.Changes(P.Concat(p))) + {} == Ids(P.Changes(P.Concat(p)));
      }
    }
  }

  /** Entities of later items are not touched by sending earlier ones. */
  lemma StillPending(t: Tracker, before: seq<P.Item>, items: seq<P.Item>, t': Tracker)
    requires AllPending(t, before + items) && OneEach(before + items) && t'.dirty == t.dirty - Ids(P.Changes(before))
    ensures AllPending(t', items)
  {
    var all := before + items;
    forall i | 0 <= i < |items| ensures items[i].change.id in t'.dirty && t'.dirty[items[i].change.id] == items[i].change {
      assert all[|before| + i] == items[i];
      forall j | 0 <= j < |before| ensures P.Changes(before)[j].id != items[i].change.id { assert all[j] == before[j]; }
    }
  }

  ghost predicate NoEmptyBatch(done: seq<P.Batch>) { forall i :: 0 <= i < |done| ==> done[i].items != [] }

  /** One step for each datagram. */
  function SendSteps(done: seq<P.Batch>, pending: bool): seq<Step>
  {
    if done == [] then []
    else SendSteps(done[..|done| - 1], pending) + [SendOf(P.Changes(done[|done| - 1].items), pending)]
  }

  function SendOf(changes: seq<Change>, pending: bool): Step
  {
    if pending then SendDirty(changes) else ChangeAndSend(changes)
  }

  /** What each datagram holds of the shown cells. */
  function Wires(w: World, done: seq<P.Batch>, first: Token): map<Token, set<Cell>>
  {
    if done == [] then map[]
    else Wires(w, done[..|done| - 1], first)[first + |done| := Wire(w, P.Changes(done[|done| - 1].items))]
  }

  /** The world after datagrams were sent. */
  ghost predicate AfterDatagrams(w: World, done: seq<P.Batch>, first: Token, w': World)
  {
    && SameScene(w, w') && w'.nextToken == first + 1 + |done|
    && w'.tracker == P.AfterSends(w.tracker, done, first)
  }

  lemma OneMoreDatagram(w: World, done: seq<P.Batch>, first: Token, w1: World, w2: World)
    requires done != [] && AfterDatagrams(w, done[..|done| - 1], first, w1)
    requires SameScene(w1, w2) && w2.nextToken == w1.nextToken + 1
    requires w2.tracker == MarkSent(w1.tracker, w1.nextToken, P.Changes(done[|done| - 1].items))
    ensures AfterDatagrams(w, done, first, w2)
  {
  }

  /** Sending pending changes, datagram by datagram. */
  lemma {:induction false} SendsAreRun(w: World, done: seq<P.Batch>, first: Token)
    requires w.nextToken == first + 1 && NoEmptyBatch(done)
    requires AllPending(w.tracker, P.Concat(done)) && OneEach(P.Concat(done))
    ensures Achieves(w, SendSteps(done, true), News({}, Wires(w, done, first), {}))
    ensures AfterDatagrams(w, done, first, Run(w, SendSteps(done, true)))
    decreases |done|
  {
    if done != [] {
      var p, last := done[..|done| - 1], done[|done| - 1];
      PrefixOfConcat(w.tracker, done);
      SendsAreRun(w, p, first);
      var w1 := Run(w, SendSteps(p, true));
      SentDirty(w.tracker, p, first);
      StillPending(w.tracker, P.Concat(p), last.items, w1.tracker);
      SendStep(w1, last.items);
      OneMoreDatagram(w, done, first, w1, Next(w1, SendDirty(P.Changes(last.items))));
      Extend(w, SendSteps(p, true), News({}, Wires(w, p, first), {}), SendDirty(P.Changes(last.items)), Datagram(w1, last.items, {}));
      OneMoreWire(w, done, first, w1, {}, {});
    }
  }

  /** One more datagram, of cells that just changed or have been pending. */
  function Datagram(w: World, items: seq<P.Item>, cells: set<Cell>): News
  {
    News(cells, map[w.nextToken := Wire(w, P.Changes(items))], {})
  }

  lemma OneMoreWire(w: World, done: seq<P.Batch>, first: Token, w1: World, a: set<Cell>, b: set<Cell>)
    requires done != [] && SameScene(w, w1) && w1.nextToken == first + |done|
    ensures Both(News(a, Wires(w, done[..|done| - 1], first), {}), Datagram(w1, done[|done| - 1].items, b)) ==
            News(a + b, Wires(w, done, first), {})
    ensures a == b == {} ==> a + b == {}
  {
    SameWire(w, w1, P.Changes(done[|done| - 1].items));
  }

  lemma SendStep(w: World, items: seq<P.Item>)
    requires items != [] && AllPending(w.tracker, items)
    ensures var step := SendDirty(P.Changes(items));
            && Enabled(w, step) && Follows(w, Datagram(w, items, {}), Next(w, step)) && Next(w, step).nextToken == w.nextToken + 1
            && Next(w, step).tracker == MarkSent(w.tracker, w.nextToken, P.Changes(items))
  {
    PendingChanges(w.tracker, items);
    assert P.Changes(items) != [];
  }

  lemma PrefixOfConcat(t: Tracker, done: seq<P.Batch>)
    requires done != [] && AllPending(t, P.Concat(done)) && OneEach(P.Concat(done))
    ensures AllPending(t, P.Concat(done[..|done| - 1])) && OneEach(P.Concat(done[..|done| - 1]))
  {
    var p := P.Concat(done[..|done| - 1]);
    assert P.Concat(done) == p + done[|done| - 1].items;
  }

  // ---- what is cleared ----

  lemma {:induction false} DropsAreRun(w: World, cleared: seq<P.Item>) returns (steps: seq<Step>)
    requires AllPending(w.tracker, cleared) && OneEach(cleared) && AllTruthful(w, cleared)
    requires forall i :: 0 <= i < |cleared| ==> P.FateOf(cleared[i].frame) == P.Cleared
    ensures Achieves(w, steps, NO_NEWS) && Run(w, steps).nextToken == w.nextToken
    ensures Run(w, steps).tracker == ClearDirty(w.tracker, Ids(P.Changes(cleared)))
    decreases |cleared|
  {
    if cleared == [] {
      steps := [];
      assert P.Changes(cleared) == [] && Ids([]) == {};
      assert w.tracker.dirty - {} == w.tracker.dirty;
    } else {
      var p, last := cleared[..|cleared| - 1], cleared[|cleared| - 1];
      var earlier := DropsAreRun(w, p);
      assert cleared == p + [last];
      StillPending(w.tracker, p, [last], Run(w, earlier).tracker);
      var step := DropStep(Run(w, earlier), last);
      Extend(w, earlier, NO_NEWS, step, NO_NEWS);
      assert Both(NO_NEWS, NO_NEWS) == NO_NEWS;
      steps := earlier + [step];
      ClearedOneMore(w.tracker, p, last);
    }
  }

  /** What has no frame, or an empty one, may be dropped. */
  lemma DropStep(w: World, item: P.Item) returns (step: Step)
    requires AllPending(w.tracker, [item]) && Truthful(w, item) && P.FateOf(item.frame) == P.Cleared
    ensures Enabled(w, step) && Follows(w, NO_NEWS, Next(w, step)) && Next(w, step).nextToken == w.nextToken
    ensures Next(w, step).tracker == ClearDirty(w.tracker, {item.change.id})
  {
    assert [item][0] == item;
    step := if item.frame.Dead? then DropDead(item.change.id) else DropEmpty(item.change.id);
  }

  lemma ClearedOneMore(t: Tracker, p: seq<P.Item>, last: P.Item)
    ensures ClearDirty(ClearDirty(t, Ids(P.Changes(p))), {last.change.id}) == ClearDirty(t, Ids(P.Changes(p + [last])))
  {
    P.IdsOfAppend(p, [last]);
    assert P.Changes([last]) == [last.change] && Ids([last.change]) == {last.change.id} by { OnlyOne(last.change); }
    P.MinusTwice(t.dirty, Ids(P.Changes(p)), {last.change.id});
  }

  lemma OnlyOne(ch: Change)
    ensures Ids([ch]) == {ch.id}
  {
    assert [ch][0].id == ch.id;
  }

  // ---- a whole plan ----

  /** The news of a plan that went out. */
  function PlanNews(w: World, cells: set<Cell>, done: seq<P.Batch>, first: Token, streamed: seq<P.Item>): News
  {
    News(cells, Wires(w, done, first), Wire(w, P.Changes(streamed)))
  }

  /** Pending changes sent, cleared and streamed according to a plan. */
  lemma EffectIsRun(w: World, p: P.Plan, first: Token, streamed: seq<P.Item>, t': Tracker) returns (steps: seq<Step>)
    requires w.nextToken == first + 1 && P.Effect(w.tracker, p, first, streamed, t') && NoEmptyBatch(p.done)
    requires var all := P.Concat(p.done) + p.cleared + streamed; AllPending(w.tracker, all) && OneEach(all)
    requires AllTruthful(w, p.cleared) && forall i :: 0 <= i < |p.cleared| ==> P.FateOf(p.cleared[i].frame) == P.Cleared
    ensures Achieves(w, steps, PlanNews(w, {}, p.done, first, streamed))
    ensures Run(w, steps).tracker == t' && Run(w, steps).nextToken == first + 1 + |p.done|
  {
    var sent := P.Concat(p.done);
    Parts(w.tracker, sent, p.cleared, streamed);
    var sends := SendSteps(p.done, true);
    SendsAreRun(w, p.done, first);
    var w1 := Run(w, sends);
    SentDirty(w.tracker, p.done, first);
    StillPending(w.tracker, sent, p.cleared, w1.tracker);
    var drops := DropsAreRun(w1, p.cleared);
    var w2 := Run(w1, drops);
    P.MinusTwice(w.tracker.dirty, Ids(P.Changes(sent)), Ids(P.Changes(p.cleared)));
    P.IdsOfAppend(sent, p.cleared);
    StillPending(w.tracker, sent + p.cleared, streamed, w2.tracker);
    steps := SendsThenStream(w, p.done, first, drops, streamed);
    P.MinusTwice(w.tracker.dirty, Ids(P.Changes(sent + p.cleared)), Ids(P.Changes(streamed)));
    assert P.Settled(p, streamed) == Ids(P.Changes(sent)) + Ids(P.Changes(p.cleared)) + Ids(P.Changes(streamed));
  }

  lemma SendsThenStream(w: World, done: seq<P.Batch>, first: Token, drops: seq<Step>, streamed: seq<P.Item>) returns (steps: seq<Step>)
    requires Achieves(w, SendSteps(done, true), News({}, Wires(w, done, first), {}))
    requires var w1 := Run(w, SendSteps(done, true)); Achieves(w1, drops, NO_NEWS) && AllPending(Run(w1, drops).tracker, streamed)
    ensures Achieves(w, steps, PlanNews(w, {}, done, first, streamed))
    ensures var w2 := Run(Run(w, SendSteps(done, true)), drops);
            Run(w, steps) == Next(w2, StreamDirty(P.Changes(streamed)))
  {
    var sends, sent := SendSteps(done, true), News({}, Wires(w, done, first), {});
    Join(w, sends, sent, drops, NO_NEWS);
    assert Both(sent, NO_NEWS) == sent;
    var w2 := Run(w, sends + drops);
    PendingChanges(w2.tracker, streamed);
    SameWire(w, w2, P.Changes(streamed));
    var news := News({}, map[], Wire(w, P.Changes(streamed)));
    Extend(w, sends + drops, sent, StreamDirty(P.Changes(streamed)), news);
    assert Both(sent, news) == PlanNews(w, {}, done, first, streamed);
    steps := sends + drops + [StreamDirty(P.Changes(streamed))];
  }

  lemma Parts(t: Tracker, a: seq<P.Item>, b: seq<P.Item>, c: seq<P.Item>)
    requires AllPending(t, a + b + c) && OneEach(a + b + c)
    ensures AllPending(t, a) && OneEach(a) && AllPending(t, a + b) && OneEach(a + b) && OneEach(b)
  {
    var all := a + b + c;
    assert forall i :: 0 <= i < |a| ==> all[i] == a[i];
    assert forall i :: 0 <= i < |a + b| ==> all[i] == (a + b)[i];
    assert forall i :: 0 <= i < |b| ==> all[|a| + i] == b[i];
  }

  // ---- changes sent at once ----

  /** With nothing pending, this tick's changes go out datagram by datagram as they happen. */
  lemma {:induction false} FreshSendsAreRun(w: World, done: seq<P.Batch>, first: Token)
    requires w.nextToken == first + 1 && NoEmptyBatch(done) && w.tracker.dirty == map[] && AllSuitItems(w, P.Concat(done))
    ensures Achieves(w, SendSteps(done, false), News(AllCells(P.Changes(P.Concat(done))), Wires(w, done, first), {}))
    ensures AfterDatagrams(w, done, first, Run(w, SendSteps(done, false)))
    ensures Run(w, SendSteps(done, false)).tracker.dirty == map[]
    decreases |done|
  {
    if done != [] {
      var p, last := done[..|done| - 1], done[|done| - 1];
      var before, cells := AllCells(P.Changes(P.Concat(p))), AllCells(P.Changes(last.items));
      SuitParts(w, P.Concat(p), last.items);
      FreshSendsAreRun(w, p, first);
      var w1 := Run(w, SendSteps(p, false));
      SameSuits(w, w1, last.items);
      FreshSendStep(w1, last.items);
      OneMoreDatagram(w, done, first, w1, Next(w1, ChangeAndSend(P.Changes(last.items))));
      Extend(w, SendSteps(p, false), News(before, Wires(w, p, first), {}), ChangeAndSend(P.Changes(last.items)), Datagram(w1, last.items, cells));
      OneMoreWire(w, done, first, w1, before, cells);
      CellsOfBatches(P.Concat(p), last.items);
    } else {
      assert P.Changes(P.Concat(done)) == [];
      assert AllCells([]) == {};
    }
  }

  lemma CellsOfBatches(a: seq<P.Item>, b: seq<P.Item>)
    ensures AllCells(P.Changes(a + b)) == AllCells(P.Changes(a)) + AllCells(P.Changes(b))
  {
    R.ChangesAppend(a, b);
    CellsAppend(P.Changes(a), P.Changes(b));
  }

  lemma FreshSendStep(w: World, items: seq<P.Item>)
    requires items != [] && w.tracker.dirty == map[] && AllSuitItems(w, items)
    ensures var step := ChangeAndSend(P.Changes(items));
            && Enabled(w, step) && Follows(w, Datagram(w, items, AllCells(P.Changes(items))), Next(w, step))
            && Next(w, step).nextToken == w.nextToken + 1
            && Next(w, step).tracker == MarkSent(w.tracker, w.nextToken, P.Changes(items))
            && Next(w, step).tracker.dirty == map[]
  {
    ItemsSuit(w, items);
    assert P.Changes(items) != [];
    SameWire(w, Outdate(w, AllCells(P.Changes(items))), P.Changes(items));
  }

  ghost predicate AllSuitItems(w: World, items: seq<P.Item>)
  {
    forall i :: 0 <= i < |items| ==> Suits(w, items[i].change)
  }

  lemma SuitParts(w: World, a: seq<P.Item>, b: seq<P.Item>)
    requires AllSuitItems(w, a + b)
    ensures AllSuitItems(w, a) && AllSuitItems(w, b)
  {
    assert forall i :: 0 <= i < |a| ==> (a + b)[i] == a[i];
    assert forall i :: 0 <= i < |b| ==> (a + b)[|a| + i] == b[i];
  }

  lemma SameSuits(w: World, w': World, items: seq<P.Item>)
    requires SameScene(w, w') && AllSuitItems(w, items)
    ensures AllSuitItems(w', items)
  {
  }

  lemma ItemsSuit(w: World, items: seq<P.Item>)
    requires AllSuitItems(w, items)
    ensures AllSuit(w, P.Changes(items))
  {
  }

  lemma FreshStreamStep(w: World, items: seq<P.Item>)
    requires w.tracker.dirty == map[] && AllSuitItems(w, items)
    ensures var step := ChangeAndStream(P.Changes(items));
            && Enabled(w, step) && Next(w, step).nextToken == w.nextToken
            && Follows(w, News(AllCells(P.Changes(items)), map[], Wire(w, P.Changes(items))), Next(w, step))
            && Next(w, step).tracker == ClearDirty(w.tracker, Ids(P.Changes(items)))
  {
    ItemsSuit(w, items);
    SameWire(w, Outdate(w, AllCells(P.Changes(items))), P.Changes(items));
  }

  lemma FreshEffectIsRun(w: World, p: P.Plan, first: Token, streamed: seq<P.Item>, t': Tracker) returns (steps: seq<Step>)
    requires w.nextToken == first + 1 && P.Effect(w.tracker, p, first, streamed, t') && NoEmptyBatch(p.done)
    requires w.tracker.dirty == map[] && AllSuitItems(w, P.Concat(p.done)) && AllSuitItems(w, streamed)
    ensures Achieves(w, steps, PlanNews(w, AllCells(P.Changes(P.Concat(p.done) + streamed)), p.done, first, streamed))
    ensures Run(w, steps).tracker == t' && Run(w, steps).nextToken == first + 1 + |p.done|
  {
    var sends, cells := SendSteps(p.done, false), AllCells(P.Changes(P.Concat(p.done)));
    FreshSendsAreRun(w, p.done, first);
    var w1, step := Run(w, sends), ChangeAndStream(P.Changes(streamed));
    SameSuits(w, w1, streamed);
    FreshStreamStep(w1, streamed);
    SameWire(w, w1, P.Changes(streamed));
    var sent, news := News(cells, Wires(w, p.done, first), {}), News(AllCells(P.Changes(streamed)), map[], Wire(w, P.Changes(streamed)));
    Extend(w, sends, sent, step, news);
    CellsOfBatches(P.Concat(p.done), streamed);
    assert Both(sent, news) == PlanNews(w, AllCells(P.Changes(P.Concat(p.done) + streamed)), p.done, first, streamed);
    steps := sends + [step];
    SentDirty(w.tracker, p.done, first);
    assert t'.dirty == map[] && Run(w, steps).tracker.dirty == map[];
  }

  // ---- merging first ----

  lemma {:induction false} MarksAreRun(w: World, dirty: seq<Change>) returns (steps: seq<Step>)
    requires AllSuit(w, dirty)
    ensures Achieves(w, steps, News(AllCells(dirty), map[], {})) && Run(w, steps).nextToken == w.nextToken
    ensures Run(w, steps).tracker == R.MarkedAll(w.tracker, dirty)
    decreases |dirty|
  {
    if dirty == [] {
      steps := [];
      assert AllCells(dirty) == {};
    } else {
      var p, last := dirty[..|dirty| - 1], dirty[|dirty| - 1];
      var earlier := MarksAreRun(w, p);
      var news := News(AllCells([last]), map[], {});
      OneCells(last);
      Extend(w, earlier, News(AllCells(p), map[], {}), Change_(last), news);
      steps := earlier + [Change_(last)];
      CellsAppend(p, [last]);
      assert p + [last] == dirty;
    }
  }

  lemma OneCells(ch: Change)
    ensures AllCells([ch]) == Cells(ch)
  {
    assert [ch][0] == ch;
  }

  // ---- the plan of a list of items ----

  lemma {:induction false} WhereHas(items: seq<P.Item>, fate: P.Fate, item: P.Item)
    ensures item in P.Where(items, fate) <==> item in items && P.FateOf(item.frame) == fate
    decreases |items|
  {
    if items != [] {
      var p, last := items[..|items| - 1], items[|items| - 1];
      WhereHas(p, fate, item);
      assert items == p + [last];
    }
  }

  /** Two listed items of one entity are the same item. */
  lemma SameItem(items: seq<P.Item>, a: P.Item, b: P.Item)
    requires OneEach(items) && a in items && b in items && a.change.id == b.change.id
    ensures a == b
  {
    var i :| 0 <= i < |items| && items[i] == a;
    var j :| 0 <= j < |items| && items[j] == b;
    assert i == j;
  }

  lemma {:induction false} WhereOneEach(items: seq<P.Item>, fate: P.Fate)
    requires OneEach(items)
    ensures OneEach(P.Where(items, fate))
    decreases |items|
  {
    if items != [] {
      var p, last := items[..|items| - 1], items[|items| - 1];
      WhereOneEach(p, fate);
      var r := P.Where(p, fate);
      forall i | 0 <= i < |r| ensures r[i].change.id != last.change.id {
        WhereHas(p, fate, r[i]);
        var j :| 0 <= j < |p| && p[j] == r[i];
        assert items[j] == p[j];
      }
    }
  }

  lemma WheresOneEach(items: seq<P.Item>, f: P.Fate, g: P.Fate, a: seq<P.Item>, b: seq<P.Item>)
    requires OneEach(items) && a == P.Where(items, f) && OneEach(a) && OneEach(b)
    requires forall i :: 0 <= i < |b| ==> b[i] in items && P.FateOf(b[i].frame) != f
    ensures OneEach(a + b)
  {
    forall i, j | 0 <= i < |a| && 0 <= j < |b| ensures a[i].change.id != b[j].change.id {
      WhereHas(items, f, a[i]);
      if a[i].change.id == b[j].change.id { SameItem(items, a[i], b[j]); }
    }
  }

  /** The three parts of a plan are the items again, in another order. */
  lemma PartsOneEach(items: seq<P.Item>)
    requires OneEach(items)
    ensures OneEach(P.Where(items, P.InDatagram) + P.Where(items, P.Cleared) + P.Where(items, P.InStream))
    ensures OneEach(P.Where(items, P.InDatagram) + P.Where(items, P.Cleared))
  {
    var d, c, s := P.Where(items, P.InDatagram), P.Where(items, P.Cleared), P.Where(items, P.InStream);
    WhereOneEach(items, P.InDatagram);
    WhereOneEach(items, P.Cleared);
    WhereOneEach(items, P.InStream);
    forall i | 0 <= i < |s| ensures s[i] in items && P.FateOf(s[i].frame) == P.InStream { WhereHas(items, P.InStream, s[i]); }
    forall i | 0 <= i < |c| ensures c[i] in items && P.FateOf(c[i].frame) == P.Cleared { WhereHas(items, P.Cleared, c[i]); }
    WheresOneEach(items, P.Cleared, P.InStream, c, s);
    forall i | 0 <= i < |c + s| ensures (c + s)[i] in items && P.FateOf((c + s)[i].frame) != P.InDatagram {}
    WheresOneEach(items, P.InDatagram, P.InStream, d, c + s);
    assert d + (c + s) == d + c + s;
    WheresOneEach(items, P.InDatagram, P.Cleared, d, c);
  }

  lemma WhereKeeps(w: World, items: seq<P.Item>, fate: P.Fate)
    ensures AllTruthful(w, items) ==> AllTruthful(w, P.Where(items, fate))
    ensures AllSuitItems(w, items) ==> AllSuitItems(w, P.Where(items, fate))
    ensures AllPending(w.tracker, items) ==> AllPending(w.tracker, P.Where(items, fate))
    ensures forall i :: 0 <= i < |P.Where(items, fate)| ==> P.FateOf(P.Where(items, fate)[i].frame) == fate
  {
    var r := P.Where(items, fate);
    forall i | 0 <= i < |r| ensures P.FateOf(r[i].frame) == fate && exists j :: 0 <= j < |items| && items[j] == r[i] {
      WhereHas(items, fate, r[i]);
    }
  }

  /** A plan whose last datagram has been sent. */
  ghost predicate Finished(p: P.Plan, items: seq<P.Item>)
  {
    && NoEmptyBatch(p.done) && P.Concat(p.done) == P.Where(items, P.InDatagram)
    && p.stream == P.Where(items, P.InStream) && p.cleared == P.Where(items, P.Cleared)
  }

  lemma FlushedIsFinished(items: seq<P.Item>)
    requires P.AllFit(items)
    ensures Finished(P.Flushed(P.Packed(items)), items)
  {
    P.PackedIsOk(items);
    P.FlushedKeeps(P.Packed(items));
    var p := P.Flushed(P.Packed(items));
    assert p.open.items == [];
    assert P.Concat(p.done) + [] == P.Concat(p.done);
  }

  /** Everything pending goes out according to plan, or as far as it gets. */
  lemma PendingPlanIsRun(w: World, items: seq<P.Item>, first: Token, failAt: Option<nat>, o: R.Sending, n: nat)
    returns (steps: seq<Step>)
    requires R.Delivers(w.tracker, items, first, failAt, o, n) && w.nextToken == first + 1
    requires AllPending(w.tracker, items) && OneEach(items) && AllTruthful(w, items)
    ensures Achieves(w, steps, PlanNews(w, {}, o.sent, first, o.streamed))
    ensures Run(w, steps).tracker == o.tracker && Run(w, steps).nextToken == first + 1 + |o.sent|
  {
    var full := P.Flushed(P.Packed(items));
    if n == |items| { assert items[..n] == items; }
    if o.ok {
      FlushedIsFinished(items);
      steps := FinishedPlanIsRun(w, items, full, first, true, o.tracker);
    } else if P.Effect(w.tracker, P.Packed(items[..n]), first, [], o.tracker) && o.sent == P.Packed(items[..n]).done {
      steps := OpenPlanIsRun(w, items, n, first, o.tracker);
    } else {
      FlushedIsFinished(items);
      steps := FinishedPlanIsRun(w, items, full, first, false, o.tracker);
    }
  }

  lemma FinishedPlanIsRun(w: World, items: seq<P.Item>, p: P.Plan, first: Token, stream: bool, t': Tracker) returns (steps: seq<Step>)
    requires Finished(p, items) && w.nextToken == first + 1
    requires P.Effect(w.tracker, p, first, if stream then p.stream else [], t')
    requires AllPending(w.tracker, items) && OneEach(items) && AllTruthful(w, items)
    ensures Achieves(w, steps, PlanNews(w, {}, p.done, first, if stream then p.stream else []))
    ensures Run(w, steps).tracker == t' && Run(w, steps).nextToken == first + 1 + |p.done|
  {
    PartsOneEach(items);
    WhereKeeps(w, items, P.InDatagram);
    WhereKeeps(w, items, P.Cleared);
    WhereKeeps(w, items, P.InStream);
    var streamed := if stream then p.stream else [];
    assert P.Concat(p.done) + p.cleared + [] == P.Concat(p.done) + p.cleared;
    steps := EffectIsRun(w, p, first, streamed, t');
  }

  /** A send failed after n items were placed: the ones in the open datagram are still pending. */
  lemma OpenPlanIsRun(w: World, items: seq<P.Item>, n: nat, first: Token, t': Tracker) returns (steps: seq<Step>)
    requires P.AllFit(items) && n <= |items| && w.nextToken == first + 1
    requires P.Effect(w.tracker, P.Packed(items[..n]), first, [], t')
    requires AllPending(w.tracker, items) && OneEach(items) && AllTruthful(w, items)
    ensures var done := P.Packed(items[..n]).done;
            && Achieves(w, steps, PlanNews(w, {}, done, first, []))
            && Run(w, steps).tracker == t' && Run(w, steps).nextToken == first + 1 + |done|
  {
    var its, p := items[..n], P.Packed(items[..n]);
    P.PackedIsOk(its);
    PartsOneEach(its);
    WhereKeeps(w, its, P.InDatagram);
    WhereKeeps(w, its, P.Cleared);
    var d, sent := P.Where(its, P.InDatagram), P.Concat(p.done);
    assert forall i :: 0 <= i < |sent| ==> sent[i] == d[i];
    SubOneEach(d, sent, p.cleared);
    assert sent + p.cleared + [] == sent + p.cleared;
    steps := EffectIsRun(w, p, first, [], t');
  }

  lemma SubOneEach(d: seq<P.Item>, sent: seq<P.Item>, c: seq<P.Item>)
    requires OneEach(d + c) && |sent| <= |d| && forall i :: 0 <= i < |sent| ==> sent[i] == d[i]
    ensures OneEach(sent + c)
  {
    var all := d + c;
    forall i, j | 0 <= i < j < |sent + c| ensures (sent + c)[i].change.id != (sent + c)[j].change.id {
      var i', j' := if i < |sent| then i else i - |sent| + |d|, if j < |sent| then j else j - |sent| + |d|;
      assert all[i'] == (sent + c)[i] && all[j'] == (sent + c)[j];
    }
  }

  /** With nothing pending, everything goes out at once. */
  lemma FreshPlanIsRun(w: World, items: seq<P.Item>, first: Token, failAt: Option<nat>, o: R.Sending, n: nat)
    returns (steps: seq<Step>)
    requires R.Delivers(w.tracker, items, first, failAt, o, n) && w.nextToken == first + 1 && o.ok
    requires w.tracker.dirty == map[] && AllSuitItems(w, items)
    ensures var cells := AllCells(P.Changes(P.Where(items, P.InDatagram) + P.Where(items, P.InStream)));
            Achieves(w, steps, PlanNews(w, cells, o.sent, first, o.streamed))
    ensures Run(w, steps).tracker == o.tracker && Run(w, steps).nextToken == first + 1 + |o.sent|
  {
    var p := P.Flushed(P.Packed(items));
    FlushedIsFinished(items);
    WhereKeeps(w, items, P.InDatagram);
    WhereKeeps(w, items, P.InStream);
    steps := FreshEffectIsRun(w, p, first, p.stream, o.tracker);
  }

  // ---- sendSessionEventualState ----

  /** What serialising a change of the session's flavour yields is true of the entity and the session. */
  ghost predicate TruthfulSerialiser(w: World, frameOf: P.Serialiser)
  {
    forall ch :: Suits(w, ch) && frameOf(ch).Some? ==> Truthful(w, P.Item(ch, frameOf(ch).value))
  }

  lemma PendingItemsOk(w: World, frameOf: P.Serialiser)
    requires QueueOk(w.tracker) && DirtyKeyed(w.tracker) && Suited(w) && TruthfulSerialiser(w, frameOf)
    ensures var items := R.PendingItems(w.tracker, frameOf);
            AllPending(w.tracker, items) && OneEach(items) && AllTruthful(w, items)
  {
    var changes := DirtyChanges(w.tracker.queue, w.tracker.dirty);
    var items := R.PendingItems(w.tracker, frameOf);
    DirtyChangesExact(w.tracker.queue, w.tracker.dirty);
    forall i | 0 <= i < |items|
      ensures items[i].change == changes[i] && Truthful(w, items[i])
      ensures items[i].change.id in w.tracker.dirty && w.tracker.dirty[items[i].change.id] == items[i].change
    {
      assert items[i] == P.Item(changes[i], frameOf(changes[i]).value);
      assert changes[i] in changes;
    }
  }

  /** What the caller guarantees: this tick's changes are of the session's flavour, the serialiser and the
      prepared frames tell the truth, and no token above the counter has been used. */
  ghost predicate Ready(w: World, dirty: seq<Change>, direct: seq<P.Item>, frameOf: P.Serialiser, first: Token)
  {
    && Inv(w) && w.nextToken <= first + 1 && AllSuit(w, dirty)
    && R.AllOrNone(dirty, direct) && AllTruthful(w, direct) && TruthfulSerialiser(w, frameOf)
  }

  /** Whatever branch it takes, sendSessionEventualState is a run of the no-lost-update model, which ends with
      the tracker and the token the code ends with. In it every change of this tick outdates what the session
      is shown of it, and counts as sent only where a datagram or the stream batch really holds it. */
  lemma SendIsRun(w: World, dirty: seq<Change>, direct: seq<P.Item>, frameOf: P.Serialiser, first: Token,
                  failAt: Option<nat>, o: R.Sending, n: nat) returns (steps: seq<Step>)
    requires Ready(w, dirty, direct, frameOf, first)
    requires var turn := R.EventualPlan(w.tracker, dirty, direct, frameOf);
             R.Performed(turn, first, failAt, o, n) && (o.ok ==> R.Complete(turn, dirty))
    requires o.ok || w.tracker.dirty != map[] || dirty == []
    ensures Achieves(w, steps, PlanNews(w, AllCells(dirty), o.sent, first, o.streamed)) && Inv(Run(w, steps))
    ensures Run(w, steps).tracker == o.tracker && Run(w, steps).nextToken == first + 1 + |o.sent|
  {
    var w1 := Next(w, Skip(first + 1));
    Skipping(w, first + 1, frameOf, direct);
    assert w.tracker.dirty == map[] <==> |w.tracker.dirty| == 0;
    var rest;
    if dirty == [] {
      assert direct == [];
      assert R.MarkedAll(w.tracker, dirty) == w.tracker;
      rest := MergedIsRun(w1, dirty, frameOf, first, failAt, o, n);
    } else if w.tracker.dirty != map[] {
      rest := MergedIsRun(w1, dirty, frameOf, first, failAt, o, n);
    } else {
      rest := FreshIsRun(w1, dirty, direct, frameOf, first, failAt, o, n);
    }
    steps := AfterSkip(w, first + 1, rest, PlanNews(w1, AllCells(dirty), o.sent, first, o.streamed));
    SameNews(w, w1, AllCells(dirty), o.sent, first, o.streamed);
    RunKeeps(w, steps);
  }

  /** The case left over: when a send fails and nothing was pending, nothing is pending afterwards either. What
      it did not get round to sending is kept nowhere; the source then drops the session, or stops. */
  lemma FailedFreshSendKeepsNothing(t: Tracker, dirty: seq<Change>, direct: seq<P.Item>, frameOf: P.Serialiser, first: Token,
                                    failAt: Option<nat>, o: R.Sending, n: nat)
    requires dirty != [] && t.dirty == map[] && !o.ok
    requires R.Performed(R.EventualPlan(t, dirty, direct, frameOf), first, failAt, o, n)
    ensures o.tracker.dirty == map[] && o.streamed == []
  {
    assert |t.dirty| == 0;
  }

  /** Tokens used elsewhere change nothing for this session. */
  lemma Skipping(w: World, token: Token, frameOf: P.Serialiser, direct: seq<P.Item>)
    requires Inv(w) && w.nextToken <= token && AllTruthful(w, direct) && TruthfulSerialiser(w, frameOf)
    ensures var w1 := Next(w, Skip(token));
            && Enabled(w, Skip(token)) && Follows(w, NO_NEWS, w1) && Inv(w1)
            && AllTruthful(w1, direct) && TruthfulSerialiser(w1, frameOf)
  {
    StepKeeps(w, Skip(token));
    SameTruth(w, Next(w, Skip(token)), frameOf);
  }

  lemma AfterSkip(w: World, token: Token, rest: seq<Step>, news: News) returns (steps: seq<Step>)
    requires Enabled(w, Skip(token)) && Follows(w, NO_NEWS, Next(w, Skip(token)))
    requires Achieves(Next(w, Skip(token)), rest, news)
    ensures Achieves(w, steps, news) && Run(w, steps) == Run(Next(w, Skip(token)), rest)
  {
    assert [Skip(token)][..0] == [];
    ExtendRun(w, [], Skip(token));
    assert [] + [Skip(token)] == [Skip(token)];
    Join(w, [Skip(token)], NO_NEWS, rest, news);
    assert Both(NO_NEWS, news) == news;
    steps := [Skip(token)] + rest;
  }

  lemma {:induction false} SameNews(w: World, w1: World, cells: set<Cell>, done: seq<P.Batch>, first: Token, streamed: seq<P.Item>)
    requires SameScene(w, w1)
    ensures PlanNews(w1, cells, done, first, streamed) == PlanNews(w, cells, done, first, streamed)
    decreases |done|
  {
    SameWire(w, w1, P.Changes(streamed));
    if done != [] {
      SameNews(w, w1, cells, done[..|done| - 1], first, streamed);
      SameWire(w, w1, P.Changes(done[|done| - 1].items));
    }
  }

  /** Marked first, then everything pending is sent and the queue tidied up. */
  lemma MergedIsRun(w: World, dirty: seq<Change>, frameOf: P.Serialiser, first: Token, failAt: Option<nat>, o: R.Sending, n: nat)
    returns (steps: seq<Step>)
    requires Inv(w) && w.nextToken == first + 1 && AllSuit(w, dirty) && TruthfulSerialiser(w, frameOf)
    requires var m := R.MarkedAll(w.tracker, dirty); R.DeliversPending(m, R.PendingItems(m, frameOf), first, failAt, o, n)
    ensures Achieves(w, steps, PlanNews(w, AllCells(dirty), o.sent, first, o.streamed))
    ensures Run(w, steps).tracker == o.tracker && Run(w, steps).nextToken == first + 1 + |o.sent|
  {
    var marks := MarksAreRun(w, dirty);
    var w1 := Run(w, marks);
    RunKeeps(w, marks);
    SameTruth(w, w1, frameOf);
    var sends := PendingIsRun(w1, frameOf, first, failAt, o, n);
    SameNews(w, w1, {}, o.sent, first, o.streamed);
    var a, b := News(AllCells(dirty), map[], {}), PlanNews(w, {}, o.sent, first, o.streamed);
    Join(w, marks, a, sends, b);
    ChangedThenSent(AllCells(dirty), b);
    steps := marks + sends;
  }

  /** sendEventualState. */
  lemma PendingIsRun(w: World, frameOf: P.Serialiser, first: Token, failAt: Option<nat>, o: R.Sending, n: nat)
    returns (steps: seq<Step>)
    requires Inv(w) && w.nextToken == first + 1 && TruthfulSerialiser(w, frameOf)
    requires R.DeliversPending(w.tracker, R.PendingItems(w.tracker, frameOf), first, failAt, o, n)
    ensures Achieves(w, steps, PlanNews(w, {}, o.sent, first, o.streamed))
    ensures Run(w, steps).tracker == o.tracker && Run(w, steps).nextToken == first + 1 + |o.sent|
  {
    PendingItemsOk(w, frameOf);
    var sent := R.Untidied(w.tracker, o);
    var sends := PendingPlanIsRun(w, R.PendingItems(w.tracker, frameOf), first, failAt, sent, n);
    steps := ThenTidy(w, sends, PlanNews(w, {}, o.sent, first, o.streamed));
  }

  lemma ThenTidy(w: World, steps: seq<Step>, news: News) returns (all: seq<Step>)
    requires Achieves(w, steps, news)
    ensures Achieves(w, all, news) && Run(w, all).nextToken == Run(w, steps).nextToken
    ensures Run(w, all).tracker == Tidied(Run(w, steps).tracker)
  {
    ExtendRun(w, steps, Tidy);
    all := steps + [Tidy];
  }

  lemma SameTruth(w: World, w1: World, frameOf: P.Serialiser)
    requires SameScene(w, w1) && TruthfulSerialiser(w, frameOf)
    ensures TruthfulSerialiser(w1, frameOf)
  {
    forall ch | Suits(w1, ch) && frameOf(ch).Some? ensures Truthful(w1, P.Item(ch, frameOf(ch).value)) {
      assert Truthful(w, P.Item(ch, frameOf(ch).value));
    }
  }

  lemma FreshIsRun(w: World, dirty: seq<Change>, direct: seq<P.Item>, frameOf: P.Serialiser, first: Token,
                   failAt: Option<nat>, o: R.Sending, n: nat) returns (steps: seq<Step>)
    requires Ready(w, dirty, direct, frameOf, first) && w.nextToken == first + 1
    requires dirty != [] && w.tracker.dirty == map[] && o.ok
    requires var items := if direct != [] then direct else P.Prepared(dirty, frameOf);
             R.Delivers(w.tracker, items, first, failAt, o, n) && |items| == |dirty|
    ensures Achieves(w, steps, PlanNews(w, AllCells(dirty), o.sent, first, o.streamed))
    ensures Run(w, steps).tracker == o.tracker && Run(w, steps).nextToken == first + 1 + |o.sent|
  {
    var items := if direct != [] then direct else P.Prepared(dirty, frameOf);
    forall i | 0 <= i < |items| ensures items[i].change == dirty[i] && Truthful(w, items[i]) {
      if direct != [] {
        assert P.Changes(direct)[i] == dirty[i];
      } else {
        assert items[i] == P.Item(dirty[i], frameOf(dirty[i]).value);
      }
    }
    steps := FreshPlanIsRun(w, items, first, failAt, o, n);
    assert P.Changes(items) == dirty;
    WhatIsShown(w, items);
    var cells := AllCells(P.Changes(P.Where(items, P.InDatagram) + P.Where(items, P.InStream)));
    SameShown(w, PlanNews(w, cells, o.sent, first, o.streamed), AllCells(dirty), Run(w, steps));
  }

  /** Only the shown cells matter. */
  lemma SameShown(w: World, news: News, cells: set<Cell>, w': World)
    requires InFlightOk(w) && Follows(w, news, w') && forall c :: c in w.shown && c in cells ==> c in news.cells
    ensures Follows(w, news.(cells := cells), w')
  {
    forall token | token in w'.carries && token !in news.wires ensures w'.carries[token] <= w.carries[token] - cells {
      assert CarriesOk(w.shown, w.tracker.inFlight[token], w.carries[token]);
    }
  }

  /** What is cleared of this tick's changes is not shown to the session. */
  lemma WhatIsShown(w: World, items: seq<P.Item>)
    requires AllTruthful(w, items) && LiveOk(w)
    ensures forall c :: c in w.shown && c in AllCells(P.Changes(items)) ==>
              c in AllCells(P.Changes(P.Where(items, P.InDatagram) + P.Where(items, P.InStream)))
  {
    forall c | c in w.shown && c in AllCells(P.Changes(items))
      ensures c in AllCells(P.Changes(P.Where(items, P.InDatagram) + P.Where(items, P.InStream)))
    {
      BitsOfAll(P.Changes(items), c);
      var i :| 0 <= i < |items| && P.Changes(items)[i].id == c.0 && c.1 in Cover(P.Changes(items)[i]);
      assert Truthful(w, items[i]) && P.FateOf(items[i].frame) != P.Cleared;
      ListedCell(items, items[i], c);
    }
  }

  lemma ListedCell(items: seq<P.Item>, item: P.Item, c: Cell)
    requires item in items && P.FateOf(item.frame) != P.Cleared && item.change.id == c.0 && c.1 in Cover(item.change)
    ensures c in AllCells(P.Changes(P.Where(items, P.InDatagram) + P.Where(items, P.InStream)))
  {
    var kept := P.Where(items, P.InDatagram) + P.Where(items, P.InStream);
    WhereHas(items, P.FateOf(item.frame), item);
    assert item in kept;
    var k :| 0 <= k < |kept| && kept[k] == item;
    assert P.Changes(kept)[k] == item.change;
    BitsOfAll(P.Changes(kept), c);
  }
}
