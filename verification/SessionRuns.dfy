/** One session over many ticks: whatever the server does for it, in whatever order, its client has the current
    value of everything it is shown, or that value is still to be sent, or it is on its way; save for entities
    of which the client refused an update (golem/eventual_state.go, golem/loop.go). */
module SessionRuns {
  import opened Identifiers
  import opened Datagrams
  import opened StateTracker
  import opened NoLostUpdate
  import O = OwnerRedaction
  import S = SendRefinement
  import E = EventualFrames
  import P = Packing
  import R = OwnerReplication

  /** The server's side: tracker, registry, token counter, and whether the session is over. What the session
      is shown; how often each bit has changed; which of its values the client has; which values each datagram
      that was ever sent holds; and of which entities the client refused an update as older than what it has
      (ClientRevisions says when it does), with no full state since. */
  datatype Session = Session(
    tracker: Tracker, kinds: map<Id, O.Kind>, owners: map<Id, SessionId>, counter: Token, over: bool,
    shown: set<Cell>, version: Cell -> nat, has: Cell -> nat, flight: map<Token, map<Cell, nat>>,
    refused: set<Id>)

  function Fresh(): Session
  {
    Session(NOTHING_TRACKED, map[], map[], 0, false, {}, (c: Cell) => 0, (c: Cell) => 0, map[], {})
  }

  datatype Event =
    | Register(id: Id, kind: O.Kind)
    | Unregister(id: Id)
    | SetOwner(id: Id, owner: SessionId)
    | Elsewhere(cells: set<Cell>)                  // something this session is not shown changes
    | Others(counter: Token)                       // other sessions take tokens from the counter
    | Report(token: Token, delivered: bool, refused: set<Id>)  // the connection reports on a datagram
    | Entered(id: Id, ignored: bool)               // full state streamed, pending changes cleared
    | Left(id: Id)                                 // removed, pending changes cleared
    | Repeated(id: Id, ignored: bool)              // full state streamed again
    | Serve(deltas: seq<Change>, direct: seq<P.Item>, m: E.Marshalling, failAt: Option<nat>, o: R.Sending, n: nat, refused: set<Id>)
      // this tick's changes of what the session is shown, and how sendSessionEventualState went

  /** The bits of an entity a session may see. */
  function Visible(s: Session, me: SessionId, id: Id): Bits
  {
    if id in s.kinds && !O.Sees(s.kinds, s.owners, me, id) then s.kinds[id].publicMask else ALL_BITS
  }

  /** The changes as this session is told them. */
  function Adapted(s: Session, me: SessionId, deltas: seq<Change>): seq<Change>
  {
    if deltas == [] then []
    else Adapted(s, me, deltas[..|deltas| - 1]) + O.ChangeFor(s.kinds, s.owners, me, deltas[|deltas| - 1])
  }

  /** What the session is shown is what its owner, or anybody else, may see by now. */
  ghost predicate UpToDateView(s: Session, me: SessionId)
  {
    forall c :: c in s.shown ==> c.1 in Visible(s, me, c.0)
  }

  /** Entities answer nil only when asked for no bit at all, as generated ones do. */
  ghost predicate Speaks(m: E.Marshalling) { forall id, mask :: m.delta(id, mask).Nil? ==> mask == {} }

  /** Authoritative changes; frames prepared for all of them or for none; and an outcome that
      sendSessionEventualState can have. */
  ghost predicate Possible(s: Session, me: SessionId, e: Event)
    requires e.Serve?
  {
    var dirty, frameOf := Adapted(s, me, e.deltas), E.Serialised(s.kinds, e.m);
    var turn := R.EventualPlan(s.tracker, dirty, e.direct, frameOf);
    && UpToDateView(s, me) && Speaks(e.m)
    && (forall i :: 0 <= i < |e.deltas| ==> !e.deltas[i].isPublic)
    && (e.direct == [] || (e.direct == P.Prepared(dirty, frameOf) && |e.direct| == |dirty|))
    && R.Performed(turn, s.counter, e.failAt, e.o, e.n) && (e.o.ok ==> R.Complete(turn, dirty))
  }

  ghost predicate Allowed(s: Session, me: SessionId, e: Event)
  {
    && !s.over
    && match e
       case Register(id, _) => id != 0 && id !in s.kinds
       case Elsewhere(cells) => cells !! s.shown
       case Others(counter) => s.counter <= counter
       case Entered(id, _) => id in s.kinds
       case Serve(_, _, _, _, _, _, _) => Possible(s, me, e)
       case _ => true
  }

  /** The cells a list of changes puts on the wire. */
  function Held(kinds: map<Id, O.Kind>, changes: seq<Change>): set<Cell>
  {
    set i, b | 0 <= i < |changes| && b in O.SentBits(kinds, changes[i]) :: (changes[i].id, b)
  }

  function Contents(kinds: map<Id, O.Kind>, version: Cell -> nat, changes: seq<Change>): map<Cell, nat>
  {
    map c | c in Held(kinds, changes) :: version(c)
  }

  /** Datagrams leave with the values of the moment. */
  function Launched(flight: map<Token, map<Cell, nat>>, kinds: map<Id, O.Kind>, version: Cell -> nat,
                    done: seq<P.Batch>, first: Token): map<Token, map<Cell, nat>>
  {
    if done == [] then flight
    else Launched(flight, kinds, version, done[..|done| - 1], first)
           [first + |done| := Contents(kinds, version, P.Changes(done[|done| - 1].items))]
  }

  function Bumped(version: Cell -> nat, cells: set<Cell>): Cell -> nat
  {
    (c: Cell) => if c in cells then version(c) + 1 else version(c)
  }

  function Refreshed(has: Cell -> nat, version: Cell -> nat, cells: set<Cell>, refused: set<Id>): Cell -> nat
  {
    (c: Cell) => if c in cells && c.0 !in refused then version(c) else has(c)
  }

  /** The client never goes back to an older value. */
  function Received(has: Cell -> nat, contents: map<Cell, nat>, refused: set<Id>): Cell -> nat
  {
    (c: Cell) => if c in contents && c.0 !in refused && has(c) < contents[c] then contents[c] else has(c)
  }

  /** Full state of an entity reaches the client. */
  function FullState(s: Session, id: Id, refused: bool): Session
  {
    if refused then s.(refused := s.refused + {id})
    else s.(has := Refreshed(s.has, s.version, CellsOf(id), {}), refused := s.refused - {id})
  }

  function After(s: Session, me: SessionId, e: Event): Session
  {
    match e
    case Register(id, kind) => s.(kinds := s.kinds[id := kind])
    case Unregister(id) => s.(kinds := s.kinds - {id}, owners := s.owners - {id}, shown := s.shown - CellsOf(id))
    case SetOwner(id, owner) => s.(owners := if owner == O.NOBODY then s.owners - {id} else s.owners[id := owner])
    case Elsewhere(cells) => s.(version := Bumped(s.version, cells))
    case Others(counter) => s.(counter := counter)
    case Report(token, delivered, refused) =>
      s.(tracker := Settle(s.tracker, token, delivered, s.kinds.Keys), refused := s.refused + refused,
         has := if delivered && token in s.flight then Received(s.has, s.flight[token], refused) else s.has)
    case Entered(id, refused) =>
      FullState(s, id, refused).(tracker := ClearEntity(s.tracker, id),
         shown := (s.shown - CellsOf(id)) + set b | b in Visible(s, me, id) :: (id, b))
    case Left(id) => s.(tracker := ClearEntity(s.tracker, id), shown := s.shown - CellsOf(id))
    case Repeated(id, refused) => FullState(s, id, refused)
    case Serve(deltas, _, _, _, o, _, refused) =>
      var version := Bumped(s.version, AllCells(deltas));
      s.(tracker := o.tracker, counter := s.counter + |o.sent|, over := !o.ok, version := version,
         has := Refreshed(s.has, version, Held(s.kinds, P.Changes(o.streamed)), refused), refused := s.refused + refused,
         flight := Launched(s.flight, s.kinds, version, o.sent, s.counter))
  }

  function AfterAll(s: Session, me: SessionId, events: seq<Event>): Session
    decreases |events|
  {
    if events == [] then s else After(AfterAll(s, me, events[..|events| - 1]), me, events[|events| - 1])
  }

  ghost predicate Lawful(s: Session, me: SessionId, events: seq<Event>)
    decreases |events|
  {
    events != [] ==>
      var p := events[..|events| - 1]; Lawful(s, me, p) && Allowed(AfterAll(s, me, p), me, events[|events| - 1])
  }

  /** A session from its beginning. */
  function History(me: SessionId, events: seq<Event>): Session { AfterAll(Fresh(), me, events) }

  ghost predicate IsHistory(me: SessionId, events: seq<Event>) { Lawful(Fresh(), me, events) }

  lemma OneMore(s: Session, me: SessionId, events: seq<Event>, e: Event)
    requires Lawful(s, me, events) && Allowed(AfterAll(s, me, events), me, e)
    ensures Lawful(s, me, events + [e]) && AfterAll(s, me, events + [e]) == After(AfterAll(s, me, events), me, e)
  {
    assert (events + [e])[..|events|] == events;
  }

  lemma LastOne(s: Session, me: SessionId, events: seq<Event>, e: Event)
    requires Lawful(s, me, events + [e])
    ensures Lawful(s, me, events) && Allowed(AfterAll(s, me, events), me, e)
    ensures AfterAll(s, me, events + [e]) == After(AfterAll(s, me, events), me, e)
  {
    assert (events + [e])[..|events|] == events;
  }

  lemma SplitEvents(a: seq<Event>, b: seq<Event>)
    requires b != []
    ensures var p, last := b[..|b| - 1], b[|b| - 1]; b == p + [last] && a + b == (a + p) + [last]
  {
  }

  /** One stretch after another. */
  lemma {:induction false} JoinHistories(s: Session, me: SessionId, a: seq<Event>, b: seq<Event>)
    requires Lawful(s, me, a) && Lawful(AfterAll(s, me, a), me, b)
    ensures Lawful(s, me, a + b) && AfterAll(s, me, a + b) == AfterAll(AfterAll(s, me, a), me, b)
    decreases |b|
  {
    if b == [] {
      assert a + b == a;
    } else {
      var p, last := b[..|b| - 1], b[|b| - 1];
      SplitEvents(a, b);
      LastOne(AfterAll(s, me, a), me, p, last);
      JoinHistories(s, me, a, p);
      OneMore(s, me, a + p, last);
    }
  }

  // ---- the session as a state of the no-lost-update model ----

  predicate Holds(flight: map<Token, map<Cell, nat>>, token: Token, c: Cell, v: nat)
  {
    token in flight && c in flight[token] && flight[token][c] == v
  }

  /** The datagram holds the cell's current value. */
  predicate Carries(s: Session, token: Token, c: Cell) { Holds(s.flight, token, c, s.version(c)) }

  /** Nobody has a value that does not exist yet. */
  ghost predicate Causal(s: Session)
  {
    && (forall c :: s.has(c) <= s.version(c))
    && (forall token, c :: token in s.flight && c in s.flight[token] ==> s.flight[token][c] <= s.version(c))
  }

  ghost predicate SameState(s: Session, w: World)
  {
    w.tracker == s.tracker && w.shown == s.shown && E.Registered(w, s.kinds) && w.nextToken <= s.counter + 1
  }

  ghost predicate SameServer(s: Session, w: World) { Inv(w) && SameState(s, w) }

  /** What the model takes for current is current. */
  ghost predicate SameClient(s: Session, w: World)
  {
    && (forall c :: c in s.shown && c.0 !in s.refused && s.has(c) < s.version(c) ==> c in w.stale)
    && (forall token, c :: token in w.carries && c in w.carries[token] ==> Carries(s, token, c))
  }

  ghost predicate Matches(s: Session, w: World) { SameServer(s, w) && SameClient(s, w) && Causal(s) }

  /** An event other than a send is one step. */
  function StepOf(s: Session, me: SessionId, e: Event): Step
    requires !e.Serve?
  {
    match e
    case Register(id, kind) => Born(id, kind.publicMask)
    case Unregister(id) => Die(id)
    case SetOwner(_, _) => Skip(s.counter + 1)
    case Elsewhere(_) => Skip(s.counter + 1)
    case Others(counter) => Skip(counter + 1)
    case Report(token, delivered, _) => Feedback(token, delivered)
    case Entered(id, _) => Enter(id, Visible(s, me, id))
    case Left(id) => Leave(id)
    case Repeated(id, _) => Repeat(id)
  }

  /** A report reaches the tracker when the values it is about have reached the client, or never will. */
  lemma ReportMatches(s: Session, me: SessionId, e: Event, w: World)
    requires Matches(s, w) && e.Report?
    ensures SameClient(After(s, me, e), Next(w, StepOf(s, me, e)))
  {
    var s', w' := After(s, me, e), Next(w, StepOf(s, me, e));
    forall c | c in s'.shown && c.0 !in s'.refused && s'.has(c) < s'.version(c) ensures c in w'.stale {
      assert c in w.stale;
      assert e.token in w.carries && c in w.carries[e.token] ==> Carries(s, e.token, c);
    }
    forall token, c | token in w'.carries && c in w'.carries[token] ensures Carries(s', token, c) {
      assert Carries(s, token, c);
    }
  }

  /** Something happens to one entity: it is brought up to date, or refused, or not shown. */
  ghost predicate AboutEntity(s: Session, s': Session, id: Id)
  {
    && s'.version == s.version && s'.flight == s.flight
    && (forall c: Cell :: c.0 != id ==> s'.has(c) == s.has(c) && (c in s'.shown ==> c in s.shown) && (c.0 in s.refused ==> c.0 in s'.refused))
    && (forall c :: c in s'.shown && c.0 == id ==> s'.has(c) == s'.version(c) || id in s'.refused)
  }

  lemma EntityMatches(s: Session, w: World, id: Id, s': Session, w': World)
    requires SameClient(s, w) && AboutEntity(s, s', id)
    requires w.stale - CellsOf(id) <= w'.stale
    requires forall token :: token in w'.carries ==> token in w.carries && w'.carries[token] <= w.carries[token]
    ensures SameClient(s', w')
  {
    forall c | c in s'.shown && c.0 !in s'.refused && s'.has(c) < s'.version(c) ensures c in w'.stale {
      CellOfEntity(id, c);
    }
    forall token, c | token in w'.carries && c in w'.carries[token] ensures Carries(s', token, c) {
      assert Carries(s, token, c);
    }
  }

  lemma EnteredMatches(s: Session, me: SessionId, e: Event, w: World)
    requires SameClient(s, w) && e.Entered?
    ensures SameClient(After(s, me, e), Next(w, StepOf(s, me, e)))
  {
    forall c ensures c in CellsOf(e.id) <==> c.0 == e.id { CellOfEntity(e.id, c); }
    EntityMatches(s, w, e.id, After(s, me, e), Next(w, StepOf(s, me, e)));
  }

  lemma RepeatedMatches(s: Session, me: SessionId, e: Event, w: World)
    requires SameClient(s, w) && e.Repeated?
    ensures SameClient(After(s, me, e), Next(w, StepOf(s, me, e)))
  {
    forall c ensures c in CellsOf(e.id) <==> c.0 == e.id { CellOfEntity(e.id, c); }
    EntityMatches(s, w, e.id, After(s, me, e), Next(w, StepOf(s, me, e)));
  }

  lemma HiddenMatches(s: Session, me: SessionId, e: Event, w: World)
    requires SameClient(s, w) && (e.Left? || e.Unregister?)
    ensures SameClient(After(s, me, e), Next(w, StepOf(s, me, e)))
  {
    forall c ensures c in CellsOf(e.id) <==> c.0 == e.id { CellOfEntity(e.id, c); }
    EntityMatches(s, w, e.id, After(s, me, e), Next(w, StepOf(s, me, e)));
  }

  lemma ElsewhereMatches(s: Session, me: SessionId, cells: set<Cell>, w: World)
    requires Matches(s, w) && cells !! s.shown
    ensures SameClient(After(s, me, Elsewhere(cells)), w)
  {
    forall token, c | token in w.carries && c in w.carries[token] ensures Carries(After(s, me, Elsewhere(cells)), token, c) {
      assert Carries(s, token, c) && CarriesOk(w.shown, w.tracker.inFlight[token], w.carries[token]);
    }
  }

  /** The registry changes. */
  lemma RegistryMatches(s: Session, me: SessionId, e: Event, w: World)
    requires SameState(s, w) && Allowed(s, me, e) && (e.Register? || e.Unregister?)
    ensures Enabled(w, StepOf(s, me, e)) && SameState(After(s, me, e), Next(w, StepOf(s, me, e)))
  {
  }

  /** What the session is shown changes. */
  lemma ViewMatches(s: Session, me: SessionId, e: Event, w: World)
    requires SameState(s, w) && Allowed(s, me, e) && (e.Entered? || e.Left? || e.Repeated?)
    ensures Enabled(w, StepOf(s, me, e)) && SameState(After(s, me, e), Next(w, StepOf(s, me, e)))
  {
  }

  /** Nothing but the tracker or the counter changes. */
  lemma TrackerMatches(s: Session, me: SessionId, e: Event, w: World)
    requires SameState(s, w) && Allowed(s, me, e) && (e.SetOwner? || e.Elsewhere? || e.Others? || e.Report?)
    ensures Enabled(w, StepOf(s, me, e)) && SameState(After(s, me, e), Next(w, StepOf(s, me, e)))
  {
  }

  lemma EventOnServer(s: Session, me: SessionId, e: Event, w: World)
    requires SameState(s, w) && Allowed(s, me, e) && !e.Serve?
    ensures Enabled(w, StepOf(s, me, e)) && SameState(After(s, me, e), Next(w, StepOf(s, me, e)))
  {
    if e.Register? || e.Unregister? {
      RegistryMatches(s, me, e, w);
    } else if e.Entered? || e.Left? || e.Repeated? {
      ViewMatches(s, me, e, w);
    } else {
      TrackerMatches(s, me, e, w);
    }
  }

  lemma EventIsCausal(s: Session, me: SessionId, e: Event)
    requires Causal(s) && !e.Serve?
    ensures Causal(After(s, me, e))
  {
    match e {
      case Report(token, delivered, refused) =>
        if delivered && token in s.flight { ReceivedIsCausal(s, s.flight[token], refused); }
      case Elsewhere(cells) => BumpedIsCausal(s, cells);
      case _ =>
    }
  }

  lemma ReceivedIsCausal(s: Session, contents: map<Cell, nat>, refused: set<Id>)
    requires Causal(s) && forall c :: c in contents ==> contents[c] <= s.version(c)
    ensures forall c :: Received(s.has, contents, refused)(c) <= s.version(c)
  {
  }

  lemma BumpedIsCausal(s: Session, cells: set<Cell>)
    requires Causal(s)
    ensures Causal(s.(version := Bumped(s.version, cells)))
  {
  }

  /** What changes neither tokens nor what is shown. */
  lemma QuietMatches(s: Session, me: SessionId, e: Event, w: World)
    requires Matches(s, w) && (e.Register? || e.SetOwner? || e.Others?)
    ensures SameClient(After(s, me, e), Next(w, StepOf(s, me, e)))
  {
    var s', w' := After(s, me, e), Next(w, StepOf(s, me, e));
    forall token, c | token in w'.carries && c in w'.carries[token] ensures Carries(s', token, c) {
      assert Carries(s, token, c);
    }
  }

  lemma EventIsStep(s: Session, me: SessionId, e: Event, w: World)
    requires Matches(s, w) && Allowed(s, me, e) && !e.Serve?
    ensures Enabled(w, StepOf(s, me, e)) && Matches(After(s, me, e), Next(w, StepOf(s, me, e)))
  {
    EventOnServer(s, me, e, w);
    StepKeeps(w, StepOf(s, me, e));
    EventIsCausal(s, me, e);
    match e {
      case Report(_, _, _) => ReportMatches(s, me, e, w);
      case Unregister(_) => HiddenMatches(s, me, e, w);
      case Entered(_, _) => EnteredMatches(s, me, e, w);
      case Left(_) => HiddenMatches(s, me, e, w);
      case Repeated(_, _) => RepeatedMatches(s, me, e, w);
      case Elsewhere(cells) => ElsewhereMatches(s, me, cells, w);
      case _ => QuietMatches(s, me, e, w);
    }
  }

  // ---- a send ----

  lemma {:induction false} AdaptedBits(s: Session, me: SessionId, deltas: seq<Change>, c: Cell)
    requires c.0 in s.kinds && c.1 in Visible(s, me, c.0) && forall i :: 0 <= i < |deltas| ==> !deltas[i].isPublic
    ensures BitIn(Adapted(s, me, deltas), c.0, c.1) <==> BitIn(deltas, c.0, c.1)
    decreases |deltas|
  {
    if deltas != [] {
      var p, last := deltas[..|deltas| - 1], deltas[|deltas| - 1];
      AdaptedBits(s, me, p, c);
      assert deltas == p + [last];
      S.BitsAppend(p, [last], c);
      S.BitsAppend(Adapted(s, me, p), O.ChangeFor(s.kinds, s.owners, me, last), c);
      AdaptedBit(s, me, last, c);
    }
  }

  /** A visible bit is in the adapted change exactly if it is in the change. */
  lemma AdaptedBit(s: Session, me: SessionId, ch: Change, c: Cell)
    requires c.0 in s.kinds && c.1 in Visible(s, me, c.0) && !ch.isPublic
    ensures BitIn(O.ChangeFor(s.kinds, s.owners, me, ch), c.0, c.1) <==> BitIn([ch], c.0, c.1)
  {
    var r := O.ChangeFor(s.kinds, s.owners, me, ch);
    if BitIn([ch], c.0, c.1) {
      assert ch.id == c.0 && c.1 in Cover(ch);
      assert ch.full || O.Sees(s.kinds, s.owners, me, c.0) || c.1 in ch.mask * s.kinds[c.0].publicMask;
      assert |r| == 1 && r[0].id == c.0 && c.1 in Cover(r[0]);
    }
    if BitIn(r, c.0, c.1) {
      assert r[0].id == c.0 && c.1 in Cover(r[0]);
      assert [ch][0].id == c.0 && c.1 in Cover(ch);
    }
  }

  /** Changes adapted to a session suit it. */
  lemma {:induction false} AdaptedSuit(s: Session, me: SessionId, deltas: seq<Change>, w: World)
    requires SameServer(s, w) && UpToDateView(s, me) && forall i :: 0 <= i < |deltas| ==> !deltas[i].isPublic
    ensures AllSuit(w, Adapted(s, me, deltas))
    decreases |deltas|
  {
    if deltas != [] {
      var p, last := deltas[..|deltas| - 1], deltas[|deltas| - 1];
      AdaptedSuit(s, me, p, w);
      var r := O.ChangeFor(s.kinds, s.owners, me, last);
      assert forall i :: 0 <= i < |r| ==> Suits(w, r[i]);
    }
  }

  /** What is on the wire of the shown cells is held by the frames. */
  lemma WireIsHeld(s: Session, w: World, changes: seq<Change>)
    requires SameServer(s, w)
    ensures Wire(w, changes) <= Held(s.kinds, changes)
  {
    forall c | c in Wire(w, changes) ensures c in Held(s.kinds, changes) {
      var i, b :| 0 <= i < |changes| && b in Cover(changes[i]) && (changes[i].isPublic ==> b in w.masks(changes[i].id)) &&
                  (changes[i].id, b) in w.shown && (changes[i].id, b) == c;
      assert b in O.SentBits(s.kinds, changes[i]);
    }
  }

  /** A new datagram holds the current value of what it has on the wire. */
  lemma {:induction false} LaunchedHolds(s: Session, w: World, version: Cell -> nat, done: seq<P.Batch>, first: Token, token: Token, c: Cell)
    requires SameServer(s, w) && token in S.Wires(w, done, first) && c in S.Wires(w, done, first)[token]
    ensures Holds(Launched(s.flight, s.kinds, version, done, first), token, c, version(c))
    decreases |done|
  {
    if token != first + |done| {
      LaunchedHolds(s, w, version, done[..|done| - 1], first, token, c);
    } else {
      WireIsHeld(s, w, P.Changes(done[|done| - 1].items));
    }
  }

  /** Older datagrams stay as they are. */
  lemma {:induction false} LaunchedKeeps(s: Session, version: Cell -> nat, done: seq<P.Batch>, first: Token, token: Token, c: Cell, v: nat)
    requires Holds(s.flight, token, c, v) && token <= first
    ensures Holds(Launched(s.flight, s.kinds, version, done, first), token, c, v)
    decreases |done|
  {
    if done != [] { LaunchedKeeps(s, version, done[..|done| - 1], first, token, c, v); }
  }

  lemma {:induction false} LaunchedIsCausal(s: Session, version: Cell -> nat, done: seq<P.Batch>, first: Token, token: Token, c: Cell, v: nat)
    requires Causal(s) && s.version(c) <= version(c) && Holds(Launched(s.flight, s.kinds, version, done, first), token, c, v)
    ensures v <= version(c)
    decreases |done|
  {
    if done != [] && token != first + |done| { LaunchedIsCausal(s, version, done[..|done| - 1], first, token, c, v); }
  }

  lemma ServeIsReady(s: Session, me: SessionId, e: Event, w: World)
    requires Matches(s, w) && e.Serve? && Possible(s, me, e)
    ensures S.Ready(w, Adapted(s, me, e.deltas), e.direct, E.Serialised(s.kinds, e.m), s.counter)
  {
    var dirty, frameOf := Adapted(s, me, e.deltas), E.Serialised(s.kinds, e.m);
    AdaptedSuit(s, me, e.deltas, w);
    E.SerialiserIsTruthful(w, s.kinds, e.m);
    if e.direct != [] {
      forall i | 0 <= i < |e.direct|
        ensures P.Changes(e.direct)[i] == dirty[i] && P.Fits(e.direct[i].frame) && S.Truthful(w, e.direct[i])
      {
        assert e.direct[i] == P.Item(dirty[i], frameOf(dirty[i]).value);
        assert Suits(w, dirty[i]);
      }
      assert P.Changes(e.direct) == dirty;
    }
  }

  /** Of the shown cells, the adapted changes cover what the changes cover. */
  lemma AdaptedCells(s: Session, me: SessionId, deltas: seq<Change>, w: World)
    requires SameServer(s, w) && UpToDateView(s, me) && forall i :: 0 <= i < |deltas| ==> !deltas[i].isPublic
    ensures forall c :: c in s.shown ==> (c in AllCells(Adapted(s, me, deltas)) <==> c in AllCells(deltas))
  {
    forall c | c in s.shown ensures c in AllCells(Adapted(s, me, deltas)) <==> c in AllCells(deltas) {
      AdaptedBits(s, me, deltas, c);
      BitsOfAll(Adapted(s, me, deltas), c);
      BitsOfAll(deltas, c);
    }
  }

  /** After a send that went through, the model's view of the client is still right. */
  lemma ServeMatches(s: Session, me: SessionId, e: Event, w: World, w': World)
    requires Matches(s, w) && e.Serve? && Possible(s, me, e)
    requires S.Follows(w, S.PlanNews(w, AllCells(Adapted(s, me, e.deltas)), e.o.sent, s.counter, e.o.streamed), w')
    ensures SameClient(After(s, me, e), w')
  {
    var s' := After(s, me, e);
    AdaptedCells(s, me, e.deltas, w);
    WireIsHeld(s, w, P.Changes(e.o.streamed));
    forall c | c in s'.shown && c.0 !in s'.refused && s'.has(c) < s'.version(c) ensures c in w'.stale {
      assert c !in Held(s.kinds, P.Changes(e.o.streamed));
    }
    forall token, c | token in w'.carries && c in w'.carries[token] ensures Carries(s', token, c) {
      if token in S.Wires(w, e.o.sent, s.counter) {
        LaunchedHolds(s, w, s'.version, e.o.sent, s.counter, token, c);
      } else {
        StillCarries(s, w, e.deltas, e.o.sent, token, c);
      }
    }
  }

  /** An older datagram with the current value of a cell that did not change still has it. */
  lemma StillCarries(s: Session, w: World, deltas: seq<Change>, done: seq<P.Batch>, token: Token, c: Cell)
    requires SameServer(s, w) && SameClient(s, w) && token in w.carries && c in w.carries[token]
    requires c in s.shown ==> c !in AllCells(deltas)
    ensures var version := Bumped(s.version, AllCells(deltas));
            Holds(Launched(s.flight, s.kinds, version, done, s.counter), token, c, version(c))
  {
    assert Carries(s, token, c) && CarriesOk(w.shown, w.tracker.inFlight[token], w.carries[token]);
    LaunchedKeeps(s, Bumped(s.version, AllCells(deltas)), done, s.counter, token, c, s.version(c));
  }

  lemma ServeIsCausal(s: Session, me: SessionId, e: Event)
    requires Causal(s) && e.Serve?
    ensures Causal(After(s, me, e))
  {
    var s' := After(s, me, e);
    forall token, c | token in s'.flight && c in s'.flight[token] ensures s'.flight[token][c] <= s'.version(c) {
      LaunchedIsCausal(s, s'.version, e.o.sent, s.counter, token, c, s'.flight[token][c]);
    }
  }

  /** Every event is a stretch of a run of the no-lost-update model. */
  lemma EventIsRun(s: Session, me: SessionId, e: Event, w: World) returns (steps: seq<Step>)
    requires Matches(s, w) && Allowed(s, me, e)
    ensures IsRun(w, steps) && (!After(s, me, e).over ==> Matches(After(s, me, e), Run(w, steps)))
  {
    steps := [];
    if !e.Serve? {
      EventIsStep(s, me, e, w);
      S.ExtendRun(w, [], StepOf(s, me, e));
      steps := [] + [StepOf(s, me, e)];
    } else if e.o.ok {
      ServeIsReady(s, me, e, w);
      steps := S.SendIsRun(w, Adapted(s, me, e.deltas), e.direct, E.Serialised(s.kinds, e.m), s.counter, e.failAt, e.o, e.n);
      ServeMatches(s, me, e, w, Run(w, steps));
      ServeIsCausal(s, me, e);
    }
  }

  /** Any history of a session is a run of the no-lost-update model. */
  lemma {:induction false} HistoryIsRun(me: SessionId, events: seq<Event>) returns (steps: seq<Step>)
    requires IsHistory(me, events)
    ensures var start := Start(id => {});
            IsRun(start, steps) && (!History(me, events).over ==> Matches(History(me, events), Run(start, steps)))
  {
    var start := Start(id => {});
    if events == [] {
      steps := [];
    } else {
      var earlier := HistoryIsRun(me, events[..|events| - 1]);
      var s, w := History(me, events[..|events| - 1]), Run(start, earlier);
      var more := EventIsRun(s, me, events[|events| - 1], w);
      S.JoinRuns(start, earlier, more);
      steps := earlier + more;
    }
  }

  /** The client has the current value, or it is marked to be sent, or a datagram still in flight holds it. */
  ghost predicate Kept(s: Session, c: Cell)
  {
    s.has(c) == s.version(c) || IsDirty(s.tracker, c) || exists token :: token in s.tracker.inFlight && Carries(s, token, c)
  }

  /** At every moment of every history, as long as the session lasts, no bit the client is shown is lost, save of
      an entity of which it refused an update. So once nothing is marked or in flight, the client has the current
      value of all the others. */
  lemma ClientCatchesUp(me: SessionId, events: seq<Event>)
    requires IsHistory(me, events) && !History(me, events).over
    ensures var s := History(me, events);
            && (forall c :: c in s.shown && c.0 !in s.refused ==> Kept(s, c))
            && (s.tracker.dirty == map[] && s.tracker.inFlight == map[] ==>
                  forall c :: c in s.shown && c.0 !in s.refused ==> s.has(c) == s.version(c))
  {
    var steps := HistoryIsRun(me, events);
    var s, w := History(me, events), Run(Start(id => {}), steps);
    forall c | c in s.shown && c.0 !in s.refused ensures Kept(s, c) {
      if s.has(c) != s.version(c) && !IsDirty(s.tracker, c) {
        assert c in w.stale && Carried(w, c);
        var token :| token in w.carries && c in w.carries[token];
        assert Carries(s, token, c);
      }
    }
  }

  /** sendSessionEventualState does one of the things a history allows. */
  method SendOnce(s: Session, me: SessionId, deltas: seq<Change>, direct: seq<P.Item>, m: E.Marshalling, failAt: Option<nat>,
                      ghost refused: set<Id>) returns (o: R.Sending, ghost n: nat)
    requires R.Keyed(s.tracker) && UpToDateView(s, me) && Speaks(m) && forall i :: 0 <= i < |deltas| ==> !deltas[i].isPublic
    requires var dirty, frameOf := Adapted(s, me, deltas), E.Serialised(s.kinds, m);
             direct == [] || (direct == P.Prepared(dirty, frameOf) && |direct| == |dirty|)
    ensures Possible(s, me, Serve(deltas, direct, m, failAt, o, n, refused))
  {
    var dirty, frameOf := Adapted(s, me, deltas), E.Serialised(s.kinds, m);
    E.FramesFit(s.kinds, m);
    assert direct != [] ==> P.Changes(direct) == dirty;
    o, n := R.SendSessionEventual(s.tracker, dirty, direct, frameOf, s.counter, failAt);
  }
}
