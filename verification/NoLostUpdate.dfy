/** No update is lost: the tracker against what the client actually has, over whole runs of changes,
    sends, stream writes, feedback, visibility and entity removals (golem/eventual_state.go). */
module NoLostUpdate {
  import opened Identifiers
  import opened StateTracker

  /** One replicated bit of one entity. */
  type Cell = (Id, Bit)

  /** The tracker; the cells of live entities this session is shown, all or only the public ones; which of
      those the client has an outdated value of; and for every token in flight the shown cells whose current
      value it carries. All of those are below `nextToken`. `masks` are the entities' public bits. */
  datatype World = World(
    tracker: Tracker,
    live: set<Id>,
    shown: set<Cell>,
    stale: set<Cell>,
    carries: map<Token, set<Cell>>,
    nextToken: Token,
    masks: Id -> Bits)

  function Start(masks: Id -> Bits): World { World(NOTHING_TRACKED, {}, {}, {}, map[], 1, masks) }

  /** A public change is for a session that is shown no more than the public bits. */
  predicate Suits(w: World, ch: Change)
  {
    ch.isPublic ==> forall c :: c in w.shown && c.0 == ch.id ==> c.1 in w.masks(ch.id)
  }

  ghost predicate AllSuit(w: World, changes: seq<Change>)
  {
    forall i :: 0 <= i < |changes| ==> Suits(w, changes[i])
  }

  function Cells(ch: Change): set<Cell> { set b | b in Cover(ch) :: (ch.id, b) }

  function AllCells(changes: seq<Change>): set<Cell>
  {
    set i, b | 0 <= i < |changes| && b in Cover(changes[i]) :: (changes[i].id, b)
  }

  /** What serialising the changes puts on the wire of the shown cells: a public change leaves out the
      bits that are not public. */
  function Wire(w: World, changes: seq<Change>): set<Cell>
  {
    set i, b | 0 <= i < |changes| && b in Cover(changes[i]) &&
               (changes[i].isPublic ==> b in w.masks(changes[i].id)) && (changes[i].id, b) in w.shown ::
      (changes[i].id, b)
  }

  /** A change outdates the client and every snapshot in flight. */
  function Outdate(w: World, cells: set<Cell>): World
  {
    w.(stale := w.stale + cells * w.shown, carries := Minus(w.carries, cells))
  }

  function CellsOf(id: Id): set<Cell> { set b: Bit | b in ALL_BITS :: (id, b) }

  function Forget(w: World, id: Id): World
  {
    var cells := CellsOf(id);
    w.(tracker := ClearEntity(w.tracker, id),
       stale := w.stale - cells,
       carries := ForgottenCarries(w.carries, w.tracker.inFlight, id))
  }

  /** An entity that is no longer there has nothing to show. */
  function Hidden(w: World, id: Id): World
  {
    var cells := CellsOf(id);
    w.(shown := w.shown - cells, stale := w.stale - cells, carries := Minus(w.carries, cells))
  }

  datatype Step =
    | Change_(ch: Change)                          // an entity changes and is marked dirty
    | ChangeAndSend(changes: seq<Change>)          // changed and sent at once, nothing being dirty
    | ChangeAndStream(changes: seq<Change>)        // the same over the stream
    | SendDirty(changes: seq<Change>)              // some pending changes go out under a new token
    | StreamDirty(changes: seq<Change>)            // some pending changes go out over the stream
    | DropDead(id: Id)                             // a pending change of a dead entity is dropped
    | DropEmpty(id: Id)                            // a pending change with nothing to show is dropped
    | Feedback(token: Token, delivered: bool)
    | Enter(id: Id, bits: Bits)                    // full state streamed: spawn, visibility, ownership
    | Leave(id: Id)                                // removed for this client
    | Repeat(id: Id)                               // full state streamed again, as already shown
    | Born(id: Id, publicBits: Bits)               // registered; nobody is shown anything of it yet
    | Die(id: Id)                                  // unregistered; the tracker is not told
    | Skip(token: Token)                           // tokens used by other sessions, or by a send that failed
    | Tidy                                         // the dirty queue may be compacted

  ghost predicate Pending(t: Tracker, changes: seq<Change>)
  {
    forall i :: 0 <= i < |changes| ==> changes[i].id in t.dirty && t.dirty[changes[i].id] == changes[i]
  }

  ghost predicate Enabled(w: World, s: Step)
  {
    match s
    case Change_(ch) => Suits(w, ch)
    case ChangeAndSend(changes) => w.tracker.dirty == map[] && changes != [] && AllSuit(w, changes)
    case ChangeAndStream(changes) => w.tracker.dirty == map[] && AllSuit(w, changes)
    case SendDirty(changes) => Pending(w.tracker, changes) && changes != []
    case StreamDirty(changes) => Pending(w.tracker, changes)
    case DropDead(id) => id !in w.live
    case DropEmpty(id) => id in w.tracker.dirty && NothingToShow(w, w.tracker.dirty[id])
    case Feedback(token, _) => true
    case Enter(id, _) => id in w.live
    case Leave(id) => true
    case Repeat(id) => true
    case Born(id, _) => id != 0 && id !in w.live
    case Die(id) => true
    case Skip(token) => w.nextToken <= token
    case Tidy => true
  }

  predicate NothingToShow(w: World, ch: Change) { forall b :: b in Cover(ch) ==> (ch.id, b) !in w.shown }

  function Send(w: World, changes: seq<Change>): World
  {
    w.(tracker := MarkSent(w.tracker, w.nextToken, changes),
       carries := w.carries[w.nextToken := Wire(w, changes)],
       nextToken := w.nextToken + 1)
  }

  function Stream(w: World, changes: seq<Change>): World
  {
    w.(tracker := ClearDirty(w.tracker, Ids(changes)), stale := w.stale - Wire(w, changes))
  }

  function Next(w: World, s: Step): World
  {
    match s
    case Change_(ch) => Outdate(w, Cells(ch)).(tracker := MarkDirty(w.tracker, ch))
    case ChangeAndSend(changes) => Send(Outdate(w, AllCells(changes)), changes)
    case ChangeAndStream(changes) => Stream(Outdate(w, AllCells(changes)), changes)
    case SendDirty(changes) => Send(w, changes)
    case StreamDirty(changes) => Stream(w, changes)
    case DropDead(id) => w.(tracker := ClearDirty(w.tracker, {id}))
    case DropEmpty(id) => w.(tracker := ClearDirty(w.tracker, {id}))
    case Feedback(token, delivered) =>
      if token !in w.tracker.inFlight then w
      else
        w.(tracker := Settle(w.tracker, token, delivered, w.live),
           stale := if delivered && token in w.carries then w.stale - w.carries[token] else w.stale,
           carries := w.carries - {token})
    case Enter(id, bits) =>
      Forget(w, id).(shown := (w.shown - CellsOf(id)) + set b | b in bits :: (id, b))
    case Leave(id) => Forget(w, id).(shown := w.shown - CellsOf(id))
    case Repeat(id) => w.(stale := w.stale - CellsOf(id))
    case Born(id, bits) => w.(live := w.live + {id}, masks := (x: Id) => if x == id then bits else w.masks(x))
    case Die(id) => Hidden(w, id).(live := w.live - {id})
    case Skip(token) => w.(nextToken := token)
    case Tidy => w.(tracker := Tidied(w.tracker))
  }

  // ---- the invariant ----

  predicate IsDirty(t: Tracker, c: Cell)
  {
    c.0 in t.dirty && c.1 in Cover(t.dirty[c.0])
  }

  predicate Carried(w: World, c: Cell)
  {
    exists token :: token in w.carries && c in w.carries[token]
  }

  /** An outdated cell of a live entity is still dirty or on its way with its current value. */
  ghost predicate NothingLost(w: World)
  {
    forall c :: c in w.stale && c.0 in w.live ==> IsDirty(w.tracker, c) || Carried(w, c)
  }

  /** A token carries shown cells only, and only such as its changes cover. */
  ghost predicate CarriesOk(shown: set<Cell>, changes: seq<Change>, cells: set<Cell>)
  {
    cells <= shown && forall c :: c in cells ==> BitIn(changes, c.0, c.1)
  }

  /** What an older token carries at its current value, a newer one that covers it carries too. */
  ghost predicate Fresher(older: set<Cell>, newer: set<Cell>, changes: seq<Change>)
  {
    forall c :: c in older && BitIn(changes, c.0, c.1) ==> c in newer
  }

  ghost predicate TokensOk(carries: map<Token, set<Cell>>, inFlight: map<Token, seq<Change>>, shown: set<Cell>, nextToken: Token)
  {
    && carries.Keys == inFlight.Keys
    && (forall token :: token in carries ==> token < nextToken && CarriesOk(shown, inFlight[token], carries[token]))
    && (forall older, newer :: older in carries && newer in carries && older < newer ==>
          Fresher(carries[older], carries[newer], inFlight[newer]))
  }

  ghost predicate InFlightOk(w: World) { TokensOk(w.carries, w.tracker.inFlight, w.shown, w.nextToken) }

  ghost predicate LiveOk(w: World) { 0 !in w.live && forall c :: c in w.shown ==> c.0 in w.live }

  ghost predicate DirtyKeyed(t: Tracker)
  {
    forall id :: id in t.dirty ==> t.dirty[id].id == id && !Ignored(t.dirty[id])
  }

  /** Every pending change, and every one in flight, suits what the session is shown. */
  ghost predicate Suited(w: World)
  {
    && (forall id :: id in w.tracker.dirty ==> Suits(w, w.tracker.dirty[id]))
    && (forall token :: token in w.tracker.inFlight ==> AllSuit(w, w.tracker.inFlight[token]))
  }

  ghost predicate Core(w: World)
  {
    && NothingLost(w) && InFlightOk(w) && LiveOk(w) && DirtyKeyed(w.tracker)
    && (forall c :: c in w.stale ==> c in w.shown)
  }

  ghost predicate Inv(w: World) { Core(w) && Suited(w) && QueueOk(w.tracker) }

  // ---- marking ----

  lemma MarkCovers(t: Tracker, ch: Change)
    requires !Ignored(ch) && DirtyKeyed(t)
    ensures var t' := MarkDirty(t, ch);
            && t'.inFlight == t.inFlight && DirtyKeyed(t')
            && (forall c :: IsDirty(t, c) ==> IsDirty(t', c))
            && (forall b :: b in Cover(ch) ==> IsDirty(t', (ch.id, b)))
  {
  }

  function Minus(carries: map<Token, set<Cell>>, cells: set<Cell>): map<Token, set<Cell>>
  {
    map t | t in carries :: carries[t] - cells
  }

  lemma MinusKeepsTokens(carries: map<Token, set<Cell>>, inFlight: map<Token, seq<Change>>, shown: set<Cell>, n: Token, cells: set<Cell>)
    requires TokensOk(carries, inFlight, shown, n)
    ensures TokensOk(Minus(carries, cells), inFlight, shown, n)
  {
    var left := Minus(carries, cells);
    forall token | token in left ensures CarriesOk(shown, inFlight[token], left[token]) {
      assert CarriesOk(shown, inFlight[token], carries[token]);
    }
    forall older, newer | older in left && newer in left && older < newer
      ensures Fresher(left[older], left[newer], inFlight[newer])
    {
      assert Fresher(carries[older], carries[newer], inFlight[newer]);
    }
  }

  lemma OutdateKeeps(w: World, cells: set<Cell>)
    requires InFlightOk(w)
    ensures var w' := Outdate(w, cells);
            && InFlightOk(w')
            && (forall c :: Carried(w, c) && c !in cells ==> Carried(w', c))
  {
    var w' := Outdate(w, cells);
    MinusKeepsTokens(w.carries, w.tracker.inFlight, w.shown, w.nextToken, cells);
    forall c | Carried(w, c) && c !in cells ensures Carried(w', c) {
      var token :| token in w.carries && c in w.carries[token];
      assert c in w'.carries[token];
    }
  }

  lemma MarkSuits(w: World, ch: Change)
    requires Suited(w) && Suits(w, ch) && DirtyKeyed(w.tracker)
    ensures Suited(w.(tracker := MarkDirty(w.tracker, ch)))
  {
  }

  lemma ChangeKeeps(w: World, ch: Change)
    requires Core(w) && Enabled(w, Change_(ch))
    ensures Core(Next(w, Change_(ch)))
  {
    var w1 := Outdate(w, Cells(ch));
    var w' := Next(w, Change_(ch));
    OutdateKeeps(w, Cells(ch));
    if !Ignored(ch) { MarkCovers(w.tracker, ch); }
    assert Ignored(ch) ==> Cells(ch) * w.shown == {} && w'.tracker == w.tracker;
    forall c | c in w'.stale && c.0 in w'.live ensures IsDirty(w'.tracker, c) || Carried(w', c) {
      if c !in Cells(ch) && Carried(w, c) {
        assert Carried(w1, c);
        var token :| token in w1.carries && c in w1.carries[token];
        assert c in w'.carries[token];
      }
    }
  }

  // ---- sending ----

  lemma BitsOfAll(changes: seq<Change>, c: Cell)
    ensures c in AllCells(changes) <==> BitIn(changes, c.0, c.1)
  {
    if c in AllCells(changes) {
      var i, b :| 0 <= i < |changes| && b in Cover(changes[i]) && (changes[i].id, b) == c;
      assert changes[i].id == c.0 && c.1 in Cover(changes[i]);
    }
    if BitIn(changes, c.0, c.1) {
      var i :| 0 <= i < |changes| && changes[i].id == c.0 && c.1 in Cover(changes[i]);
      assert (changes[i].id, c.1) == c;
    }
  }

  /** Of the shown cells, suitable changes put all they cover on the wire. */
  lemma WireIsAll(w: World, changes: seq<Change>, c: Cell)
    requires AllSuit(w, changes) && c in w.shown
    ensures c in Wire(w, changes) <==> BitIn(changes, c.0, c.1)
    ensures c in Wire(w, changes) <==> c in AllCells(changes)
  {
    BitsOfAll(changes, c);
    if BitIn(changes, c.0, c.1) {
      var i :| 0 <= i < |changes| && changes[i].id == c.0 && c.1 in Cover(changes[i]);
      assert Suits(w, changes[i]);
      assert (changes[i].id, c.1) == c;
    }
  }

  lemma SendAddsToken(carries: map<Token, set<Cell>>, inFlight: map<Token, seq<Change>>, shown: set<Cell>, n: Token,
                      changes: seq<Change>, wire: set<Cell>)
    requires TokensOk(carries, inFlight, shown, n) && CarriesOk(shown, changes, wire) && Fresher(shown, wire, changes)
    ensures TokensOk(carries[n := wire], inFlight[n := changes], shown, n + 1)
  {
    var carries', inFlight' := carries[n := wire], inFlight[n := changes];
    forall older, newer | older in carries' && newer in carries' && older < newer
      ensures Fresher(carries'[older], carries'[newer], inFlight'[newer])
    {
      assert older != n && CarriesOk(shown, inFlight[older], carries[older]);
      if newer != n { assert Fresher(carries[older], carries[newer], inFlight[newer]); }
    }
  }

  lemma SendKeepsTokens(w: World, changes: seq<Change>)
    requires InFlightOk(w) && changes != [] && AllSuit(w, changes)
    ensures var w' := Send(w, changes);
            && InFlightOk(w')
            && (forall c :: Carried(w, c) || (c in w.shown && c in AllCells(changes)) ==> Carried(w', c))
  {
    var w' := Send(w, changes);
    var n, wire := w.nextToken, Wire(w, changes);
    forall c | c in w.shown ensures c in wire <==> BitIn(changes, c.0, c.1) && c in AllCells(changes) {
      WireIsAll(w, changes, c);
    }
    assert CarriesOk(w.shown, changes, wire) && Fresher(w.shown, wire, changes) by {
      forall c | c in w.shown && BitIn(changes, c.0, c.1) ensures c in wire { WireIsAll(w, changes, c); }
    }
    SendAddsToken(w.carries, w.tracker.inFlight, w.shown, n, changes, wire);
    forall c | Carried(w, c) || (c in w.shown && c in AllCells(changes)) ensures Carried(w', c) {
      if Carried(w, c) {
        var token :| token in w.carries && c in w.carries[token];
        assert c in w'.carries[token];
      } else {
        WireIsAll(w, changes, c);
        assert c in w'.carries[n];
      }
    }
  }

  /** A cell is in what is sent, or its dirty entry is not touched by the send. */
  lemma SentOrStillDirty(t: Tracker, changes: seq<Change>, c: Cell)
    requires Pending(t, changes) && IsDirty(t, c)
    ensures c in AllCells(changes) || IsDirty(ClearDirty(t, Ids(changes)), c)
  {
    if c.0 in Ids(changes) {
      var i :| 0 <= i < |changes| && changes[i].id == c.0;
      assert t.dirty[changes[i].id] == changes[i];
      assert (changes[i].id, c.1) == c;
    }
  }

  lemma PendingSuits(w: World, changes: seq<Change>)
    requires Suited(w) && Pending(w.tracker, changes)
    ensures AllSuit(w, changes)
  {
  }

  lemma SendDirtyKeeps(w: World, changes: seq<Change>)
    requires Core(w) && Enabled(w, SendDirty(changes)) && AllSuit(w, changes)
    ensures Core(Next(w, SendDirty(changes)))
  {
    var w' := Next(w, SendDirty(changes));
    SendKeepsTokens(w, changes);
    forall c | c in w'.stale && c.0 in w'.live ensures IsDirty(w'.tracker, c) || Carried(w', c) {
      if IsDirty(w.tracker, c) { SentOrStillDirty(w.tracker, changes, c); }
    }
  }

  lemma StreamDirtyKeeps(w: World, changes: seq<Change>)
    requires Core(w) && Enabled(w, StreamDirty(changes)) && AllSuit(w, changes)
    ensures Core(Next(w, StreamDirty(changes)))
  {
    var w' := Next(w, StreamDirty(changes));
    forall c | c in w'.stale && c.0 in w'.live ensures IsDirty(w'.tracker, c) || Carried(w', c) {
      WireIsAll(w, changes, c);
      if IsDirty(w.tracker, c) {
        SentOrStillDirty(w.tracker, changes, c);
      } else {
        var token :| token in w.carries && c in w.carries[token];
        assert c in w'.carries[token];
      }
    }
  }

  /** With nothing dirty, whatever is outdated is carried. */
  lemma OutdatedButCarried(w: World, cells: set<Cell>, c: Cell)
    requires Core(w) && w.tracker.dirty == map[]
    requires c in Outdate(w, cells).stale && c.0 in w.live && c !in cells
    ensures Carried(Outdate(w, cells), c)
  {
    OutdateKeeps(w, cells);
    assert c in w.stale && Carried(w, c);
  }

  lemma ChangeAndSendKeeps(w: World, changes: seq<Change>)
    requires Core(w) && Enabled(w, ChangeAndSend(changes))
    ensures Core(Next(w, ChangeAndSend(changes)))
  {
    var w1 := Outdate(w, AllCells(changes));
    var w' := Send(w1, changes);
    OutdateKeeps(w, AllCells(changes));
    SendKeepsTokens(w1, changes);
    forall c | c in w'.stale && c.0 in w'.live ensures Carried(w', c) {
      if c !in AllCells(changes) { OutdatedButCarried(w, AllCells(changes), c); }
    }
  }

  lemma ChangeAndStreamKeeps(w: World, changes: seq<Change>)
    requires Core(w) && Enabled(w, ChangeAndStream(changes))
    ensures Core(Next(w, ChangeAndStream(changes)))
  {
    var w1 := Outdate(w, AllCells(changes));
    var w' := Stream(w1, changes);
    OutdateKeeps(w, AllCells(changes));
    forall c | c in w'.stale && c.0 in w'.live ensures Carried(w', c) {
      WireIsAll(w1, changes, c);
      OutdatedButCarried(w, AllCells(changes), c);
      var token :| token in w1.carries && c in w1.carries[token];
      assert c in w'.carries[token];
    }
  }

  // ---- feedback ----

  /** A bit of a lost change is requeued unless a newer token in flight covers it. */
  lemma RemainingCovers(inFlight: map<Token, seq<Change>>, lost: Token, ch: Change, b: Bit)
    requires b in Cover(ch) && ch.id != 0
    ensures var r := Remaining(inFlight, lost, ch);
            (!Ignored(r) && r.id == ch.id && b in Cover(r)) || NewerBit(inFlight, lost, ch.id, b)
  {
    var r := Remaining(inFlight, lost, ch);
    if !ch.full && !NewerBit(inFlight, lost, ch.id, b) {
      assert b in r.mask;
    } else if ch.full && NewerFull(inFlight, lost, ch.id) {
      var token :| token in inFlight && token > lost && FullIn(inFlight[token], ch.id);
      var i :| 0 <= i < |inFlight[token]| && inFlight[token][i].id == ch.id && inFlight[token][i].full;
      assert b in Cover(inFlight[token][i]);
      assert BitIn(inFlight[token], ch.id, b);
    }
  }

  lemma {:induction false} RequeueCovers(t: Tracker, lost: Token, changes: seq<Change>, live: set<Id>)
    requires DirtyKeyed(t) && 0 !in live
    ensures var t' := Requeue(t, lost, changes, live);
            && t'.inFlight == t.inFlight && DirtyKeyed(t')
            && (forall c :: IsDirty(t, c) ==> IsDirty(t', c))
            && (forall c: Cell :: c.0 in live && BitIn(changes, c.0, c.1) ==>
                  IsDirty(t', c) || NewerBit(t.inFlight, lost, c.0, c.1))
    decreases |changes|
  {
    if changes != [] {
      var p, ch := changes[..|changes| - 1], changes[|changes| - 1];
      RequeueCovers(t, lost, p, live);
      var t1 := Requeue(t, lost, p, live);
      var t' := Requeue(t, lost, changes, live);
      var r := Remaining(t1.inFlight, lost, ch);
      if ch.id in live && !Ignored(r) { MarkCovers(t1, r); }
      forall c: Cell | c.0 in live && BitIn(changes, c.0, c.1)
        ensures IsDirty(t', c) || NewerBit(t.inFlight, lost, c.0, c.1)
      {
        var i :| 0 <= i < |changes| && changes[i].id == c.0 && c.1 in Cover(changes[i]);
        if i < |p| {
          assert p[i] == changes[i];
          assert BitIn(p, c.0, c.1);
        } else {
          RemainingCovers(t1.inFlight, lost, ch, c.1);
        }
      }
    }
  }

  lemma RemoveTokenKeeps(w: World, token: Token, w': World)
    requires InFlightOk(w)
    requires w'.tracker.inFlight == w.tracker.inFlight - {token} && w'.carries == w.carries - {token}
    requires w'.nextToken == w.nextToken && w'.shown == w.shown
    ensures InFlightOk(w')
    ensures forall c, other :: other != token && other in w.carries && c in w.carries[other] ==> Carried(w', c)
  {
    forall c, other | other != token && other in w.carries && c in w.carries[other] ensures Carried(w', c) {
      assert c in w'.carries[other];
    }
  }

  lemma DeliveredKeeps(w: World, token: Token)
    requires Core(w) && token in w.tracker.inFlight
    ensures Core(Next(w, Feedback(token, true)))
  {
    var w' := Next(w, Feedback(token, true));
    RemoveTokenKeeps(w, token, w');
    forall c | c in w'.stale && c.0 in w'.live ensures IsDirty(w'.tracker, c) || Carried(w', c) {
      if !IsDirty(w.tracker, c) {
        var other :| other in w.carries && c in w.carries[other];
        assert other != token;
      }
    }
  }

  lemma {:induction false} RequeueSuits(w: World, lost: Token, changes: seq<Change>, live: set<Id>)
    requires Suited(w) && DirtyKeyed(w.tracker) && AllSuit(w, changes) && 0 !in live
    ensures Suited(w.(tracker := Requeue(w.tracker, lost, changes, live)))
    decreases |changes|
  {
    if changes != [] {
      var p, ch := changes[..|changes| - 1], changes[|changes| - 1];
      RequeueSuits(w, lost, p, live);
      RequeueCovers(w.tracker, lost, p, live);
      var w1 := w.(tracker := Requeue(w.tracker, lost, p, live));
      var r := Remaining(w1.tracker.inFlight, lost, ch);
      assert Suits(w, ch);
      if ch.id in live {
        assert Ignored(r) || Suits(w1, r);
        if !Ignored(r) { MarkSuits(w1, r); }
      }
    }
  }

  lemma LostKeeps(w: World, token: Token)
    requires Core(w) && token in w.tracker.inFlight
    ensures Core(Next(w, Feedback(token, false)))
  {
    var w' := Next(w, Feedback(token, false));
    var changes := w.tracker.inFlight[token];
    var t1 := w.tracker.(inFlight := w.tracker.inFlight - {token}, queue := Compacted(w.tracker.queue, w.tracker.dirty));
    RequeueCovers(t1, token, changes, w.live);
    assert w'.tracker == Requeue(t1, token, changes, w.live);
    RemoveTokenKeeps(w, token, w');
    forall c | c in w'.stale && c.0 in w'.live ensures IsDirty(w'.tracker, c) || Carried(w', c) {
      if IsDirty(w.tracker, c) {
        assert IsDirty(t1, c);
      } else {
        LostCellIsSafe(w, token, w', t1, c);
      }
    }
  }

  lemma LostCellIsSafe(w: World, token: Token, w': World, t1: Tracker, c: Cell)
    requires InFlightOk(w) && token in w.tracker.inFlight && c.0 in w.live
    requires t1.inFlight == w.tracker.inFlight - {token} && w'.carries == w.carries - {token}
    requires Carried(w, c)
    requires BitIn(w.tracker.inFlight[token], c.0, c.1) ==> IsDirty(w'.tracker, c) || NewerBit(t1.inFlight, token, c.0, c.1)
    ensures IsDirty(w'.tracker, c) || Carried(w', c)
  {
    var other :| other in w.carries && c in w.carries[other];
    if other != token {
      assert c in w'.carries[other];
    } else if !IsDirty(w'.tracker, c) {
      assert CarriesOk(w.shown, w.tracker.inFlight[token], w.carries[token]);
      var newer :| newer in t1.inFlight && newer > token && BitIn(t1.inFlight[newer], c.0, c.1);
      assert Fresher(w.carries[token], w.carries[newer], w.tracker.inFlight[newer]);
      assert c in w'.carries[newer];
    }
  }

  // ---- removal ----

  /** The world without one entity's cells; what the other cells need is still there. */
  ghost predicate Forgotten(w: World, id: Id, w1: World)
  {
    && TokensOk(w1.carries, w1.tracker.inFlight, w.shown - CellsOf(id), w1.nextToken) && DirtyKeyed(w1.tracker)
    && w1.stale <= w.shown - CellsOf(id)
    && (forall c :: c in w1.stale && c.0 in w.live ==> IsDirty(w1.tracker, c) || Carried(w1, c))
  }

  lemma ForgetKeeps(w: World, id: Id)
    requires Core(w)
    ensures Forgotten(w, id, Forget(w, id))
  {
    var w' := Forget(w, id);
    ForgetTokens(w.carries, w.tracker.inFlight, w.shown, w.nextToken, id);
    forall c | c in w'.stale && c.0 in w.live ensures IsDirty(w'.tracker, c) || Carried(w', c) {
      CellOfEntity(id, c);
      if !IsDirty(w.tracker, c) {
        var token :| token in w.carries && c in w.carries[token];
        assert CarriesOk(w.shown, w.tracker.inFlight[token], w.carries[token]);
        WithoutBit(w.tracker.inFlight[token], id, c);
        assert c in w'.carries[token];
      }
    }
  }

  function ForgottenCarries(carries: map<Token, set<Cell>>, inFlight: map<Token, seq<Change>>, id: Id): map<Token, set<Cell>>
  {
    map t | t in ClearedFlight(inFlight, id) && t in carries :: carries[t] - CellsOf(id)
  }

  lemma ForgetTokens(carries: map<Token, set<Cell>>, inFlight: map<Token, seq<Change>>, shown: set<Cell>, n: Token, id: Id)
    requires TokensOk(carries, inFlight, shown, n)
    ensures TokensOk(ForgottenCarries(carries, inFlight, id), ClearedFlight(inFlight, id), shown - CellsOf(id), n)
  {
    var carries', inFlight' := ForgottenCarries(carries, inFlight, id), ClearedFlight(inFlight, id);
    assert carries'.Keys == inFlight'.Keys;
    forall token | token in carries' ensures CarriesOk(shown - CellsOf(id), inFlight'[token], carries'[token]) {
      assert CarriesOk(shown, inFlight[token], carries[token]);
      ForgetCarries(shown, inFlight[token], carries[token], id);
    }
    forall older, newer | older in carries' && newer in carries' && older < newer
      ensures Fresher(carries'[older], carries'[newer], inFlight'[newer])
    {
      assert Fresher(carries[older], carries[newer], inFlight[newer]);
      ForgetFresher(carries[older], carries[newer], inFlight[newer], id);
    }
  }

  lemma ForgetCarries(shown: set<Cell>, changes: seq<Change>, cells: set<Cell>, id: Id)
    requires CarriesOk(shown, changes, cells)
    ensures CarriesOk(shown - CellsOf(id), Without(changes, id), cells - CellsOf(id))
  {
    forall c | c in cells - CellsOf(id) ensures BitIn(Without(changes, id), c.0, c.1) {
      CellOfEntity(id, c);
      WithoutBit(changes, id, c);
    }
  }

  lemma ForgetFresher(older: set<Cell>, newer: set<Cell>, changes: seq<Change>, id: Id)
    requires Fresher(older, newer, changes)
    ensures Fresher(older - CellsOf(id), newer - CellsOf(id), Without(changes, id))
  {
    forall c | c in older - CellsOf(id) && BitIn(Without(changes, id), c.0, c.1) ensures c in newer - CellsOf(id) {
      WithoutBit(changes, id, c);
    }
  }

  lemma CellOfEntity(id: Id, c: Cell)
    ensures c in CellsOf(id) <==> c.0 == id
  {
    assert c.1 in ALL_BITS;
  }

  lemma WithoutBit(changes: seq<Change>, id: Id, c: Cell)
    ensures BitIn(Without(changes, id), c.0, c.1) <==> c.0 != id && BitIn(changes, c.0, c.1)
    ensures c.0 != id && BitIn(changes, c.0, c.1) ==> Without(changes, id) != []
  {
    var r := Without(changes, id);
    if BitIn(r, c.0, c.1) {
      var i :| 0 <= i < |r| && r[i].id == c.0 && c.1 in Cover(r[i]);
      assert r[i] in changes;
    }
    if c.0 != id && BitIn(changes, c.0, c.1) {
      var i :| 0 <= i < |changes| && changes[i].id == c.0 && c.1 in Cover(changes[i]);
      assert changes[i] in r;
    }
  }

  // ---- whole runs ----

  lemma StepKeepsCore(w: World, s: Step)
    requires Inv(w) && Enabled(w, s)
    ensures Core(Next(w, s))
  {
    match s {
      case Change_(ch) => ChangeKeeps(w, ch);
      case ChangeAndSend(changes) => ChangeAndSendKeeps(w, changes);
      case ChangeAndStream(changes) => ChangeAndStreamKeeps(w, changes);
      case SendDirty(changes) => PendingSuits(w, changes); SendDirtyKeeps(w, changes);
      case StreamDirty(changes) => PendingSuits(w, changes); StreamDirtyKeeps(w, changes);
      case DropDead(id) => DropKeeps(w, id);
      case DropEmpty(id) => DropKeeps(w, id);
      case Feedback(token, delivered) =>
        if token in w.tracker.inFlight {
          if delivered { DeliveredKeeps(w, token); } else { LostKeeps(w, token); }
        }
      case Enter(id, bits) => ShownElsewhere(w, id, bits); ForgottenKeeps(w, id, Next(w, s));
      case Leave(id) => ShownElsewhere(w, id, {}); ForgottenKeeps(w, id, Next(w, s));
      case Repeat(id) => SameKeeps(w, Next(w, s));
      case Born(id, bits) => SameKeeps(w, Next(w, s));
      case Die(id) => HiddenKeeps(w, id);
      case Skip(token) => SameKeeps(w, Next(w, s));
      case Tidy => SameKeeps(w, Next(w, s));
    }
  }

  lemma StepKeepsSuited(w: World, s: Step)
    requires Inv(w) && Enabled(w, s)
    ensures Suited(Next(w, s))
  {
    match s {
      case Change_(ch) => ChangedSuits(w, ch);
      case ChangeAndSend(changes) => SentSuits(w, changes, Next(w, s));
      case SendDirty(changes) => PendingSuits(w, changes); SentSuits(w, changes, Next(w, s));
      case Feedback(token, delivered) => FeedbackSuits(w, token, delivered);
      case Enter(id, bits) => ShownElsewhere(w, id, bits); ForgottenSuits(w, id, Next(w, s));
      case Leave(id) => ShownElsewhere(w, id, {}); ForgottenSuits(w, id, Next(w, s));
      case _ => SameSuits(w, Next(w, s));
    }
  }

  lemma ChangedSuits(w: World, ch: Change)
    requires Inv(w) && Suits(w, ch)
    ensures Suited(Next(w, Change_(ch)))
  {
    MarkSuits(w, ch);
    SameSuits(w.(tracker := MarkDirty(w.tracker, ch)), Next(w, Change_(ch)));
  }

  lemma FeedbackSuits(w: World, token: Token, delivered: bool)
    requires Inv(w)
    ensures Suited(Next(w, Feedback(token, delivered)))
  {
    if token in w.tracker.inFlight && !delivered {
      LossSuits(w, token);
      SameSuits(w.(tracker := Settle(w.tracker, token, false, w.live)), Next(w, Feedback(token, delivered)));
    } else {
      SameSuits(w, Next(w, Feedback(token, delivered)));
    }
  }

  lemma SentSuits(w: World, changes: seq<Change>, w': World)
    requires Suited(w) && AllSuit(w, changes) && w'.shown == w.shown && w'.masks == w.masks
    requires w'.tracker == MarkSent(w.tracker, w.nextToken, changes)
    ensures Suited(w')
  {
    forall token | token in w'.tracker.inFlight ensures AllSuit(w', w'.tracker.inFlight[token]) {
      if token in w.tracker.inFlight && w'.tracker.inFlight[token] == w.tracker.inFlight[token] {
        assert AllSuit(w, w.tracker.inFlight[token]);
      }
    }
  }

  /** Entering and leaving change what is shown of that entity only. */
  lemma ShownElsewhere(w: World, id: Id, bits: Bits)
    ensures forall c: Cell :: c.0 != id ==>
              (c in w.shown - CellsOf(id) <==> c in w.shown) &&
              (c in (w.shown - CellsOf(id)) + (set b | b in bits :: (id, b)) <==> c in w.shown)
    ensures forall c: Cell :: c in w.shown - CellsOf(id) ==> c.0 != id
  {
    forall c ensures c in CellsOf(id) <==> c.0 == id { CellOfEntity(id, c); }
  }

  lemma LossSuits(w: World, token: Token)
    requires Suited(w) && DirtyKeyed(w.tracker) && token in w.tracker.inFlight && 0 !in w.live
    ensures Suited(w.(tracker := Settle(w.tracker, token, false, w.live)))
  {
    var t1 := w.tracker.(inFlight := w.tracker.inFlight - {token}, queue := Compacted(w.tracker.queue, w.tracker.dirty));
    RequeueSuits(w.(tracker := t1), token, w.tracker.inFlight[token], w.live);
  }

  lemma StepKeeps(w: World, s: Step)
    requires Inv(w) && Enabled(w, s)
    ensures Inv(Next(w, s))
  {
    StepKeepsCore(w, s);
    StepKeepsSuited(w, s);
    StepKeepsQueue(w, s);
  }

  /** The dirty queue keeps listing every dirty id, once. */
  lemma StepKeepsQueue(w: World, s: Step)
    requires QueueOk(w.tracker)
    ensures QueueOk(Next(w, s).tracker)
  {
    match s {
      case Change_(ch) => MarkDirtyKeepsQueue(w.tracker, ch);
      case Feedback(token, delivered) => SettleKeepsQueue(w.tracker, token, delivered, w.live);
      case Tidy => TidyingKeepsQueue(w.tracker);
      case _ =>
    }
  }

  /** No more is outdated than before. */
  lemma SameKeeps(w: World, w': World)
    requires Core(w) && LiveOk(w') && w'.shown == w.shown && w'.stale <= w.stale && w'.carries == w.carries
    requires w'.tracker.dirty == w.tracker.dirty && w'.tracker.inFlight == w.tracker.inFlight && w'.nextToken >= w.nextToken
    ensures Core(w')
  {
    forall c | c in w'.stale && c.0 in w'.live ensures IsDirty(w'.tracker, c) || Carried(w', c) {
      assert c in w.shown;
      if !IsDirty(w.tracker, c) {
        var token :| token in w.carries && c in w.carries[token];
        assert c in w'.carries[token];
      }
    }
  }

  /** With no more pending, in flight or shown, and the same public bits of what is shown, all suits as before. */
  lemma SameSuits(w: World, w': World)
    requires Suited(w) && w'.shown <= w.shown && forall c :: c in w'.shown ==> w'.masks(c.0) == w.masks(c.0)
    requires forall id :: id in w'.tracker.dirty ==> id in w.tracker.dirty && w'.tracker.dirty[id] == w.tracker.dirty[id]
    requires forall token :: token in w'.tracker.inFlight ==>
               token in w.tracker.inFlight && w'.tracker.inFlight[token] == w.tracker.inFlight[token]
    ensures Suited(w')
  {
    forall token | token in w'.tracker.inFlight ensures AllSuit(w', w'.tracker.inFlight[token]) {
      assert AllSuit(w, w.tracker.inFlight[token]);
    }
  }

  lemma HiddenKeeps(w: World, id: Id)
    requires Core(w)
    ensures Core(Next(w, Die(id)))
  {
    var w' := Next(w, Die(id));
    ShownElsewhere(w, id, {});
    HiddenTokens(w.carries, w.tracker.inFlight, w.shown, w.nextToken, CellsOf(id));
    forall c | c in w'.stale && c.0 in w'.live ensures IsDirty(w'.tracker, c) || Carried(w', c) {
      if !IsDirty(w.tracker, c) {
        var token :| token in w.carries && c in w.carries[token];
        assert c in w'.carries[token];
      }
    }
  }

  lemma HiddenTokens(carries: map<Token, set<Cell>>, inFlight: map<Token, seq<Change>>, shown: set<Cell>, n: Token, cells: set<Cell>)
    requires TokensOk(carries, inFlight, shown, n)
    ensures TokensOk(Minus(carries, cells), inFlight, shown - cells, n)
  {
    MinusKeepsTokens(carries, inFlight, shown, n, cells);
    var left := Minus(carries, cells);
    forall token | token in left ensures CarriesOk(shown - cells, inFlight[token], left[token]) {
      assert CarriesOk(shown, inFlight[token], left[token]);
    }
  }

  /** Dropping what is dead, or has nothing to show, loses nothing. */
  lemma DropKeeps(w: World, id: Id)
    requires Core(w) && (Enabled(w, DropDead(id)) || Enabled(w, DropEmpty(id)))
    ensures Core(w.(tracker := ClearDirty(w.tracker, {id})))
  {
    var w' := w.(tracker := ClearDirty(w.tracker, {id}));
    forall c | c in w'.stale && c.0 in w'.live ensures IsDirty(w'.tracker, c) || Carried(w', c) {
      if !IsDirty(w.tracker, c) {
        var token :| token in w.carries && c in w.carries[token];
        assert c in w'.carries[token];
      }
    }
  }

  /** What is left after an entity was forgotten suits any new choice of what is shown of it. */
  lemma ForgottenSuits(w: World, id: Id, w': World)
    requires Suited(w) && DirtyKeyed(w.tracker) && w'.tracker == ClearEntity(w.tracker, id) && w'.masks == w.masks
    requires forall c: Cell :: c.0 != id ==> (c in w'.shown <==> c in w.shown)
    ensures Suited(w')
  {
    forall token | token in w'.tracker.inFlight ensures AllSuit(w', w'.tracker.inFlight[token]) {
      var r := w'.tracker.inFlight[token];
      forall i | 0 <= i < |r| ensures Suits(w', r[i]) {
        assert r[i] in w.tracker.inFlight[token];
        assert AllSuit(w, w.tracker.inFlight[token]);
      }
    }
  }

  lemma ForgottenKeeps(w: World, id: Id, w': World)
    requires Core(w) && w' == Forget(w, id).(live := w'.live, shown := w'.shown) && LiveOk(w')
    requires w.shown - CellsOf(id) <= w'.shown && forall x :: x in w'.live && x != id ==> x in w.live
    ensures Core(w')
  {
    ForgetKeeps(w, id);
    var w1 := Forget(w, id);
    MoreShownKeepsTokens(w1.carries, w1.tracker.inFlight, w.shown - CellsOf(id), w'.shown, w1.nextToken);
    forall c | c in w'.stale && c.0 in w'.live ensures IsDirty(w'.tracker, c) || Carried(w', c) {
      CellOfEntity(id, c);
      assert c in w1.stale && c.0 in w.live;
      if !IsDirty(w1.tracker, c) {
        var token :| token in w1.carries && c in w1.carries[token];
        assert c in w'.carries[token];
      }
    }
  }

  lemma MoreShownKeepsTokens(carries: map<Token, set<Cell>>, inFlight: map<Token, seq<Change>>, shown: set<Cell>, more: set<Cell>, n: Token)
    requires TokensOk(carries, inFlight, shown, n) && shown <= more
    ensures TokensOk(carries, inFlight, more, n)
  {
    forall token | token in carries ensures CarriesOk(more, inFlight[token], carries[token]) {
      assert CarriesOk(shown, inFlight[token], carries[token]);
    }
  }

  function Run(w: World, steps: seq<Step>): World
    decreases |steps|
  {
    if steps == [] then w else Next(Run(w, steps[..|steps| - 1]), steps[|steps| - 1])
  }

  ghost predicate IsRun(w: World, steps: seq<Step>)
    decreases |steps|
  {
    steps != [] ==> var p := steps[..|steps| - 1]; IsRun(w, p) && Enabled(Run(w, p), steps[|steps| - 1])
  }

  lemma {:induction false} RunKeeps(w: World, steps: seq<Step>)
    requires Inv(w) && IsRun(w, steps)
    ensures Inv(Run(w, steps))
    decreases |steps|
  {
    if steps != [] {
      var p := steps[..|steps| - 1];
      RunKeeps(w, p);
      StepKeeps(Run(w, p), steps[|steps| - 1]);
    }
  }

  /** In every run, every outdated bit this session is to be shown of a live entity is still dirty or is
      carried with its current value by a token in flight; so once nothing is dirty or in flight, the client
      is up to date. */
  lemma NoUpdateIsLost(masks: Id -> Bits, steps: seq<Step>)
    requires IsRun(Start(masks), steps)
    ensures var w := Run(Start(masks), steps);
            && (forall c :: c in w.stale && c.0 in w.live ==> IsDirty(w.tracker, c) || Carried(w, c))
            && (w.tracker.dirty == map[] && w.tracker.inFlight == map[] ==> w.stale == {})
  {
    RunKeeps(Start(masks), steps);
  }
}
