// src/services/webhook.service.js:484-803 with src/services/conversation.service.js:274-291: inbound messages that are
// delivered twice, out of order or at the same time are stored once and counted once. One step is one database
// statement, and any number of workers take turns.

module InboundSpec {
  import opened Options

  type WorkerId = nat
  type ReaderId = nat
  type CustomerId = nat
  type ConversationId = nat
  type MessageId = string   // the id that WhatsApp gives a message

  datatype Row = Row(id: MessageId, customer: CustomerId, conversation: ConversationId)

  /** Where a worker stands with its message. */
  datatype Phase =
    | Checked(id: MessageId)                                                      // not a duplicate so far
    | Resolved(id: MessageId, customer: CustomerId, conversation: ConversationId) // sender and conversation are known
    | Created(id: MessageId, customer: CustomerId)                                // the message is stored
    | Touching(id: MessageId, customer: CustomerId, conversation: ConversationId) // where it will be counted is known

  /** `counted` holds the ids of the messages whose increment was done, `delivered` the well-formed ids that came in,
      `dropped` and `lost` those whose worker died before the message was stored, or before it was counted. `readers`
      are the calls of `markConversationRead` that have fetched a conversation and not cleared its count yet. */
  datatype World = World(
    stored: seq<Row>,
    active: map<CustomerId, ConversationId>,
    unread: map<ConversationId, nat>,
    nextId: ConversationId,
    workers: map<WorkerId, Phase>,
    readers: map<ReaderId, ConversationId>,
    counted: multiset<MessageId>,
    delivered: set<MessageId>, dropped: set<MessageId>, lost: set<MessageId>)

  const START := World([], map[], map[], 0, map[], map[], multiset{}, {}, {}, {})

  predicate IsStored(w: World, id: MessageId) {
    exists i :: 0 <= i < |w.stored| && w.stored[i].id == id
  }

  function UnreadOf(w: World, conversation: ConversationId): nat {
    if conversation in w.unread then w.unread[conversation] else 0
  }

  // The upsert on the active key.
  function Ensure(w: World, c: CustomerId): World {
    if c in w.active then w else w.(active := w.active[c := w.nextId], nextId := w.nextId + 1)
  }

  function Free(w: World, k: WorkerId): World {
    w.(workers := w.workers - {k})
  }

  function Receive(w: World, k: WorkerId, id: MessageId, from: string): World {
    if k in w.workers || id == "" || from == "" then w
    else
      var noted := w.(delivered := w.delivered + {id});
      if IsStored(w, id) then noted else noted.(workers := w.workers[k := Checked(id)])
  }

  function Resolve(w: World, k: WorkerId, c: CustomerId): World {
    if k !in w.workers || !w.workers[k].Checked? then w
    else
      var ensured := Ensure(w, c);
      ensured.(workers := w.workers[k := Resolved(w.workers[k].id, c, ensured.active[c])])
  }

  // The unique index on the id refuses a second row.
  function Create(w: World, k: WorkerId): World {
    if k !in w.workers || !w.workers[k].Resolved? then w
    else
      var p := w.workers[k];
      if IsStored(w, p.id) then Free(w, k)
      else w.(stored := w.stored + [Row(p.id, p.customer, p.conversation)],
              workers := w.workers[k := Created(p.id, p.customer)])
  }

  function EnsureAgain(w: World, k: WorkerId): World {
    if k !in w.workers || !w.workers[k].Created? then w
    else
      var p := w.workers[k];
      var ensured := Ensure(w, p.customer);
      ensured.(workers := w.workers[k := Touching(p.id, p.customer, ensured.active[p.customer])])
  }

  function Increment(w: World, k: WorkerId): World {
    if k !in w.workers || !w.workers[k].Touching? then w
    else
      var p := w.workers[k];
      Free(w, k).(unread := w.unread[p.conversation := UnreadOf(w, p.conversation) + 1],
                  counted := w.counted + multiset{p.id})
  }

  function Die(w: World, k: WorkerId): World {
    if k !in w.workers then w
    else
      var p := w.workers[k];
      if p.Checked? || p.Resolved? then Free(w, k).(dropped := w.dropped + {p.id})
          else Free(w, k).(lost := w.lost + {p.id})
  }

  // A reassignment archives the active conversation, read, and opens another one.
  function Reassign(w: World, c: CustomerId): World {
    var read := if c in w.active then w.(unread := w.unread[w.active[c] := 0]) else w;
    read.(active := w.active[c := w.nextId], nextId := w.nextId + 1)
  }

  // A reader fetches the customer's active conversation (src/services/conversation.service.js:654).
  function Fetch(w: World, q: ReaderId, c: CustomerId): World {
    if q in w.readers then w
    else
      var ensured := Ensure(w, c);
      ensured.(readers := w.readers[q := ensured.active[c]])
  }

  // It clears the count of what it fetched, by id (src/services/conversation.service.js:657-662).
  function Clear(w: World, q: ReaderId): World {
    if q !in w.readers then w
    else w.(unread := w.unread[w.readers[q] := 0], readers := w.readers - {q})
  }

  datatype Action =
    | AReceive(k: WorkerId, id: MessageId, from: string)
    | AResolve(k: WorkerId, c: CustomerId)
    | ACreate(k: WorkerId)
    | AEnsure(k: WorkerId)
    | AIncrement(k: WorkerId)
    | ADie(k: WorkerId)
    | AReassign(c: CustomerId)
    | AFetch(q: ReaderId, c: CustomerId)
    | AClear(q: ReaderId)

  function Step(w: World, a: Action): World {
    match a
    case AReceive(k, id, from) => Receive(w, k, id, from)
    case AResolve(k, c) => Resolve(w, k, c)
    case ACreate(k) => Create(w, k)
    case AEnsure(k) => EnsureAgain(w, k)
    case AIncrement(k) => Increment(w, k)
    case ADie(k) => Die(w, k)
    case AReassign(c) => Reassign(w, c)
    case AFetch(q, c) => Fetch(w, q, c)
    case AClear(q) => Clear(w, q)
  }

  function Run(w: World, actions: seq<Action>): World
    decreases |actions|
  {
    if actions == [] then w else Run(Step(w, actions[0]), actions[1..])
  }

  // ---------------------------------------------------------------------------------------------
  // The invariant
  // ---------------------------------------------------------------------------------------------

  // The worker has stored its message and not counted it yet.
  predicate Counting(w: World, k: WorkerId, id: MessageId) {
    k in w.workers && w.workers[k].id == id && (w.workers[k].Created? || w.workers[k].Touching?)
  }

  predicate Arriving(w: World, k: WorkerId, id: MessageId) {
    k in w.workers && w.workers[k].id == id && (w.workers[k].Checked? || w.workers[k].Resolved?)
  }

  // Why the count of a stored message is what it is.
  ghost predicate CountOk(w: World, id: MessageId) {
    && w.counted[id] == (if IsStored(w, id) && id !in w.lost && !(exists k :: Counting(w, k, id)) then 1 else 0)
    && (id in w.lost ==> IsStored(w, id) && !(exists k :: Counting(w, k, id)))
    && (forall k :: Counting(w, k, id) ==> IsStored(w, id))
    && (forall k, l :: Counting(w, k, id) && Counting(w, l, id) ==> k == l)
  }

  ghost predicate StorageOk(w: World, id: MessageId) {
    && (IsStored(w, id) ==> id in w.delivered)
    && (id in w.delivered ==> IsStored(w, id) || id in w.dropped || exists k :: Arriving(w, k, id))
    && (forall k :: Arriving(w, k, id) ==> id in w.delivered)
  }

  ghost predicate Inv(w: World) {
    && (forall id :: CountOk(w, id) && StorageOk(w, id))
    && (forall i, j :: 0 <= i < j < |w.stored| ==> w.stored[i].id != w.stored[j].id)
  }

  /** What a step of one worker does to messages other than its own: nothing. */
  ghost predicate SameMessage(w: World, w': World, id: MessageId) {
    && (IsStored(w', id) <==> IsStored(w, id)) && w'.counted[id] == w.counted[id]
    && (id in w'.lost <==> id in w.lost) && (id in w'.dropped <==> id in w.dropped)
    && (id in w'.delivered <==> id in w.delivered)
    && (forall k :: Counting(w', k, id) <==> Counting(w, k, id))
       && (forall k :: Arriving(w', k, id) <==> Arriving(w, k, id))
  }

  lemma SameMessageKeeps(w: World, w': World, id: MessageId)
    requires SameMessage(w, w', id) && CountOk(w, id) && StorageOk(w, id)
    ensures CountOk(w', id) && StorageOk(w', id)
  {}

  // The message that a step is about, if it is about one.
  function Subject(w: World, a: Action): Option<MessageId> {
    match a
    case AReceive(k, id, _) => if k in w.workers then None else Some(id)
    case AReassign(_) => None
    case AFetch(_, _) => None
    case AClear(_) => None
    case _ => if a.k in w.workers then Some(w.workers[a.k].id) else None
  }

  lemma OtherMessages(w: World, a: Action, id: MessageId)
    requires Subject(w, a) != Some(id)
    ensures SameMessage(w, Step(w, a), id)
  {
    hide IsStored, SameMessage, Receive, Resolve, Create, EnsureAgain, Increment, Die;
    match a
    case AReceive(k, other, from) => ReceiveOther(w, k, other, from, id);
    case AResolve(k, c) => ResolveAny(w, k, c, id);
    case ACreate(k) => CreateOther(w, k, id);
    case AEnsure(k) => EnsureAny(w, k, id);
    case AIncrement(k) => IncrementOther(w, k, id);
    case ADie(k) => DieOther(w, k, id);
    case AReassign(c) => ConversationsAside(w, Reassign(w, c), id);
    case AFetch(q, c) => ConversationsAside(w, Fetch(w, q, c), id);
    case AClear(q) => ConversationsAside(w, Clear(w, q), id);
  }

  lemma ConversationsAside(w: World, w': World, id: MessageId)
    requires w' == w.(active := w'.active, unread := w'.unread, nextId := w'.nextId, readers := w'.readers)
    ensures SameMessage(w, w', id)
  {}

  lemma ReceiveOther(w: World, k: WorkerId, other: MessageId, from: string, id: MessageId)
    requires k in w.workers || other != id
    ensures SameMessage(w, Receive(w, k, other, from), id)
  {}

  lemma ResolveAny(w: World, k: WorkerId, c: CustomerId, id: MessageId)
    ensures SameMessage(w, Resolve(w, k, c), id)
  {}

  lemma EnsureAny(w: World, k: WorkerId, id: MessageId)
    ensures SameMessage(w, EnsureAgain(w, k), id)
  {}

  lemma IncrementOther(w: World, k: WorkerId, id: MessageId)
    requires k in w.workers ==> w.workers[k].id != id
    ensures SameMessage(w, Increment(w, k), id)
  {}

  lemma DieOther(w: World, k: WorkerId, id: MessageId)
    requires k in w.workers ==> w.workers[k].id != id
    ensures SameMessage(w, Die(w, k), id)
  {}

  lemma SameRows(w: World, w': World, id: MessageId)
    requires w'.stored == w.stored
    ensures IsStored(w', id) <==> IsStored(w, id)
  {}

  lemma CreateOther(w: World, k: WorkerId, id: MessageId)
    requires k in w.workers ==> w.workers[k].id != id
    ensures SameMessage(w, Create(w, k), id)
  {
    StoredGrows(w, k);
    hide IsStored;
  }

  predicate Inserts(w: World, k: WorkerId, id: MessageId) {
    k in w.workers && w.workers[k].Resolved? && w.workers[k].id == id
  }

  lemma StoredGrows(w: World, k: WorkerId)
    ensures forall id :: IsStored(Create(w, k), id) <==> IsStored(w, id) || Inserts(w, k, id)
  {
    if k in w.workers && w.workers[k].Resolved? && !IsStored(w, w.workers[k].id) {
      var w' := Create(w, k);
      assert w'.stored[|w.stored|].id == w.workers[k].id;
      forall id | IsStored(w, id) ensures IsStored(w', id) {
        var i :| 0 <= i < |w.stored| && w.stored[i].id == id;
        assert w'.stored[i].id == id;
      }
    }
  }

  lemma OwnMessage(w: World, a: Action, id: MessageId)
    requires Subject(w, a) == Some(id) && CountOk(w, id) && StorageOk(w, id)
    ensures CountOk(Step(w, a), id) && StorageOk(Step(w, a), id)
  {
    match a
    case AReceive(k, _, from) => ReceiveOwn(w, k, id, from);
    case AResolve(k, c) => ResolveOwn(w, k, c);
    case ACreate(k) => CreateOwn(w, k);
    case AEnsure(k) => EnsureOwn(w, k);
    case AIncrement(k) => IncrementOwn(w, k);
    case ADie(k) => DieOwn(w, k);
  }

  lemma ReceiveOwn(w: World, k: WorkerId, id: MessageId, from: string)
    requires k !in w.workers && CountOk(w, id) && StorageOk(w, id)
    ensures CountOk(Receive(w, k, id, from), id) && StorageOk(Receive(w, k, id, from), id)
  {
    var w' := Receive(w, k, id, from);
    assert IsStored(w', id) <==> IsStored(w, id);
    assert forall l :: Counting(w', l, id) <==> Counting(w, l, id);
    if w' != w && !IsStored(w, id) {
      assert Arriving(w', k, id);
    }
    assert forall l :: l != k ==> (Arriving(w', l, id) <==> Arriving(w, l, id));
  }

  lemma ResolveOwn(w: World, k: WorkerId, c: CustomerId)
    requires k in w.workers && CountOk(w, w.workers[k].id) && StorageOk(w, w.workers[k].id)
    ensures CountOk(Resolve(w, k, c), w.workers[k].id) && StorageOk(Resolve(w, k, c), w.workers[k].id)
  {
    ResolveAny(w, k, c, w.workers[k].id);
    SameMessageKeeps(w, Resolve(w, k, c), w.workers[k].id);
  }

  lemma EnsureOwn(w: World, k: WorkerId)
    requires k in w.workers && CountOk(w, w.workers[k].id) && StorageOk(w, w.workers[k].id)
    ensures CountOk(EnsureAgain(w, k), w.workers[k].id) && StorageOk(EnsureAgain(w, k), w.workers[k].id)
  {
    EnsureAny(w, k, w.workers[k].id);
    SameMessageKeeps(w, EnsureAgain(w, k), w.workers[k].id);
  }

  lemma CreateOwn(w: World, k: WorkerId)
    requires k in w.workers && CountOk(w, w.workers[k].id) && StorageOk(w, w.workers[k].id)
    ensures CountOk(Create(w, k), w.workers[k].id) && StorageOk(Create(w, k), w.workers[k].id)
  {
    var id, w' := w.workers[k].id, Create(w, k);
    StoredGrows(w, k);
    if w.workers[k].Resolved? {
      assert Arriving(w, k, id);
      if !IsStored(w, id) {
        assert Counting(w', k, id);
      }
      assert forall l :: l != k ==>
             (Counting(w', l, id) <==> Counting(w, l, id)) && (Arriving(w', l, id) <==> Arriving(w, l, id));
      assert !Counting(w, k, id);
    }
  }

  lemma IncrementOwn(w: World, k: WorkerId)
    requires k in w.workers && CountOk(w, w.workers[k].id) && StorageOk(w, w.workers[k].id)
    ensures CountOk(Increment(w, k), w.workers[k].id) && StorageOk(Increment(w, k), w.workers[k].id)
  {
    var id, w' := w.workers[k].id, Increment(w, k);
    if w.workers[k].Touching? {
      assert Counting(w, k, id);
      assert IsStored(w', id) <==> IsStored(w, id);
      assert forall l :: Counting(w', l, id) ==> l != k && Counting(w, l, id);
      assert forall l :: Arriving(w', l, id) <==> Arriving(w, l, id);
    }
  }

  lemma DieOwn(w: World, k: WorkerId)
    requires k in w.workers && CountOk(w, w.workers[k].id) && StorageOk(w, w.workers[k].id)
    ensures CountOk(Die(w, k), w.workers[k].id) && StorageOk(Die(w, k), w.workers[k].id)
  {
    var id, w' := w.workers[k].id, Die(w, k);
    assert IsStored(w', id) <==> IsStored(w, id);
    assert forall l :: Counting(w', l, id) <==> l != k && Counting(w, l, id);
    assert forall l :: Arriving(w', l, id) <==> l != k && Arriving(w, l, id);
    if w.workers[k].Created? || w.workers[k].Touching? {
      assert Counting(w, k, id);
    } else {
      assert Arriving(w, k, id);
    }
  }

  lemma StepKeeps(w: World, a: Action)
    requires Inv(w)
    ensures Inv(Step(w, a))
  {
    hide Step, CountOk, StorageOk, SameMessage, Subject;
    forall id ensures CountOk(Step(w, a), id) && StorageOk(Step(w, a), id) {
      if Subject(w, a) == Some(id) {
        OwnMessage(w, a, id);
      } else {
        OtherMessages(w, a, id);
        SameMessageKeeps(w, Step(w, a), id);
      }
    }
    StoredStayDistinct(w, a);
  }

  lemma StoredStayDistinct(w: World, a: Action)
    requires forall i, j :: 0 <= i < j < |w.stored| ==> w.stored[i].id != w.stored[j].id
    ensures forall i, j :: 0 <= i < j < |Step(w, a).stored| ==> Step(w, a).stored[i].id != Step(w, a).stored[j].id
  {}

  lemma {:induction false} RunKeeps(w: World, actions: seq<Action>)
    requires Inv(w)
    ensures Inv(Run(w, actions))
    decreases |actions|
  {
    hide Inv, Step;
    if actions != [] {
      StepKeeps(w, actions[0]);
      RunKeeps(Step(w, actions[0]), actions[1..]);
    }
  }

  lemma StartIsOk()
    ensures Inv(START)
  {}

  function IdsOf(rows: seq<Row>): multiset<MessageId> {
    if rows == [] then multiset{} else IdsOf(rows[..|rows| - 1]) + multiset{rows[|rows| - 1].id}
  }

  lemma {:induction false} IdsOnce(rows: seq<Row>, id: MessageId)
    requires forall i, j :: 0 <= i < j < |rows| ==> rows[i].id != rows[j].id
    ensures IdsOf(rows)[id] == if exists i :: 0 <= i < |rows| && rows[i].id == id then 1 else 0
  {
    if rows != [] {
      var n := |rows| - 1;
      IdsOnce(rows[..n], id);
      if i :| 0 <= i < n && rows[i].id == id {
        assert rows[..n][i].id == id;
      }
    }
  }

  /** In every run and at every moment: no id is stored twice, and stored ids are well-formed ids that were delivered.
      When no worker is at work, every delivered id is stored, or one of its deliveries died before storing it, and
      the increments that were done are exactly one for each stored message, except those lost to a death between the
      storing and the counting. */
  lemma StoredAndCountedOnce(actions: seq<Action>)
    ensures var w := Run(START, actions);
            && (forall i, j :: 0 <= i < j < |w.stored| ==> w.stored[i].id != w.stored[j].id)
            && (forall id :: IsStored(w, id) ==> id in w.delivered)
            && (w.workers == map[] ==> forall id :: id in w.delivered ==> IsStored(w, id) || id in w.dropped)
            && (w.workers == map[] ==> w.counted + multiset(w.lost) == IdsOf(w.stored))
  {
    StartIsOk();
    RunKeeps(START, actions);
    var w := Run(START, actions);
    hide Run;
    forall id | IsStored(w, id) ensures id in w.delivered {
      assert StorageOk(w, id);
    }
    if w.workers == map[] {
      forall id ensures (w.counted + multiset(w.lost))[id] == IdsOf(w.stored)[id] {
        IdsOnce(w.stored, id);
        assert CountOk(w, id) && forall k :: !Counting(w, k, id);
      }
      forall id | id in w.delivered ensures IsStored(w, id) || id in w.dropped {
        assert StorageOk(w, id) && forall k :: !Arriving(w, k, id);
      }
    }
  }

  predicate NoDeath(actions: seq<Action>) {
    forall i :: 0 <= i < |actions| ==> !actions[i].ADie?
  }

  lemma {:induction false} NobodyDies(w: World, actions: seq<Action>)
    requires NoDeath(actions) && w.lost == {} && w.dropped == {}
    ensures Run(w, actions).lost == {} && Run(w, actions).dropped == {}
    decreases |actions|
  {
    if actions != [] {
      NobodyDies(Step(w, actions[0]), actions[1..]);
    }
  }

  /** Without deaths: exactly the delivered well-formed ids are stored, and each is counted exactly once. */
  lemma ExactlyOnce(actions: seq<Action>)
    requires NoDeath(actions) && Run(START, actions).workers == map[]
    ensures var w := Run(START, actions);
            && (forall id :: IsStored(w, id) <==> id in w.delivered)
            && w.counted == IdsOf(w.stored)
  {
    StoredAndCountedOnce(actions);
    NobodyDies(START, actions);
    assert multiset(Run(START, actions).lost) == multiset{};
  }

  /** A death between the storing and the counting is final: no redelivery counts the message. */
  lemma {:induction false} LostStaysUncounted(w: World, actions: seq<Action>, id: MessageId)
    requires Inv(w) && id in w.lost
    ensures id in Run(w, actions).lost && Run(w, actions).counted[id] == 0
    decreases |actions|
  {
    if actions == [] {
      assert CountOk(w, id);
    } else {
      StepKeeps(w, actions[0]);
      LostStaysUncounted(Step(w, actions[0]), actions[1..], id);
    }
  }

  // ---------------------------------------------------------------------------------------------
  // Unread messages in the archive
  // ---------------------------------------------------------------------------------------------

  // A conversation that was active once and no longer is.
  ghost predicate Archived(w: World, id: ConversationId) {
    id < w.nextId && forall c :: c in w.active ==> w.active[c] != id
  }

  ghost predicate ArchiveIsRead(w: World) {
    forall id :: Archived(w, id) ==> UnreadOf(w, id) == 0
  }

  /** The worker is about to count its message in a conversation that is no longer its customer's active one. */
  predicate Stray(w: World, a: Action) {
    && a.AIncrement? && a.k in w.workers && w.workers[a.k].Touching?
    && var p := w.workers[a.k];
       p.customer !in w.active || w.active[p.customer] != p.conversation
  }

  predicate NeverStray(w: World, actions: seq<Action>)
    decreases |actions|
  {
    actions == [] || (!Stray(w, actions[0]) && NeverStray(Step(w, actions[0]), actions[1..]))
  }

  /** Conversation ids are handed out once, each to one customer, and counted messages, workers and readers know only
      ids that were handed out. */
  ghost predicate Routed(w: World) {
    && (forall c :: c in w.active ==> w.active[c] < w.nextId)
    && (forall c, d :: c in w.active && d in w.active && w.active[c] == w.active[d] ==> c == d)
    && (forall id :: id in w.unread ==> id < w.nextId)
    && (forall q :: q in w.readers ==> w.readers[q] < w.nextId)
    && (forall k :: k in w.workers && w.workers[k].Touching? ==>
        RouteOk(w, w.workers[k].customer, w.workers[k].conversation))
  }

  ghost predicate RouteOk(w: World, customer: CustomerId, id: ConversationId) {
    id < w.nextId && forall c :: c in w.active && w.active[c] == id ==> c == customer
  }

  lemma StepKeepsRouted(w: World, a: Action)
    requires Routed(w)
    ensures Routed(Step(w, a))
  {
    hide Routed, Resolve, Create, EnsureAgain, Increment, Fetch, Clear, Reassign;
    match a
    case AReceive(k, id, from) => AsideKeepsRouted(w, Receive(w, k, id, from));
    case AResolve(k, c) => ResolveKeepsRouted(w, k, c);
    case ACreate(k) => CreateKeepsRouted(w, k);
    case AEnsure(k) => EnsureAgainKeepsRouted(w, k);
    case AIncrement(k) => IncrementKeepsRouted(w, k);
    case ADie(k) => AsideKeepsRouted(w, Die(w, k));
    case AReassign(c) => ReassignKeepsRouted(w, c);
    case AFetch(q, c) => FetchKeepsRouted(w, q, c);
    case AClear(q) => ClearKeepsRouted(w, q);
  }

  lemma AsideKeepsRouted(w: World, w': World)
    requires Routed(w) && w'.active == w.active && w'.unread == w.unread && w'.nextId == w.nextId
             && w'.readers == w.readers
    requires forall k :: k in w'.workers && w'.workers[k].Touching? ==> k in w.workers && w'.workers[k] == w.workers[k]
    ensures Routed(w')
  {}

  lemma ResolveKeepsRouted(w: World, k: WorkerId, c: CustomerId)
    requires Routed(w)
    ensures Routed(Resolve(w, k, c))
  {
    EnsureKeepsRouted(w, c);
    hide Ensure;
    if k in w.workers && w.workers[k].Checked? {
      AsideKeepsRouted(Ensure(w, c), Resolve(w, k, c));
    }
  }

  lemma EnsureKeepsRouted(w: World, c: CustomerId)
    requires Routed(w)
    ensures var w' := Ensure(w, c);
            && Routed(w') && c in w'.active && RouteOk(w', c, w'.active[c])
            && w'.workers == w.workers && w'.readers == w.readers
  {}

  lemma CreateKeepsRouted(w: World, k: WorkerId)
    requires Routed(w)
    ensures Routed(Create(w, k))
  {
    hide IsStored;
  }

  lemma EnsureAgainKeepsRouted(w: World, k: WorkerId)
    requires Routed(w)
    ensures Routed(EnsureAgain(w, k))
  {
    if k in w.workers && w.workers[k].Created? {
      var c := w.workers[k].customer;
      EnsureKeepsRouted(w, c);
      hide Ensure;
      SendToActive(Ensure(w, c), k, w.workers[k].id, c);
    }
  }

  lemma SendToActive(w: World, k: WorkerId, id: MessageId, c: CustomerId)
    requires Routed(w) && c in w.active
    ensures Routed(w.(workers := w.workers[k := Touching(id, c, w.active[c])]))
  {}

  lemma IncrementKeepsRouted(w: World, k: WorkerId)
    requires Routed(w)
    ensures Routed(Increment(w, k))
  {}

  lemma ReassignKeepsRouted(w: World, c: CustomerId)
    requires Routed(w)
    ensures Routed(Reassign(w, c))
  {}

  lemma FetchKeepsRouted(w: World, q: ReaderId, c: CustomerId)
    requires Routed(w)
    ensures Routed(Fetch(w, q, c))
  {
    EnsureKeepsRouted(w, c);
    hide Ensure;
    RememberActive(Ensure(w, c), q, c);
  }

  lemma RememberActive(w: World, q: ReaderId, c: CustomerId)
    requires Routed(w) && c in w.active
    ensures Routed(w.(readers := w.readers[q := w.active[c]]))
  {}

  lemma ClearKeepsRouted(w: World, q: ReaderId)
    requires Routed(w)
    ensures Routed(Clear(w, q))
  {}

  // What a step that is not a stray count does to a conversation that is archived afterwards.
  lemma TameStep(w: World, a: Action, id: ConversationId)
    requires Routed(w) && !Stray(w, a) && Archived(Step(w, a), id)
    ensures UnreadOf(Step(w, a), id) == 0 || (Archived(w, id) && UnreadOf(Step(w, a), id) == UnreadOf(w, id))
  {
    if a.AReassign? {
      TameReassign(w, a.c, id);
    } else {
      ActiveStays(w, a);
      TameCount(w, a, id);
      hide Step, UnreadOf, Stray;
      forall c | c in w.active ensures w.active[c] != id {
        assert c in Step(w, a).active && Step(w, a).active[c] == w.active[c];
      }
    }
  }

  lemma TameReassign(w: World, c: CustomerId, id: ConversationId)
    requires Routed(w) && Archived(Reassign(w, c), id)
    ensures UnreadOf(Reassign(w, c), id) == 0 || (Archived(w, id) && UnreadOf(Reassign(w, c), id) == UnreadOf(w, id))
  {
    var w' := Reassign(w, c);
    assert w'.active[c] == w.nextId;
    if !Archived(w, id) {
      var d :| d in w.active && w.active[d] == id;
      assert d in w'.active && w'.active[d] != id;
    }
  }

  // Only a reassignment takes an active conversation away, and a new id is given to an active one.
  lemma ActiveStays(w: World, a: Action)
    requires !a.AReassign?
    ensures w.nextId <= Step(w, a).nextId
    ensures forall c :: c in w.active ==> c in Step(w, a).active && Step(w, a).active[c] == w.active[c]
    ensures forall id :: w.nextId <= id && Archived(Step(w, a), id) ==> false
  {
    hide IsStored, UnreadOf;
    var w' := Step(w, a);
    if w'.nextId != w.nextId {
      assert w'.nextId == w.nextId + 1 && exists c :: c in w'.active && w'.active[c] == w.nextId;
    }
  }

  lemma TameCount(w: World, a: Action, id: ConversationId)
    requires !a.AReassign? && !Stray(w, a) && Archived(Step(w, a), id)
    ensures UnreadOf(Step(w, a), id) == 0 || UnreadOf(Step(w, a), id) == UnreadOf(w, id)
  {
    hide IsStored;
  }

  lemma StrayStep(w: World, a: Action)
    requires Routed(w) && Stray(w, a)
    ensures !ArchiveIsRead(Step(w, a))
  {
    var id := w.workers[a.k].conversation;
    assert Archived(Step(w, a), id) && UnreadOf(Step(w, a), id) > 0;
  }

  lemma StepReadsArchive(w: World, a: Action)
    requires Routed(w) && ArchiveIsRead(w)
    ensures ArchiveIsRead(Step(w, a)) <==> !Stray(w, a)
  {
    hide Step, Routed, Archived, UnreadOf;
    if Stray(w, a) {
      StrayStep(w, a);
    } else {
      forall id | Archived(Step(w, a), id) ensures UnreadOf(Step(w, a), id) == 0 {
        TameStep(w, a, id);
      }
    }
  }

  /** At every moment of the run. */
  ghost predicate AlwaysRead(w: World, actions: seq<Action>)
    decreases |actions|
  {
    ArchiveIsRead(w) && (actions == [] || AlwaysRead(Step(w, actions[0]), actions[1..]))
  }

  lemma {:induction false} RunReadsArchive(w: World, actions: seq<Action>)
    requires Routed(w)
    ensures AlwaysRead(w, actions) <==> ArchiveIsRead(w) && NeverStray(w, actions)
    decreases |actions|
  {
    hide Step, Routed, ArchiveIsRead, Stray;
    if actions != [] && ArchiveIsRead(w) {
      StepKeepsRouted(w, actions[0]);
      StepReadsArchive(w, actions[0]);
      RunReadsArchive(Step(w, actions[0]), actions[1..]);
    }
  }

  /** Archived conversations have nothing unread at every moment of a run if and only if no worker of the run counts its
      message in a conversation that is no longer its customer's active one, which it could see just before it
      counts. */
  lemma ArchiveIsReadExactly(actions: seq<Action>)
    ensures AlwaysRead(START, actions) <==> NeverStray(START, actions)
  {
    RunReadsArchive(START, actions);
  }

  /** A run that fails it: a reassignment between the two statements of the count. A reader that fetched the
      conversation before it was archived may still clear the count afterwards, so the end of a run alone does not
      tell. */
  lemma CountedInTheArchive(c: CustomerId)
    ensures var actions := [AReceive(0, "id", "from"), AResolve(0, c), ACreate(0), AEnsure(0), AFetch(0, c),
                            AReassign(c), AIncrement(0)];
            var w := Run(START, actions);
            && Archived(w, 0) && UnreadOf(w, 0) == 1
            && ArchiveIsRead(Step(w, AClear(0)))
  {
    hide Step;
    var w1 := Step(START, AReceive(0, "id", "from"));
    var w2 := Step(w1, AResolve(0, c));
    var w3 := Step(w2, ACreate(0));
    var w4 := Step(w3, AEnsure(0));
    var w5 := Step(w4, AFetch(0, c));
    var w6 := Step(w5, AReassign(c));
    assert Run(w6, [AIncrement(0)]) == Run(Step(w6, AIncrement(0)), []);
    assert Run(w5, [AReassign(c), AIncrement(0)]) == Run(w6, [AIncrement(0)]);
    assert Run(w4, [AFetch(0, c), AReassign(c), AIncrement(0)]) == Run(w5, [AReassign(c), AIncrement(0)]);
    assert Run(w3, [AEnsure(0), AFetch(0, c), AReassign(c), AIncrement(0)])
        == Run(w4, [AFetch(0, c), AReassign(c), AIncrement(0)]);
    assert Run(w2, [ACreate(0), AEnsure(0), AFetch(0, c), AReassign(c), AIncrement(0)])
        == Run(w3, [AEnsure(0), AFetch(0, c), AReassign(c), AIncrement(0)]);
    assert Run(w1, [AResolve(0, c), ACreate(0), AEnsure(0), AFetch(0, c), AReassign(c), AIncrement(0)])
        == Run(w2, [ACreate(0), AEnsure(0), AFetch(0, c), AReassign(c), AIncrement(0)]);
    CountingBegins(c);
    Overtaken(w4, c);
  }

  lemma CountingBegins(c: CustomerId)
    ensures var w := Step(Step(Step(Step(START, AReceive(0, "id", "from")), AResolve(0, c)), ACreate(0)), AEnsure(0));
            && w.workers == map[0 := Touching("id", c, 0)] && w.readers == map[]
            && w.active == map[c := 0] && w.unread == map[] && w.nextId == 1
  {
    var w1 := Step(START, AReceive(0, "id", "from"));
    var w2 := Step(w1, AResolve(0, c));
    assert w2.workers == map[0 := Resolved("id", c, 0)] && w2.stored == [];
  }

  lemma Overtaken(w4: World, c: CustomerId)
    requires w4.workers == map[0 := Touching("id", c, 0)] && w4.readers == map[]
    requires w4.active == map[c := 0] && w4.unread == map[] && w4.nextId == 1
    ensures var w := Step(Step(Step(w4, AFetch(0, c)), AReassign(c)), AIncrement(0));
            Archived(w, 0) && UnreadOf(w, 0) == 1 && ArchiveIsRead(Step(w, AClear(0)))
  {
    var w6 := Step(Step(w4, AFetch(0, c)), AReassign(c));
    assert w6.active == map[c := 1] && w6.nextId == 2 && w6.unread == map[0 := 0];
  }
}

/** The service as the source writes it, one call at a time. */
module Inbound {
  import opened InboundSpec

  datatype Incoming = Incoming(id: MessageId, from: string, sender: CustomerId)

  datatype Outcome = Ignored | Duplicate | Stored(index: nat)

  // The statements of one call, by a worker that nobody interrupts.
  function Statements(m: Incoming): seq<Action> {
    [AReceive(0, m.id, m.from), AResolve(0, m.sender), ACreate(0), AEnsure(0), AIncrement(0)]
  }

  function AllStatements(messages: seq<Incoming>): seq<Action> {
    if messages == [] then [] else AllStatements(messages[..|messages| - 1]) + Statements(messages[|messages| - 1])
  }

  lemma {:induction false} RunThrough(w: World, first: seq<Action>, rest: seq<Action>)
    ensures Run(w, first + rest) == Run(Run(w, first), rest)
    decreases |first|
  {
    if first == [] {
      assert first + rest == rest;
    } else {
      assert (first + rest)[1..] == first[1..] + rest;
      RunThrough(Step(w, first[0]), first[1..], rest);
    }
  }

  // A new message is stored with its sender's active conversation and counted there.
  function Kept(w: World, m: Incoming): World
    requires m.sender in w.active
  {
    var conversation := w.active[m.sender];
    w.(stored := w.stored + [Row(m.id, m.sender, conversation)],
       unread := w.unread[conversation := UnreadOf(w, conversation) + 1],
       counted := w.counted + multiset{m.id})
  }

  /** The five statements together, when nobody comes in between. */
  function Handled(w: World, m: Incoming): World {
    if m.id == "" || m.from == "" then w
    else
      var noted := w.(delivered := w.delivered + {m.id});
      if IsStored(w, m.id) then noted else Kept(Ensure(noted, m.sender), m)
  }

  lemma OneCall(w: World, m: Incoming)
    requires w.workers == map[]
    ensures Run(w, Statements(m)) == Handled(w, m)
  {
    FiveSteps(w, m);
    hide Run, Statements, IsStored, Resolve, Create, EnsureAgain, Increment, Ensure, Kept;
    var w1 := Receive(w, 0, m.id, m.from);
    var noted := w.(delivered := w.delivered + {m.id});
    if m.id == "" || m.from == "" || IsStored(w, m.id) {
      IdleWorker(w1, m.sender);
    } else {
      assert w1 == noted.(workers := map[0 := Checked(m.id)]);
      SameRows(w, noted, m.id);
      NewMessage(noted, m);
    }
  }

  lemma IdleWorker(w: World, c: CustomerId)
    requires w.workers == map[]
    ensures Increment(EnsureAgain(Create(Resolve(w, 0, c), 0), 0), 0) == w
  {}

  lemma NewMessage(w: World, m: Incoming)
    requires w.workers == map[] && !IsStored(w, m.id)
    ensures Increment(EnsureAgain(Create(Resolve(w.(workers := map[0 := Checked(m.id)]), 0, m.sender), 0), 0), 0)
         == Kept(Ensure(w, m.sender), m)
  {
    var ensured := Ensure(w, m.sender);
    ResolveChecked(w, m);
    SameRows(w, ensured, m.id);
    hide IsStored, Resolve, Create, EnsureAgain, Increment, Kept, Ensure;
    assert m.sender in ensured.active && ensured.workers == map[] by { EnsureActivates(w, m.sender); }
    CreateResolved(ensured, m);
    CountCreated(ensured, m);
  }

  lemma EnsureActivates(w: World, c: CustomerId)
    ensures c in Ensure(w, c).active && Ensure(w, c).workers == w.workers && Ensure(w, c).stored == w.stored
  {}

  lemma ResolveChecked(w: World, m: Incoming)
    ensures m.sender in Ensure(w, m.sender).active
    ensures Resolve(w.(workers := map[0 := Checked(m.id)]), 0, m.sender)
         == Ensure(w, m.sender).(workers := map[0 := Resolved(m.id, m.sender, Ensure(w, m.sender).active[m.sender])])
  {}

  lemma CreateResolved(w: World, m: Incoming)
    requires !IsStored(w, m.id) && m.sender in w.active
    ensures Create(w.(workers := map[0 := Resolved(m.id, m.sender, w.active[m.sender])]), 0)
         == w.(workers := map[0 := Created(m.id, m.sender)],
               stored := w.stored + [Row(m.id, m.sender, w.active[m.sender])])
  {}

  lemma CountCreated(w: World, m: Incoming)
    requires w.workers == map[] && m.sender in w.active
    ensures Increment(EnsureAgain(w.(workers := map[0 := Created(m.id, m.sender)],
                                     stored := w.stored + [Row(m.id, m.sender, w.active[m.sender])]), 0), 0)
         == Kept(w, m)
  {}

  lemma FiveSteps(w: World, m: Incoming)
    ensures Run(w, Statements(m))
            == Increment(EnsureAgain(Create(Resolve(Receive(w, 0, m.id, m.from), 0, m.sender), 0), 0), 0)
  {
    var w1 := Receive(w, 0, m.id, m.from);
    var w2 := Resolve(w1, 0, m.sender);
    var w3 := Create(w2, 0);
    var w4 := EnsureAgain(w3, 0);
    hide Receive, Resolve, Create, EnsureAgain, Increment;
    assert Run(w4, [AIncrement(0)]) == Run(Increment(w4, 0), []);
    assert Run(w3, [AEnsure(0), AIncrement(0)]) == Run(w4, [AIncrement(0)]);
    assert Run(w2, [ACreate(0), AEnsure(0), AIncrement(0)]) == Run(w3, [AEnsure(0), AIncrement(0)]);
    assert Run(w1, [AResolve(0, m.sender), ACreate(0), AEnsure(0), AIncrement(0)])
           == Run(w2, [ACreate(0), AEnsure(0), AIncrement(0)]);
  }

  class WebhookService {
    var stored: seq<Row>
    var active: map<CustomerId, ConversationId>
    var unread: map<ConversationId, nat>
    var nextId: ConversationId
    ghost var counted: multiset<MessageId>
    ghost var delivered: set<MessageId>

    ghost function View(): World
      reads this
    {
      World(stored, active, unread, nextId, map[], map[], counted, delivered, {}, {})
    }

    constructor ()
      ensures View() == START
    {
      stored, active, unread, nextId, counted, delivered := [], map[], map[], 0, multiset{}, {};
    }

    method EnsureConversationForCustomer(c: CustomerId) returns (id: ConversationId)
      modifies this
      ensures View() == Ensure(old(View()), c) && c in active && active[c] == id
    {
      if c !in active {
        active := active[c := nextId];
        nextId := nextId + 1;
      }
      id := active[c];
    }

    method FindMessage(id: MessageId) returns (found: bool)
      ensures found == IsStored(View(), id)
    {
      found := false;
      for i := 0 to |stored|
        invariant found == exists k :: 0 <= k < i && stored[k].id == id
      {
        if stored[i].id == id {
          found := true;
        }
      }
    }

    // The message row, and the touch of the conversation, which ensures it once more.
    method StoreMessage(m: Incoming, conversation: ConversationId) returns (index: nat)
      requires m.sender in active && active[m.sender] == conversation
      modifies this
      ensures View() == Kept(old(View()), m) && index < |stored| && stored[index].id == m.id
    {
      index := |stored|;
      stored := stored + [Row(m.id, m.sender, conversation)];
      var touched := EnsureConversationForCustomer(m.sender);
      unread := unread[touched := (if touched in unread then unread[touched] else 0) + 1];
      counted := counted + multiset{m.id};
    }

    /** `processInboundMessage` */
    method ProcessInboundMessage(m: Incoming) returns (outcome: Outcome)
      modifies this
      ensures View() == Handled(old(View()), m)
      ensures outcome.Ignored? <==> m.id == "" || m.from == ""
      ensures outcome.Stored? <==> !outcome.Ignored? && !IsStored(old(View()), m.id)
      ensures outcome.Stored? ==> outcome.index < |stored| && stored[outcome.index].id == m.id
    {
      hide IsStored, Kept, Ensure;
      if m.id == "" || m.from == "" {
        return Ignored;
      }
      delivered := delivered + {m.id};
      var duplicate := FindMessage(m.id);
      SameRows(old(View()), View(), m.id);
      if duplicate {
        return Duplicate;
      }
      var conversation := EnsureConversationForCustomer(m.sender);
      var index := StoreMessage(m, conversation);
      outcome := Stored(index);
    }

    /** The loop of `processWebhook` over the messages of a payload, with its summary. */
    method ProcessMessages(messages: seq<Incoming>) returns (inboundMessages: seq<Incoming>, ignored: seq<Incoming>)
      modifies this
      ensures View() == Run(old(View()), AllStatements(messages))
      ensures |inboundMessages| + |ignored| == |messages|
      ensures forall m :: m in ignored ==> m in messages && (m.id == "" || m.from == "")
      ensures forall m :: m in inboundMessages ==> m in messages && m.id != "" && m.from != "" && IsStored(View(), m.id)
    {
      inboundMessages, ignored := [], [];
      for i := 0 to |messages|
        invariant View() == Run(old(View()), AllStatements(messages[..i]))
        invariant |inboundMessages| + |ignored| == i
        invariant forall m :: m in ignored ==> m in messages && (m.id == "" || m.from == "")
        invariant forall m :: m in inboundMessages ==>
                  m in messages && m.id != "" && m.from != "" && IsStored(View(), m.id)
      {
        RunThrough(old(View()), AllStatements(messages[..i]), Statements(messages[i]));
        assert messages[..i + 1][..i] == messages[..i];
        ghost var before := View();
        OneCall(before, messages[i]);
        var outcome := ProcessInboundMessage(messages[i]);
        HandledKeepsStored(before, messages[i]);
        if outcome.Ignored? {
          ignored := ignored + [messages[i]];
        } else {
          inboundMessages := inboundMessages + [messages[i]];
        }
      }
      assert messages[..|messages|] == messages;
    }
  }

  lemma HandledKeepsStored(w: World, m: Incoming)
    ensures forall id :: IsStored(w, id) ==> IsStored(Handled(w, m), id)
    ensures m.id != "" && m.from != "" ==> IsStored(Handled(w, m), m.id)
  {
    var w' := Handled(w, m);
    forall id | IsStored(w, id) ensures IsStored(w', id) {
      var i :| 0 <= i < |w.stored| && w.stored[i].id == id;
      assert w'.stored[i].id == id;
    }
    if m.id != "" && m.from != "" && !IsStored(w, m.id) {
      assert w'.stored[|w.stored|].id == m.id;
    }
  }
}
