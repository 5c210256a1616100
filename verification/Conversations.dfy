// src/services/conversation.service.js: one active conversation per customer, which mirrors the customer's assignee,
// counts unread messages, and is archived when the customer is reassigned. Each call is one step.

module ConversationSpec {
  import opened Options

  type CustomerId = nat
  type EmployeeId = nat
  type ConversationId = nat

  type Assignee = Option<EmployeeId>

  datatype Status = Open | OnHold | Closed | Archived

  datatype Conversation = Conversation(
    customer: CustomerId, activeKey: Option<CustomerId>, assignee: Assignee, status: Status, unreadCount: nat,
    lastMessage: Option<nat>, previousAssignee: Assignee, reassignedTo: Assignee)

  datatype Message = Message(customer: CustomerId, conversation: ConversationId, inbound: bool)

  // A row of ConversationAssignmentHistory.
  datatype Record = Record(
    customer: CustomerId, archived: Option<ConversationId>, active: ConversationId, previous: Assignee, next: Assignee)

  /** `customers` holds the assignee of each customer, `byKey` is the unique index on `activeKey`. */
  datatype Inbox = Inbox(
    customers: map<CustomerId, Assignee>,
    conversations: map<ConversationId, Conversation>,
    byKey: map<CustomerId, ConversationId>,
    nextId: ConversationId,
    messages: seq<Message>,
    history: seq<Record>)

  const EMPTY := Inbox(map[], map[], map[], 0, [], [])

  datatype Response = Done | NotFound | BadRequest

  predicate HasActive(b: Inbox, c: CustomerId) {
    c in b.byKey && b.byKey[c] in b.conversations
  }

  function Active(b: Inbox, c: CustomerId): Conversation
    requires HasActive(b, c)
  {
    b.conversations[b.byKey[c]]
  }

  function SetActive(b: Inbox, c: CustomerId, conversation: Conversation): Inbox
    requires HasActive(b, c)
  {
    b.(conversations := b.conversations[b.byKey[c] := conversation])
  }

  function Fresh(c: CustomerId, assignee: Assignee): Conversation {
    Conversation(c, Some(c), assignee, Open, 0, None, None, None)
  }

  function Insert(b: Inbox, c: CustomerId, conversation: Conversation): Inbox {
    b.(conversations := b.conversations[b.nextId := conversation], byKey := b.byKey[c := b.nextId],
       nextId := b.nextId + 1)
  }

  /** `ensureConversationForCustomer`: an upsert on the active key that always writes the customer's assignee */
  function Ensure(b: Inbox, c: CustomerId): (b': Inbox)
    requires c in b.customers
    ensures HasActive(b', c)
  {
    if HasActive(b, c) then SetActive(b, c, Active(b, c).(assignee := b.customers[c]))
    else Insert(b, c, Fresh(c, b.customers[c]))
  }

  function AddMessage(b: Inbox, c: CustomerId, inbound: bool): (b': Inbox)
    requires HasActive(b, c)
    ensures HasActive(b', c)
  {
    b.(messages := b.messages + [Message(c, b.byKey[c], inbound)])
  }

  function Touched(conversation: Conversation, message: nat, inbound: bool): Conversation {
    if inbound
    then conversation.(lastMessage := Some(message), status := Open, unreadCount := conversation.unreadCount + 1)
    else conversation.(lastMessage := Some(message))
  }

  /** `touchConversationForMessage` */
  function Touch(b: Inbox, c: CustomerId, message: nat, inbound: bool): Inbox
    requires c in b.customers
  {
    var ensured := Ensure(b, c);
    SetActive(ensured, c, Touched(Active(ensured, c), message, inbound))
  }

  // A stored message, inbound or outbound, with the conversation that it belongs to.
  function Store(b: Inbox, c: CustomerId, inbound: bool): Inbox {
    if c !in b.customers then b else Touch(AddMessage(Ensure(b, c), c, inbound), c, |b.messages|, inbound)
  }

  /** Whose conversations a user sees: all, or those assigned to one of these employees. */
  predicate Sees(viewer: Option<set<EmployeeId>>, assignee: Assignee) {
    viewer.Some? ==> assignee.Some? && assignee.value in viewer.value
  }

  /** `markConversationRead` */
  function MarkRead(b: Inbox, c: CustomerId, viewer: Option<set<EmployeeId>>): Inbox {
    if c !in b.customers then b
    else
      var ensured := Ensure(b, c);
      if !Sees(viewer, Active(ensured, c).assignee) then ensured
      else SetActive(ensured, c, Active(ensured, c).(unreadCount := 0))
  }

  /** `updateConversationStatus` */
  function UpdateStatus(b: Inbox, c: CustomerId, viewer: Option<set<EmployeeId>>, status: Status): Inbox {
    if status.Archived? || c !in b.customers then b
    else
      var ensured := Ensure(b, c);
      if !Sees(viewer, Active(ensured, c).assignee) then ensured
      else SetActive(ensured, c, Active(ensured, c).(status := status))
  }

  // A system message in the conversation, which becomes its last message.
  function SystemMessage(b: Inbox, c: CustomerId): Inbox
    requires HasActive(b, c)
  {
    SetActive(AddMessage(b, c, false), c, Active(b, c).(lastMessage := Some(|b.messages|)))
  }

  /** The effect of a collection status that forbids contact (src/services/customer.service.js:954-1021) */
  function CloseContact(b: Inbox, c: CustomerId): Inbox {
    if c !in b.customers then b
    else
      var ensured := Ensure(b, c);
      SystemMessage(SetActive(ensured, c, Active(ensured, c).(status := Closed, unreadCount := 0)), c)
  }

  function ArchiveRow(row: Conversation, previous: Assignee, next: Assignee): Conversation {
    row.(activeKey := None, status := Archived, unreadCount := 0, previousAssignee := previous, reassignedTo := next)
  }

  // The active conversation, if there is one, is archived with a system message.
  function ArchiveActive(b: Inbox, c: CustomerId, previous: Assignee, next: Assignee): Inbox {
    if !HasActive(b, c) then b
    else
      SetActive(AddMessage(b, c, false), c,
                ArchiveRow(Active(b, c), previous, next).(lastMessage := Some(|b.messages|)))
      .(byKey := b.byKey - {c})
  }

  function PreviousAssignee(b: Inbox, c: CustomerId): Assignee
    requires c in b.customers
  {
    if HasActive(b, c) && Active(b, c).assignee.Some? then Active(b, c).assignee else b.customers[c]
  }

  /** `reassignCustomerConversation` */
  function Reassign(b: Inbox, c: CustomerId, next: Assignee): Inbox {
    if c !in b.customers then b
    else if b.customers[c] == next then Ensure(b, c)
    else
      var previous := PreviousAssignee(b, c);
      var archived := if HasActive(b, c) then Some(b.byKey[c]) else None;
      var closed := ArchiveActive(b, c, previous, next);
      var renewed := SystemMessage(Insert(closed, c, Fresh(c, next)), c);
      renewed.(customers := b.customers[c := next],
               history := b.history + [Record(c, archived, renewed.byKey[c], previous, next)])
  }

  // A new customer; an import, say, creates no conversation yet.
  function CreateCustomer(b: Inbox, c: CustomerId, assignee: Assignee, converses: bool): Inbox {
    if c in b.customers then b
    else
      var known := b.(customers := b.customers[c := assignee]);
      if converses then Ensure(known, c) else known
  }

  datatype Action =
    | ACreate(c: CustomerId, assignee: Assignee, converses: bool)
    | AEnsure(c: CustomerId)
    | AStore(c: CustomerId, inbound: bool)
    | AMarkRead(c: CustomerId, viewer: Option<set<EmployeeId>>)
    | AUpdateStatus(c: CustomerId, viewer: Option<set<EmployeeId>>, status: Status)
    | AClose(c: CustomerId)
    | AReassign(c: CustomerId, next: Assignee)

  function Step(b: Inbox, a: Action): Inbox {
    match a
    case ACreate(c, assignee, converses) => CreateCustomer(b, c, assignee, converses)
    case AEnsure(c) => if c in b.customers then Ensure(b, c) else b
    case AStore(c, inbound) => Store(b, c, inbound)
    case AMarkRead(c, viewer) => MarkRead(b, c, viewer)
    case AUpdateStatus(c, viewer, status) => UpdateStatus(b, c, viewer, status)
    case AClose(c) => CloseContact(b, c)
    case AReassign(c, next) => Reassign(b, c, next)
  }

  function Run(b: Inbox, actions: seq<Action>): Inbox
    decreases |actions|
  {
    if actions == [] then b else Run(Step(b, actions[0]), actions[1..])
  }

  // ---------------------------------------------------------------------------------------------
  // The invariant
  // ---------------------------------------------------------------------------------------------

  /** A conversation is either the active one of its customer, with the customer's assignee, or archived and read. */
  ghost predicate RowOk(b: Inbox, id: ConversationId)
    requires id in b.conversations
  {
    var row := b.conversations[id];
    && id < b.nextId && row.customer in b.customers
    && match row.activeKey
       case Some(key) =>
         key == row.customer && key in b.byKey && b.byKey[key] == id
         && row.assignee == b.customers[key] && !row.status.Archived?
       case None => row.status.Archived? && row.unreadCount == 0
  }

  ghost predicate Inv(b: Inbox) {
    && (forall id :: id in b.conversations ==> RowOk(b, id))
    && (forall c :: c in b.byKey ==> HasActive(b, c) && Active(b, c).activeKey == Some(c))
  }

  lemma SetActiveKeeps(b: Inbox, c: CustomerId, row: Conversation)
    requires Inv(b) && HasActive(b, c)
    requires row.customer == c && row.activeKey == Some(c) && row.assignee == b.customers[c] && !row.status.Archived?
    ensures Inv(SetActive(b, c, row))
  {}

  lemma ActiveOk(b: Inbox, c: CustomerId)
    requires Inv(b) && HasActive(b, c)
    ensures var row := Active(b, c);
            && c in b.customers && row.customer == c && row.activeKey == Some(c)
            && row.assignee == b.customers[c] && !row.status.Archived?
  {}

  lemma InsertKeeps(b: Inbox, c: CustomerId, assignee: Assignee)
    requires Inv(b) && c !in b.byKey && c in b.customers && assignee == b.customers[c]
    ensures Inv(Insert(b, c, Fresh(c, assignee)))
  {}

  lemma EnsureKeeps(b: Inbox, c: CustomerId)
    requires Inv(b) && c in b.customers
    ensures Inv(Ensure(b, c))
  {
    if HasActive(b, c) {
      ActiveOk(b, c);
      SetActiveKeeps(b, c, Active(b, c).(assignee := b.customers[c]));
    } else {
      InsertKeeps(b, c, b.customers[c]);
    }
  }

  // Messages and history play no part in the invariant.
  lemma OthersKeep(b: Inbox, b': Inbox)
    requires Inv(b) && b' == b.(messages := b'.messages, history := b'.history)
    ensures Inv(b')
  {}

  lemma StoreKeeps(b: Inbox, c: CustomerId, inbound: bool)
    requires Inv(b)
    ensures Inv(Store(b, c, inbound))
  {
    hide Inv, Ensure;
    if c in b.customers {
      EnsureKeeps(b, c);
      var stored := AddMessage(Ensure(b, c), c, inbound);
      OthersKeep(Ensure(b, c), stored);
      EnsureKnows(b, c);
      EnsureKeeps(stored, c);
      ActiveOk(Ensure(stored, c), c);
      SetActiveKeeps(Ensure(stored, c), c, Touched(Active(Ensure(stored, c), c), |b.messages|, inbound));
    }
  }

  lemma EnsureKnows(b: Inbox, c: CustomerId)
    requires c in b.customers
    ensures Ensure(b, c).customers == b.customers && Ensure(b, c).messages == b.messages
  {}

  lemma MarkReadKeeps(b: Inbox, c: CustomerId, viewer: Option<set<EmployeeId>>)
    requires Inv(b)
    ensures Inv(MarkRead(b, c, viewer))
  {
    if c in b.customers {
      EnsureKeeps(b, c);
      ActiveOk(Ensure(b, c), c);
      SetActiveKeeps(Ensure(b, c), c, Active(Ensure(b, c), c).(unreadCount := 0));
    }
  }

  lemma UpdateStatusKeeps(b: Inbox, c: CustomerId, viewer: Option<set<EmployeeId>>, status: Status)
    requires Inv(b)
    ensures Inv(UpdateStatus(b, c, viewer, status))
  {
    if c in b.customers && !status.Archived? {
      EnsureKeeps(b, c);
      ActiveOk(Ensure(b, c), c);
      SetActiveKeeps(Ensure(b, c), c, Active(Ensure(b, c), c).(status := status));
    }
  }

  lemma SystemMessageKeeps(b: Inbox, c: CustomerId)
    requires Inv(b) && HasActive(b, c)
    ensures Inv(SystemMessage(b, c))
  {}

  lemma CloseKeeps(b: Inbox, c: CustomerId)
    requires Inv(b)
    ensures Inv(CloseContact(b, c))
  {
    if c in b.customers {
      EnsureKeeps(b, c);
      ActiveOk(Ensure(b, c), c);
      var closed := SetActive(Ensure(b, c), c, Active(Ensure(b, c), c).(status := Closed, unreadCount := 0));
      SetActiveKeeps(Ensure(b, c), c, Active(Ensure(b, c), c).(status := Closed, unreadCount := 0));
      SystemMessageKeeps(closed, c);
    }
  }

  // After the archiving no conversation of the customer is active, and the customer may get another assignee.
  lemma ArchiveKeeps(b: Inbox, c: CustomerId, previous: Assignee, next: Assignee)
    requires Inv(b) && c in b.customers
    ensures var b' := ArchiveActive(b, c, previous, next).(customers := b.customers[c := next]);
            Inv(b') && c !in b'.byKey
  {}

  lemma ReassignKeeps(b: Inbox, c: CustomerId, next: Assignee)
    requires Inv(b)
    ensures Inv(Reassign(b, c, next))
  {
    if c in b.customers {
      if b.customers[c] == next {
        EnsureKeeps(b, c);
      } else {
        var previous := PreviousAssignee(b, c);
        var closed := ArchiveActive(b, c, previous, next).(customers := b.customers[c := next]);
        ArchiveKeeps(b, c, previous, next);
        InsertKeeps(closed, c, next);
        SystemMessageKeeps(Insert(closed, c, Fresh(c, next)), c);
        OthersKeep(SystemMessage(Insert(closed, c, Fresh(c, next)), c), Reassign(b, c, next));
      }
    }
  }

  lemma CreateKeeps(b: Inbox, c: CustomerId, assignee: Assignee, converses: bool)
    requires Inv(b)
    ensures Inv(CreateCustomer(b, c, assignee, converses))
  {}

  lemma StepKeeps(b: Inbox, a: Action)
    requires Inv(b)
    ensures Inv(Step(b, a))
  {
    hide Inv, Store, MarkRead, UpdateStatus, CloseContact, Reassign, CreateCustomer, Ensure;
    match a
    case ACreate(c, assignee, converses) => CreateKeeps(b, c, assignee, converses);
    case AEnsure(c) =>
      if c in b.customers {
        EnsureKeeps(b, c);
      }
    case AStore(c, inbound) => StoreKeeps(b, c, inbound);
    case AMarkRead(c, viewer) => MarkReadKeeps(b, c, viewer);
    case AUpdateStatus(c, viewer, status) => UpdateStatusKeeps(b, c, viewer, status);
    case AClose(c) => CloseKeeps(b, c);
    case AReassign(c, next) => ReassignKeeps(b, c, next);
  }

  lemma {:induction false} RunKeeps(b: Inbox, actions: seq<Action>)
    requires Inv(b)
    ensures Inv(Run(b, actions))
    decreases |actions|
  {
    hide Inv;
    if actions != [] {
      StepKeeps(b, actions[0]);
      RunKeeps(Step(b, actions[0]), actions[1..]);
    }
  }

  /** In every run: at most one conversation of a customer is active, it has the customer's assignee, and every other
      conversation is archived, without a key and without unread messages. */
  lemma OneActiveConversation(actions: seq<Action>, i: ConversationId, j: ConversationId)
    requires var b := Run(EMPTY, actions); i in b.conversations && j in b.conversations
    ensures var b := Run(EMPTY, actions);
            var row, other := b.conversations[i], b.conversations[j];
            && (row.activeKey.Some? && other.activeKey.Some? && row.customer == other.customer ==> i == j)
            && (row.activeKey.Some? ==> row.customer in b.customers && row.assignee == b.customers[row.customer])
            && (row.activeKey.Some? <==> !row.status.Archived?)
            && (row.activeKey.None? ==> row.unreadCount == 0)
  {
    RunKeeps(EMPTY, actions);
    var b := Run(EMPTY, actions);
    assert RowOk(b, i) && RowOk(b, j);
  }

  // ---------------------------------------------------------------------------------------------
  // One customer at a time
  // ---------------------------------------------------------------------------------------------

  function HistoryOf(history: seq<Record>, c: CustomerId): seq<Record> {
    if history == [] then []
    else
      var last := history[|history| - 1];
      HistoryOf(history[..|history| - 1], c) + (if last.customer == c then [last] else [])
  }

  function UnreadOf(b: Inbox, c: CustomerId): nat {
    if HasActive(b, c) then Active(b, c).unreadCount else 0
  }

  // The status of the active conversation, if there is one.
  function StatusOf(b: Inbox, c: CustomerId): Option<Status> {
    if HasActive(b, c) then Some(Active(b, c).status) else None
  }

  // A conversation that is created on the way is OPEN.
  function Ensured(status: Option<Status>): Option<Status> {
    if status.None? then Some(Open) else status
  }

  /** Archived rows stay as they are. */
  ghost predicate Frozen(b: Inbox, b': Inbox) {
    forall id :: id in b.conversations && b.conversations[id].activeKey.None? ==>
      id in b'.conversations && b'.conversations[id] == b.conversations[id]
  }

  ghost predicate SameFor(b: Inbox, b': Inbox, c: CustomerId) {
    && (c in b'.customers <==> c in b.customers) && (c in b.customers ==> b'.customers[c] == b.customers[c])
    && (HasActive(b', c) <==> HasActive(b, c))
    && (HasActive(b, c) ==> b'.byKey[c] == b.byKey[c] && Active(b', c) == Active(b, c))
    && HistoryOf(b'.history, c) == HistoryOf(b.history, c)
  }

  // What the calls for one customer do to the rows: they write the active one, or insert a new one.
  ghost predicate Touches(b: Inbox, b': Inbox, c: CustomerId) {
    && Frozen(b, b')
    && (forall d :: d != c ==> SameFor(b, b', d))
    && b'.history == b.history && (c in b'.customers <==> c in b.customers)
    && (c in b.customers ==> b'.customers[c] == b.customers[c])
    && (HasActive(b, c) ==> HasActive(b', c) && b'.byKey[c] == b.byKey[c])
  }

  lemma SetActiveTouches(b: Inbox, c: CustomerId, row: Conversation)
    requires Inv(b) && HasActive(b, c) && row.customer == c
    ensures Touches(b, SetActive(b, c, row), c) && Active(SetActive(b, c, row), c) == row
  {}

  lemma EnsureTouches(b: Inbox, c: CustomerId)
    requires Inv(b) && c in b.customers
    ensures Touches(b, Ensure(b, c), c) && HasActive(Ensure(b, c), c)
    ensures UnreadOf(Ensure(b, c), c) == UnreadOf(b, c) && Active(Ensure(b, c), c).assignee == b.customers[c]
    ensures StatusOf(Ensure(b, c), c) == Ensured(StatusOf(b, c))
  {}

  lemma TouchesComposes(b: Inbox, b1: Inbox, b2: Inbox, c: CustomerId)
    requires Touches(b, b1, c) && Touches(b1, b2, c)
    ensures Touches(b, b2, c)
  {
    forall d | d != c ensures SameFor(b, b2, d) {
      assert SameFor(b, b1, d) && SameFor(b1, b2, d);
    }
  }

  lemma AddMessageTouches(b: Inbox, c: CustomerId, inbound: bool)
    requires HasActive(b, c)
    ensures Touches(b, AddMessage(b, c, inbound), c) && Active(AddMessage(b, c, inbound), c) == Active(b, c)
  {}

  lemma StoreTouches(b: Inbox, c: CustomerId, inbound: bool)
    requires Inv(b) && c in b.customers
    ensures var b' := Store(b, c, inbound);
            && Touches(b, b', c) && HasActive(b', c) && UnreadOf(b', c) == UnreadOf(b, c) + (if inbound then 1 else 0)
            && StatusOf(b', c) == if inbound then Some(Open) else Ensured(StatusOf(b, c))
  {
    hide Touches, Inv, SameFor;
    var ensured := Ensure(b, c);
    EnsureKeeps(b, c);
    EnsureTouches(b, c);
    AddMessageTouches(ensured, c, inbound);
    var stored := AddMessage(ensured, c, inbound);
    OthersKeep(ensured, stored);
    EnsureKeeps(stored, c);
    EnsureTouches(stored, c);
    ActiveOk(Ensure(stored, c), c);
    SetActiveTouches(Ensure(stored, c), c, Touched(Active(Ensure(stored, c), c), |b.messages|, inbound));
    TouchesComposes(b, ensured, stored, c);
    TouchesComposes(b, stored, Ensure(stored, c), c);
    TouchesComposes(b, Ensure(stored, c), Store(b, c, inbound), c);
  }

  // A change of the active conversation that keeps its key, customer and assignee.
  lemma EnsureThenSet(b: Inbox, c: CustomerId, row: Conversation)
    requires Inv(b) && c in b.customers && row.customer == c
    ensures var b' := SetActive(Ensure(b, c), c, row);
            Touches(b, b', c) && HasActive(b', c) && Active(b', c) == row
  {}

  lemma MarkReadTouches(b: Inbox, c: CustomerId, viewer: Option<set<EmployeeId>>)
    requires Inv(b) && c in b.customers
    ensures var b' := MarkRead(b, c, viewer);
            && Touches(b, b', c) && HasActive(b', c)
            && UnreadOf(b', c) == (if Sees(viewer, b.customers[c]) then 0 else UnreadOf(b, c))
            && StatusOf(b', c) == Ensured(StatusOf(b, c))
  {}

  lemma UpdateStatusTouches(b: Inbox, c: CustomerId, viewer: Option<set<EmployeeId>>, status: Status)
    requires Inv(b) && c in b.customers && !status.Archived?
    ensures var b' := UpdateStatus(b, c, viewer, status);
            && Touches(b, b', c) && HasActive(b', c) && UnreadOf(b', c) == UnreadOf(b, c)
            && StatusOf(b', c) == if Sees(viewer, b.customers[c]) then Some(status) else Ensured(StatusOf(b, c))
  {
    hide Touches, Inv, SameFor, Ensure;
    EnsureKeeps(b, c);
    EnsureTouches(b, c);
    ActiveOk(Ensure(b, c), c);
    EnsureThenSet(b, c, Active(Ensure(b, c), c).(status := status));
  }

  lemma SystemMessageTouches(b: Inbox, c: CustomerId)
    requires Inv(b) && HasActive(b, c)
    ensures Touches(b, SystemMessage(b, c), c) && HasActive(SystemMessage(b, c), c)
    ensures UnreadOf(SystemMessage(b, c), c) == UnreadOf(b, c) && StatusOf(SystemMessage(b, c), c) == StatusOf(b, c)
  {}

  lemma CloseTouches(b: Inbox, c: CustomerId)
    requires Inv(b) && c in b.customers
    ensures var b' := CloseContact(b, c);
            Touches(b, b', c) && HasActive(b', c) && UnreadOf(b', c) == 0 && StatusOf(b', c) == Some(Closed)
  {
    hide Touches, Inv, SameFor, Ensure, SystemMessage;
    EnsureKeeps(b, c);
    EnsureTouches(b, c);
    ActiveOk(Ensure(b, c), c);
    var row := Active(Ensure(b, c), c).(status := Closed, unreadCount := 0);
    EnsureThenSet(b, c, row);
    var b1 := SetActive(Ensure(b, c), c, row);
    SetActiveKeeps(Ensure(b, c), c, row);
    SystemMessageTouches(b1, c);
    TouchesComposes(b, b1, CloseContact(b, c), c);
  }

  /** Who sees a conversation: an administrator every one, others those of their employees. A user who does not see it
      leaves its count and its status alone. */
  lemma UnseenIsKept(b: Inbox, c: CustomerId, employees: set<EmployeeId>, status: Status)
    requires Inv(b) && c in b.customers && !status.Archived?
    ensures var seen := exists e :: e in employees && b.customers[c] == Some(e);
            && UnreadOf(MarkRead(b, c, Some(employees)), c) == (if seen then 0 else UnreadOf(b, c))
            && StatusOf(UpdateStatus(b, c, Some(employees), status), c)
               == (if seen then Some(status) else Ensured(StatusOf(b, c)))
    ensures UnreadOf(MarkRead(b, c, None), c) == 0 && StatusOf(UpdateStatus(b, c, None, status), c) == Some(status)
  {
    MarkReadTouches(b, c, Some(employees));
    MarkReadTouches(b, c, None);
    UpdateStatusTouches(b, c, Some(employees), status);
    UpdateStatusTouches(b, c, None, status);
    hide MarkRead, UpdateStatus, Inv, Touches;
  }

  /** What a reassignment to another employee leaves behind. */
  ghost predicate Reassigned(b: Inbox, b': Inbox, c: CustomerId, next: Assignee)
    requires c in b.customers
  {
    && Frozen(b, b') && (forall d :: d != c ==> SameFor(b, b', d))
    && c in b'.customers && b'.customers[c] == next
    && HasActive(b', c) && UnreadOf(b', c) == 0 && StatusOf(b', c) == Some(Open)
    && HistoryOf(b'.history, c) == HistoryOf(b.history, c)
         + [Record(c, if HasActive(b, c) then Some(b.byKey[c]) else None, b'.byKey[c], b.customers[c], next)]
    && (HasActive(b, c) ==> Retired(b', b.byKey[c], c, b.customers[c], next))
  }

  // The conversation is archived and says from whom to whom the customer went.
  ghost predicate Retired(b: Inbox, id: ConversationId, c: CustomerId, previous: Assignee, next: Assignee) {
    && id in b.conversations
    && var row := b.conversations[id];
       row.customer == c && row.activeKey.None? && row.previousAssignee == previous && row.reassignedTo == next
  }

  lemma ReassignReassigns(b: Inbox, c: CustomerId, next: Assignee)
    requires Inv(b) && c in b.customers && b.customers[c] != next
    ensures Reassigned(b, Reassign(b, c, next), c, next)
  {
    var b' := Reassign(b, c, next);
    if HasActive(b, c) {
      ActiveOk(b, c);
    }
    assert PreviousAssignee(b, c) == b.customers[c];
    assert b'.history[..|b'.history| - 1] == b.history;
    assert b.nextId !in b.conversations by { assert forall id :: id in b.conversations ==> RowOk(b, id); }
    assert Frozen(b, b');
    forall d | d != c ensures SameFor(b, b', d) {
      if HasActive(b, d) {
        assert RowOk(b, b.byKey[d]);
        if HasActive(b, c) {
          assert RowOk(b, b.byKey[c]);
        }
      }
    }
  }

  // ---------------------------------------------------------------------------------------------
  // What the trace says about a customer
  // ---------------------------------------------------------------------------------------------

  /** A machine without conversations: the first and the current assignee, the inbound messages since the last call that
      reset the unread count, and the status that the last of the calls which set it has set. */
  datatype Card = Absent | Known(first: Assignee, assignee: Assignee, unread: nat, status: Option<Status>)

  function Follow(card: Card, c: CustomerId, a: Action): Card {
    if a.c != c then card
    else
      match card
      case Absent =>
        if a.ACreate? then Known(a.assignee, a.assignee, 0, if a.converses then Some(Open) else None) else Absent
      case Known(first, assignee, unread, status) =>
        match a
        case ACreate(_, _, _) => card
        case AEnsure(_) => card.(status := Ensured(status))
        case AStore(_, inbound) =>
          if inbound then card.(unread := unread + 1, status := Some(Open)) else card.(status := Ensured(status))
        case AMarkRead(_, viewer) =>
          card.(unread := if Sees(viewer, assignee) then 0 else unread, status := Ensured(status))
        case AUpdateStatus(_, viewer, next) =>
          if next.Archived? then card
          else card.(status := if Sees(viewer, assignee) then Some(next) else Ensured(status))
        case AClose(_) => card.(unread := 0, status := Some(Closed))
        case AReassign(_, next) =>
          if next != assignee then Known(first, next, 0, Some(Open)) else card.(status := Ensured(status))
  }

  function CardAfter(card: Card, c: CustomerId, actions: seq<Action>): Card
    decreases |actions|
  {
    if actions == [] then card else CardAfter(Follow(card, c, actions[0]), c, actions[1..])
  }

  /** Follows the records, each of which must start where the one before it ended. */
  function Replay(first: Assignee, history: seq<Record>): Option<Assignee> {
    if history == [] then Some(first)
    else
      var last := history[|history| - 1];
      if Replay(first, history[..|history| - 1]) == Some(last.previous) then Some(last.next) else None
  }

  /** Each record archives the conversation that the record before it activated, the newest one activated the one
      that is active now, and every archived conversation says what its record says. */
  ghost predicate ChainOk(b: Inbox, c: CustomerId) {
    var h := HistoryOf(b.history, c);
    && (forall k :: 0 < k < |h| ==> h[k].archived == Some(h[k - 1].active))
    && (h != [] ==> HasActive(b, c) && b.byKey[c] == h[|h| - 1].active)
    && (forall k :: 0 <= k < |h| ==> h[k].previous != h[k].next)
    && (forall k :: 0 <= k < |h| && h[k].archived.Some? ==>
        Retired(b, h[k].archived.value, c, h[k].previous, h[k].next))
  }

  ghost predicate Agrees(b: Inbox, card: Card, c: CustomerId) {
    match card
    case Absent => c !in b.customers && !HasActive(b, c) && HistoryOf(b.history, c) == []
    case Known(first, assignee, unread, status) =>
      && c in b.customers && b.customers[c] == assignee && UnreadOf(b, c) == unread && StatusOf(b, c) == status
      && Replay(first, HistoryOf(b.history, c)) == Some(assignee) && ChainOk(b, c)
  }

  lemma SameForAgrees(b: Inbox, b': Inbox, card: Card, c: CustomerId)
    requires Agrees(b, card, c) && SameFor(b, b', c) && Frozen(b, b')
    ensures Agrees(b', card, c)
  {}

  lemma TouchesAgrees(b: Inbox, b': Inbox, card: Card, c: CustomerId)
    requires Agrees(b, card, c) && card.Known? && Touches(b, b', c)
    ensures Agrees(b', card.(unread := UnreadOf(b', c), status := StatusOf(b', c)), c)
  {}

  lemma ReassignedAgrees(b: Inbox, b': Inbox, card: Card, c: CustomerId, next: Assignee)
    requires Agrees(b, card, c) && card.Known? && card.assignee != next && Reassigned(b, b', c, next)
    ensures Agrees(b', Known(card.first, next, 0, Some(Open)), c)
  {
    hide HistoryOf, Replay, UnreadOf, StatusOf, SameFor;
    var h := HistoryOf(b.history, c);
    ReplayNext(card.first, h, HistoryOf(b'.history, c)[|h|]);
    ReassignedChain(b, b', c, next);
    hide ChainOk;
  }

  lemma ReplayNext(first: Assignee, history: seq<Record>, last: Record)
    requires Replay(first, history) == Some(last.previous)
    ensures Replay(first, history + [last]) == Some(last.next)
  {
    assert (history + [last])[..|history|] == history;
  }

  lemma ReassignedChain(b: Inbox, b': Inbox, c: CustomerId, next: Assignee)
    requires c in b.customers && b.customers[c] != next && Reassigned(b, b', c, next) && ChainOk(b, c)
    ensures ChainOk(b', c)
  {
    hide HistoryOf, Replay, UnreadOf, SameFor;
  }

  lemma OwnStepAgrees(b: Inbox, a: Action, card: Card)
    requires Inv(b) && Agrees(b, card, a.c) && card.Known?
    ensures Agrees(Step(b, a), Follow(card, a.c, a), a.c)
  {
    var c := a.c;
    hide Inv, Ensure, Store, MarkRead, UpdateStatus, CloseContact, Touches, Reassigned, SameFor, ChainOk, Replay,
         HistoryOf;
    match a
    case ACreate(_, _, _) =>
    case AEnsure(_) =>
      EnsureTouches(b, c);
      TouchesAgrees(b, Step(b, a), card, c);
    case AStore(_, inbound) =>
      StoreTouches(b, c, inbound);
      TouchesAgrees(b, Step(b, a), card, c);
    case AMarkRead(_, viewer) =>
      MarkReadTouches(b, c, viewer);
      TouchesAgrees(b, Step(b, a), card, c);
    case AUpdateStatus(_, viewer, status) =>
      if !status.Archived? {
        UpdateStatusTouches(b, c, viewer, status);
        TouchesAgrees(b, Step(b, a), card, c);
      } else {
        ArchivingIsRefused(b, c, viewer);
      }
    case AClose(_) =>
      CloseTouches(b, c);
      TouchesAgrees(b, Step(b, a), card, c);
    case AReassign(_, next) =>
      if card.assignee == next {
        EnsureTouches(b, c);
        TouchesAgrees(b, Step(b, a), card, c);
      } else {
        ReassignReassigns(b, c, next);
        ReassignedAgrees(b, Step(b, a), card, c, next);
      }
  }

  lemma ArchivingIsRefused(b: Inbox, c: CustomerId, viewer: Option<set<EmployeeId>>)
    ensures UpdateStatus(b, c, viewer, Archived) == b
  {}

  lemma CreateAgrees(b: Inbox, c: CustomerId, assignee: Assignee, converses: bool, card: Card)
    requires Inv(b) && c !in b.customers && Agrees(b, card, c)
    ensures Agrees(CreateCustomer(b, c, assignee, converses),
                   Known(assignee, assignee, 0, if converses then Some(Open) else None), c)
  {}

  lemma AbsentIsIgnored(b: Inbox, a: Action)
    requires a.c !in b.customers && !a.ACreate?
    ensures Step(b, a) == b
  {}

  lemma ElsewhereSame(b: Inbox, a: Action, c: CustomerId)
    requires Inv(b) && a.c != c
    ensures SameFor(b, Step(b, a), c) && Frozen(b, Step(b, a))
  {
    hide Inv, Ensure, Store, MarkRead, UpdateStatus, CloseContact, Reassign, SameFor, Frozen, CreateCustomer, HistoryOf;
    if a.ACreate? {
      CreateElsewhere(b, a.c, a.assignee, a.converses, c);
    } else if a.c !in b.customers {
      AbsentIsIgnored(b, a);
      NothingChanges(b, c);
    } else {
      match a
      case AEnsure(d) => EnsureTouches(b, d);
      case AStore(d, inbound) => StoreTouches(b, d, inbound);
      case AMarkRead(d, viewer) => MarkReadTouches(b, d, viewer);
      case AUpdateStatus(d, viewer, status) =>
        if !status.Archived? {
          UpdateStatusTouches(b, d, viewer, status);
        } else {
          ArchivingIsRefused(b, d, viewer);
          NothingChanges(b, c);
        }
      case AClose(d) => CloseTouches(b, d);
      case AReassign(d, next) =>
        if b.customers[d] == next {
          SameAssigneeEnsures(b, d);
          EnsureTouches(b, d);
        } else {
          ReassignReassigns(b, d, next);
        }
    }
  }

  lemma NothingChanges(b: Inbox, c: CustomerId)
    ensures SameFor(b, b, c) && Frozen(b, b)
  {}

  lemma SameAssigneeEnsures(b: Inbox, c: CustomerId)
    requires c in b.customers
    ensures Reassign(b, c, b.customers[c]) == Ensure(b, c)
  {}

  lemma CreateElsewhere(b: Inbox, d: CustomerId, assignee: Assignee, converses: bool, c: CustomerId)
    requires Inv(b) && c != d
    ensures SameFor(b, CreateCustomer(b, d, assignee, converses), c)
            && Frozen(b, CreateCustomer(b, d, assignee, converses))
  {}

  lemma StepAgrees(b: Inbox, a: Action, card: Card, c: CustomerId)
    requires Inv(b) && Agrees(b, card, c)
    ensures Agrees(Step(b, a), Follow(card, c, a), c)
  {
    hide Step, Inv, SameFor, Frozen, CreateCustomer;
    if a.c != c {
      ElsewhereSame(b, a, c);
      SameForAgrees(b, Step(b, a), card, c);
    } else if card.Known? {
      OwnStepAgrees(b, a, card);
    } else if a.ACreate? {
      CreateAgrees(b, c, a.assignee, a.converses, card);
      CreateIsStep(b, a);
    } else {
      AbsentIsIgnored(b, a);
    }
  }

  lemma CreateIsStep(b: Inbox, a: Action)
    requires a.ACreate?
    ensures Step(b, a) == CreateCustomer(b, a.c, a.assignee, a.converses)
  {}

  lemma {:induction false} RunAgrees(b: Inbox, actions: seq<Action>, card: Card, c: CustomerId)
    requires Inv(b) && Agrees(b, card, c)
    ensures Agrees(Run(b, actions), CardAfter(card, c, actions), c)
    decreases |actions|
  {
    hide Step, Follow, Inv, Agrees;
    if actions != [] {
      StepKeeps(b, actions[0]);
      StepAgrees(b, actions[0], card, c);
      RunAgrees(Step(b, actions[0]), actions[1..], Follow(card, c, actions[0]), c);
    }
  }

  /** In every run the unread count of a customer is the number of inbound messages since the last call that reset it,
      and the assignee is the one of the last reassignment. */
  lemma UnreadIsSinceLastReset(actions: seq<Action>, c: CustomerId)
    ensures var b := Run(EMPTY, actions);
            match CardAfter(Absent, c, actions)
            case Absent => c !in b.customers
            case Known(_, assignee, unread, _) =>
              c in b.customers && b.customers[c] == assignee && UnreadOf(b, c) == unread
  {
    RunAgrees(EMPTY, actions, Absent, c);
  }

  /** In every run the status of a customer's conversation is the one that the last call that sets it has set: an
      inbound message and a reassignment OPEN, a closing CLOSED, an accepted status change its own; a call that creates
      the conversation leaves it OPEN. */
  lemma StatusIsFromTheTrace(actions: seq<Action>, c: CustomerId)
    ensures var b := Run(EMPTY, actions);
            match CardAfter(Absent, c, actions)
            case Absent => !HasActive(b, c)
            case Known(_, _, _, status) => StatusOf(b, c) == status
  {
    RunAgrees(EMPTY, actions, Absent, c);
  }

  /** The assignment history of a customer is a chain whose replay from the first assignee gives the current one. */
  lemma HistoryReplays(actions: seq<Action>, c: CustomerId)
    ensures var b := Run(EMPTY, actions);
            match CardAfter(Absent, c, actions)
            case Absent => HistoryOf(b.history, c) == []
            case Known(first, _, _, _) =>
              ChainOk(b, c) && c in b.customers && Replay(first, HistoryOf(b.history, c)) == Some(b.customers[c])
  {
    RunAgrees(EMPTY, actions, Absent, c);
  }

  // ---------------------------------------------------------------------------------------------
  // Last messages
  // ---------------------------------------------------------------------------------------------

  function LastIn(messages: seq<Message>, id: ConversationId): Option<nat> {
    if messages == [] then None
    else if messages[|messages| - 1].conversation == id then Some(|messages| - 1)
    else LastIn(messages[..|messages| - 1], id)
  }

  /** Each message lies in a conversation of its customer, and each conversation knows the last one that lies in it. */
  ghost predicate MessagesOk(b: Inbox) {
    && (forall i :: 0 <= i < |b.messages| ==>
          var m := b.messages[i];
          m.conversation in b.conversations && b.conversations[m.conversation].customer == m.customer)
    && (forall id :: id in b.conversations ==> b.conversations[id].lastMessage == LastIn(b.messages, id))
  }

  // Nothing happens to the messages: a conversation may be written, and a new one has none.
  ghost predicate Silent(b: Inbox, b': Inbox) {
    && b'.messages == b.messages
    && (forall id :: id in b.conversations ==>
          && id in b'.conversations && b'.conversations[id].customer == b.conversations[id].customer
          && b'.conversations[id].lastMessage == b.conversations[id].lastMessage)
    && (forall id :: id in b'.conversations && id !in b.conversations ==> b'.conversations[id].lastMessage.None?)
  }

  // One message is added, to this conversation.
  ghost predicate Posts(b: Inbox, b': Inbox, id: ConversationId) {
    && id in b.conversations && b'.conversations.Keys == b.conversations.Keys
    && (exists inbound :: b'.messages == b.messages + [Message(b.conversations[id].customer, id, inbound)])
    && (forall other :: other in b.conversations ==>
          && b'.conversations[other].customer == b.conversations[other].customer
          && b'.conversations[other].lastMessage
             == if other == id then Some(|b.messages|) else b.conversations[other].lastMessage)
  }

  lemma {:induction false} NoneIn(messages: seq<Message>, id: ConversationId)
    requires forall i :: 0 <= i < |messages| ==> messages[i].conversation != id
    ensures LastIn(messages, id).None?
  {
    if messages != [] {
      NoneIn(messages[..|messages| - 1], id);
    }
  }

  lemma SilentKeeps(b: Inbox, b': Inbox)
    requires MessagesOk(b) && Silent(b, b')
    ensures MessagesOk(b')
  {
    forall id | id in b'.conversations ensures b'.conversations[id].lastMessage == LastIn(b'.messages, id) {
      if id !in b.conversations {
        NoneIn(b.messages, id);
      }
    }
  }

  lemma PostsKeeps(b: Inbox, b': Inbox, id: ConversationId)
    requires MessagesOk(b) && Posts(b, b', id)
    ensures MessagesOk(b')
  {
    assert b'.messages[..|b.messages|] == b.messages;
  }

  lemma EnsureIsSilent(b: Inbox, c: CustomerId)
    requires Inv(b) && c in b.customers
    ensures Silent(b, Ensure(b, c))
  {
    if !HasActive(b, c) {
      assert forall id :: id in b.conversations ==> RowOk(b, id);
    }
  }

  lemma SystemMessagePosts(b: Inbox, c: CustomerId)
    requires Inv(b) && HasActive(b, c)
    ensures Posts(b, SystemMessage(b, c), b.byKey[c])
  {
    ActiveOk(b, c);
    assert SystemMessage(b, c).messages == b.messages + [Message(c, b.byKey[c], false)];
  }

  lemma WriteIsSilent(b: Inbox, c: CustomerId, row: Conversation)
    requires Inv(b) && HasActive(b, c) && row.customer == c && row.lastMessage == Active(b, c).lastMessage
    ensures Silent(b, SetActive(b, c, row))
  {
    ActiveOk(b, c);
  }

  lemma StorePosts(b: Inbox, c: CustomerId, inbound: bool)
    requires Inv(b) && c in b.customers
    ensures Posts(Ensure(b, c), Store(b, c, inbound), Ensure(b, c).byKey[c])
  {
    var ensured := Ensure(b, c);
    EnsureKeeps(b, c);
    ActiveOk(ensured, c);
    assert Store(b, c, inbound).messages == ensured.messages + [Message(c, ensured.byKey[c], inbound)];
  }

  lemma ArchivePosts(b: Inbox, c: CustomerId, previous: Assignee, next: Assignee)
    requires Inv(b) && HasActive(b, c)
    ensures Posts(b, ArchiveActive(b, c, previous, next), b.byKey[c])
  {
    ActiveOk(b, c);
    assert ArchiveActive(b, c, previous, next).messages == b.messages + [Message(c, b.byKey[c], false)];
  }

  lemma NewActivePosts(b: Inbox, c: CustomerId, next: Assignee)
    requires b.nextId !in b.conversations
    ensures var inserted := Insert(b, c, Fresh(c, next));
            HasActive(inserted, c) && Posts(inserted, SystemMessage(inserted, c), b.nextId)
  {
    var inserted := Insert(b, c, Fresh(c, next));
    assert SystemMessage(inserted, c).messages == inserted.messages + [Message(c, b.nextId, false)];
  }

  lemma ArchiveKeepsMessages(b: Inbox, c: CustomerId, previous: Assignee, next: Assignee)
    requires Inv(b) && MessagesOk(b)
    ensures var closed := ArchiveActive(b, c, previous, next);
            MessagesOk(closed) && closed.nextId == b.nextId && b.nextId !in closed.conversations
  {
    assert b.nextId !in b.conversations by { assert forall id :: id in b.conversations ==> RowOk(b, id); }
    if HasActive(b, c) {
      ArchivePosts(b, c, previous, next);
      PostsKeeps(b, ArchiveActive(b, c, previous, next), b.byKey[c]);
    }
    hide MessagesOk, Posts, Inv;
  }

  lemma InsertKeepsMessages(b: Inbox, c: CustomerId, next: Assignee)
    requires MessagesOk(b) && b.nextId !in b.conversations
    ensures MessagesOk(Insert(b, c, Fresh(c, next)))
  {
    assert Silent(b, Insert(b, c, Fresh(c, next)));
    SilentKeeps(b, Insert(b, c, Fresh(c, next)));
  }

  lemma ReassignKeepsMessages(b: Inbox, c: CustomerId, next: Assignee)
    requires Inv(b) && MessagesOk(b) && c in b.customers && b.customers[c] != next
    ensures MessagesOk(Reassign(b, c, next))
  {
    hide MessagesOk, Posts, Inv, ArchiveActive, Insert, SystemMessage;
    var previous := PreviousAssignee(b, c);
    var closed := ArchiveActive(b, c, previous, next);
    var inserted := Insert(closed, c, Fresh(c, next));
    ArchiveKeepsMessages(b, c, previous, next);
    InsertKeepsMessages(closed, c, next);
    NewActivePosts(closed, c, next);
    PostsKeeps(inserted, SystemMessage(inserted, c), closed.nextId);
    OtherTablesAside(SystemMessage(inserted, c), Reassign(b, c, next));
  }

  lemma OtherTablesAside(b: Inbox, b': Inbox)
    requires MessagesOk(b) && b'.messages == b.messages && b'.conversations == b.conversations
    ensures MessagesOk(b')
  {}

  lemma CloseKeepsMessages(b: Inbox, c: CustomerId)
    requires Inv(b) && MessagesOk(b) && c in b.customers
    ensures MessagesOk(CloseContact(b, c))
  {
    hide MessagesOk, Silent, Posts, Ensure, SystemMessage, Inv;
    EnsureKeeps(b, c);
    EnsureIsSilent(b, c);
    SilentKeeps(b, Ensure(b, c));
    ActiveOk(Ensure(b, c), c);
    var row := Active(Ensure(b, c), c).(status := Closed, unreadCount := 0);
    var written := SetActive(Ensure(b, c), c, row);
    SetActiveKeeps(Ensure(b, c), c, row);
    WriteIsSilent(Ensure(b, c), c, row);
    SilentKeeps(Ensure(b, c), written);
    SystemMessagePosts(written, c);
    PostsKeeps(written, CloseContact(b, c), written.byKey[c]);
  }

  lemma WriteKeepsMessages(b: Inbox, c: CustomerId, row: Conversation)
    requires Inv(b) && MessagesOk(b) && c in b.customers
    requires row.customer == c && row.lastMessage == Active(Ensure(b, c), c).lastMessage
    ensures MessagesOk(Ensure(b, c)) && MessagesOk(SetActive(Ensure(b, c), c, row))
  {
    hide MessagesOk, Silent, Ensure, Inv;
    EnsureKeeps(b, c);
    EnsureIsSilent(b, c);
    SilentKeeps(b, Ensure(b, c));
    WriteIsSilent(Ensure(b, c), c, row);
    SilentKeeps(Ensure(b, c), SetActive(Ensure(b, c), c, row));
  }

  lemma CreateKeepsMessages(b: Inbox, c: CustomerId, assignee: Assignee, converses: bool)
    requires Inv(b) && MessagesOk(b)
    ensures MessagesOk(CreateCustomer(b, c, assignee, converses))
  {
    if c !in b.customers && converses {
      var known := b.(customers := b.customers[c := assignee]);
      assert b.nextId !in b.conversations by { assert forall id :: id in b.conversations ==> RowOk(b, id); }
      assert !HasActive(b, c) by { if HasActive(b, c) { ActiveOk(b, c); } }
      assert Silent(b, Ensure(known, c));
      SilentKeeps(b, Ensure(known, c));
    }
  }

  lemma StepKeepsMessages(b: Inbox, a: Action)
    requires Inv(b) && MessagesOk(b)
    ensures MessagesOk(Step(b, a))
  {
    hide MessagesOk, Inv, Ensure, Store, CloseContact, Reassign, CreateCustomer, Silent, Posts;
    if a.ACreate? {
      CreateKeepsMessages(b, a.c, a.assignee, a.converses);
    } else if a.c !in b.customers {
      AbsentIsIgnored(b, a);
    } else {
      var c := a.c;
      EnsureKeeps(b, c);
      ActiveOk(Ensure(b, c), c);
      var row := Active(Ensure(b, c), c);
      WriteKeepsMessages(b, c, row.(status := if a.AUpdateStatus? then a.status else row.status,
                                    unreadCount := if a.AMarkRead? then 0 else row.unreadCount));
      match a
      case AEnsure(_) =>
      case AStore(_, inbound) =>
        StorePosts(b, c, inbound);
        PostsKeeps(Ensure(b, c), Store(b, c, inbound), Ensure(b, c).byKey[c]);
      case AMarkRead(_, viewer) =>
      case AUpdateStatus(_, viewer, status) =>
      case AClose(_) => CloseKeepsMessages(b, c);
      case AReassign(_, next) =>
        if b.customers[c] == next {
          SameAssigneeEnsures(b, c);
        } else {
          ReassignKeepsMessages(b, c, next);
        }
    }
  }

  lemma {:induction false} RunKeepsMessages(b: Inbox, actions: seq<Action>)
    requires Inv(b) && MessagesOk(b)
    ensures MessagesOk(Run(b, actions))
    decreases |actions|
  {
    hide Inv, MessagesOk, Step;
    if actions != [] {
      StepKeeps(b, actions[0]);
      StepKeepsMessages(b, actions[0]);
      RunKeepsMessages(Step(b, actions[0]), actions[1..]);
    }
  }

  /** In every run every message lies in a conversation of its customer, and every conversation, archived ones included,
      names the last message that lies in it. */
  lemma LastMessageIsLast(actions: seq<Action>)
    ensures var b := Run(EMPTY, actions);
            && (forall i :: 0 <= i < |b.messages| ==>
                  var m := b.messages[i];
                  m.conversation in b.conversations && b.conversations[m.conversation].customer == m.customer)
            && (forall id :: id in b.conversations ==> b.conversations[id].lastMessage == LastIn(b.messages, id))
  {
    RunKeepsMessages(EMPTY, actions);
  }

  /** An archived conversation never changes again. */
  lemma {:induction false} ArchivedIsFinal(b: Inbox, actions: seq<Action>, id: ConversationId)
    requires Inv(b) && id in b.conversations && b.conversations[id].activeKey.None?
    ensures id in Run(b, actions).conversations && Run(b, actions).conversations[id] == b.conversations[id]
    decreases |actions|
  {
    if actions != [] {
      StepKeeps(b, actions[0]);
      ElsewhereSame(b, actions[0], actions[0].c + 1);
      hide Inv, Step;
      ArchivedIsFinal(Step(b, actions[0]), actions[1..], id);
    }
  }
}

/** The service as the source writes it, over tables that its calls update. */
module Conversations {
  import opened Options
  import opened ConversationSpec

  class ConversationService {
    var customers: map<CustomerId, Assignee>
    var conversations: map<ConversationId, Conversation>
    var byKey: map<CustomerId, ConversationId>
    var nextId: ConversationId
    var messages: seq<Message>
    var history: seq<Record>

    ghost function View(): Inbox
      reads this
    {
      Inbox(customers, conversations, byKey, nextId, messages, history)
    }

    constructor ()
      ensures View() == EMPTY
    {
      customers, conversations, byKey, nextId, messages, history := map[], map[], map[], 0, [], [];
    }

    method EnsureConversationForCustomer(c: CustomerId) returns (response: Response, id: ConversationId)
      requires Inv(View())
      modifies this
      ensures Inv(View())
      ensures if c !in old(customers) then response.NotFound? && View() == old(View())
              else response.Done? && View() == Ensure(old(View()), c) && HasActive(View(), c) && id == byKey[c]
    {
      id := 0;
      if c !in customers {
        return NotFound, id;
      }
      EnsureKeeps(View(), c);
      if c in byKey {
        id := byKey[c];
        conversations := conversations[id := conversations[id].(assignee := customers[c])];
      } else {
        id := CreateConversation(c, customers[c]);
      }
      response := Done;
    }

    // The unique index on the active key holds no entry for the customer.
    method CreateConversation(c: CustomerId, assignee: Assignee) returns (id: ConversationId)
      requires c !in byKey
      modifies this
      ensures View() == Insert(old(View()), c, Fresh(c, assignee)) && id == old(nextId)
    {
      id := nextId;
      conversations := conversations[id := Conversation(c, Some(c), assignee, Open, 0, None, None, None)];
      byKey := byKey[c := id];
      nextId := nextId + 1;
    }

    method TouchConversationForMessage(c: CustomerId, message: nat, inbound: bool)
      requires Inv(View()) && c in customers
      modifies this
      ensures View() == Touch(old(View()), c, message, inbound)
    {
      var response, id := EnsureConversationForCustomer(c);
      var data := conversations[id].(lastMessage := Some(message));
      if inbound {
        data := data.(status := Open, unreadCount := data.unreadCount + 1);
      }
      conversations := conversations[id := data];
    }

    method MarkConversationRead(c: CustomerId, viewer: Option<set<EmployeeId>>) returns (response: Response)
      requires Inv(View())
      modifies this
      ensures View() == MarkRead(old(View()), c, viewer) && Inv(View())
      ensures response.Done? <==> c in old(customers) && Sees(viewer, old(customers[c]))
    {
      MarkReadKeeps(View(), c, viewer);
      if c in customers {
        EnsureTouches(View(), c);
      }
      var id;
      response, id := EnsureConversationForCustomer(c);
      if response.NotFound? {
        return;
      }
      if !Sees(viewer, conversations[id].assignee) {
        return NotFound;
      }
      conversations := conversations[id := conversations[id].(unreadCount := 0)];
    }

    method CreateSystemMessage(c: CustomerId, id: ConversationId)
      requires id in conversations
      modifies this
      ensures messages == old(messages) + [Message(c, id, false)]
      ensures conversations == old(conversations)[id := old(conversations[id]).(lastMessage := Some(old(|messages|)))]
      ensures View() == old(View()).(messages := messages, conversations := conversations)
    {
      messages := messages + [Message(c, id, false)];
      conversations := conversations[id := conversations[id].(lastMessage := Some(|messages| - 1))];
    }

    // The first half of the transaction.
    method ArchiveConversation(c: CustomerId, newAssignee: Assignee)
      returns (archivedId: Option<ConversationId>, previous: Assignee)
      requires Inv(View()) && c in customers
      modifies this
      ensures previous == PreviousAssignee(old(View()), c)
      ensures View() == ArchiveActive(old(View()), c, previous, newAssignee)
      ensures archivedId == if HasActive(old(View()), c) then Some(old(byKey)[c]) else None
    {
      archivedId, previous := None, customers[c];
      if c in byKey {
        var id := byKey[c];
        archivedId := Some(id);
        var row := conversations[id];
        previous := if row.assignee.Some? then row.assignee else customers[c];
        conversations := conversations[id := row.(activeKey := None, status := Archived, unreadCount := 0,
                                                  previousAssignee := previous, reassignedTo := newAssignee)];
        byKey := byKey - {c};
        CreateSystemMessage(c, id);
      }
    }

    // The second half.
    method ActivateConversation(c: CustomerId, newAssignee: Assignee) returns (id: ConversationId)
      requires c !in byKey
      modifies this
      ensures View() == SystemMessage(Insert(old(View()), c, Fresh(c, newAssignee)), c) && id == old(nextId)
    {
      id := CreateConversation(c, newAssignee);
      CreateSystemMessage(c, id);
    }

    /** The transaction. Neither the check for several active conversations nor the unique index ever stops it. */
    method ReassignCustomerConversation(c: CustomerId, newAssignee: Assignee)
      returns (response: Response, archivedId: Option<ConversationId>)
      requires Inv(View())
      modifies this
      ensures View() == Reassign(old(View()), c, newAssignee) && Inv(View())
      ensures response == if c in old(customers) then Done else NotFound
      ensures archivedId.Some? <==> c in old(customers) && old(customers[c]) != newAssignee && c in old(byKey)
    {
      ReassignKeeps(View(), c, newAssignee);
      hide Ensure, SystemMessage, Fresh, PreviousAssignee, ArchiveActive;
      archivedId := None;
      if c !in customers {
        return NotFound, archivedId;
      }
      if customers[c] == newAssignee {
        var done, id := EnsureConversationForCustomer(c);
        return Done, archivedId;
      }
      ArchiveKeeps(View(), c, PreviousAssignee(View(), c), newAssignee);
      var previous;
      archivedId, previous := ArchiveConversation(c, newAssignee);
      var active := ActivateConversation(c, newAssignee);
      customers := customers[c := newAssignee];
      history := history + [Record(c, archivedId, active, previous, newAssignee)];
      response := Done;
    }
  }
}
