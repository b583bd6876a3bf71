/** The gateway's durable relations: conversations, their members, and messages. */
module Database {
  import opened Text
  import opened ClientProtocol

  type Id = string

  datatype ConversationRow = ConversationRow(kind: ConversationKind, title: string)

  datatype MemberRow = MemberRow(conversation: string, user: Id)

  /** The tables, rows in insertion order. `clock` is the latest time handed out. */
  datatype Tables = Tables(
    users: map<Id, string>,
    conversations: map<string, ConversationRow>,
    members: seq<MemberRow>,
    messages: seq<MessageSummary>,
    clock: nat)

  function EmptyTables(): Tables {
    Tables(map[], map[PUBLIC_CONVERSATION_ID := ConversationRow(PublicKind, "Public Chat")], [], [], 0)
  }

  // Accounts.

  /** The row of a new account; a login, or a username that is taken, inserts nothing. */
  function Register(users: map<Id, string>, id: Id, username: string): (r: map<Id, string>)
    ensures NamesUnique(users) ==> NamesUnique(r)
  {
    if id in users || username in users.Values then users else users[id := username]
  }

  /** UserStore.rename: refused for an invalid name or one that another account has. */
  function Rename(users: map<Id, string>, id: Id, name: string): map<Id, string> {
    if ValidNickname(name) && id in users && (forall other :: other in users && users[other] == name ==> other == id)
    then users[id := name] else users
  }

  predicate NamesUnique(users: map<Id, string>) {
    forall a, b :: a in users && b in users && users[a] == users[b] ==> a == b
  }

  /** A rename touches no other account and never gives two accounts one name; it takes effect exactly when the name
      is valid and nobody else's. */
  lemma RenameKeepsNamesUnique(users: map<Id, string>, id: Id, name: string)
    requires NamesUnique(users) && id in users
    ensures var renamed := Rename(users, id, name);
            && NamesUnique(renamed) && renamed.Keys == users.Keys
            && (forall other :: other in users && other != id ==> renamed[other] == users[other])
            && (renamed[id] == name <==> users[id] == name || (ValidNickname(name) && name !in users.Values))
  {
    if name in users.Values {
      var other :| other in users && users[other] == name;
    }
  }

  // Direct conversation ids.

  function DirectConversationId(a: Id, b: Id): string {
    "direct:" + if StringLe(a, b) then a + ":" + b else b + ":" + a
  }

  lemma DirectIdSymmetric(a: Id, b: Id)
    ensures DirectConversationId(a, b) == DirectConversationId(b, a)
  {
    StringLeTotal(a, b);
  }

  lemma ColonSplit(a: Id, b: Id, c: Id, d: Id)
    requires ColonFree(a) && ColonFree(c) && a + ":" + b == c + ":" + d
    ensures a == c && b == d
  {
    IndexOfAppend(a, ':', b);
    IndexOfAppend(c, ':', d);
    var s := a + ":" + b;
    assert s[..|a|] == a && s[|a| + 1..] == b && s[..|c|] == c && s[|c| + 1..] == d;
  }

  /** On colon-free ids the conversation id names the unordered pair and nothing else. */
  lemma DirectIdNamesThePair(a: Id, b: Id, c: Id, d: Id)
    requires ColonFree(a) && ColonFree(b) && ColonFree(c) && ColonFree(d)
    ensures DirectConversationId(a, b) == DirectConversationId(c, d) <==> {a, b} == {c, d}
  {
    var (a', b') := if StringLe(a, b) then (a, b) else (b, a);
    var (c', d') := if StringLe(c, d) then (c, d) else (d, c);
    if DirectConversationId(a, b) == DirectConversationId(c, d) {
      assert DirectConversationId(a, b)[7..] == a' + ":" + b';
      assert DirectConversationId(c, d)[7..] == c' + ":" + d';
      ColonSplit(a', b', c', d');
      assert {a, b} == {a', b'} && {c, d} == {c', d'};
    }
    if {a, b} == {c, d} {
      assert (a == c && b == d) || (a == d && b == c) by {
        assert a in {c, d} && b in {c, d} && c in {a, b} && d in {a, b};
      }
      DirectIdSymmetric(a, b);
    }
  }

  /** With a colon in an id, two different pairs can share one conversation. */
  lemma DirectIdCollision()
    ensures DirectConversationId("a:b", "c") == DirectConversationId("a", "b:c")
    ensures {"a:b", "c"} != {"a", "b:c"}
  {
    assert "a:b" + ":" + "c" == "a" + ":" + "b:c";
    assert StringLe("a:b", "c") && StringLe("a", "b:c");
    assert |"c"| == 1 && |"b:c"| == 3 && |"a:b"| == 3;
    assert "c"[0] != "a"[0];
    assert "a:b"[0] != "b:c"[0];
    assert "c" !in {"a", "b:c"};
  }

  // Rows.

  function AddMember(members: seq<MemberRow>, row: MemberRow): (more: seq<MemberRow>)
    ensures forall r :: r in more <==> r in members || r == row
  {
    if row in members then members else members + [row]
  }

  /** The user ids of one conversation's member rows, in order. */
  function MemberList(members: seq<MemberRow>, conversation: string): (ids: seq<Id>)
    ensures forall u :: u in ids <==> MemberRow(conversation, u) in members
  {
    if members == [] then []
    else
      var rest := MemberList(members[1..], conversation);
      assert members == [members[0]] + members[1..];
      if members[0].conversation == conversation then [members[0].user] + rest else rest
  }

  predicate IsMember(t: Tables, conversation: string, user: Id) {
    MemberRow(conversation, user) in t.members
  }

  ghost function Members(t: Tables, conversation: string): set<Id> {
    set r | r in t.members && r.conversation == conversation :: r.user
  }

  lemma MembersAreRows(t: Tables, conversation: string, user: Id)
    ensures user in Members(t, conversation) <==> IsMember(t, conversation, user)
  {
    if IsMember(t, conversation, user) {
      assert MemberRow(conversation, user) in t.members;
    }
  }

  predicate HasDirect(t: Tables, id: string) {
    id in t.conversations && t.conversations[id].kind == DirectKind
  }

  /** ensureDirect: inserts the conversation and both member rows unless it is there. */
  function EnsureDirect(t: Tables, a: Id, b: Id): Tables {
    var id := DirectConversationId(a, b);
    if HasDirect(t, id) then t
    else
      t.(conversations := if id in t.conversations then t.conversations else t.conversations[id := ConversationRow(DirectKind, "")],
         members := AddMember(AddMember(t.members, MemberRow(id, a)), MemberRow(id, b)))
  }

  function DirectSummary(a: Id, b: Id): ConversationSummary {
    ConversationSummary(DirectConversationId(a, b), DirectKind, "", [a, b])
  }

  function GroupId(uuid: string): string { "group:" + uuid }

  function AddMembers(members: seq<MemberRow>, conversation: string, ids: seq<Id>): (more: seq<MemberRow>)
    ensures forall r :: r in more <==> r in members || (r.conversation == conversation && r.user in ids)
    decreases |ids|
  {
    if ids == [] then members
    else
      var fewer := AddMembers(members, conversation, ids[..|ids| - 1]);
      assert ids == ids[..|ids| - 1] + [ids[|ids| - 1]];
      AddMember(fewer, MemberRow(conversation, ids[|ids| - 1]))
  }

  function InsertGroup(t: Tables, uuid: string, name: string, ids: seq<Id>): Tables {
    t.(conversations := t.conversations[GroupId(uuid) := ConversationRow(GroupKind, name)],
       members := AddMembers(t.members, GroupId(uuid), ids))
  }

  /** append: one row, stamped with a time not before the last. */
  function Append(t: Tables, m: MessageSummary): Tables {
    t.(messages := t.messages + [m], clock := m.timestamp)
  }

  // Queries.

  predicate Visible(t: Tables, conversation: string, user: Id) {
    conversation == PUBLIC_CONVERSATION_ID || IsMember(t, conversation, user)
  }

  function Filter(t: Tables, messages: seq<MessageSummary>, user: Id): (ms: seq<MessageSummary>)
    ensures forall m :: m in ms <==> m in messages && Visible(t, m.conversationId, user)
  {
    if messages == [] then []
    else
      var rest := Filter(t, messages[1..], user);
      assert messages == [messages[0]] + messages[1..];
      if Visible(t, messages[0].conversationId, user) then [messages[0]] + rest else rest
  }

  /** ORDER BY created_at ASC, rows of equal time in insertion order. */
  function InsertByTime(sorted: seq<MessageSummary>, m: MessageSummary): seq<MessageSummary> {
    if sorted == [] || sorted[|sorted| - 1].timestamp <= m.timestamp then sorted + [m]
    else InsertByTime(sorted[..|sorted| - 1], m) + [sorted[|sorted| - 1]]
  }

  function SortByTime(ms: seq<MessageSummary>): seq<MessageSummary> {
    if ms == [] then [] else InsertByTime(SortByTime(ms[..|ms| - 1]), ms[|ms| - 1])
  }

  function HistoryForUser(t: Tables, user: Id): seq<MessageSummary> {
    SortByTime(Filter(t, t.messages, user))
  }

  /** A direct conversation is titled with the other member's stored username, when there is one. */
  function Title(t: Tables, row: ConversationRow, ids: seq<Id>, user: Id): string {
    if row.kind != DirectKind then row.title
    else
      match FirstOther(ids, user)
      case Some(other) => if other != "" && other in t.users && t.users[other] != "" then t.users[other] else row.title
      case None => row.title
  }

  function Summarize(t: Tables, id: string, user: Id): ConversationSummary
    requires id in t.conversations
  {
    var ids := MemberList(t.members, id);
    ConversationSummary(id, t.conversations[id].kind, Title(t, t.conversations[id], ids, user), ids)
  }

  /** The join of member rows and conversations. */
  function Listed(t: Tables, rows: seq<MemberRow>, user: Id): seq<ConversationSummary> {
    if rows == [] then []
    else
      var rest := Listed(t, rows[1..], user);
      var id := rows[0].conversation;
      if rows[0].user == user && id in t.conversations && t.conversations[id].kind != PublicKind
      then [Summarize(t, id, user)] + rest else rest
  }

  function ConversationsFor(t: Tables, user: Id): seq<ConversationSummary> {
    Listed(t, t.members, user)
  }

  // What every reachable database satisfies.

  predicate Prefixed(prefix: string, s: string) { prefix <= s }

  /** A direct conversation's stored members are the pair its id names. */
  ghost predicate DirectOk(t: Tables, id: string) {
    exists a, b :: ColonFree(a) && ColonFree(b) && id == DirectConversationId(a, b) && Members(t, id) == {a, b}
  }

  ghost predicate MessageOk(t: Tables, m: MessageSummary) {
    m.conversationId == PUBLIC_CONVERSATION_ID
    || (m.conversationId in t.conversations && m.senderId.Some? && IsMember(t, m.conversationId, m.senderId.value))
  }

  predicate TimesRise(ms: seq<MessageSummary>) {
    forall i, j :: 0 <= i < j < |ms| ==> ms[i].timestamp <= ms[j].timestamp
  }

  ghost predicate RowsOk(t: Tables) {
    && (forall r :: r in t.members ==> r.conversation in t.conversations && t.conversations[r.conversation].kind != PublicKind)
    && NoDuplicates(t.members) // the primary key of conversation_members
  }

  ghost predicate ConversationsOk(t: Tables) {
    && (forall id :: id in t.conversations ==>
          match t.conversations[id].kind
          case PublicKind => id == PUBLIC_CONVERSATION_ID
          case DirectKind => DirectOk(t, id)
          case GroupKind => Prefixed("group:", id))
    && PUBLIC_CONVERSATION_ID in t.conversations && t.conversations[PUBLIC_CONVERSATION_ID].kind == PublicKind
  }

  ghost predicate MessagesOk(t: Tables) {
    && (forall m :: m in t.messages ==> MessageOk(t, m) && m.timestamp <= t.clock)
    && TimesRise(t.messages)
  }

  ghost predicate TablesOk(t: Tables) {
    RowsOk(t) && ConversationsOk(t) && MessagesOk(t)
  }

  /** Later states of one database: nothing disappears, and the membership of what exists is frozen. */
  ghost predicate Evolves(t: Tables, t': Tables) {
    && t.conversations.Keys <= t'.conversations.Keys
    && (forall id :: id in t.conversations ==> t'.conversations[id] == t.conversations[id])
    && (forall id, u :: id in t.conversations ==> (IsMember(t', id, u) <==> IsMember(t, id, u)))
    && t.messages <= t'.messages
    && t.clock <= t'.clock
  }

  lemma EvolvesTransitive(a: Tables, b: Tables, c: Tables)
    requires Evolves(a, b) && Evolves(b, c)
    ensures Evolves(a, c)
  {
  }

  lemma EmptyTablesOk()
    ensures TablesOk(EmptyTables())
  {
  }

  lemma MembersFrozen(t: Tables, t': Tables, id: string)
    requires Evolves(t, t') && id in t.conversations
    ensures Members(t', id) == Members(t, id)
  {
    forall u ensures u in Members(t', id) <==> u in Members(t, id) {
      MembersAreRows(t, id, u);
      MembersAreRows(t', id, u);
    }
  }

  lemma KeptConversations(t: Tables, t': Tables, newId: string)
    requires ConversationsOk(t) && Evolves(t, t')
    requires t'.conversations.Keys == t.conversations.Keys + {newId}
    requires newId in t.conversations || (t'.conversations[newId].kind == DirectKind && DirectOk(t', newId))
               || (t'.conversations[newId].kind == GroupKind && Prefixed("group:", newId))
    ensures ConversationsOk(t')
  {
    forall id | id in t'.conversations && t'.conversations[id].kind == DirectKind ensures DirectOk(t', id) {
      if id in t.conversations {
        assert DirectOk(t, id);
        MembersFrozen(t, t', id);
      }
    }
  }

  lemma KeptMessages(t: Tables, t': Tables)
    requires MessagesOk(t) && Evolves(t, t') && t'.messages == t.messages
    ensures MessagesOk(t')
  {
  }

  /** No other kind of conversation can have a direct conversation's id. */
  lemma DirectIdIsDirect(t: Tables, a: Id, b: Id)
    requires ConversationsOk(t) && DirectConversationId(a, b) in t.conversations
    ensures HasDirect(t, DirectConversationId(a, b))
  {
    var id := DirectConversationId(a, b);
    assert id[0] == 'd';
    assert PUBLIC_CONVERSATION_ID[0] == 'p' && "group:"[0] == 'g';
    assert !Prefixed("group:", id) by { assert id[0] != "group:"[0]; }
  }

  /** ensureDirect keeps the database well formed, freezes what was there, and afterwards the conversation's
      members are exactly the pair, whether it was created now or long ago, by either side. */
  lemma EnsureDirectOk(t: Tables, a: Id, b: Id)
    requires TablesOk(t) && ColonFree(a) && ColonFree(b)
    ensures var t' := EnsureDirect(t, a, b);
            && TablesOk(t') && Evolves(t, t')
            && HasDirect(t', DirectConversationId(a, b))
            && Members(t', DirectConversationId(a, b)) == {a, b}
  {
    var id, t' := DirectConversationId(a, b), EnsureDirect(t, a, b);
    if HasDirect(t, id) {
      var c, d :| ColonFree(c) && ColonFree(d) && id == DirectConversationId(c, d) && Members(t, id) == {c, d};
      DirectIdNamesThePair(a, b, c, d);
    } else {
      if id in t.conversations { DirectIdIsDirect(t, a, b); }
      InsertDirect(t, a, b);
    }
  }

  lemma InsertDirect(t: Tables, a: Id, b: Id)
    requires TablesOk(t) && ColonFree(a) && ColonFree(b) && DirectConversationId(a, b) !in t.conversations
    ensures var t' := EnsureDirect(t, a, b);
            && TablesOk(t') && Evolves(t, t')
            && HasDirect(t', DirectConversationId(a, b)) && Members(t', DirectConversationId(a, b)) == {a, b}
  {
    var id, t' := DirectConversationId(a, b), EnsureDirect(t, a, b);
    assert forall u :: IsMember(t', id, u) <==> u == a || u == b;
    forall u ensures u in Members(t', id) <==> u in {a, b} {
      MembersAreRows(t', id, u);
    }
    assert Evolves(t, t');
    assert DirectOk(t', id);
    KeptConversations(t, t', id);
    KeptMessages(t, t');
  }

  lemma InsertGroupOk(t: Tables, uuid: string, name: string, ids: seq<Id>)
    requires TablesOk(t) && GroupId(uuid) !in t.conversations
    ensures var t' := InsertGroup(t, uuid, name, ids);
            && TablesOk(t') && Evolves(t, t')
            && forall u :: IsMember(t', GroupId(uuid), u) <==> u in ids
  {
    var id, t' := GroupId(uuid), InsertGroup(t, uuid, name, ids);
    AddMembersUnique(t.members, id, ids);
    assert Evolves(t, t');
    assert Prefixed("group:", id);
    KeptConversations(t, t', id);
    KeptMessages(t, t');
  }

  lemma AddMemberUnique(members: seq<MemberRow>, row: MemberRow)
    requires NoDuplicates(members)
    ensures NoDuplicates(AddMember(members, row))
  {
  }

  lemma {:induction false} AddMembersUnique(members: seq<MemberRow>, conversation: string, ids: seq<Id>)
    requires NoDuplicates(members)
    ensures NoDuplicates(AddMembers(members, conversation, ids))
    decreases |ids|
  {
    if ids != [] {
      var front := ids[..|ids| - 1];
      AddMembersUnique(members, conversation, front);
      AddMemberUnique(AddMembers(members, conversation, front), MemberRow(conversation, ids[|ids| - 1]));
    }
  }

  lemma AppendOk(t: Tables, m: MessageSummary)
    requires TablesOk(t) && MessageOk(t, m) && t.clock <= m.timestamp
    ensures TablesOk(Append(t, m)) && Evolves(t, Append(t, m))
  {
    var t' := Append(t, m);
    assert Evolves(t, t');
    KeptConversations(t, t', PUBLIC_CONVERSATION_ID);
    forall x | x in t'.messages ensures MessageOk(t', x) && x.timestamp <= t'.clock {
      assert x in t.messages || x == m;
    }
  }

  // What a login restores.

  lemma InsertLast(sorted: seq<MessageSummary>, m: MessageSummary)
    requires sorted == [] || sorted[|sorted| - 1].timestamp <= m.timestamp
    ensures InsertByTime(sorted, m) == sorted + [m]
  {
  }

  lemma {:induction false} SortIsIdentity(ms: seq<MessageSummary>)
    requires TimesRise(ms)
    ensures SortByTime(ms) == ms
  {
    if ms != [] {
      var front, last := ms[..|ms| - 1], ms[|ms| - 1];
      SortIsIdentity(front);
      InsertLast(front, last);
      assert ms == front + [last];
    }
  }

  lemma {:induction false} FilterRises(t: Tables, ms: seq<MessageSummary>, user: Id)
    requires TimesRise(ms)
    ensures TimesRise(Filter(t, ms, user))
  {
    if ms != [] {
      FilterRises(t, ms[1..], user);
      forall m | m in Filter(t, ms[1..], user) ensures ms[0].timestamp <= m.timestamp {
        assert m in ms[1..];
      }
    }
  }

  /** In a reachable database the history is the visible messages in the order they were stored. */
  lemma HistoryIsFilter(t: Tables, user: Id)
    requires TablesOk(t)
    ensures HistoryForUser(t, user) == Filter(t, t.messages, user)
  {
    FilterRises(t, t.messages, user);
    SortIsIdentity(Filter(t, t.messages, user));
  }

  lemma {:induction false} ListedCovers(t: Tables, rows: seq<MemberRow>, user: Id, id: string)
    requires id in t.conversations && t.conversations[id].kind != PublicKind && MemberRow(id, user) in rows
    ensures Summarize(t, id, user) in Listed(t, rows, user)
  {
    assert rows == [rows[0]] + rows[1..];
    if rows[0] != MemberRow(id, user) { ListedCovers(t, rows[1..], user, id); }
  }

  /** A login restores nothing it cannot place: each message of the history is public or in a listed conversation. */
  lemma HistoryIsListed(t: Tables, user: Id, m: MessageSummary)
    requires TablesOk(t) && m in HistoryForUser(t, user)
    ensures m.conversationId == PUBLIC_CONVERSATION_ID
         || exists c :: c in ConversationsFor(t, user) && c.id == m.conversationId
  {
    HistoryIsFilter(t, user);
    if m.conversationId != PUBLIC_CONVERSATION_ID {
      ListedCovers(t, t.members, user, m.conversationId);
      assert Summarize(t, m.conversationId, user) in ConversationsFor(t, user);
    }
  }

  lemma {:induction false} FilterFrozen(t: Tables, t': Tables, ms: seq<MessageSummary>, user: Id)
    requires Evolves(t, t')
    requires forall m :: m in ms ==> m.conversationId == PUBLIC_CONVERSATION_ID || m.conversationId in t.conversations
    ensures Filter(t', ms, user) == Filter(t, ms, user)
  {
    if ms != [] { FilterFrozen(t, t', ms[1..], user); }
  }

  lemma {:induction false} FilterAppend(t: Tables, a: seq<MessageSummary>, b: seq<MessageSummary>, user: Id)
    ensures Filter(t, a + b, user) == Filter(t, a, user) + Filter(t, b, user)
  {
    if a == [] {
      assert a + b == b;
    } else {
      assert (a + b)[1..] == a[1..] + b;
      FilterAppend(t, a[1..], b, user);
    }
  }

  /** Histories never lose a message: a later history of the same user continues the earlier one. */
  lemma HistoriesOnlyGrow(t: Tables, t': Tables, user: Id)
    requires TablesOk(t) && TablesOk(t') && Evolves(t, t')
    ensures HistoryForUser(t, user) <= HistoryForUser(t', user)
  {
    HistoryIsFilter(t, user);
    HistoryIsFilter(t', user);
    assert forall m :: m in t.messages ==> MessageOk(t, m);
    FilterGrows(t, t', user);
  }

  lemma FilterGrows(t: Tables, t': Tables, user: Id)
    requires Evolves(t, t')
    requires forall m :: m in t.messages ==> m.conversationId == PUBLIC_CONVERSATION_ID || m.conversationId in t.conversations
    ensures Filter(t, t.messages, user) <= Filter(t', t'.messages, user)
  {
    var news := t'.messages[|t.messages|..];
    assert t'.messages == t.messages + news;
    FilterAppend(t', t.messages, news, user);
    FilterFrozen(t, t', t.messages, user);
  }

  /** Who can see a stored message is settled when it is stored, and its sender is among them. */
  lemma VisibilityIsFrozen(t: Tables, t': Tables, m: MessageSummary, user: Id)
    requires TablesOk(t) && Evolves(t, t') && m in t.messages
    ensures Visible(t', m.conversationId, user) <==> Visible(t, m.conversationId, user)
    ensures m.conversationId != PUBLIC_CONVERSATION_ID ==> m.senderId.Some? && Visible(t, m.conversationId, m.senderId.value)
  {
  }
}
