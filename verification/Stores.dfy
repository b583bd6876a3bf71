/** ConversationManager and MessageStore: two objects that share one database handle. */
module Stores {
  import opened Text
  import opened ClientProtocol
  import D = Database

  class Db {
    var users: map<D.Id, string>
    var conversations: map<string, D.ConversationRow>
    var members: seq<D.MemberRow>
    var messages: seq<MessageSummary>
    var clock: nat

    function State(): D.Tables
      reads this
    {
      D.Tables(users, conversations, members, messages, clock)
    }

    /** openDatabase on an empty file. */
    constructor ()
      ensures State() == D.EmptyTables() && D.TablesOk(State())
    {
      users := map[];
      conversations := map[PUBLIC_CONVERSATION_ID := D.ConversationRow(PublicKind, "Public Chat")];
      members, messages, clock := [], [], 0;
      new;
      D.EmptyTablesOk();
    }
  }

  class UserStore {
    const db: Db

    constructor (db: Db)
      ensures this.db == db
    {
      this.db := db;
    }

    method Register(id: D.Id, username: string)
      modifies db`users
      ensures db.users == D.Register(old(db.users), id, username)
    {
      var taken := FindByUsername(username);
      if id !in db.users && taken.None? { db.users := db.users[id := username]; }
    }

    method FindByUsername(username: string) returns (id: Option<D.Id>)
      ensures id.Some? ==> id.value in db.users && db.users[id.value] == username
      ensures id.None? <==> username !in db.users.Values
    {
      id := None;
      var rows := db.users.Keys;
      while rows != {}
        invariant rows <= db.users.Keys
        invariant id.None? ==> forall k :: k in db.users && db.users[k] == username ==> k in rows
        invariant id.Some? ==> id.value in db.users && db.users[id.value] == username
        decreases |rows|
      {
        var k :| k in rows;
        if db.users[k] == username { id := Some(k); }
        rows := rows - {k};
      }
    }

    /** Refused for an invalid name or one that another account has. */
    method Rename(id: D.Id, name: string)
      requires D.NamesUnique(db.users)
      modifies db`users
      ensures db.users == D.Rename(old(db.users), id, name) && D.NamesUnique(db.users)
    {
      if !ValidNickname(name) { return; }
      var existing := FindByUsername(name);
      if existing.Some? && existing.value != id { return; }
      if id in db.users { db.users := db.users[id := name]; }
    }
  }

  datatype GroupConversation = GroupConversation(id: string, name: string, memberIds: seq<D.Id>)

  class ConversationManager {
    const db: Db

    constructor (db: Db)
      ensures this.db == db
    {
      this.db := db;
    }

    method AddMember(conversationId: string, userId: D.Id)
      modifies db
      ensures db.State() == old(db.State()).(members := D.AddMember(old(db.members), D.MemberRow(conversationId, userId)))
    {
      if D.MemberRow(conversationId, userId) !in db.members {
        db.members := db.members + [D.MemberRow(conversationId, userId)];
      }
    }

    function HasDirect(id: string): (has: bool)
      reads this, db
      ensures has <==> D.HasDirect(db.State(), id)
    {
      id in db.conversations && db.conversations[id].kind == DirectKind
    }

    /** Idempotent, and symmetric in its two users but for the order in the returned summary. */
    method EnsureDirect(a: D.Id, b: D.Id) returns (summary: ConversationSummary)
      modifies db
      ensures db.State() == D.EnsureDirect(old(db.State()), a, b) && summary == D.DirectSummary(a, b)
      ensures old(D.TablesOk(db.State())) && ColonFree(a) && ColonFree(b) ==>
                && D.TablesOk(db.State()) && D.Evolves(old(db.State()), db.State())
                && D.HasDirect(db.State(), summary.id) && D.Members(db.State(), summary.id) == {a, b}
    {
      if D.TablesOk(db.State()) && ColonFree(a) && ColonFree(b) { D.EnsureDirectOk(db.State(), a, b); }
      var id := D.DirectConversationId(a, b);
      if !D.HasDirect(db.State(), id) {
        if id !in db.conversations {
          db.conversations := db.conversations[id := D.ConversationRow(DirectKind, "")];
        }
        AddMember(id, a);
        AddMember(id, b);
      }
      summary := ConversationSummary(id, DirectKind, "", [a, b]);
    }

    /** `uuid` is the fresh random part of the new group's id. */
    method CreateGroup(uuid: string, name: string, memberIds: seq<D.Id>) returns (summary: ConversationSummary)
      modifies db
      ensures db.State() == D.InsertGroup(old(db.State()), uuid, name, memberIds)
      ensures summary == ConversationSummary(D.GroupId(uuid), GroupKind, name, memberIds)
      ensures old(D.TablesOk(db.State())) && D.GroupId(uuid) !in old(db.conversations) ==>
                && D.TablesOk(db.State()) && D.Evolves(old(db.State()), db.State())
                && forall u :: D.IsMember(db.State(), summary.id, u) <==> u in memberIds
    {
      if D.TablesOk(db.State()) && D.GroupId(uuid) !in db.conversations { D.InsertGroupOk(db.State(), uuid, name, memberIds); }
      var id := D.GroupId(uuid);
      db.conversations := db.conversations[id := D.ConversationRow(GroupKind, name)];
      label inserted:
      for i := 0 to |memberIds|
        invariant db.State() == old@inserted(db.State()).(members := D.AddMembers(old(db.members), id, memberIds[..i]))
      {
        assert memberIds[..i + 1][..i] == memberIds[..i];
        AddMember(id, memberIds[i]);
      }
      assert memberIds[..|memberIds|] == memberIds;
      summary := ConversationSummary(id, GroupKind, name, memberIds);
    }

    method GetGroup(id: string) returns (group: Option<GroupConversation>)
      ensures group.Some? <==> id in db.conversations && db.conversations[id].kind == GroupKind
      ensures group.Some? ==> group.value.id == id && group.value.name == db.conversations[id].title
      ensures group.Some? ==> group.value.memberIds == D.MemberList(db.members, id)
      ensures group.Some? ==> forall u :: u in group.value.memberIds <==> D.IsMember(db.State(), id, u)
    {
      if id !in db.conversations || db.conversations[id].kind != GroupKind { return None; }
      var ids := D.MemberList(db.members, id);
      group := Some(GroupConversation(id, db.conversations[id].title, ids));
    }

    method ConversationsFor(userId: D.Id) returns (summaries: seq<ConversationSummary>)
      ensures summaries == D.ConversationsFor(db.State(), userId)
    {
      summaries := [];
      var rows := db.members;
      while rows != []
        invariant summaries + D.Listed(db.State(), rows, userId) == D.ConversationsFor(db.State(), userId)
      {
        var id := rows[0].conversation;
        if rows[0].user == userId && id in db.conversations && db.conversations[id].kind != PublicKind {
          summaries := summaries + [D.Summarize(db.State(), id, userId)];
        }
        rows := rows[1..];
      }
    }
  }

  class MessageStore {
    const db: Db

    constructor (db: Db)
      ensures this.db == db
    {
      this.db := db;
    }

    method Append(m: MessageSummary) returns (stored: MessageSummary)
      modifies db
      ensures db.State() == D.Append(old(db.State()), m) && stored == m
      ensures old(D.TablesOk(db.State()) && D.MessageOk(db.State(), m) && db.clock <= m.timestamp) ==>
                D.TablesOk(db.State()) && D.Evolves(old(db.State()), db.State())
    {
      if D.TablesOk(db.State()) && D.MessageOk(db.State(), m) && db.clock <= m.timestamp { D.AppendOk(db.State(), m); }
      db.messages := db.messages + [m];
      db.clock := m.timestamp;
      stored := m;
    }

    /** Everything the user may see, oldest first. */
    method HistoryForUser(userId: D.Id) returns (history: seq<MessageSummary>)
      ensures history == D.HistoryForUser(db.State(), userId)
      ensures D.TablesOk(db.State()) ==>
                && history == D.Filter(db.State(), db.messages, userId)
                && forall m :: m in history <==> m in db.messages && D.Visible(db.State(), m.conversationId, userId)
    {
      if D.TablesOk(db.State()) { D.HistoryIsFilter(db.State(), userId); }
      history := D.HistoryForUser(db.State(), userId);
    }
  }
}
