/** Groups: who a group message and a group's announcement reach. */
module GatewayGroups {
  import opened Text
  import opened ClientProtocol
  import opened Gateway
  import opened GatewayFrames
  import opened GatewayStores
  import opened GatewayInvariant
  import opened GatewayRoster
  import opened GatewayReplication
  import opened GatewayTheorems
  import D = Database

  /** The same message written k times. */
  function Copies(x: Session, m: ServerMessage, k: nat): Session
    decreases k
  {
    if k == 0 then x else Copies(Write(x, m), m, k - 1)
  }

  /** How many of these ids the roster leads to one session. */
  function Entries(g: Gateway, ids: seq<Id>, t: Sock): nat
    decreases |ids|
  {
    if ids == [] then 0 else (if ids[0] in g.byId && g.byId[ids[0]] == t then 1 else 0) + Entries(g, ids[1..], t)
  }

  /** Whatever the roster looks like, a fan-out over ids writes to each session once per id that leads to it. */
  lemma {:induction false} FanOut(g: Gateway, ids: seq<Id>, m: ServerMessage, t: Sock)
    requires t in g.sessions
    ensures t in SendMany(g, SocksOf(g, ids), m).sessions
    ensures SendMany(g, SocksOf(g, ids), m).sessions[t] == Copies(g.sessions[t], m, Entries(g, ids, t))
    decreases |ids|
  {
    if ids != [] {
      var rest := SocksOf(g, ids[1..]);
      if ids[0] in g.byId {
        var first := g.byId[ids[0]];
        var next := SendTo(g, first, m);
        assert ([first] + rest)[1..] == rest;
        SameSocks(g, next, ids[1..]);
        SameEntries(g, next, ids[1..], t);
        FanOut(next, ids[1..], m, t);
      } else {
        FanOut(g, ids[1..], m, t);
      }
    }
  }

  lemma {:induction false} SameEntries(g: Gateway, g': Gateway, ids: seq<Id>, t: Sock)
    requires g.byId == g'.byId
    ensures Entries(g, ids, t) == Entries(g', ids, t)
    decreases |ids|
  {
    if ids != [] { SameEntries(g, g', ids[1..], t); }
  }

  lemma {:induction false} MemberListNoDup(members: seq<D.MemberRow>, conversation: string)
    requires NoDuplicates(members)
    ensures NoDuplicates(D.MemberList(members, conversation))
  {
    if members != [] {
      MemberListNoDup(members[1..], conversation);
      var rest := D.MemberList(members[1..], conversation);
      NoDupTail(members);
      if members[0].conversation == conversation {
        assert members[0] == D.MemberRow(conversation, members[0].user);
        assert members[0].user !in rest;
      }
    }
  }

  /** The session of one of these ids. */
  predicate LiveMember(x: Session, ids: seq<Id>) { x.authenticated && !x.closed && x.id in ids }

  lemma {:induction false} OneEntry(g: Gateway, ids: seq<Id>, t: Sock)
    requires Shape(g) && NoDuplicates(ids) && t in g.sessions
    ensures Entries(g, ids, t) == if g.sessions[t].id in ids && InRoster(g, t) then 1 else 0
    decreases |ids|
  {
    if ids != [] {
      NoDupTail(ids);
      assert ids == [ids[0]] + ids[1..];
      assert ids[0] in g.byId ==> EntryOk(g, ids[0]);
      OneEntry(g, ids[1..], t);
    }
  }

  /** In an orderly run that is once for each live session of these ids, and never for another. */
  lemma OneCopy(g: Gateway, ids: seq<Id>, m: ServerMessage, t: Sock)
    requires Shape(g) && NoDuplicates(ids) && t in g.sessions
    ensures Copies(g.sessions[t], m, Entries(g, ids, t))
         == if LiveMember(g.sessions[t], ids) then Write(g.sessions[t], m) else g.sessions[t]
  {
    var x := g.sessions[t];
    OneEntry(g, ids, t);
    assert SessionOk(g, t, x);
    assert InRoster(g, t) ==> EntryOk(g, x.id);
    assert Copies(x, m, 1) == Write(x, m) by { assert Copies(Write(x, m), m, 0) == Write(x, m); }
  }

  lemma EachOnce(g: Gateway, named: seq<Id>, m: ServerMessage, t: Sock)
    requires Shape(g) && t in g.sessions
    ensures Copies(g.sessions[t], m, Entries(g, Distinct(named), t))
         == if LiveMember(g.sessions[t], named) then Write(g.sessions[t], m) else g.sessions[t]
  {
    OneCopy(g, Distinct(named), m, t);
  }

  /** Over every run a member's message to a group is stored and reaches each session once for each member id that leads
      to it; in an orderly run, that is each live session of a stored member once, and no other session. From anyone else
      it is refused and nothing is stored. */
  lemma GroupDelivery(gs: seq<Gateway>, es: seq<Event>, n: nat, s: Sock, group: string, text: string, t: Sock)
    requires Run(gs, es) && n < |gs| && s in gs[n].sessions && t in gs[n].sessions
    ensures var g, x, y := gs[n], gs[n].sessions[s], gs[n].sessions[t];
            var g', m := SendGroup(g, s, group, text), Outgoing(g, x, group, text);
            var members := D.MemberList(g.db.members, group);
            && t in g'.sessions
            && if MayPost(g, x.id, group) then
                 && g'.db.messages == g.db.messages + [m]
                 && g'.sessions[t] == Copies(y, NewMessage(m), Entries(g, members, t))
                 && (OrderlyRun(gs, es) ==>
                       g'.sessions[t] == if Holds(y, y.id) && D.IsMember(g.db, group, y.id) then Write(y, NewMessage(m)) else y)
               else
                 && g'.db == g.db
                 && (t != s ==> g'.sessions[t] == y)
  {
    var g, x := gs[n], gs[n].sessions[s];
    if MayPost(g, x.id, group) {
      var m := Outgoing(g, x, group, text);
      var ids := D.MemberList(g.db.members, group);
      var stored := Store(g, m);
      SameSocks(g, stored, ids);
      SameEntries(g, stored, ids, t);
      FanOut(stored, ids, NewMessage(m), t);
      SendManyKeepsStores(stored, SocksOf(g, ids), NewMessage(m));
      RunsKeepInvariant(gs, es, n);
      MemberListNoDup(g.db.members, group);
      if OrderlyRun(gs, es) {
        OrderlyRunsKeepInvariant(gs, es, n, map[]);
        OneCopy(g, ids, NewMessage(m), t);
      }
    }
  }

  lemma {:induction false} NotWelcomedAre(g: Gateway, ids: seq<Id>, id: Id)
    ensures id in NotWelcomed(g, ids) <==> id in ids && !Welcomed(g, id)
    decreases |ids|
  {
    if ids != [] {
      assert ids == [ids[0]] + ids[1..];
      NotWelcomedAre(g, ids[1..], id);
    }
  }

  /** Over every run a group is made of its creator and the named users exactly when all of them are welcomed, and each
      session hears of it once for each of their ids that leads to it; in an orderly run each of their live sessions
      hears of it once, and no other session does. */
  lemma GroupCreation(gs: seq<Gateway>, es: seq<Event>, n: nat, s: Sock, name: string, memberIds: seq<Id>, t: Sock, u: Id)
    requires Run(gs, es) && n < |gs| && s in gs[n].sessions && t in gs[n].sessions
    ensures var g, y := gs[n], gs[n].sessions[t];
            var ids := [gs[n].sessions[s].id] + memberIds;
            var g' := HandleCreateGroup(g, s, name, memberIds);
            var group := D.GroupId(Decimal(g.supply));
            var news := ConversationCreated(ConversationSummary(group, GroupKind, name, Distinct(ids)));
            && t in g'.sessions && group !in g.db.conversations
            && (group in g'.db.conversations <==> forall id :: id in ids ==> Welcomed(g, id))
            && if group in g'.db.conversations then
                 && (D.IsMember(g'.db, group, u) <==> u in ids)
                 && g'.sessions[t] == Copies(y, news, Entries(g, Distinct(ids), t))
                 && (OrderlyRun(gs, es) ==> g'.sessions[t] == if LiveMember(y, ids) then Write(y, news) else y)
               else g'.db == g.db && (t != s ==> g'.sessions[t] == y)
  {
    var g := gs[n];
    RunsKeepInvariant(gs, es, n);
    FreshGroup(g.db, g.supply);
    var named := [g.sessions[s].id] + memberIds;
    var ids := Distinct(named);
    AllWelcomed(g, named);
    if NotWelcomed(g, ids) == [] {
      GroupMade(g, name, ids, t);
      GroupStored(g, name, ids, u);
      if OrderlyRun(gs, es) {
        OrderlyRunsKeepInvariant(gs, es, n, map[]);
        EachOnce(g, named, ConversationCreated(ConversationSummary(D.GroupId(Decimal(g.supply)), GroupKind, name, ids)), t);
      }
    }
  }

  lemma AllWelcomed(g: Gateway, named: seq<Id>)
    ensures NotWelcomed(g, Distinct(named)) == [] <==> forall id :: id in named ==> Welcomed(g, id)
  {
    var unknown := NotWelcomed(g, Distinct(named));
    forall id ensures id in unknown <==> id in named && !Welcomed(g, id) { NotWelcomedAre(g, Distinct(named), id); }
    if unknown != [] { assert unknown[0] in unknown; }
  }

  lemma GroupStored(g: Gateway, name: string, ids: seq<Id>, u: Id)
    requires StoreReady(g)
    ensures var db := D.InsertGroup(g.db, Decimal(g.supply), name, ids);
            var group := D.GroupId(Decimal(g.supply));
            && MakeGroup(g, name, ids).db == db && group in db.conversations && (D.IsMember(db, group, u) <==> u in ids)
  {
    InsertGroupStep(g, name, ids);
    GroupStore(g, name, ids);
  }

  lemma GroupMade(g: Gateway, name: string, ids: seq<Id>, t: Sock)
    requires t in g.sessions
    ensures var g' := MakeGroup(g, name, ids);
            var news := ConversationCreated(ConversationSummary(D.GroupId(Decimal(g.supply)), GroupKind, name, ids));
            t in g'.sessions && g'.sessions[t] == Copies(g.sessions[t], news, Entries(g, ids, t))
  {
    var uuid := Decimal(g.supply);
    var g1 := g.(db := D.InsertGroup(g.db, uuid, name, ids), supply := g.supply + 1);
    SameSocks(g, g1, ids);
    SameEntries(g, g1, ids, t);
    FanOut(g1, ids, ConversationCreated(ConversationSummary(D.GroupId(uuid), GroupKind, name, ids)), t);
  }
}
