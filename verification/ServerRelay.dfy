/** What the server's handlers make of the gateway's lines, on any table with valid and distinct names. */
module ServerRelay {
  import opened Text
  import opened BackendLines
  import opened ClientTable
  import opened ServerMachine

  /** What a client table satisfies in every reachable state. */
  ghost predicate TableOk(t: Table) { NicknamesDistinct(t) && NicknamesValid(t) }

  /** A chat line leads its handler to one broadcast of exactly what PublicDelivery promises, to everyone but the
      sender; the table is left alone. */
  lemma ChatIsBroadcast(t: Table, c: Conn, text: string, ch: Choice)
    requires TableOk(t) && c in t && text != "" && text[0] != '/' && !EndsInLineBreak(text)
    ensures OnFrame(c, Incoming(FormatChatLine(text))) == Thread([], RelayChat(text))
    ensures var (th, table) := HandlerScope(t, c, RelayChat(text), ch);
            && table == t && |th.outs| == 1 && th.outs[0].Broadcast? && th.outs[0].exclude == Some(c)
            && PublicDelivery(t[c].nickname, text) == Some(ParseBackendLine(th.outs[0].payload))
  {
    ParsedChat(text);
    StripIsIdentity(text);
    assert ParseLine(text) == Chat(text);
  }

  /** A broadcast writes once to each welcomed client but the excluded one, and to nobody else. */
  lemma BroadcastReachesOnce(t: Table, payload: string, exclude: Option<Conn>, order: seq<Conn>, d: Conn)
    requires Enumerates(order, Targets(t, exclude))
    ensures multiset(Writes(order, payload))[Write(d, payload)]
         == if d in t && t[d].welcomed && exclude != Some(d) then 1 else 0
  {
    WritesOnce(order, payload, d);
  }

  lemma {:induction false} WritesOnce(order: seq<Conn>, payload: string, d: Conn)
    requires NoDuplicates(order)
    ensures multiset(Writes(order, payload))[Write(d, payload)] == if d in order then 1 else 0
  {
    if order != [] {
      assert order == [order[0]] + order[1..];
      assert Writes(order, payload) == [Write(order[0], payload)] + Writes(order[1..], payload);
      WritesOnce(order[1..], payload, d);
    }
  }

  /** A private line leads its handler to look for its target with the text it was given. */
  lemma PrivateLineIsRead(c: Conn, target: string, text: string)
    requires ValidNickname(target) && text != "" && !EndsInLineBreak(text)
    ensures OnFrame(c, Incoming(FormatMsgCommand(target, text))) == Thread([], Deliver(target, text))
  {
    ValidNicknameIsSpaceFree(target);
    CommandParses("/msg", target, text);
    StripIsIdentity(text);
    SplitField(target, text);
  }

  /** The handler finds the one welcomed client of that name and sends it, and itself, one relay each; or, exactly when
      there is no such client or it is the sender, one error to the sender. */
  lemma PrivateIsDelivered(t: Table, c: Conn, target: string, text: string, ch: Choice)
    requires TableOk(t) && c in t && ch.Pick? && PickOk(t, c, target, ch.found)
    ensures forall d: Conn :: Matches(t, d, target) <==> ch.found == Some(d)
    ensures var (th, table) := HandlerScope(t, c, Deliver(target, text), ch);
            && table == t
            && if ch.found.Some? && ch.found != Some(c)
               then th.outs == [SendTo(ch.found.value, PrivLine(t[c].nickname, text)), SendTo(c, PrivSentLine(target, text))]
               else |th.outs| == 1 && th.outs[0].SendTo? && th.outs[0].target == c
  {
  }

  /** These two relays are what PrivateDelivery promises to the peer and to the sender. */
  lemma PrivateEvents(sender: string, target: string, text: string)
    requires ValidNickname(sender) && ValidNickname(target) && text != "" && !EndsInLineBreak(text)
    ensures PrivateDelivery(sender, target, text)
         == Some((ParseBackendLine(PrivLine(sender, text)), ParseBackendLine(PrivSentLine(target, text))))
  {
    PrivateFidelity(sender, target, text);
    ValidNicknameIsSpaceFree(sender);
    ValidNicknameIsSpaceFree(target);
    PrivParses(sender, text);
    PrivSentParses(target, text);
  }

  /** A nickname command either renames exactly its sender and broadcasts a NICK line that is read back as the old and
      the new name, or, exactly when another client has the name, changes nothing and answers with one error. */
  lemma RenameIsAnnounced(t: Table, c: Conn, name: string, ch: Choice)
    requires TableOk(t) && c in t && ValidNickname(name)
    ensures OnFrame(c, Incoming(FormatNickCommand(name))) == Thread([], Rename(name))
    ensures var (th, table) := HandlerScope(t, c, Rename(name), ch);
            && TableOk(table) && |th.outs| == 1
            && if UsedByOther(t, c, name) then table == t && th.outs[0].SendTo? && th.outs[0].target == c
               else
                 && table == t[c := t[c].(nickname := name)]
                 && th.outs[0].Broadcast? && th.outs[0].exclude == None
                 && ParseBackendLine(th.outs[0].payload) == Nick(t[c].nickname, name)
  {
    NickFidelity(name);
    ValidNicknameIsSpaceFree(t[c].nickname);
    NickParses(t[c].nickname, name);
  }

  /** A LIST reply goes to the asker alone and is read back as the sorted names of the welcomed clients. */
  lemma ListIsAnswered(t: Table, c: Conn, ch: Choice)
    requires TableOk(t) && c in t && ch.Order? && Enumerates(ch.order, Targets(t, None))
    requires (forall d :: d in ch.order ==> d in t) && Sorted(NamesInOrder(t, ch.order))
    ensures var (th, table) := HandlerScope(t, c, Point.ListUsers, ch);
            var names := NamesInOrder(t, ch.order);
            && table == t && |th.outs| == 1 && th.outs[0].SendTo? && th.outs[0].target == c
            && ParseBackendLine(th.outs[0].payload) == Listing(Decimal(|names|), names) && Sorted(names)
            && forall n :: n in names <==> exists d :: d in t && t[d].welcomed && t[d].nickname == n
  {
    ListedNamesAre(t, ch.order);
    ListedNamesParse(t, ch.order);
  }

  lemma ListedNamesParse(t: Table, order: seq<Conn>)
    requires NicknamesValid(t) && forall d :: d in order ==> d in t
    ensures var names := NamesInOrder(t, order); ParseBackendLine(ListLine(names)) == Listing(Decimal(|names|), names)
  {
    var names := NamesInOrder(t, order);
    forall i | 0 <= i < |names| ensures names[i] != "" && SpaceFree(names[i]) {
      assert ValidNickname(t[order[i]].nickname);
      ValidNicknameIsSpaceFree(names[i]);
    }
    ListParses(names);
  }

  lemma ListedNamesAre(t: Table, order: seq<Conn>)
    requires Enumerates(order, Targets(t, None)) && forall c :: c in order ==> c in t
    ensures forall n :: n in NamesInOrder(t, order) <==> exists d :: d in t && t[d].welcomed && t[d].nickname == n
  {
    var names := NamesInOrder(t, order);
    forall n ensures n in names <==> exists d :: d in t && t[d].welcomed && t[d].nickname == n {
      if n in names {
        var i :| 0 <= i < |names| && names[i] == n;
        assert order[i] in Targets(t, None);
      }
      if exists d :: d in t && t[d].welcomed && t[d].nickname == n {
        var d :| d in t && t[d].welcomed && t[d].nickname == n;
        assert d in order;
        var i :| 0 <= i < |order| && order[i] == d;
        assert names[i] == n;
      }
    }
  }
}
