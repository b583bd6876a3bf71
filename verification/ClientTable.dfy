/** The C++ server's `clients_` map and what each lock scope on it computes. A connection is named by a
    generation, never reused, so that a closed descriptor number cannot be mistaken for a later one. */
module ClientTable {
  import opened Text

  type Conn = nat

  datatype ClientRecord = ClientRecord(nickname: string, welcomed: bool)

  type Table = map<Conn, ClientRecord>

  predicate NicknameUsed(t: Table, nickname: string) {
    exists c :: c in t && t[c].nickname == nickname
  }

  predicate UsedByOther(t: Table, self: Conn, nickname: string) {
    exists c :: c in t && c != self && t[c].nickname == nickname
  }

  ghost predicate NicknamesDistinct(t: Table) {
    forall c, d :: c in t && d in t && t[c].nickname == t[d].nickname ==> c == d
  }

  ghost predicate NicknamesValid(t: Table) {
    forall c :: c in t ==> ValidNickname(t[c].nickname)
  }

  function DefaultName(n: nat): string { "User" + Decimal(n) }

  lemma DefaultNameInjective(m: nat, n: nat)
    requires DefaultName(m) == DefaultName(n)
    ensures m == n
  {
    assert DefaultName(m)[4..] == Decimal(m) && DefaultName(n)[4..] == Decimal(n);
    DecimalRoundTrip(m);
    DecimalRoundTrip(n);
  }

  ghost function Nicknames(t: Table): set<string> {
    set c | c in t :: t[c].nickname
  }

  lemma {:induction false} NicknameCount(t: Table)
    ensures |Nicknames(t)| <= |t|
    decreases |t|
  {
    if t != map[] {
      var c :| c in t;
      var rest := t - {c};
      NicknameCount(rest);
      assert t.Keys == rest.Keys + {c};
      assert Nicknames(t) == Nicknames(rest) + {t[c].nickname};
    }
  }

  /** n is the first number whose default name is free. */
  ghost predicate FirstFree(t: Table, n: nat) {
    n >= 1 && !NicknameUsed(t, DefaultName(n)) && forall k :: 1 <= k < n ==> NicknameUsed(t, DefaultName(k))
  }

  /** The default names User1 .. User(n-1) are n-1 different nicknames in use. */
  lemma {:induction false} UsedNamesBound(t: Table, n: nat)
    requires n >= 1
    requires forall k :: 1 <= k < n ==> NicknameUsed(t, DefaultName(k))
    ensures n - 1 <= |t|
  {
    var names := set k | 1 <= k < n :: DefaultName(k);
    DefaultNamesCount(n);
    forall x | x in names ensures x in Nicknames(t) {
      var k :| 1 <= k < n && x == DefaultName(k);
      assert NicknameUsed(t, DefaultName(k));
    }
    CardinalityOfSubset(names, Nicknames(t));
    NicknameCount(t);
  }

  lemma {:induction false} DefaultNamesCount(n: nat)
    requires n >= 1
    ensures |set k | 1 <= k < n :: DefaultName(k)| == n - 1
  {
    var names := set k | 1 <= k < n :: DefaultName(k);
    if n == 1 {
      assert names == {};
    } else {
      var fewer := set k | 1 <= k < n - 1 :: DefaultName(k);
      DefaultNamesCount(n - 1);
      if DefaultName(n - 1) in fewer {
        var k :| 1 <= k < n - 1 && DefaultName(k) == DefaultName(n - 1);
        DefaultNameInjective(k, n - 1);
      }
      assert names == fewer + {DefaultName(n - 1)};
    }
  }

  lemma {:induction false} CardinalityOfSubset<T>(a: set<T>, b: set<T>)
    requires a <= b
    ensures |a| <= |b|
  {
    if a != {} {
      var x :| x in a;
      CardinalityOfSubset(a - {x}, b - {x});
    }
  }

  const MAX_MAX_CLIENTS: nat := 10000

  /** While a place is free, the default name has at most five digits and so is a valid nickname. */
  lemma DefaultNameIsValid(t: Table, n: nat)
    requires FirstFree(t, n) && |t| < MAX_MAX_CLIENTS
    ensures ValidNickname(DefaultName(n))
  {
    UsedNamesBound(t, n);
    DecimalLength(n, 5, 100000);
  }

  /** broadcast's snapshot. */
  function Targets(t: Table, exclude: Option<Conn>): set<Conn> {
    set c | c in t && t[c].welcomed && Some(c) != exclude
  }

  /** An order in which an unordered_map may be walked. */
  predicate Enumerates(order: seq<Conn>, cs: set<Conn>) {
    NoDuplicates(order) && (forall c :: c in order ==> c in cs) && (forall c :: c in cs ==> c in order)
  }

  predicate Sorted(names: seq<string>) {
    forall i, j :: 0 <= i < j < |names| ==> StringLe(names[i], names[j])
  }

  function NamesInOrder(t: Table, order: seq<Conn>): seq<string>
    requires forall c :: c in order ==> c in t
  {
    seq(|order|, i requires 0 <= i < |order| => t[order[i]].nickname)
  }

  /** The lock scopes of Server.cpp. Each method is one `lock_guard` block on clients_mtx_. */
  class Server {
    const maxClients: nat
    var clients: Table

    ghost predicate Valid()
      reads this
    {
      NicknamesDistinct(clients) && NicknamesValid(clients) && |clients| <= maxClients <= MAX_MAX_CLIENTS
    }

    constructor (maxClients: nat)
      requires maxClients <= MAX_MAX_CLIENTS
      ensures Valid() && clients == map[] && this.maxClients == maxClients
    {
      this.maxClients := maxClients;
      clients := map[];
    }

    /** The do-while loop ends, with the first default name that nobody has. */
    method AssignDefaultNickname() returns (name: string)
      ensures exists n :: FirstFree(clients, n) && name == DefaultName(n)
    {
      var n := 1;
      while true
        invariant n >= 1
        invariant forall k :: 1 <= k < n ==> NicknameUsed(clients, DefaultName(k))
        decreases |clients| + 2 - n
      {
        UsedNamesBound(clients, n);
        name := DefaultName(n);
        n := n + 1;
        if !NicknameUsed(clients, name) { break; }
      }
      assert FirstFree(clients, n - 1);
    }

    method Admit(fd: Conn) returns (full: bool, nickname: string)
      requires Valid() && fd !in clients
      modifies this
      ensures Valid()
      ensures full <==> |old(clients)| >= maxClients
      ensures full ==> clients == old(clients)
      ensures !full ==> clients == old(clients)[fd := ClientRecord(nickname, false)]
      ensures !full ==> exists n :: FirstFree(old(clients), n) && nickname == DefaultName(n)
    {
      nickname := "";
      full := |clients| >= maxClients;
      if !full {
        ghost var n;
        nickname := AssignDefaultNickname();
        n :| FirstFree(clients, n) && nickname == DefaultName(n);
        DefaultNameIsValid(clients, n);
        clients := clients[fd := ClientRecord(nickname, false)];
      }
    }

    method MarkWelcomed(fd: Conn)
      requires Valid()
      modifies this
      ensures Valid()
      ensures clients == if fd in old(clients) then old(clients)[fd := old(clients)[fd].(welcomed := true)] else old(clients)
    {
      if fd in clients { clients := clients[fd := clients[fd].(welcomed := true)]; }
    }

    /** The scope of handle_nick: taken, or no longer connected, or renamed from `old_nick`. */
    method Rename(fd: Conn, newNick: string) returns (taken: bool, oldNick: Option<string>)
      requires Valid() && ValidNickname(newNick)
      modifies this
      ensures Valid()
      ensures taken <==> UsedByOther(old(clients), fd, newNick)
      ensures oldNick == if taken || fd !in old(clients) then None else Some(old(clients)[fd].nickname)
      ensures clients == if oldNick.None? then old(clients) else old(clients)[fd := old(clients)[fd].(nickname := newNick)]
    {
      taken, oldNick := false, None;
      var rest := clients.Keys;
      while rest != {}
        invariant rest <= clients.Keys && clients == old(clients)
        invariant !taken ==> forall c :: c in clients && c !in rest && c != fd ==> clients[c].nickname != newNick
        invariant taken ==> UsedByOther(clients, fd, newNick)
        decreases |rest|
      {
        var other :| other in rest;
        rest := rest - {other};
        if other != fd && clients[other].nickname == newNick {
          taken := true;
          break;
        }
      }
      if !taken {
        if fd !in clients { return; }
        oldNick := Some(clients[fd].nickname);
        clients := clients[fd := clients[fd].(nickname := newNick)];
      }
    }

    /** The erase at the end of handle_client. */
    method Leave(fd: Conn) returns (leavingNick: string)
      requires Valid()
      modifies this
      ensures Valid()
      ensures clients == old(clients) - {fd}
      ensures leavingNick == if fd in old(clients) then old(clients)[fd].nickname else ""
    {
      leavingNick := "";
      if fd in clients {
        leavingNick := clients[fd].nickname;
        clients := clients - {fd};
      } else {
        assert clients - {fd} == clients;
      }
    }

    /** The scope of handle_msg: some welcomed client with the target's name, if there is one. */
    method FindTarget(fd: Conn, target: string) returns (sender: Option<string>, targetFd: Option<Conn>)
      ensures sender == if fd in clients then Some(clients[fd].nickname) else None
      ensures targetFd.Some? ==>
                && fd in clients && targetFd.value in clients
                && clients[targetFd.value].welcomed && clients[targetFd.value].nickname == target
      ensures fd in clients && targetFd.None? ==>
                forall c :: c in clients && clients[c].welcomed ==> clients[c].nickname != target
    {
      sender, targetFd := None, None;
      if fd !in clients { return; }
      sender := Some(clients[fd].nickname);
      var rest := clients.Keys;
      while rest != {}
        invariant rest <= clients.Keys && targetFd.None?
        invariant forall c :: c in clients && c !in rest && clients[c].welcomed ==> clients[c].nickname != target
        decreases |rest|
      {
        var other :| other in rest;
        rest := rest - {other};
        if clients[other].welcomed && clients[other].nickname == target {
          targetFd := Some(other);
          break;
        }
      }
    }

    /** The snapshot scope of broadcast, in whatever order the map is walked. */
    method Snapshot(exclude: Option<Conn>) returns (targets: seq<Conn>)
      ensures Enumerates(targets, Targets(clients, exclude))
    {
      targets := [];
      var rest := clients.Keys;
      while rest != {}
        invariant rest <= clients.Keys
        invariant Enumerates(targets, Targets(clients, exclude) - rest)
        decreases |rest|
      {
        var fd :| fd in rest;
        rest := rest - {fd};
        if Some(fd) != exclude && clients[fd].welcomed { targets := targets + [fd]; }
      }
      assert Targets(clients, exclude) - rest == Targets(clients, exclude);
    }

    /** handle_list: the welcomed clients' nicknames, sorted. */
    method ListNames() returns (names: seq<string>, ghost order: seq<Conn>)
      ensures Enumerates(order, Targets(clients, None))
      ensures names == NamesInOrder(clients, order) && Sorted(names)
    {
      names, order := [], [];
      var gathered := Snapshot(None);
      for i := 0 to |gathered|
        invariant Enumerates(order, set k | 0 <= k < i :: gathered[k])
        invariant forall c :: c in order ==> c in clients
        invariant names == NamesInOrder(clients, order) && Sorted(names)
      {
        assert gathered[i] in Targets(clients, None);
        ghost var position;
        names, position := InsertName(names, clients[gathered[i]].nickname);
        InsertIntoOrder(clients, order, position, gathered[i]);
        order := order[..position] + [gathered[i]] + order[position..];
        assert gathered[i] !in set k | 0 <= k < i :: gathered[k];
        assert (set k | 0 <= k < i + 1 :: gathered[k]) == (set k | 0 <= k < i :: gathered[k]) + {gathered[i]};
      }
    }
  }

  lemma InsertIntoOrder(t: Table, order: seq<Conn>, position: nat, c: Conn)
    requires position <= |order| && c in t && forall d :: d in order ==> d in t
    requires c !in order && NoDuplicates(order)
    ensures var more := order[..position] + [c] + order[position..];
            && (forall d :: d in more <==> d in order || d == c)
            && NoDuplicates(more)
            && NamesInOrder(t, more) == NamesInOrder(t, order)[..position] + [t[c].nickname] + NamesInOrder(t, order)[position..]
  {
    var more := order[..position] + [c] + order[position..];
    assert order == order[..position] + order[position..];
  }

  /** Puts a name where it belongs in a sorted list. */
  method InsertName(names: seq<string>, name: string) returns (more: seq<string>, ghost position: nat)
    requires Sorted(names)
    ensures position <= |names| && more == names[..position] + [name] + names[position..]
    ensures Sorted(more)
  {
    var i := |names|;
    while i > 0 && !StringLe(names[i - 1], name)
      invariant 0 <= i <= |names|
      invariant forall j :: i <= j < |names| ==> StringLe(name, names[j])
    {
      StringLeTotal(names[i - 1], name);
      i := i - 1;
    }
    forall j | 0 <= j < i ensures StringLe(names[j], name) {
      if j < i - 1 { StringLeTransitive(names[j], names[i - 1], name); }
    }
    return names[..i] + [name] + names[i..], i;
  }

  lemma {:induction false} StringLeTransitive(a: string, b: string, c: string)
    requires StringLe(a, b) && StringLe(b, c)
    ensures StringLe(a, c)
  {
    if a != "" && a[0] == b[0] && b[0] == c[0] {
      StringLeTransitive(a[1..], b[1..], c[1..]);
    }
  }
}
