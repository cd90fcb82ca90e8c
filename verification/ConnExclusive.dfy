// Simultaneous dials: connExclusiveCheck of host.go.
module ConnExclusive {
  import opened PeerOrder

  datatype Direction = Inbound | Outbound

  datatype Conn = Conn(id: nat, local: PeerId, remote: PeerId, dir: Direction)

  /** The map of connections kept so far, and every connection closed by a check. */
  datatype Exclusive = Exclusive(kept: map<PeerId, Conn>, closed: set<Conn>)

  /** The side of a link that survives at a node: its own dials if it is the heavier one. */
  ghost function Preferred(local: PeerId, remote: PeerId): Direction {
    if Heavier(local, remote) then Outbound else Inbound
  }

  ghost function Checked(x: Exclusive, conn: Conn): Exclusive {
    if conn.remote !in x.kept then
      x.(kept := x.kept[conn.remote := conn])
    else
      var oldConn := x.kept[conn.remote];
      if oldConn.dir != conn.dir && conn.dir == Preferred(conn.local, conn.remote) then
        Exclusive(x.kept[conn.remote := conn], x.closed + {oldConn})
      else
        x.(closed := x.closed + {conn})
  }

  ghost function CheckedAll(x: Exclusive, conns: seq<Conn>): Exclusive {
    if conns == [] then x
    else Checked(CheckedAll(x, conns[..|conns| - 1]), conns[|conns| - 1])
  }

  class Host {
    var connExclusive: map<PeerId, Conn>
    var closed: set<Conn>

    constructor ()
      ensures View() == Exclusive(map[], {})
    {
      connExclusive, closed := map[], {};
    }

    ghost function View(): Exclusive
      reads this
    {
      Exclusive(connExclusive, closed)
    }

    method ConnExclusiveCheck(conn: Conn) returns (keep: bool)
      modifies this
      ensures View() == Checked(old(View()), conn)
      ensures conn !in old(closed) ==> (keep <==> conn !in closed)
    {
      var rPID := conn.remote;
      if rPID in connExclusive {
        var oldConn := connExclusive[rPID];
        if oldConn.dir != conn.dir {
          var saveMe := WeightCompare(conn.local, conn.remote);
          var drop := if saveMe then Inbound else Outbound;
          if drop == oldConn.dir {
            connExclusive := connExclusive[rPID := conn];
            closed := closed + {oldConn};
          } else {
            closed := closed + {conn};
            return false;
          }
        } else {
          closed := closed + {conn};
          return false;
        }
      } else {
        connExclusive := connExclusive[rPID := conn];
      }
      keep := true;
    }

    method RemoveConnExclusive(pid: PeerId)
      modifies this
      ensures View() == old(View()).(kept := old(connExclusive) - {pid})
    {
      connExclusive := connExclusive - {pid};
    }
  }

  // ---------------------------------------------------------------- one node, any number of connections

  ghost predicate Distinct(conns: seq<Conn>) {
    forall i, j :: 0 <= i < j < |conns| ==> conns[i] != conns[j]
  }

  ghost predicate BetweenPeers(conns: seq<Conn>, local: PeerId, remote: PeerId) {
    forall c :: c in conns ==> c.local == local && c.remote == remote
  }

  /** The first connection in the preferred direction, or the first of all if there is none. */
  ghost predicate Chosen(conns: seq<Conn>, pref: Direction, c: Conn) {
    exists k :: 0 <= k < |conns| && conns[k] == c && ChosenAt(conns, pref, k)
  }

  ghost predicate ChosenAt(conns: seq<Conn>, pref: Direction, k: nat)
    requires k < |conns|
  {
    if conns[k].dir == pref then forall j :: 0 <= j < k ==> conns[j].dir != pref
    else k == 0 && forall j :: 0 <= j < |conns| ==> conns[j].dir != pref
  }

  /** Checking connections to one peer leaves other peers' entries alone. */
  lemma {:induction false} KeepsOtherEntries(x: Exclusive, conns: seq<Conn>, local: PeerId, remote: PeerId)
    requires BetweenPeers(conns, local, remote)
    ensures CheckedAll(x, conns).kept - {remote} == x.kept - {remote}
  {
    if conns != [] {
      var n := |conns| - 1;
      assert conns[n] in conns;
      KeepsOtherEntries(x, conns[..n], local, remote);
    }
  }

  lemma ChosenAppend(init: seq<Conn>, last: Conn, pref: Direction, k: nat)
    requires k < |init| && ChosenAt(init, pref, k)
    ensures ChosenAt(init + [last], pref, if init[k].dir != pref && last.dir == pref then |init| else k)
  {
  }

  /** Checking connections to one peer keeps the chosen one. */
  lemma {:induction false} KeepsChosen(x: Exclusive, conns: seq<Conn>, local: PeerId, remote: PeerId)
    requires remote !in x.kept && conns != [] && BetweenPeers(conns, local, remote)
    ensures var y := CheckedAll(x, conns);
            remote in y.kept && Chosen(conns, Preferred(local, remote), y.kept[remote])
  {
    var pref := Preferred(local, remote);
    var n := |conns| - 1;
    var init, last := conns[..n], conns[n];
    assert last in conns;
    if n == 0 {
      assert CheckedAll(x, init) == x;
      assert ChosenAt(conns, pref, 0);
    } else {
      KeepsChosen(x, init, local, remote);
      var kept := CheckedAll(x, init).kept[remote];
      var k :| 0 <= k < |init| && init[k] == kept && ChosenAt(init, pref, k);
      assert kept in conns && conns == init + [last];
      ChosenAppend(init, last, pref, k);
      assert conns[if kept.dir != pref && last.dir == pref then n else k] == CheckedAll(x, conns).kept[remote];
    }
  }

  ghost function Others(conns: seq<Conn>, kept: Conn): set<Conn> {
    set c | c in conns && c != kept
  }

  lemma OthersAppend(init: seq<Conn>, last: Conn, kept: Conn)
    requires kept in init && last !in init
    ensures Others(init + [last], kept) == Others(init, kept) + {last}
    ensures Others(init + [last], last) == Others(init, kept) + {kept}
  {
  }

  /** One more connection to a peer that has an entry: one of the two is closed. */
  lemma CheckClosesOne(x: Exclusive, c: Conn)
    requires c.remote in x.kept
    ensures var y := Checked(x, c);
            || (y.kept == x.kept && y.closed == x.closed + {c})
            || (y.kept == x.kept[c.remote := c] && y.closed == x.closed + {x.kept[c.remote]})
  {
  }

  /** What the checks of some connections to a peer have done: all but the kept one are closed. */
  ghost predicate ClosedButKept(x: Exclusive, y: Exclusive, conns: seq<Conn>, remote: PeerId) {
    && remote in y.kept && y.kept[remote] in conns
    && y.closed == x.closed + Others(conns, y.kept[remote])
  }

  lemma FirstIsKept(x: Exclusive, c: Conn)
    requires c.remote !in x.kept
    ensures ClosedButKept(x, Checked(x, c), [c], c.remote)
  {
    assert Others([c], c) == {};
  }

  lemma OneMoreIsClosed(x: Exclusive, y: Exclusive, init: seq<Conn>, last: Conn, remote: PeerId)
    requires ClosedButKept(x, y, init, remote) && last !in init && last.remote == remote
    ensures ClosedButKept(x, Checked(y, last), init + [last], remote)
  {
    OthersAppend(init, last, y.kept[remote]);
    CheckClosesOne(y, last);
    assert last in init + [last];
  }

  /** Of distinct connections to one peer, the checks close every one but the one in the map. */
  lemma {:induction false} ClosesAllButKept(x: Exclusive, conns: seq<Conn>, local: PeerId, remote: PeerId)
    requires remote !in x.kept && BetweenPeers(conns, local, remote) && Distinct(conns) && conns != []
    ensures ClosedButKept(x, CheckedAll(x, conns), conns, remote)
  {
    var n := |conns| - 1;
    var init, last := conns[..n], conns[n];
    assert conns == init + [last] && last !in init && last in conns;
    if n == 0 {
      assert CheckedAll(x, init) == x && conns == [last];
      FirstIsKept(x, last);
    } else {
      ClosesAllButKept(x, init, local, remote);
      OneMoreIsClosed(x, CheckedAll(x, init), init, last, remote);
    }
  }

  /**
   * Whatever connections to one peer are checked, in whatever order, exactly one
   * stays open: the chosen one. Nothing happens to other connections.
   */
  lemma {:induction false} ExactlyOneStaysOpen(x: Exclusive, conns: seq<Conn>, local: PeerId, remote: PeerId)
    requires remote !in x.kept && conns != []
    requires BetweenPeers(conns, local, remote) && Distinct(conns)
    requires forall c :: c in conns ==> c !in x.closed
    ensures var y := CheckedAll(x, conns);
            && remote in y.kept
            && Chosen(conns, Preferred(local, remote), y.kept[remote])
            && (forall c :: c in conns ==> (c !in y.closed <==> c == y.kept[remote]))
            && y.kept - {remote} == x.kept
            && (forall c :: c !in conns ==> (c in y.closed <==> c in x.closed))
  {
    KeepsOtherEntries(x, conns, local, remote);
    KeepsChosen(x, conns, local, remote);
    ClosesAllButKept(x, conns, local, remote);
  }

  // ---------------------------------------------------------------- handlers come and go

  /** The exclusive map with the connections whose handlers passed the check and have not ended. */
  datatype Handling = Handling(x: Exclusive, handled: set<Conn>)

  /**
   * A handler checks its new connection; a handler ends, and takes the entry of its
   * peer away, whoever's it is; a connection is closed from elsewhere.
   */
  datatype Event = Check(conn: Conn) | End(conn: Conn) | Drop(conn: Conn)

  ghost predicate HasEntry(x: Exclusive, c: Conn) {
    c.remote in x.kept && x.kept[c.remote] == c
  }

  ghost predicate CanHappen(h: Handling, e: Event) {
    match e
    case Check(c) => c !in h.handled && !HasEntry(h.x, c)
    case End(c) => c in h.handled
    case Drop(_) => true
  }

  ghost function Happen(h: Handling, e: Event): Handling {
    match e
    case Check(c) =>
      var x := Checked(h.x, c);
      Handling(x, if HasEntry(x, c) then h.handled + {c} else h.handled)
    case End(c) => Handling(h.x.(kept := h.x.kept - {c.remote}), h.handled - {c})
    case Drop(c) => h.(x := h.x.(closed := h.x.closed + {c}))
  }

  /** Open, and its handler still at work. */
  ghost predicate InHand(h: Handling, c: Conn) {
    c in h.handled && c !in h.x.closed
  }

  /** Entries belong to handlers at work. */
  ghost predicate EntriesHandled(h: Handling) {
    forall r :: r in h.x.kept ==> h.x.kept[r].remote == r && h.x.kept[r] in h.handled
  }

  /** Every open connection a handler is at work on has the entry of its peer. */
  ghost predicate OnRecord(h: Handling) {
    forall c :: InHand(h, c) ==> HasEntry(h.x, c)
  }

  /** The handler that ends is not the one that has the entry, and the one that has it is still at work on an open connection. */
  ghost predicate TakesAnothers(h: Handling, e: Event) {
    && e.End? && e.conn.remote in h.x.kept
    && h.x.kept[e.conn.remote] != e.conn && h.x.kept[e.conn.remote] !in h.x.closed
  }

  lemma CheckKeepsRecord(h: Handling, e: Event)
    requires e.Check? && CanHappen(h, e) && EntriesHandled(h) && OnRecord(h)
    ensures EntriesHandled(Happen(h, e)) && OnRecord(Happen(h, e))
  {
    var n := Happen(h, e);
    forall c | InHand(n, c) ensures HasEntry(n.x, c) {
      if c != e.conn {
        assert InHand(h, c) && HasEntry(h.x, c);
      }
    }
  }

  lemma EndKeepsRecordIff(h: Handling, e: Event)
    requires e.End? && CanHappen(h, e) && EntriesHandled(h) && OnRecord(h)
    ensures EntriesHandled(Happen(h, e))
    ensures OnRecord(Happen(h, e)) <==> !TakesAnothers(h, e)
  {
    var n := Happen(h, e);
    var r := e.conn.remote;
    if TakesAnothers(h, e) {
      assert InHand(n, h.x.kept[r]);
    } else {
      forall c | InHand(n, c) ensures HasEntry(n.x, c) {
        assert InHand(h, c);
      }
    }
  }

  lemma DropKeepsRecord(h: Handling, e: Event)
    requires e.Drop? && EntriesHandled(h) && OnRecord(h)
    ensures EntriesHandled(Happen(h, e)) && OnRecord(Happen(h, e))
  {
    forall c | InHand(Happen(h, e), c) ensures InHand(h, c) {
    }
  }

  ghost predicate CanPass(h: Handling, events: seq<Event>)
    decreases |events|
  {
    events == [] || (CanHappen(h, events[0]) && CanPass(Happen(h, events[0]), events[1..]))
  }

  ghost function Pass(h: Handling, events: seq<Event>): Handling
    decreases |events|
  {
    if events == [] then h else Pass(Happen(h, events[0]), events[1..])
  }

  ghost predicate AlwaysOnRecord(h: Handling, events: seq<Event>)
    decreases |events|
  {
    OnRecord(h) && (events == [] || AlwaysOnRecord(Happen(h, events[0]), events[1..]))
  }

  ghost predicate EverTakesAnothers(h: Handling, events: seq<Event>)
    decreases |events|
  {
    events != [] && (TakesAnothers(h, events[0]) || EverTakesAnothers(Happen(h, events[0]), events[1..]))
  }

  /**
   * Whatever checks, ends and closings there are: every open connection in a handler's
   * hands has the entry of its peer all along, exactly if no handler of a superseded
   * connection ends before the handler of the connection that superseded it.
   */
  lemma {:induction false} AlwaysOnRecordIff(h: Handling, events: seq<Event>)
    requires EntriesHandled(h) && OnRecord(h) && CanPass(h, events)
    ensures AlwaysOnRecord(h, events) <==> !EverTakesAnothers(h, events)
    decreases |events|
  {
    if events != [] {
      var n := Happen(h, events[0]);
      match events[0] {
        case Check(_) => CheckKeepsRecord(h, events[0]);
        case End(_) => EndKeepsRecordIff(h, events[0]);
        case Drop(_) => DropKeepsRecord(h, events[0]);
      }
      if OnRecord(n) {
        AlwaysOnRecordIff(n, events[1..]);
      } else {
        assert !AlwaysOnRecord(n, events[1..]);
      }
    }
  }

  /** Then no peer has two open connections in handlers' hands. */
  lemma OnRecordIsExclusive(h: Handling, c: Conn, d: Conn)
    requires OnRecord(h) && InHand(h, c) && InHand(h, d) && c.remote == d.remote
    ensures c == d
  {
  }

  /** Once the entry is gone, the next connection of the peer is kept as well, whatever its direction. */
  lemma OffRecordAdmitsSecond(h: Handling, c: Conn, d: Conn)
    requires InHand(h, c) && c.remote !in h.x.kept
    requires CanHappen(h, Check(d)) && d !in h.x.closed && d.remote == c.remote && d != c
    ensures InHand(Happen(h, Check(d)), c) && InHand(Happen(h, Check(d)), d)
  {
  }

  /** It happens: b supersedes a, the handler of a ends, and c is kept beside b. */
  lemma SupersededHandlerEnds(a: Conn, b: Conn, c: Conn)
    requires a != b && b != c && a != c
    requires a.remote == b.remote == c.remote && a.local == b.local
    requires b.dir == Preferred(b.local, b.remote) && a.dir != b.dir
    ensures var h0 := Handling(Exclusive(map[], {}), {});
            && CanPass(h0, [Check(a), Check(b), End(a), Check(c)])
            && EverTakesAnothers(h0, [Check(a), Check(b), End(a), Check(c)])
            && InHand(Pass(h0, [Check(a), Check(b), End(a), Check(c)]), b)
            && InHand(Pass(h0, [Check(a), Check(b), End(a), Check(c)]), c)
  {
    var h0 := Handling(Exclusive(map[], {}), {});
    var r := a.remote;
    var h1 := Happen(h0, Check(a));
    assert h1 == Handling(Exclusive(map[r := a], {}), {a});
    var h2 := Happen(h1, Check(b));
    assert h2 == Handling(Exclusive(map[r := b], {a}), {a, b});
    var h3 := Happen(h2, End(a));
    assert h3 == Handling(Exclusive(map[], {a}), {b});
    OffRecordAdmitsSecond(h3, b, c);
    PassFour(h0, Check(a), Check(b), End(a), Check(c));
  }

  lemma PassFour(h: Handling, e: Event, f: Event, g: Event, k: Event)
    ensures var h1 := Happen(h, e); var h2 := Happen(h1, f); var h3 := Happen(h2, g);
            && Pass(h, [e, f, g, k]) == Happen(h3, k)
            && (CanPass(h, [e, f, g, k]) <==>
                CanHappen(h, e) && CanHappen(h1, f) && CanHappen(h2, g) && CanHappen(h3, k))
            && (TakesAnothers(h2, g) ==> EverTakesAnothers(h, [e, f, g, k]))
  {
    var h1 := Happen(h, e);
    var h2 := Happen(h1, f);
    var h3 := Happen(h2, g);
    var r3, r2, r1 := [k], [g, k], [f, g, k];
    assert [e, f, g, k][1..] == r1 && r1[1..] == r2 && r2[1..] == r3 && r3[1..] == [];
    assert CanPass(Happen(h3, k), []) && Pass(Happen(h3, k), []) == Happen(h3, k);
    assert Pass(h3, r3) == Happen(h3, k) && (CanPass(h3, r3) <==> CanHappen(h3, k));
    assert Pass(h2, r2) == Happen(h3, k) && (CanPass(h2, r2) <==> CanHappen(h2, g) && CanPass(h3, r3));
    assert Pass(h1, r1) == Happen(h3, k) && (CanPass(h1, r1) <==> CanHappen(h1, f) && CanPass(h2, r2));
    assert TakesAnothers(h2, g) ==> EverTakesAnothers(h2, r2) && EverTakesAnothers(h1, r1);
  }

  // ---------------------------------------------------------------- the host as it runs

  /** One handler after the other, as in the serial accept loop: a check finds nobody at work. */
  ghost predicate SerialHandlers(h: Handling, events: seq<Event>)
    decreases |events|
  {
    events == [] || ((events[0].Check? ==> h.handled == {}) && SerialHandlers(Happen(h, events[0]), events[1..]))
  }

  ghost function Dropped(events: seq<Event>): set<Conn> {
    set e | e in events && e.Drop? :: e.conn
  }

  /**
   * Then the exclusive check never has anything to decide: every connection passes it,
   * and none is closed but from elsewhere, however many of one peer there are and
   * whichever way they were dialed.
   */
  lemma {:induction false} SerialChecksPassAll(h: Handling, events: seq<Event>)
    requires EntriesHandled(h) && OneHandler(h) && CanPass(h, events) && SerialHandlers(h, events)
    ensures EntriesHandled(Pass(h, events)) && OneHandler(Pass(h, events))
    ensures Pass(h, events).x.closed == h.x.closed + Dropped(events)
    ensures !EverTakesAnothers(h, events)
    decreases |events|
  {
    if events != [] {
      var e := events[0];
      assert Dropped(events) == Dropped(events[1..]) + if e.Drop? then {e.conn} else {} by {
        assert events == [e] + events[1..];
      }
      SerialStep(h, e);
      SerialChecksPassAll(Happen(h, e), events[1..]);
    }
  }

  ghost predicate OneHandler(h: Handling) {
    forall c, d :: c in h.handled && d in h.handled ==> c == d
  }

  lemma SerialStep(h: Handling, e: Event)
    requires EntriesHandled(h) && OneHandler(h) && CanHappen(h, e) && (e.Check? ==> h.handled == {})
    ensures EntriesHandled(Happen(h, e)) && OneHandler(Happen(h, e))
    ensures Happen(h, e).x.closed == h.x.closed + if e.Drop? then {e.conn} else {}
    ensures e.Check? ==> e.conn in Happen(h, e).handled
    ensures !TakesAnothers(h, e)
  {
  }

  // ---------------------------------------------------------------- two nodes, the same links

  /** A physical link between two nodes. */
  datatype Link = Link(id: nat, dialer: PeerId)

  function At(link: Link, local: PeerId, remote: PeerId): Conn {
    Conn(link.id, local, remote, if link.dialer == local then Outbound else Inbound)
  }

  function AllAt(links: seq<Link>, local: PeerId, remote: PeerId): (conns: seq<Conn>)
    ensures |conns| == |links| && forall i :: 0 <= i < |links| ==> conns[i] == At(links[i], local, remote)
  {
    seq(|links|, i requires 0 <= i < |links| => At(links[i], local, remote))
  }

  /** The link a node is left with after checking links in the given order. */
  ghost predicate KeepsOnly(local: PeerId, remote: PeerId, links: seq<Link>, link: Link) {
    var y := CheckedAll(Exclusive(map[], {}), AllAt(links, local, remote));
    && remote in y.kept
    && y.kept[remote] == At(link, local, remote)
    && forall l :: l in links ==> (At(l, local, remote) !in y.closed <==> l == link)
  }

  predicate DistinctLinks(links: seq<Link>) {
    forall i, j :: 0 <= i < j < |links| ==> links[i].id != links[j].id
  }

  ghost predicate LinksBetween(links: seq<Link>, a: PeerId, b: PeerId) {
    && (forall i :: 0 <= i < |links| ==> links[i].dialer == a || links[i].dialer == b)
    && DistinctLinks(links)
  }

  /** A node keeps the only link that was dialed by its preferred side. */
  lemma KeepsUniquePreferred(local: PeerId, remote: PeerId, links: seq<Link>, w: nat)
    requires DistinctLinks(links) && w < |links|
    requires forall i :: 0 <= i < |links| ==> (At(links[i], local, remote).dir == Preferred(local, remote) <==> i == w)
    ensures KeepsOnly(local, remote, links, links[w])
  {
    var conns := AllAt(links, local, remote);
    var x := Exclusive(map[], {});
    ExactlyOneStaysOpen(x, conns, local, remote);
    var y := CheckedAll(x, conns);
    var k :| 0 <= k < |conns| && conns[k] == y.kept[remote] && ChosenAt(conns, Preferred(local, remote), k);
    assert conns[w].dir == Preferred(local, remote);
    assert k == w;
    forall l | l in links ensures At(l, local, remote) !in y.closed <==> l == links[w] {
      assert At(l, local, remote) in conns;
      var i :| 0 <= i < |links| && links[i] == l;
      assert i != w ==> l.id != links[w].id;
    }
  }

  /**
   * Any number of links, seen by the two nodes in any two orders: if the heavier
   * node dialed exactly one of them, both nodes keep that link and close the others.
   */
  lemma AgreeOnHeavierDial(a: PeerId, b: PeerId, atA: seq<Link>, atB: seq<Link>, i: nat, j: nat)
    requires !PrefixRelated(a, b) && Heavier(a, b)
    requires LinksBetween(atA, a, b) && LinksBetween(atB, a, b)
    requires i < |atA| && j < |atB| && atA[i] == atB[j]
    requires forall k :: 0 <= k < |atA| ==> (atA[k].dialer == a <==> k == i)
    requires forall k :: 0 <= k < |atB| ==> (atB[k].dialer == a <==> k == j)
    ensures KeepsOnly(a, b, atA, atA[i]) && KeepsOnly(b, a, atB, atA[i])
  {
    BothHeavierIffPrefix(a, b);
    KeepsUniquePreferred(a, b, atA, i);
    KeepsUniquePreferred(b, a, atB, j);
  }

  /** Both nodes keep one and the same link. a knows the other node as bSeen, b knows it as aSeen. */
  ghost predicate AgreeAs(a: PeerId, bSeen: PeerId, b: PeerId, aSeen: PeerId, atA: seq<Link>, atB: seq<Link>) {
    exists l :: KeepsOnly(a, bSeen, atA, l) && KeepsOnly(b, aSeen, atB, l)
  }

  ghost predicate Agree(a: PeerId, b: PeerId, atA: seq<Link>, atB: seq<Link>) {
    AgreeAs(a, b, b, a, atA, atB)
  }

  predicate OppositeDials(links: seq<Link>, x: Link, y: Link) {
    links == [x, y] || links == [y, x]
  }

  /**
   * Whatever the two nodes take the other's ID to be: they agree exactly if one of
   * them finds itself the heavier and the other does not.
   */
  lemma SeenAgreementIff(a: PeerId, bSeen: PeerId, b: PeerId, aSeen: PeerId, x: Link, y: Link, atA: seq<Link>, atB: seq<Link>)
    requires a != b && x.dialer == a && y.dialer == b && x.id != y.id
    requires OppositeDials(atA, x, y) && OppositeDials(atB, x, y)
    ensures AgreeAs(a, bSeen, b, aSeen, atA, atB) <==> (Heavier(a, bSeen) <==> !Heavier(b, aSeen))
    ensures KeepsOnly(a, bSeen, atA, if Heavier(a, bSeen) then x else y)
    ensures KeepsOnly(b, aSeen, atB, if Heavier(b, aSeen) then y else x)
  {
    var xa := if atA[0] == x then 0 else 1;
    var xb := if atB[0] == x then 0 else 1;
    KeepsUniquePreferred(a, bSeen, atA, if Heavier(a, bSeen) then xa else 1 - xa);
    KeepsUniquePreferred(b, aSeen, atB, if Heavier(b, aSeen) then 1 - xb else xb);
  }

  /**
   * Two nodes that dial each other, each checking the two links in its own order,
   * keep the same link exactly when neither ID is a prefix of the other. When one
   * is, each node keeps its own dial and closes the other's: no link survives.
   */
  lemma DialAgreement(a: PeerId, b: PeerId, x: Link, y: Link, atA: seq<Link>, atB: seq<Link>)
    requires a != b && x.dialer == a && y.dialer == b && x.id != y.id
    requires OppositeDials(atA, x, y) && OppositeDials(atB, x, y)
    ensures Agree(a, b, atA, atB) <==> !PrefixRelated(a, b)
    ensures PrefixRelated(a, b) ==> KeepsOnly(a, b, atA, x) && KeepsOnly(b, a, atB, y)
  {
    BothHeavierIffPrefix(a, b);
    Total(a, b);
    SeenAgreementIff(a, b, b, a, x, y, atA, atB);
  }
}
