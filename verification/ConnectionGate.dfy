// Who is evicted, and what the admission gate Allowed is good for:
// components/connection_manager.go with its use in handleNewConnection (host.go).
module ConnectionGate {
  import opened PeerOrder
  import opened ConnectionManager

  // ---------------------------------------------------------------- eviction order

  /** Only a high-level newcomer evicts a high-level peer, and only once no low-level peer is left. */
  lemma HighEvictedOnlyByHigh(m: Mgr, pid: PeerId, conn: ConnId, random: nat)
    requires Inv(m) && RandomOk(m, pid, conn, random)
    ensures var r := Add(m, pid, conn, random);
            r.eviction.Evicted? && r.eviction.level == High ==> pid in m.highPeers && m.low == [] && |m.high| == m.maxPeers
  {
  }

  /** The victim is the strategy's pick of the level that loses one, and everyone else there stays, in order. */
  lemma EliminatePicks(m: Mgr, eliminateHigh: bool, random: nat)
    requires m.strategy != Unknown && (|m.high| + |m.low| > m.maxPeers ==> random < Candidates(m))
    requires Eliminate(m, eliminateHigh, random).1.Evicted?
    ensures var (n, e) := Eliminate(m, eliminateHigh, random);
            var list := ListOf(m, e.level);
            && random < |list| && e.level == (if m.low != [] then Low else High)
            && e.entry == list[Pick(m.strategy, |list|, random)]
            && ListOf(n, e.level) == Without(list, Pick(m.strategy, |list|, random))
            && n.closed == m.closed + e.entry.conns && n.eliminated == m.eliminated
  {
  }

  lemma Extremes(list: seq<Entry>, clock: nat)
    requires ListOk(list, clock) && list != []
    ensures forall x :: x in list ==> list[0].arrival <= x.arrival <= list[|list| - 1].arrival
  {
  }

  lemma EliminatesExtreme(m: Mgr, eliminateHigh: bool, random: nat)
    requires m.strategy != Unknown && (|m.high| + |m.low| > m.maxPeers ==> random < Candidates(m))
    requires ListOk(m.high, m.clock) && ListOk(m.low, m.clock)
    requires Eliminate(m, eliminateHigh, random).1.Evicted?
    ensures var (n, e) := Eliminate(m, eliminateHigh, random);
            var before := ListOf(m, e.level);
            && (exists i :: 0 <= i < |before| && before[i] == e.entry && ListOf(n, e.level) == Without(before, i))
            && (m.strategy == Fifo ==> forall x :: x in before ==> e.entry.arrival <= x.arrival)
            && (m.strategy == Lifo ==> forall x :: x in before ==> e.entry.arrival >= x.arrival)
  {
    EliminatePicks(m, eliminateHigh, random);
    var before := ListOf(m, Eliminate(m, eliminateHigh, random).1.level);
    Extremes(before, m.clock);
  }

  /** A victim is the victim of an elimination right after the newcomer was listed. */
  lemma EvictionIsElimination(m: Mgr, pid: PeerId, conn: ConnId, random: nat)
    requires RandomOk(m, pid, conn, random) && Add(m, pid, conn, random).eviction.Evicted?
    ensures var (n, e) := Eliminate(Listed(m, pid, conn), LevelOf(m, pid) == High, random);
            && IndexOf(ListOf(m, LevelOf(m, pid)), pid) == -1
            && Add(m, pid, conn, random).eviction == e
            && Add(m, pid, conn, random).mgr.high == n.high && Add(m, pid, conn, random).mgr.low == n.low
            && Add(m, pid, conn, random).mgr.closed == n.closed
  {
  }

  /** FIFO evicts the earliest entry of the level that loses one, LIFO the latest. Everyone else stays, in order. */
  lemma EvictsExtreme(m: Mgr, pid: PeerId, conn: ConnId, random: nat)
    requires Inv(m) && RandomOk(m, pid, conn, random)
    requires Add(m, pid, conn, random).eviction.Evicted?
    ensures var e := Add(m, pid, conn, random).eviction;
            var before := ListOf(Listed(m, pid, conn), e.level);
            var after := ListOf(Add(m, pid, conn, random).mgr, e.level);
            && (exists i :: 0 <= i < |before| && before[i] == e.entry && after == Without(before, i))
            && (m.strategy == Fifo ==> forall x :: x in before ==> e.entry.arrival <= x.arrival)
            && (m.strategy == Lifo ==> forall x :: x in before ==> e.entry.arrival >= x.arrival)
            && e.entry.conns <= Add(m, pid, conn, random).mgr.closed
  {
    EvictionIsElimination(m, pid, conn, random);
    ListedAlmostInv(m, pid, conn);
    EliminatePicks(Listed(m, pid, conn), LevelOf(m, pid) == High, random);
    EliminatesExtreme(Listed(m, pid, conn), LevelOf(m, pid) == High, random);
  }

  /** The victim's connections are closed and its name is noted, and no others. Random evicts the entry drawn. */
  lemma EvictionRecorded(m: Mgr, pid: PeerId, conn: ConnId, random: nat)
    requires Inv(m) && RandomOk(m, pid, conn, random)
    requires Add(m, pid, conn, random).eviction.Evicted?
    ensures var r := Add(m, pid, conn, random);
            var n, e := Listed(m, pid, conn), r.eviction;
            && r.mgr.closed == m.closed + e.entry.conns
            && r.mgr.eliminated == m.eliminated + (if e.entry.pid == [] then {} else {e.entry.pid})
            && e.level == (if n.low != [] then Low else High)
            && (m.strategy == Random ==> random < |ListOf(n, e.level)| && e.entry == ListOf(n, e.level)[random])
  {
    EliminatePicks(Listed(m, pid, conn), LevelOf(m, pid) == High, random);
  }

  /** Somebody is evicted exactly if a new entry comes into a full manager; otherwise nothing is closed. */
  lemma EvictsIff(m: Mgr, pid: PeerId, conn: ConnId, random: nat)
    requires Inv(m) && RandomOk(m, pid, conn, random)
    ensures var r := Add(m, pid, conn, random);
            && (r.eviction.Evicted? <==> pid !in Pids(ListOf(m, LevelOf(m, pid))) && |m.high| + |m.low| == m.maxPeers)
            && (!r.eviction.Evicted? ==> r.mgr.closed == m.closed && r.mgr.eliminated == m.eliminated)
  {
    var list := ListOf(m, LevelOf(m, pid));
    if pid in Pids(list) {
      var k :| 0 <= k < |list| && Pids(list)[k] == pid;
      assert list[k].pid == pid;
    } else {
      NotListed(list, pid);
      ListedAlmostInv(m, pid, conn);
    }
  }

  /** Adds the low-level peers pids one after the other, connection k for the k-th of them. */
  function AddAll(m: Mgr, pids: seq<PeerId>): Mgr
    requires m.strategy == Fifo || m.strategy == Lifo
    ensures AddAll(m, pids).strategy == m.strategy
  {
    if pids == [] then m
    else
      var n := AddAll(m, pids[..|pids| - 1]);
      Add(n, pids[|pids| - 1], |pids|, 0).mgr
  }

  predicate DistinctPids(pids: seq<PeerId>) {
    forall i, j :: 0 <= i < j < |pids| ==> pids[i] != pids[j]
  }

  /** The peers an empty manager holds after distinct low-level peers came in. */
  function Window(strategy: Strategy, max: nat, pids: seq<PeerId>): seq<PeerId> {
    if |pids| <= max then pids
    else if strategy == Fifo then pids[|pids| - max..]
    else pids[..max]
  }

  /**
   * With low-level peers only and no gate, FIFO holds exactly the last maxPeers
   * arrivals and LIFO exactly the first maxPeers, each in order.
   */
  lemma {:induction false} HoldsWindow(maxPeers: nat, strategy: Strategy, pids: seq<PeerId>)
    requires maxPeers >= 1 && (strategy == Fifo || strategy == Lifo) && DistinctPids(pids)
    ensures var m := AddAll(NewMgr(maxPeers, 1, strategy), pids);
            && Inv(m) && m.highPeers == {} && m.high == [] && m.maxPeers == maxPeers
            && Pids(m.low) == Window(strategy, maxPeers, pids)
  {
    if pids != [] {
      var k := |pids| - 1;
      var init, last := pids[..k], pids[k];
      assert pids == init + [last];
      HoldsWindow(maxPeers, strategy, init);
      var m := AddAll(NewMgr(maxPeers, 1, strategy), init);
      assert last !in init;
      assert last !in Pids(m.low);
      AddSlides(m, last, |pids|);
      WindowSlides(strategy, maxPeers, init, last);
    }
  }

  lemma PidsOfEnds(list: seq<Entry>, e: Entry)
    ensures Pids(list + [e]) == Pids(list) + [e.pid]
    ensures Pids(Without(list + [e], 0)) == (Pids(list) + [e.pid])[1..]
    ensures Pids(Without(list + [e], |list|)) == Pids(list)
  {
    assert Without(list + [e], 0) == (list + [e])[1..];
    assert Without(list + [e], |list|) == list;
  }

  lemma NotListed(list: seq<Entry>, pid: PeerId)
    requires pid !in Pids(list)
    ensures IndexOf(list, pid) == -1
  {
    assert forall i :: 0 <= i < |list| ==> list[i].pid == Pids(list)[i];
  }

  lemma AddSlides(m: Mgr, pid: PeerId, conn: ConnId)
    requires Inv(m) && m.highPeers == {} && m.high == [] && pid !in Pids(m.low)
    requires m.strategy == Fifo || m.strategy == Lifo
    ensures RandomOk(m, pid, conn, 0)
    ensures var n := Add(m, pid, conn, 0).mgr;
            && Inv(n) && n.highPeers == {} && n.high == [] && n.maxPeers == m.maxPeers
            && Pids(n.low) == if |m.low| < m.maxPeers then Pids(m.low) + [pid]
                              else if m.strategy == Fifo then (Pids(m.low) + [pid])[1..]
                              else Pids(m.low)
  {
    AddKeepsInv(m, pid, conn, 0);
    NotListed(m.low, pid);
    PidsOfEnds(m.low, Entry(pid, {conn}, m.clock));
  }

  lemma WindowSlides(strategy: Strategy, max: nat, init: seq<PeerId>, last: PeerId)
    requires max >= 1
    ensures var w, v := Window(strategy, max, init), Window(strategy, max, init + [last]);
            && (|init| < max ==> v == w + [last] && |w| < max)
            && (|init| >= max ==> |w| == max && v == if strategy == Fifo then (w + [last])[1..] else w)
  {
  }

  // ---------------------------------------------------------------- the gate

  /** The entry made for a newcomer carries the clock of its admission. */
  ghost predicate EvictsNewcomer(m: Mgr, pid: PeerId, conn: ConnId, random: nat)
    requires RandomOk(m, pid, conn, random)
  {
    var e := Add(m, pid, conn, random).eviction;
    e.Evicted? && e.entry.arrival == m.clock
  }

  predicate Unlisted(m: Mgr, pid: PeerId) {
    IndexOf(m.high, pid) == -1 && IndexOf(m.low, pid) == -1
  }

  /**
   * Under FIFO and LIFO the gate is exact: it turns away a new peer precisely when
   * admitting it would evict the peer itself.
   */
  lemma GateIsExact(m: Mgr, pid: PeerId, conn: ConnId, random: nat)
    requires Inv(m) && Unlisted(m, pid) && RandomOk(m, pid, conn, random)
    requires m.strategy == Fifo || m.strategy == Lifo
    ensures Allowed(m, pid) <==> !EvictsNewcomer(m, pid, conn, random)
  {
    ListedAlmostInv(m, pid, conn);
  }

  /** Some number of the random source makes pid the victim of its own admission. */
  ghost predicate MayEvictNewcomer(m: Mgr, pid: PeerId, conn: ConnId) {
    exists random: nat :: RandomOk(m, pid, conn, random) && EvictsNewcomer(m, pid, conn, random)
  }

  /** The manager is full, and the level that loses a peer is the one a new pid joins. */
  predicate JoinsLosers(m: Mgr, pid: PeerId) {
    |m.high| + |m.low| == m.maxPeers && (pid !in m.highPeers || m.low == [])
  }

  lemma LoserMayBeNewcomer(m: Mgr, pid: PeerId, conn: ConnId)
    requires Inv(m) && Unlisted(m, pid) && m.strategy == Random && JoinsLosers(m, pid)
    ensures MayEvictNewcomer(m, pid, conn)
  {
    var r := Candidates(Listed(m, pid, conn)) - 1;
    assert RandomOk(m, pid, conn, r) && EvictsNewcomer(m, pid, conn, r);
  }

  lemma VictimJoinsLosers(m: Mgr, pid: PeerId, conn: ConnId, r: nat)
    requires Inv(m) && Unlisted(m, pid) && m.strategy == Random && RandomOk(m, pid, conn, r)
    ensures EvictsNewcomer(m, pid, conn, r) ==> JoinsLosers(m, pid)
    ensures !Allowed(m, pid) ==> EvictsNewcomer(m, pid, conn, r)
    ensures Allowed(m, pid) && r == 0 ==> !EvictsNewcomer(m, pid, conn, r)
  {
    ListedAlmostInv(m, pid, conn);
  }

  /**
   * Under Random a new peer may be the victim of its own admission exactly if it joins
   * the losing level of a full manager. The gate turns away exactly those that every
   * draw would evict, so it errs on one side only: when it lets another such peer in.
   */
  lemma RandomEvictsNewcomerIff(m: Mgr, pid: PeerId, conn: ConnId)
    requires Inv(m) && Unlisted(m, pid) && m.strategy == Random
    ensures MayEvictNewcomer(m, pid, conn) <==> JoinsLosers(m, pid)
    ensures !Allowed(m, pid) <==> forall r: nat :: RandomOk(m, pid, conn, r) ==> EvictsNewcomer(m, pid, conn, r)
    ensures !Allowed(m, pid) ==> JoinsLosers(m, pid) && |m.high| == m.maxPeers
  {
    if JoinsLosers(m, pid) {
      LoserMayBeNewcomer(m, pid, conn);
    }
    assert RandomOk(m, pid, conn, 0);
    forall r: nat | RandomOk(m, pid, conn, r)
      ensures EvictsNewcomer(m, pid, conn, r) ==> JoinsLosers(m, pid)
      ensures !Allowed(m, pid) ==> EvictsNewcomer(m, pid, conn, r)
      ensures Allowed(m, pid) && r == 0 ==> !EvictsNewcomer(m, pid, conn, r)
    {
      VictimJoinsLosers(m, pid, conn, r);
    }
  }

  /** It does let one in. */
  lemma RandomMayEvictNewcomer(pid: PeerId, other: PeerId) returns (m: Mgr)
    requires pid != other
    ensures Inv(m) && Unlisted(m, pid) && m.strategy == Random
    ensures Allowed(m, pid) && JoinsLosers(m, pid) && MayEvictNewcomer(m, pid, 1)
  {
    m := Mgr(1, 1, Random, {}, [], [Entry(other, {0}, 0)], {}, {}, 1);
    RandomEvictsNewcomerIff(m, pid, 1);
  }

  /** Room for pid: what Allowed sees, and what removals and promotions cannot take away. */
  predicate Room(m: Mgr, pid: PeerId) {
    if pid in m.highPeers then
      IndexOf(m.high, pid) != -1 || m.strategy == Fifo || |m.high| < m.maxPeers
    else
      IndexOf(m.low, pid) != -1 || (if m.strategy == Lifo then |m.high| + |m.low| else |m.high|) < m.maxPeers
  }

  lemma SizePositiveIffListed(list: seq<Entry>, pid: PeerId, clock: nat)
    requires ListOk(list, clock)
    ensures SizeIn(list, pid) > 0 <==> IndexOf(list, pid) != -1
  {
  }

  lemma AllowedGivesRoom(m: Mgr, pid: PeerId)
    requires Inv(m) && Allowed(m, pid) && (m.strategy == Fifo || m.strategy == Lifo)
    ensures Room(m, pid)
  {
    SizePositiveIffListed(m.high, pid, m.clock);
    SizePositiveIffListed(m.low, pid, m.clock);
  }

  predicate Frees(op: Op) {
    op.RemoveOp? || op.PromoteOp?
  }

  lemma RoomStays(m: Mgr, op: Op, pid: PeerId)
    requires Inv(m) && Room(m, pid) && Frees(op) && (m.strategy == Fifo || m.strategy == Lifo)
    ensures Room(Do(m, op), pid)
  {
    if op.RemoveOp? {
      RemoveKeepsOthers(m.high, op.pid, op.conn, pid);
      RemoveKeepsOthers(m.low, op.pid, op.conn, pid);
    }
  }

  lemma RemoveKeepsOthers(list: seq<Entry>, pid: PeerId, conn: ConnId, other: PeerId)
    ensures var r := RemoveFrom(list, pid, conn);
            |r| <= |list| && (|r| == |list| ==> r == list) && (IndexOf(list, other) != -1 && other != pid ==> IndexOf(r, other) != -1)
  {
    var r := RemoveFrom(list, pid, conn);
    var i := IndexOf(list, other);
    if i != -1 && other != pid && r != list {
      var k := IndexOf(list, pid);
      assert r[if i < k then i else i - 1] == list[i];
    }
  }

  lemma {:induction false} RoomStaysAlong(m: Mgr, ops: seq<Op>, pid: PeerId)
    requires Inv(m) && Room(m, pid) && CanRun(m, ops) && (m.strategy == Fifo || m.strategy == Lifo)
    requires forall i :: 0 <= i < |ops| ==> Frees(ops[i])
    ensures Inv(Run(m, ops)) && Room(Run(m, ops), pid) && Run(m, ops).strategy == m.strategy
    decreases |ops|
  {
    if ops != [] {
      assert Frees(ops[0]);
      RoomStays(m, ops[0], pid);
      DoKeepsInv(m, ops[0]);
      RoomStaysAlong(Do(m, ops[0]), ops[1..], pid);
    }
  }

  lemma RoomIsSafeFifo(m: Mgr, pid: PeerId, conn: ConnId, random: nat)
    requires Inv(m) && Room(m, pid) && RandomOk(m, pid, conn, random) && m.strategy == Fifo
    ensures !EvictsNewcomer(m, pid, conn, random)
  {
    if IndexOf(ListOf(m, LevelOf(m, pid)), pid) == -1 {
      ListedAlmostInv(m, pid, conn);
    }
  }

  lemma RoomIsSafeLifo(m: Mgr, pid: PeerId, conn: ConnId, random: nat)
    requires Inv(m) && Room(m, pid) && RandomOk(m, pid, conn, random) && m.strategy == Lifo
    ensures !EvictsNewcomer(m, pid, conn, random)
    ensures var e := Add(m, pid, conn, random).eviction; !(e.Evicted? && e.level == High)
  {
    if IndexOf(ListOf(m, LevelOf(m, pid)), pid) == -1 {
      ListedAlmostInv(m, pid, conn);
    }
  }

  lemma RoomIsSafe(m: Mgr, pid: PeerId, conn: ConnId, random: nat)
    requires Inv(m) && Room(m, pid) && RandomOk(m, pid, conn, random) && (m.strategy == Fifo || m.strategy == Lifo)
    ensures !EvictsNewcomer(m, pid, conn, random)
    ensures m.strategy == Lifo ==> var e := Add(m, pid, conn, random).eviction; !(e.Evicted? && e.level == High)
  {
    if m.strategy == Fifo {
      RoomIsSafeFifo(m, pid, conn, random);
    } else {
      RoomIsSafeLifo(m, pid, conn, random);
    }
  }

  /**
   * A peer that passed the gate is never evicted by its own admission, however many
   * removals and promotions came between, and under LIFO it evicts no high-level peer.
   */
  lemma GateIsSound(m: Mgr, ops: seq<Op>, pid: PeerId, conn: ConnId, random: nat)
    requires Inv(m) && Allowed(m, pid) && (m.strategy == Fifo || m.strategy == Lifo)
    requires CanRun(m, ops) && forall i :: 0 <= i < |ops| ==> Frees(ops[i])
    requires RandomOk(Run(m, ops), pid, conn, random)
    ensures !EvictsNewcomer(Run(m, ops), pid, conn, random)
    ensures m.strategy == Lifo ==>
              var e := Add(Run(m, ops), pid, conn, random).eviction; !(e.Evicted? && e.level == High)
  {
    AllowedGivesRoom(m, pid);
    RoomStaysAlong(m, ops, pid);
    RoomIsSafe(Run(m, ops), pid, conn, random);
  }

  /** The low-level entry a full manager loses next belongs to pid, which has become a high-level peer. */
  predicate LosesOwnEntry(m: Mgr, pid: PeerId) {
    && pid in m.highPeers && IndexOf(m.high, pid) == -1
    && |m.low| > 0 && |m.high| + |m.low| == m.maxPeers
    && m.low[if m.strategy == Fifo then 0 else |m.low| - 1].pid == pid
  }

  lemma OwnEntryEvictedIff(m: Mgr, pid: PeerId, conn: ConnId, random: nat)
    requires Inv(m) && Room(m, pid) && RandomOk(m, pid, conn, random) && (m.strategy == Fifo || m.strategy == Lifo)
    ensures var e := Add(m, pid, conn, random).eviction;
            e.Evicted? && e.entry.pid == pid <==> LosesOwnEntry(m, pid)
  {
    var level := LevelOf(m, pid);
    if IndexOf(ListOf(m, level), pid) == -1 {
      ListedAlmostInv(m, pid, conn);
    }
  }

  /**
   * The victim may still bear the newcomer's name: a low-level peer that was promoted
   * and connects again pushes out its own low-level entry exactly when that entry is
   * the next to go.
   */
  lemma AdmittedEvictsOwnEntryIff(m: Mgr, ops: seq<Op>, pid: PeerId, conn: ConnId, random: nat)
    requires Inv(m) && Allowed(m, pid) && (m.strategy == Fifo || m.strategy == Lifo)
    requires CanRun(m, ops) && forall i :: 0 <= i < |ops| ==> Frees(ops[i])
    requires RandomOk(Run(m, ops), pid, conn, random)
    ensures var e := Add(Run(m, ops), pid, conn, random).eviction;
            e.Evicted? && e.entry.pid == pid <==> LosesOwnEntry(Run(m, ops), pid)
  {
    AllowedGivesRoom(m, pid);
    RoomStaysAlong(m, ops, pid);
    OwnEntryEvictedIff(Run(m, ops), pid, conn, random);
  }

  /** Under Random the source of numbers decides: an older entry of pid may go if there is one to draw. */
  ghost predicate MayEvictOwn(m: Mgr, pid: PeerId, conn: ConnId) {
    exists random: nat :: RandomOk(m, pid, conn, random) && EvictsOwn(m, pid, conn, random)
  }

  ghost predicate EvictsOwn(m: Mgr, pid: PeerId, conn: ConnId, random: nat)
    requires RandomOk(m, pid, conn, random)
  {
    var e := Add(m, pid, conn, random).eviction;
    e.Evicted? && e.entry.pid == pid && e.entry.arrival < m.clock
  }

  /** An older entry of pid can only go from the low level, and only when pid belongs to the other. */
  lemma DrawnOwnIsLow(m: Mgr, pid: PeerId, conn: ConnId, random: nat)
    requires m.strategy == Random && RandomOk(m, pid, conn, random) && EvictsOwn(m, pid, conn, random)
    ensures pid in m.highPeers && IndexOf(m.high, pid) == -1 && IndexOf(m.low, pid) != -1
    ensures |m.high| + |m.low| >= m.maxPeers
  {
    var n := Listed(m, pid, conn);
    EvictionIsElimination(m, pid, conn, random);
    EliminatePicks(n, LevelOf(m, pid) == High, random);
    var e := Add(m, pid, conn, random).eviction;
    assert e.level != LevelOf(m, pid);
    assert e.entry == m.low[random];
  }

  lemma OwnEntryDrawnIff(m: Mgr, pid: PeerId, conn: ConnId)
    requires Inv(m) && m.strategy == Random
    ensures MayEvictOwn(m, pid, conn) <==>
            && pid in m.highPeers && IndexOf(m.high, pid) == -1 && IndexOf(m.low, pid) != -1
            && |m.high| + |m.low| == m.maxPeers
  {
    if pid in m.highPeers && IndexOf(m.high, pid) == -1 && IndexOf(m.low, pid) != -1 && |m.high| + |m.low| == m.maxPeers {
      var random := IndexOf(m.low, pid);
      EliminatePicks(Listed(m, pid, conn), true, random);
      assert RandomOk(m, pid, conn, random) && EvictsOwn(m, pid, conn, random);
    }
    forall random: nat | RandomOk(m, pid, conn, random) && EvictsOwn(m, pid, conn, random)
      ensures pid in m.highPeers && IndexOf(m.high, pid) == -1 && IndexOf(m.low, pid) != -1
      ensures |m.high| + |m.low| == m.maxPeers
    {
      DrawnOwnIsLow(m, pid, conn, random);
    }
  }

  /** It is then recorded as eliminated although it is connected. */
  lemma OwnEntryEvictedMisleads(m: Mgr, pid: PeerId, conn: ConnId, random: nat)
    requires Inv(m) && LosesOwnEntry(m, pid) && RandomOk(m, pid, conn, random)
    requires pid != [] && (m.strategy == Fifo || m.strategy == Lifo)
    ensures var n := Add(m, pid, conn, random).mgr;
            pid in n.eliminated && IndexOf(n.high, pid) != -1
  {
    var r := m.high + [Entry(pid, {conn}, m.clock)];
    assert r[|m.high|].pid == pid;
  }

  /** The gate lets such a peer in. */
  lemma PromotedPeerEvictsOldEntry(pid: PeerId) returns (m: Mgr)
    ensures Inv(m) && Allowed(m, pid) && LosesOwnEntry(m, pid) && RandomOk(m, pid, 1, 0)
  {
    m := Mgr(1, 2, Lifo, {pid}, [], [Entry(pid, {0}, 0)], {}, {}, 1);
    assert SizeIn(m.low, pid) == 1 by {
      assert IndexOf(m.low, pid) == 0 && |{0}| == 1;
    }
  }

  // ---------------------------------------------------------------- connections of one peer

  /** A manager, and for each peer the handlers that passed the gate and have not entered yet. */
  datatype Gated = Gated(mgr: Mgr, handlers: multiset<PeerId>)

  datatype GateStep = Pass(pid: PeerId) | Enter(pid: PeerId, conn: ConnId, random: nat) | GiveUp(pid: PeerId) | Meanwhile(op: Op)

  predicate CanGate(g: Gated, st: GateStep) {
    match st
    case Pass(pid) => Allowed(g.mgr, pid)
    case Enter(pid, conn, random) => pid in g.handlers && RandomOk(g.mgr, pid, conn, random)
    case GiveUp(pid) => pid in g.handlers
    case Meanwhile(op) => !op.AddOp?
  }

  function Gate(g: Gated, st: GateStep): Gated
    requires CanGate(g, st)
  {
    match st
    case Pass(pid) => g.(handlers := g.handlers + multiset{pid})
    case Enter(pid, conn, random) => Gated(Add(g.mgr, pid, conn, random).mgr, g.handlers - multiset{pid})
    case GiveUp(pid) => g.(handlers := g.handlers - multiset{pid})
    case Meanwhile(op) => g.(mgr := Do(g.mgr, op))
  }

  /** The connections a peer has, and those on their way in. */
  function Load(g: Gated, pid: PeerId): nat {
    CountOf(g.mgr, pid) + g.handlers[pid]
  }

  lemma WithoutSize(list: seq<Entry>, i: nat, pid: PeerId, clock: nat)
    requires i < |list| && ListOk(list, clock)
    ensures SizeIn(Without(list, i), pid) == if list[i].pid == pid then 0 else SizeIn(list, pid)
  {
    var r := Without(list, i);
    var k := IndexOf(list, pid);
    assert forall j :: 0 <= j < |r| ==> r[j] == if j < i then list[j] else list[j + 1];
    if k != -1 && k != i {
      var k' := if k < i then k else k - 1;
      assert r[k'] == list[k];
      assert IndexOf(r, pid) == k';
    }
  }

  lemma AppendSize(list: seq<Entry>, e: Entry, pid: PeerId)
    requires IndexOf(list, e.pid) == -1
    ensures SizeIn(list + [e], pid) == if pid == e.pid then |e.conns| else SizeIn(list, pid)
  {
    var r := list + [e];
    var k := IndexOf(r, pid);
    assert forall j :: 0 <= j < |list| ==> r[j] == list[j];
    assert r[|list|] == e;
  }

  lemma PutSize(list: seq<Entry>, i: nat, conn: ConnId, pid: PeerId, clock: nat)
    requires i < |list| && ListOk(list, clock) && conn !in list[i].conns
    ensures SizeIn(Put(list, i, conn), pid) == SizeIn(list, pid) + if list[i].pid == pid then 1 else 0
  {
    var r := Put(list, i, conn);
    var k, k' := IndexOf(list, pid), IndexOf(r, pid);
    assert forall j :: 0 <= j < |list| ==> r[j].pid == list[j].pid;
  }

  lemma AddCounts(m: Mgr, pid: PeerId, conn: ConnId, random: nat, other: PeerId)
    requires Inv(m) && RandomOk(m, pid, conn, random)
    ensures CountOf(Add(m, pid, conn, random).mgr, other) <= CountOf(m, other) + if other == pid then 1 else 0
  {
    var level := LevelOf(m, pid);
    var list := ListOf(m, level);
    var i := IndexOf(list, pid);
    if i != -1 {
      if conn !in list[i].conns {
        PutSize(list, i, conn, other, m.clock);
      }
    } else {
      ListedAlmostInv(m, pid, conn);
      AppendSize(list, Entry(pid, {conn}, m.clock), other);
      var n := Listed(m, pid, conn);
      assert CountOf(n, other) == CountOf(m, other) + if other == pid then 1 else 0;
      EliminateCounts(n, level == High, random, other);
    }
  }

  lemma EliminateCounts(m: Mgr, eliminateHigh: bool, random: nat, pid: PeerId)
    requires AlmostInv(m) && (|m.high| + |m.low| > m.maxPeers ==> random < Candidates(m))
    ensures CountOf(Eliminate(m, eliminateHigh, random).0, pid) <= CountOf(m, pid)
  {
    if |m.high| + |m.low| > m.maxPeers {
      if |m.low| > 0 {
        WithoutSize(m.low, Pick(m.strategy, |m.low|, random), pid, m.clock);
      } else {
        WithoutSize(m.high, Pick(m.strategy, |m.high|, random), pid, m.clock);
      }
    }
  }

  lemma RemoveCounts(m: Mgr, pid: PeerId, conn: ConnId, other: PeerId)
    requires Inv(m)
    ensures CountOf(Remove(m, pid, conn), other) <= CountOf(m, other)
  {
    var i, j := IndexOf(m.high, pid), IndexOf(m.low, pid);
    if i != -1 {
      WithoutSize(m.high, i, other, m.clock);
    }
    if j != -1 {
      WithoutSize(m.low, j, other, m.clock);
    }
  }

  /** No operation but adding gives a peer more connections, and adding gives one more to one peer. */
  lemma DoCounts(m: Mgr, op: Op, other: PeerId)
    requires Inv(m) && CanDo(m, op)
    ensures CountOf(Do(m, op), other) <= CountOf(m, other) + if op.AddOp? && other == op.pid then 1 else 0
  {
    match op
    case AddOp(pid, conn, random) => AddCounts(m, pid, conn, random, other);
    case RemoveOp(pid, conn) => RemoveCounts(m, pid, conn, other);
    case _ =>
  }

  /** Only passing the gate adds to a peer's load. */
  lemma StepLoads(g: Gated, st: GateStep, pid: PeerId)
    requires Inv(g.mgr) && CanGate(g, st)
    ensures Inv(Gate(g, st).mgr) && Gate(g, st).mgr.maxConns == g.mgr.maxConns && Gate(g, st).mgr.maxPeers == g.mgr.maxPeers
    ensures Load(Gate(g, st), pid) <= Load(g, pid) + if st == Pass(pid) then 1 else 0
  {
    match st
    case Enter(p, conn, random) =>
      DoKeepsInv(g.mgr, AddOp(p, conn, random));
      DoCounts(g.mgr, AddOp(p, conn, random), pid);
    case Meanwhile(op) =>
      DoKeepsInv(g.mgr, op);
      DoCounts(g.mgr, op, pid);
    case _ =>
  }

  ghost predicate CanGateRun(g: Gated, run: seq<GateStep>)
    decreases |run|
  {
    run == [] || (CanGate(g, run[0]) && CanGateRun(Gate(g, run[0]), run[1..]))
  }

  ghost function GateRun(g: Gated, run: seq<GateStep>): Gated
    requires CanGateRun(g, run)
    decreases |run|
  {
    if run == [] then g else GateRun(Gate(g, run[0]), run[1..])
  }

  function Passes(run: seq<GateStep>, pid: PeerId): nat {
    if run == [] then 0 else (if run[0] == Pass(pid) then 1 else 0) + Passes(run[1..], pid)
  }

  /** How many handlers of pid entered or gave up. */
  function Ends(run: seq<GateStep>, pid: PeerId): nat {
    if run == [] then 0 else (if (run[0].Enter? || run[0].GiveUp?) && run[0].pid == pid then 1 else 0) + Ends(run[1..], pid)
  }

  /** A peer's handlers on their way in are those that passed and have neither entered nor given up. */
  lemma {:induction false} HandlersCounted(g: Gated, run: seq<GateStep>, pid: PeerId)
    requires CanGateRun(g, run)
    ensures GateRun(g, run).handlers[pid] + Ends(run, pid) == g.handlers[pid] + Passes(run, pid)
    decreases |run|
  {
    if run != [] {
      HandlersCounted(Gate(g, run[0]), run[1..], pid);
    }
  }

  /** A peer's next handler starts only once the one before it is through, as in the serial accept loop. */
  ghost predicate Serial(g: Gated, run: seq<GateStep>)
    requires CanGateRun(g, run)
    decreases |run|
  {
    run == [] || ((run[0].Pass? ==> run[0].pid !in g.handlers) && Serial(Gate(g, run[0]), run[1..]))
  }

  /** A handler passes only while its peer's load is below the limit. */
  ghost predicate Spared(g: Gated, run: seq<GateStep>)
    requires CanGateRun(g, run)
    decreases |run|
  {
    run == [] || ((run[0].Pass? ==> Load(g, run[0].pid) < g.mgr.maxConns) && Spared(Gate(g, run[0]), run[1..]))
  }

  lemma PassedHasRoom(m: Mgr, pid: PeerId)
    requires Inv(m) && Allowed(m, pid)
    ensures CountOf(m, pid) < m.maxConns
  {
  }

  lemma {:induction false} SerialIsSpared(g: Gated, run: seq<GateStep>)
    requires Inv(g.mgr) && CanGateRun(g, run) && Serial(g, run)
    ensures Spared(g, run)
    decreases |run|
  {
    if run != [] {
      if run[0].Pass? {
        PassedHasRoom(g.mgr, run[0].pid);
      }
      StepLoads(g, run[0], []);
      SerialIsSpared(Gate(g, run[0]), run[1..]);
    }
  }

  /**
   * As long as no handler passes when the peer's connections and handlers together
   * have reached the limit, no interleaving of gates, admissions, removals, promotions
   * and evictions gives a peer more than maxConns connections over both levels.
   */
  lemma {:induction false} ConnectionsPerPeerBounded(g: Gated, run: seq<GateStep>)
    requires Inv(g.mgr) && (forall pid :: Load(g, pid) <= g.mgr.maxConns)
    requires CanGateRun(g, run) && Spared(g, run)
    ensures Inv(GateRun(g, run).mgr) && GateRun(g, run).mgr.maxConns == g.mgr.maxConns
    ensures forall pid :: CountOf(GateRun(g, run).mgr, pid) <= Load(GateRun(g, run), pid) <= g.mgr.maxConns
    decreases |run|
  {
    if run != [] {
      var n := Gate(g, run[0]);
      StepLoads(g, run[0], []);
      forall pid ensures Load(n, pid) <= n.mgr.maxConns {
        StepLoads(g, run[0], pid);
      }
      ConnectionsPerPeerBounded(n, run[1..]);
    }
  }

  /** The host handles accepted connections one at a time, so the limit holds for it. */
  lemma SerialHostBounded(maxPeers: nat, maxConns: nat, strategy: Strategy, run: seq<GateStep>)
    requires maxPeers >= 1 && maxConns >= 1 && strategy != Unknown
    requires var g := Gated(NewMgr(maxPeers, maxConns, strategy), multiset{}); CanGateRun(g, run) && Serial(g, run)
    ensures var g := GateRun(Gated(NewMgr(maxPeers, maxConns, strategy), multiset{}), run);
            forall pid :: CountOf(g.mgr, pid) <= maxConns
  {
    var g := Gated(NewMgr(maxPeers, maxConns, strategy), multiset{});
    SerialIsSpared(g, run);
    ConnectionsPerPeerBounded(g, run);
  }

  // ---------------------------------------------------------------- and otherwise it is exceeded

  predicate NoPass(run: seq<GateStep>, pid: PeerId) {
    forall i :: 0 <= i < |run| ==> run[i] != Pass(pid)
  }

  lemma {:induction false} NoPassKeepsLoad(g: Gated, run: seq<GateStep>, pid: PeerId)
    requires Inv(g.mgr) && CanGateRun(g, run) && NoPass(run, pid)
    ensures Load(GateRun(g, run), pid) <= Load(g, pid)
    decreases |run|
  {
    if run != [] {
      assert run[0] != Pass(pid);
      assert NoPass(run[1..], pid);
      StepLoads(g, run[0], pid);
      NoPassKeepsLoad(Gate(g, run[0]), run[1..], pid);
    }
  }

  /** An admission of pid evicts nobody: it is listed where it goes, or there is room. */
  predicate Home(m: Mgr, pid: PeerId) {
    IndexOf(ListOf(m, LevelOf(m, pid)), pid) != -1 || |m.high| + |m.low| < m.maxPeers
  }

  lemma {:induction false} FreshConn(s: set<ConnId>) returns (c: ConnId)
    ensures forall x :: x in s ==> x < c
    decreases s
  {
    if s == {} {
      c := 0;
    } else {
      var x :| x in s;
      c := FreshConn(s - {x});
      c := if x < c then c else x + 1;
      assert forall y :: y in s ==> y == x || y in s - {x};
    }
  }

  lemma HomeAdmits(m: Mgr, pid: PeerId) returns (conn: ConnId)
    requires Inv(m) && Home(m, pid)
    ensures RandomOk(m, pid, conn, 0)
    ensures var n := Add(m, pid, conn, 0).mgr;
            Inv(n) && Home(n, pid) && CountOf(n, pid) == CountOf(m, pid) + 1 && n.maxConns == m.maxConns
  {
    var level := LevelOf(m, pid);
    var list := ListOf(m, level);
    var i := IndexOf(list, pid);
    conn := FreshConn(if i == -1 then {} else list[i].conns);
    AddKeepsInv(m, pid, conn, 0);
    if i != -1 {
      PutSize(list, i, conn, pid, m.clock);
      assert Put(list, i, conn)[i].pid == pid;
    } else {
      AppendSize(list, Entry(pid, {conn}, m.clock), pid);
      var r := list + [Entry(pid, {conn}, m.clock)];
      assert r[|list|].pid == pid;
    }
  }

  lemma {:induction false} EnterAll(g: Gated, pid: PeerId, k: nat) returns (run: seq<GateStep>)
    requires Inv(g.mgr) && Home(g.mgr, pid) && k <= g.handlers[pid]
    ensures CanGateRun(g, run) && NoPass(run, pid)
    ensures CountOf(GateRun(g, run).mgr, pid) == CountOf(g.mgr, pid) + k
    decreases k
  {
    if k == 0 {
      run := [];
    } else {
      var conn := HomeAdmits(g.mgr, pid);
      var st := Enter(pid, conn, 0);
      var rest := EnterAll(Gate(g, st), pid, k - 1);
      run := [st] + rest;
      assert run[1..] == rest;
    }
  }

  /** The one peer of a full manager is pid, listed at low level before it was promoted. */
  predicate SoleOwn(m: Mgr, pid: PeerId) {
    m.maxPeers == 1 && pid in m.highPeers && m.high == [] && |m.low| == 1 && m.low[0].pid == pid
  }

  /** Otherwise a peer whose admission would evict someone can be given room first. */
  lemma OtherEntry(m: Mgr, pid: PeerId) returns (level: Level, i: nat)
    requires Inv(m) && !Home(m, pid) && !SoleOwn(m, pid)
    ensures i < |ListOf(m, level)| && ListOf(m, level)[i].pid != pid
  {
    var own := LevelOf(m, pid);
    if |ListOf(m, own)| > 0 {
      level, i := own, 0;
    } else {
      level := if own == High then Low else High;
      i := if ListOf(m, level)[0].pid != pid then 0 else 1;
    }
  }

  lemma MakeHome(g: Gated, pid: PeerId) returns (st: GateStep)
    requires Inv(g.mgr) && !Home(g.mgr, pid) && !SoleOwn(g.mgr, pid)
    ensures CanGate(g, st) && !st.Pass? && Inv(Gate(g, st).mgr) && Home(Gate(g, st).mgr, pid)
    ensures CountOf(Gate(g, st).mgr, pid) == CountOf(g.mgr, pid) && Gate(g, st).handlers == g.handlers
  {
    var m := g.mgr;
    var level, i := OtherEntry(m, pid);
    var q := ListOf(m, level)[i].pid;
    var conn :| conn in ListOf(m, level)[i].conns;
    st := Meanwhile(RemoveOp(q, conn));
    RemoveKeepsInv(m, q, conn);
    assert IndexOf(ListOf(m, level), q) == i;
    OthersSize(m.high, q, conn, pid, m.clock);
    OthersSize(m.low, q, conn, pid, m.clock);
  }

  /** Everyone enters, after st. */
  lemma StepAndEnterAll(g: Gated, st: GateStep, pid: PeerId) returns (run: seq<GateStep>)
    requires CanGate(g, st) && st != Pass(pid) && Inv(Gate(g, st).mgr) && Home(Gate(g, st).mgr, pid)
    ensures CanGateRun(g, run) && NoPass(run, pid)
    ensures CountOf(GateRun(g, run).mgr, pid) == Load(Gate(g, st), pid)
  {
    var rest := EnterAll(Gate(g, st), pid, Gate(g, st).handlers[pid]);
    run := [st] + rest;
    assert run[1..] == rest;
  }

  lemma SoleOwnLeaves(g: Gated, pid: PeerId) returns (st: GateStep)
    requires Inv(g.mgr) && SoleOwn(g.mgr, pid)
    ensures CanGate(g, st) && st != Pass(pid) && Inv(Gate(g, st).mgr) && Home(Gate(g, st).mgr, pid)
    ensures Load(Gate(g, st), pid) == g.handlers[pid]
  {
    var conn :| conn in g.mgr.low[0].conns;
    st := Meanwhile(RemoveOp(pid, conn));
    assert IndexOf(g.mgr.low, pid) == 0;
    assert Remove(g.mgr, pid, conn).low == [];
  }

  /** A peer with connections passes the gate exactly if one more keeps it within the limit. */
  lemma ListedAllowedIff(m: Mgr, pid: PeerId, conn: ConnId, random: nat)
    requires Inv(m) && RandomOk(m, pid, conn, random)
    requires pid in Pids(ListOf(m, LevelOf(m, pid))) && Add(m, pid, conn, random).added
    ensures Allowed(m, pid) <==> CountOf(Add(m, pid, conn, random).mgr, pid) <= m.maxConns
  {
    var list := ListOf(m, LevelOf(m, pid));
    var k :| 0 <= k < |list| && Pids(list)[k] == pid;
    assert list[k].pid == pid;
    var i := IndexOf(list, pid);
    PutSize(list, i, conn, pid, m.clock);
    SizePositiveIffListed(list, pid, m.clock);
  }

  /** As long as pid's old entry is the only one, its connections and its handlers are bounded apart. */
  predicate SoleOwnBounded(g: Gated, pid: PeerId) {
    SoleOwn(g.mgr, pid) && CountOf(g.mgr, pid) <= g.mgr.maxConns && g.handlers[pid] <= g.mgr.maxConns
  }

  /** The first handler that enters gives pid a new entry, and the old one goes. */
  lemma SoleOwnReplaced(m: Mgr, pid: PeerId, conn: ConnId, random: nat)
    requires Inv(m) && SoleOwn(m, pid) && RandomOk(m, pid, conn, random)
    ensures CountOf(Add(m, pid, conn, random).mgr, pid) == 1
  {
    var n := Add(m, pid, conn, random).mgr;
    assert Listed(m, pid, conn).high == [Entry(pid, {conn}, m.clock)];
    assert n.high == [Entry(pid, {conn}, m.clock)] && n.low == [];
    assert IndexOf(n.high, pid) == 0 && |{conn}| == 1;
  }

  lemma SoleOwnAndHigh(m: Mgr, q: PeerId, conn: ConnId, random: nat, pid: PeerId)
    requires Inv(m) && SoleOwn(m, pid) && RandomOk(m, q, conn, random) && q != pid && q in m.highPeers
    ensures CountOf(Add(m, q, conn, random).mgr, pid) == 0
  {
    var n := Add(m, q, conn, random).mgr;
    var r := [Entry(q, {conn}, m.clock)];
    assert Listed(m, q, conn).high == r;
    assert n.high == r && n.low == [];
    assert r[0].pid == q;
  }

  lemma OneOfTwo(x: Entry, y: Entry)
    ensures Without([x, y], 0) == [y] && Without([x, y], 1) == [x]
  {
  }

  lemma SoleOwnAndLow(m: Mgr, q: PeerId, conn: ConnId, random: nat, pid: PeerId)
    requires Inv(m) && SoleOwn(m, pid) && RandomOk(m, q, conn, random) && q != pid && q !in m.highPeers
    ensures var n := Add(m, q, conn, random).mgr; (SoleOwn(n, pid) && n.low == m.low) || CountOf(n, pid) == 0
  {
    var n := Add(m, q, conn, random).mgr;
    var own, e := m.low[0], Entry(q, {conn}, m.clock);
    assert m.low == [own];
    assert IndexOf(m.low, q) == -1;
    assert Listed(m, q, conn).low == [own, e];
    OneOfTwo(own, e);
    assert n.high == [] && n.highPeers == m.highPeers && n.maxPeers == 1;
    assert n.low == [e] || n.low == [own];
    assert IndexOf([e], pid) == -1;
  }

  lemma SoleOwnStep(g: Gated, st: GateStep, pid: PeerId)
    requires Inv(g.mgr) && SoleOwnBounded(g, pid) && CanGate(g, st) && st != Pass(pid)
    ensures SoleOwnBounded(Gate(g, st), pid) || Load(Gate(g, st), pid) <= g.mgr.maxConns
  {
    match st
    case Enter(q, conn, random) =>
      if q == pid {
        SoleOwnReplaced(g.mgr, pid, conn, random);
      } else {
        if q in g.mgr.highPeers {
          SoleOwnAndHigh(g.mgr, q, conn, random, pid);
        } else {
          SoleOwnAndLow(g.mgr, q, conn, random, pid);
        }
        StepLoads(g, st, pid);
      }
    case Meanwhile(op) =>
      StepLoads(g, st, pid);
      assert IndexOf(g.mgr.low, pid) == 0;
    case _ =>
  }

  lemma {:induction false} SoleOwnStays(g: Gated, run: seq<GateStep>, pid: PeerId)
    requires Inv(g.mgr) && SoleOwnBounded(g, pid) && CanGateRun(g, run) && NoPass(run, pid)
    ensures CountOf(GateRun(g, run).mgr, pid) <= g.mgr.maxConns
    decreases |run|
  {
    if run != [] {
      var n := Gate(g, run[0]);
      assert run[0] != Pass(pid) && NoPass(run[1..], pid);
      StepLoads(g, run[0], pid);
      SoleOwnStep(g, run[0], pid);
      if SoleOwnBounded(n, pid) {
        SoleOwnStays(n, run[1..], pid);
      } else {
        NoPassKeepsLoad(n, run[1..], pid);
      }
    }
  }

  lemma OthersSize(list: seq<Entry>, q: PeerId, conn: ConnId, pid: PeerId, clock: nat)
    requires ListOk(list, clock) && q != pid
    ensures SizeIn(RemoveFrom(list, q, conn), pid) == SizeIn(list, pid) && |RemoveFrom(list, q, conn)| <= |list|
  {
    var i := IndexOf(list, q);
    if i != -1 {
      WithoutSize(list, i, pid, clock);
    }
  }

  /** Every continuation in which no further handler of pid passes leaves it within the limit. */
  ghost predicate StaysBounded(g: Gated, pid: PeerId) {
    forall run :: CanGateRun(g, run) && NoPass(run, pid) ==> CountOf(GateRun(g, run).mgr, pid) <= g.mgr.maxConns
  }

  /** What decides: the load; or, where pid's next entry replaces its old one, the larger part of it. */
  predicate WithinBounds(g: Gated, pid: PeerId) {
    if SoleOwn(g.mgr, pid) then SoleOwnBounded(g, pid) else Load(g, pid) <= g.mgr.maxConns
  }

  lemma BoundsSuffice(g: Gated, pid: PeerId)
    requires Inv(g.mgr) && WithinBounds(g, pid)
    ensures StaysBounded(g, pid)
  {
    forall run | CanGateRun(g, run) && NoPass(run, pid) ensures CountOf(GateRun(g, run).mgr, pid) <= g.mgr.maxConns {
      if SoleOwn(g.mgr, pid) {
        SoleOwnStays(g, run, pid);
      } else {
        NoPassKeepsLoad(g, run, pid);
      }
    }
  }

  lemma ExcessReachable(g: Gated, pid: PeerId) returns (run: seq<GateStep>)
    requires Inv(g.mgr) && !WithinBounds(g, pid)
    ensures CanGateRun(g, run) && NoPass(run, pid) && CountOf(GateRun(g, run).mgr, pid) > g.mgr.maxConns
  {
    if SoleOwn(g.mgr, pid) {
      if CountOf(g.mgr, pid) > g.mgr.maxConns {
        run := [];
      } else {
        var st := SoleOwnLeaves(g, pid);
        run := StepAndEnterAll(g, st, pid);
      }
    } else if Home(g.mgr, pid) {
      run := EnterAll(g, pid, g.handlers[pid]);
    } else {
      var st := MakeHome(g, pid);
      run := StepAndEnterAll(g, st, pid);
    }
  }

  /**
   * The handlers that have passed exceed the limit in some continuation exactly if
   * connections and handlers together do: the gate looks at the connections only.
   */
  lemma HandlersExceedIff(g: Gated, pid: PeerId)
    requires Inv(g.mgr)
    ensures StaysBounded(g, pid) <==> WithinBounds(g, pid)
  {
    if WithinBounds(g, pid) {
      BoundsSuffice(g, pid);
    } else {
      var run := ExcessReachable(g, pid);
      assert !(CountOf(GateRun(g, run).mgr, pid) <= g.mgr.maxConns);
    }
  }

  lemma {:induction false} PassMore(g: Gated, pid: PeerId, k: nat) returns (run: seq<GateStep>)
    requires Allowed(g.mgr, pid)
    ensures CanGateRun(g, run)
    ensures GateRun(g, run) == g.(handlers := g.handlers[pid := g.handlers[pid] + k])
    decreases k
  {
    if k == 0 {
      run := [];
      assert g.handlers[pid := g.handlers[pid]] == g.handlers;
    } else {
      var n := Gate(g, Pass(pid));
      var rest := PassMore(n, pid, k - 1);
      run := [Pass(pid)] + rest;
      assert run[1..] == rest;
      assert n.handlers[pid := n.handlers[pid] + (k - 1)] == g.handlers[pid := g.handlers[pid] + k];
    }
  }

  /** Under every configuration the gate lets through one handler more than the limit, if they come together. */
  lemma TogetherTheyExceed(maxPeers: nat, maxConns: nat, strategy: Strategy, pid: PeerId) returns (run: seq<GateStep>)
    requires maxPeers >= 1 && maxConns >= 1 && strategy != Unknown
    ensures var g := Gated(NewMgr(maxPeers, maxConns, strategy), multiset{});
            CanGateRun(g, run) && !StaysBounded(GateRun(g, run), pid)
  {
    var g := Gated(NewMgr(maxPeers, maxConns, strategy), multiset{});
    run := PassMore(g, pid, maxConns + 1);
    HandlersExceedIff(GateRun(g, run), pid);
  }
}
