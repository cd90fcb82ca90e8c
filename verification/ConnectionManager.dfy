// The two-level connection manager: components/connection_manager.go.
module ConnectionManager {
  import opened PeerOrder

  type ConnId = nat

  datatype Strategy = Unknown | Random | Fifo | Lifo

  /**
   * A listed peer. arrival numbers the entries in the order in which they were
   * created; nothing in the manager looks at it, statements about order do.
   */
  datatype Entry = Entry(pid: PeerId, conns: set<ConnId>, arrival: nat)

  datatype Level = High | Low

  datatype Mgr = Mgr(
    maxPeers: nat, maxConns: nat, strategy: Strategy, highPeers: set<PeerId>,
    high: seq<Entry>, low: seq<Entry>,
    eliminated: set<PeerId>, closed: set<ConnId>, clock: nat)

  /** Who left, and from which level. */
  datatype Eviction = Nobody | Evicted(entry: Entry, level: Level) | Failed

  datatype AddResult = AddResult(mgr: Mgr, added: bool, eviction: Eviction)

  // ---------------------------------------------------------------- lists

  function IndexOf(list: seq<Entry>, pid: PeerId): (i: int)
    ensures -1 <= i < |list|
    ensures i >= 0 ==> list[i].pid == pid && forall j :: 0 <= j < i ==> list[j].pid != pid
    ensures i == -1 ==> forall j :: 0 <= j < |list| ==> list[j].pid != pid
  {
    if list == [] then -1
    else if list[0].pid == pid then 0
    else var i := IndexOf(list[1..], pid);
         if i == -1 then -1 else i + 1
  }

  function Without(list: seq<Entry>, i: nat): (r: seq<Entry>)
    requires i < |list|
    ensures |r| == |list| - 1
  {
    list[..i] + list[i + 1..]
  }

  function Pids(list: seq<Entry>): (pids: seq<PeerId>)
    ensures |pids| == |list| && forall i :: 0 <= i < |list| ==> pids[i] == list[i].pid
  {
    seq(|list|, i requires 0 <= i < |list| => list[i].pid)
  }

  function Put(list: seq<Entry>, i: nat, conn: ConnId): seq<Entry>
    requires i < |list|
  {
    list[i := list[i].(conns := list[i].conns + {conn})]
  }

  // ---------------------------------------------------------------- the operations

  /** Which of n entries a strategy picks; random is what the random source said. */
  function Pick(strategy: Strategy, n: nat, random: nat): (i: nat)
    requires n > 0 && random < n
    ensures i < n
  {
    match strategy
    case Random => random
    case Fifo => 0
    case Lifo => n - 1
    case Unknown => n - 1
  }

  /** The size of the level that loses a peer when there are too many. */
  function Candidates(m: Mgr): nat {
    if |m.low| > 0 then |m.low| else |m.high|
  }

  function Eliminate(m: Mgr, eliminateHigh: bool, random: nat): (Mgr, Eviction)
    requires |m.high| + |m.low| > m.maxPeers ==> random < Candidates(m)
  {
    var m := if m.strategy == Unknown then m.(strategy := Lifo) else m;
    if |m.high| + |m.low| <= m.maxPeers then (m, Nobody)
    else if |m.low| > 0 then
      var i := Pick(m.strategy, |m.low|, random);
      (m.(low := Without(m.low, i), closed := m.closed + m.low[i].conns), Evicted(m.low[i], Low))
    else if !eliminateHigh then (m, Failed)
    else
      var i := Pick(m.strategy, |m.high|, random);
      (m.(high := Without(m.high, i), closed := m.closed + m.high[i].conns), Evicted(m.high[i], High))
  }

  function ListOf(m: Mgr, level: Level): seq<Entry> {
    if level == High then m.high else m.low
  }

  function LevelOf(m: Mgr, pid: PeerId): Level {
    if pid in m.highPeers then High else Low
  }

  function WithList(m: Mgr, level: Level, list: seq<Entry>): Mgr {
    if level == High then m.(high := list) else m.(low := list)
  }

  /** The manager with a new entry for pid, before anyone is eliminated. */
  function Listed(m: Mgr, pid: PeerId, conn: ConnId): Mgr {
    var level := LevelOf(m, pid);
    WithList(m, level, ListOf(m, level) + [Entry(pid, {conn}, m.clock)]).(clock := m.clock + 1)
  }

  predicate RandomOk(m: Mgr, pid: PeerId, conn: ConnId, random: nat) {
    var n := Listed(m, pid, conn);
    |n.high| + |n.low| > n.maxPeers ==> random < Candidates(n)
  }

  function Add(m: Mgr, pid: PeerId, conn: ConnId, random: nat): AddResult
    requires RandomOk(m, pid, conn, random)
  {
    var level := LevelOf(m, pid);
    var list := ListOf(m, level);
    var i := IndexOf(list, pid);
    if i != -1 then
      if conn in list[i].conns then AddResult(m, false, Nobody)
      else AddResult(WithList(m, level, Put(list, i, conn)), true, Nobody)
    else
      var (n, e) := Eliminate(Listed(m, pid, conn), level == High, random);
      AddResult(if e.Evicted? && e.entry.pid != [] then n.(eliminated := n.eliminated + {e.entry.pid}) else n, true, e)
  }

  function RemoveFrom(list: seq<Entry>, pid: PeerId, conn: ConnId): seq<Entry> {
    var i := IndexOf(list, pid);
    if i != -1 && conn in list[i].conns then Without(list, i) else list
  }

  function Remove(m: Mgr, pid: PeerId, conn: ConnId): Mgr {
    m.(high := RemoveFrom(m.high, pid, conn), low := RemoveFrom(m.low, pid, conn), eliminated := m.eliminated - {pid})
  }

  function Promote(m: Mgr, pid: PeerId): Mgr {
    m.(highPeers := m.highPeers + {pid})
  }

  function SizeIn(list: seq<Entry>, pid: PeerId): nat {
    var i := IndexOf(list, pid);
    if i == -1 then 0 else |list[i].conns|
  }

  /** How many connections the manager holds for a peer, over both levels. */
  function CountOf(m: Mgr, pid: PeerId): nat {
    SizeIn(m.high, pid) + SizeIn(m.low, pid)
  }

  predicate Allowed(m: Mgr, pid: PeerId) {
    if CountOf(m, pid) > 0 then CountOf(m, pid) < m.maxConns
    else if m.strategy == Lifo then
      (if pid in m.highPeers then |m.high| < m.maxPeers else |m.high| + |m.low| < m.maxPeers)
    else pid in m.highPeers || |m.high| < m.maxPeers
  }

  // ---------------------------------------------------------------- the invariant

  /** Peer IDs are unique, entries hold a connection, and the list is in order of arrival. */
  ghost predicate ListOk(list: seq<Entry>, clock: nat) {
    && (forall i, j :: 0 <= i < j < |list| ==> list[i].pid != list[j].pid && list[i].arrival < list[j].arrival)
    && (forall i :: 0 <= i < |list| ==> list[i].conns != {} && list[i].arrival < clock)
  }

  ghost predicate Inv(m: Mgr) {
    && m.maxPeers >= 1 && m.maxConns >= 1 && m.strategy != Unknown
    && |m.high| + |m.low| <= m.maxPeers
    && ListOk(m.high, m.clock) && ListOk(m.low, m.clock)
    && (forall i :: 0 <= i < |m.high| ==> m.high[i].pid in m.highPeers)
  }

  lemma WithoutOk(list: seq<Entry>, i: nat, clock: nat)
    requires i < |list| && ListOk(list, clock)
    ensures ListOk(Without(list, i), clock)
  {
    var r := Without(list, i);
    assert forall k :: 0 <= k < |r| ==> r[k] == if k < i then list[k] else list[k + 1];
  }

  lemma AppendOk(list: seq<Entry>, e: Entry, clock: nat)
    requires ListOk(list, clock) && IndexOf(list, e.pid) == -1 && e.conns != {} && e.arrival == clock
    ensures ListOk(list + [e], clock + 1)
  {
  }

  lemma PutOk(list: seq<Entry>, i: nat, conn: ConnId, clock: nat)
    requires i < |list| && ListOk(list, clock)
    ensures ListOk(Put(list, i, conn), clock)
  {
  }

  /** A manager that may hold one peer too many, as it is between listing and eliminating. */
  ghost predicate AlmostInv(m: Mgr) {
    && m.maxPeers >= 1 && m.maxConns >= 1 && m.strategy != Unknown
    && |m.high| + |m.low| <= m.maxPeers + 1
    && ListOk(m.high, m.clock) && ListOk(m.low, m.clock)
    && (forall i :: 0 <= i < |m.high| ==> m.high[i].pid in m.highPeers)
  }

  lemma ListedAlmostInv(m: Mgr, pid: PeerId, conn: ConnId)
    requires Inv(m) && IndexOf(ListOf(m, LevelOf(m, pid)), pid) == -1
    ensures AlmostInv(Listed(m, pid, conn))
  {
    if pid in m.highPeers {
      AppendOk(m.high, Entry(pid, {conn}, m.clock), m.clock);
    } else {
      AppendOk(m.low, Entry(pid, {conn}, m.clock), m.clock);
    }
  }

  lemma EliminateRestores(m: Mgr, eliminateHigh: bool, random: nat)
    requires AlmostInv(m) && (|m.high| + |m.low| > m.maxPeers ==> random < Candidates(m))
    requires |m.low| > 0 || eliminateHigh || |m.high| <= m.maxPeers
    ensures Inv(Eliminate(m, eliminateHigh, random).0) && !Eliminate(m, eliminateHigh, random).1.Failed?
  {
    if |m.high| + |m.low| > m.maxPeers {
      if |m.low| > 0 {
        WithoutOk(m.low, Pick(m.strategy, |m.low|, random), m.clock);
      } else {
        WithoutOk(m.high, Pick(m.strategy, |m.high|, random), m.clock);
      }
    }
  }

  /** Only a connection that the peer's entry on its level holds already is not added. */
  lemma AddedIff(m: Mgr, pid: PeerId, conn: ConnId, random: nat)
    requires Inv(m) && RandomOk(m, pid, conn, random)
    ensures Add(m, pid, conn, random).added <==> forall e :: e in ListOf(m, LevelOf(m, pid)) && e.pid == pid ==> conn !in e.conns
  {
    var list := ListOf(m, LevelOf(m, pid));
    var i := IndexOf(list, pid);
    if i != -1 {
      assert list[i] in list;
    }
  }

  /** Adding keeps the limits and the order, and never reaches the branch that calls itself a bug. */
  lemma AddKeepsInv(m: Mgr, pid: PeerId, conn: ConnId, random: nat)
    requires Inv(m) && RandomOk(m, pid, conn, random)
    ensures Inv(Add(m, pid, conn, random).mgr) && !Add(m, pid, conn, random).eviction.Failed?
  {
    var level := LevelOf(m, pid);
    var i := IndexOf(ListOf(m, level), pid);
    if i != -1 {
      PutOk(ListOf(m, level), i, conn, m.clock);
    } else {
      ListedAlmostInv(m, pid, conn);
      EliminateRestores(Listed(m, pid, conn), level == High, random);
    }
  }

  lemma RemoveKeepsInv(m: Mgr, pid: PeerId, conn: ConnId)
    requires Inv(m)
    ensures Inv(Remove(m, pid, conn))
  {
    var i, j := IndexOf(m.high, pid), IndexOf(m.low, pid);
    if i != -1 {
      WithoutOk(m.high, i, m.clock);
    }
    if j != -1 {
      WithoutOk(m.low, j, m.clock);
    }
  }

  lemma RemoveChangesIff(m: Mgr, pid: PeerId, conn: ConnId)
    ensures Remove(m, pid, conn) != m <==>
            || RemoveFrom(m.high, pid, conn) != m.high || RemoveFrom(m.low, pid, conn) != m.low
            || pid in m.eliminated
    ensures pid !in m.eliminated ==> m.eliminated - {pid} == m.eliminated
  {
  }

  // ---------------------------------------------------------------- runs

  datatype Op =
    | AddOp(pid: PeerId, conn: ConnId, random: nat)
    | RemoveOp(pid: PeerId, conn: ConnId)
    | PromoteOp(pid: PeerId)
    | StrategyOp(strategy: Strategy)

  predicate CanDo(m: Mgr, op: Op) {
    op.AddOp? ==> RandomOk(m, op.pid, op.conn, op.random)
  }

  function Do(m: Mgr, op: Op): Mgr
    requires CanDo(m, op)
  {
    match op
    case AddOp(pid, conn, random) => Add(m, pid, conn, random).mgr
    case RemoveOp(pid, conn) => Remove(m, pid, conn)
    case PromoteOp(pid) => Promote(m, pid)
    case StrategyOp(s) => m.(strategy := if s == Unknown then Lifo else s)
  }

  ghost predicate CanRun(m: Mgr, ops: seq<Op>)
    decreases |ops|
  {
    ops == [] || (CanDo(m, ops[0]) && CanRun(Do(m, ops[0]), ops[1..]))
  }

  ghost function Run(m: Mgr, ops: seq<Op>): Mgr
    requires CanRun(m, ops)
    decreases |ops|
  {
    if ops == [] then m else Run(Do(m, ops[0]), ops[1..])
  }

  lemma DoKeepsInv(m: Mgr, op: Op)
    requires Inv(m) && CanDo(m, op)
    ensures Inv(Do(m, op)) && Do(m, op).maxPeers == m.maxPeers && Do(m, op).maxConns == m.maxConns
  {
    match op
    case AddOp(pid, conn, random) => AddKeepsInv(m, pid, conn, random);
    case RemoveOp(pid, conn) => RemoveKeepsInv(m, pid, conn);
    case _ =>
  }

  lemma {:induction false} RunKeepsInv(m: Mgr, ops: seq<Op>)
    requires Inv(m) && CanRun(m, ops)
    ensures Inv(Run(m, ops)) && Run(m, ops).maxPeers == m.maxPeers && Run(m, ops).maxConns == m.maxConns
    decreases |ops|
  {
    if ops != [] {
      DoKeepsInv(m, ops[0]);
      RunKeepsInv(Do(m, ops[0]), ops[1..]);
    }
  }

  function NewMgr(maxPeers: nat, maxConns: nat, strategy: Strategy): Mgr {
    Mgr(maxPeers, maxConns, strategy, {}, [], [], {}, {}, 0)
  }

  /**
   * After any run of adding, removing and promoting peers, under any strategy, the
   * manager holds at most maxPeers peers, each at most once per level and with a
   * connection, both levels in order of arrival.
   */
  lemma LimitsHold(maxPeers: nat, maxConns: nat, strategy: Strategy, ops: seq<Op>)
    requires maxPeers >= 1 && maxConns >= 1 && strategy != Unknown
    requires CanRun(NewMgr(maxPeers, maxConns, strategy), ops)
    ensures var m := Run(NewMgr(maxPeers, maxConns, strategy), ops);
            Inv(m) && |m.high| + |m.low| <= maxPeers
  {
    RunKeepsInv(NewMgr(maxPeers, maxConns, strategy), ops);
  }

  // ---------------------------------------------------------------- the code

  const DEFAULT_MAX_PEERS: nat := 20
  const DEFAULT_MAX_CONNS: nat := 1
  const DEFAULT_STRATEGY: Strategy := Lifo

  class LevelConnectionManager {
    var maxCountOfPeers: nat
    var maxCountOfConnectionsEachPeer: nat
    var strategy: Strategy
    var highLevelPeers: set<PeerId>
    var highLevelConn: seq<Entry>
    var lowLevelConn: seq<Entry>
    var eliminatePeers: set<PeerId>

    /** Connections told to close because their peer was eliminated. */
    var closed: set<ConnId>
    var clock: nat

    constructor ()
      ensures View() == NewMgr(DEFAULT_MAX_PEERS, DEFAULT_MAX_CONNS, DEFAULT_STRATEGY) && Inv(View())
    {
      maxCountOfPeers, maxCountOfConnectionsEachPeer, strategy := DEFAULT_MAX_PEERS, DEFAULT_MAX_CONNS, DEFAULT_STRATEGY;
      highLevelPeers, highLevelConn, lowLevelConn, eliminatePeers := {}, [], [], {};
      closed, clock := {}, 0;
    }

    function View(): Mgr
      reads this
    {
      Mgr(maxCountOfPeers, maxCountOfConnectionsEachPeer, strategy, highLevelPeers,
          highLevelConn, lowLevelConn, eliminatePeers, closed, clock)
    }

    static method GetConnections(list: seq<Entry>, pid: PeerId) returns (idx: int)
      ensures idx == IndexOf(list, pid)
    {
      for i := 0 to |list|
        invariant forall j :: 0 <= j < i ==> list[j].pid != pid
      {
        if list[i].pid == pid {
          return i;
        }
      }
      idx := -1;
    }

    method CloseLow(i: nat)
      requires i < |lowLevelConn|
      modifies this`lowLevelConn, this`closed
      ensures lowLevelConn == Without(old(lowLevelConn), i) && closed == old(closed) + old(lowLevelConn[i].conns)
    {
      closed := closed + lowLevelConn[i].conns;
      if i == 0 {
        lowLevelConn := lowLevelConn[1..];
      } else if i == |lowLevelConn| - 1 {
        lowLevelConn := lowLevelConn[..i];
      } else {
        lowLevelConn := lowLevelConn[..i] + lowLevelConn[i + 1..];
      }
    }

    method CloseHigh(i: nat)
      requires i < |highLevelConn|
      modifies this`highLevelConn, this`closed
      ensures highLevelConn == Without(old(highLevelConn), i) && closed == old(closed) + old(highLevelConn[i].conns)
    {
      closed := closed + highLevelConn[i].conns;
      if i == 0 {
        highLevelConn := highLevelConn[1..];
      } else if i == |highLevelConn| - 1 {
        highLevelConn := highLevelConn[..i];
      } else {
        highLevelConn := highLevelConn[..i] + highLevelConn[i + 1..];
      }
    }

    /** The strategy's choice of one level. */
    method EliminateLow(random: nat) returns (ePID: PeerId)
      requires random < |lowLevelConn|
      modifies this`lowLevelConn, this`closed
      ensures var i := Pick(strategy, |old(lowLevelConn)|, random);
              && lowLevelConn == Without(old(lowLevelConn), i) && ePID == old(lowLevelConn)[i].pid
              && closed == old(closed) + old(lowLevelConn)[i].conns
    {
      var i := if strategy == Random then random else if strategy == Fifo then 0 else |lowLevelConn| - 1;
      ePID := lowLevelConn[i].pid;
      CloseLow(i);
    }

    method EliminateHigh(random: nat) returns (ePID: PeerId)
      requires random < |highLevelConn|
      modifies this`highLevelConn, this`closed
      ensures var i := Pick(strategy, |old(highLevelConn)|, random);
              && highLevelConn == Without(old(highLevelConn), i) && ePID == old(highLevelConn)[i].pid
              && closed == old(closed) + old(highLevelConn)[i].conns
    {
      var i := if strategy == Random then random else if strategy == Fifo then 0 else |highLevelConn| - 1;
      ePID := highLevelConn[i].pid;
      CloseHigh(i);
    }

    method EliminateConnections(eliminateHigh: bool, random: nat) returns (ePID: PeerId, ok: bool)
      requires |highLevelConn| + |lowLevelConn| > maxCountOfPeers ==> random < Candidates(View())
      modifies this`strategy, this`highLevelConn, this`lowLevelConn, this`closed
      ensures View() == Eliminate(old(View()), eliminateHigh, random).0
      ensures var e := Eliminate(old(View()), eliminateHigh, random).1;
              ok == !e.Failed? && ePID == if e.Evicted? then e.entry.pid else []
      ensures strategy == if old(strategy) == Unknown then DEFAULT_STRATEGY else old(strategy)
    {
      if strategy == Unknown {
        strategy := DEFAULT_STRATEGY;
      }
      if |highLevelConn| + |lowLevelConn| <= maxCountOfPeers {
        return [], true;
      }
      if |lowLevelConn| > 0 {
        ePID := EliminateLow(random);
        return ePID, true;
      }
      if !eliminateHigh {
        return [], false;
      }
      ePID := EliminateHigh(random);
      ok := true;
    }

    /** The set of an entry takes the connection in, if it is new. */
    static method PutInto(list: seq<Entry>, i: nat, conn: ConnId) returns (r: seq<Entry>, added: bool)
      requires i < |list|
      ensures added <==> conn !in list[i].conns
      ensures r == if added then Put(list, i, conn) else list
    {
      r, added := list, conn !in list[i].conns;
      if added {
        r := list[i := list[i].(conns := list[i].conns + {conn})];
      }
    }

    /** The peer is listed where it belongs. */
    method AddToEntry(pid: PeerId, conn: ConnId, i: nat, ghost random: nat) returns (added: bool)
      requires RandomOk(View(), pid, conn, random)
      requires IndexOf(ListOf(View(), LevelOf(View(), pid)), pid) == i
      modifies this`highLevelConn, this`lowLevelConn
      ensures View() == Add(old(View()), pid, conn, random).mgr && added == Add(old(View()), pid, conn, random).added
    {
      if pid in highLevelPeers {
        highLevelConn, added := PutInto(highLevelConn, i, conn);
      } else {
        lowLevelConn, added := PutInto(lowLevelConn, i, conn);
      }
    }

    /** A new entry for the peer. */
    method AddEntry(pid: PeerId, conn: ConnId)
      modifies this`clock, this`highLevelConn, this`lowLevelConn
      ensures View() == Listed(old(View()), pid, conn)
    {
      var pc := Entry(pid, {conn}, clock);
      clock := clock + 1;
      if pid in highLevelPeers {
        highLevelConn := highLevelConn + [pc];
      } else {
        lowLevelConn := lowLevelConn + [pc];
      }
    }

    method AddPeerConnection(pid: PeerId, conn: ConnId, random: nat) returns (added: bool)
      requires Inv(View()) && RandomOk(View(), pid, conn, random)
      modifies this
      ensures View() == Do(old(View()), AddOp(pid, conn, random)) && added == Add(old(View()), pid, conn, random).added
      ensures Inv(View())
      ensures added <==> forall e :: e in ListOf(old(View()), LevelOf(old(View()), pid)) && e.pid == pid ==> conn !in e.conns
    {
      AddKeepsInv(View(), pid, conn, random);
      AddedIff(View(), pid, conn, random);
      var highLevel := pid in highLevelPeers;
      var i := GetConnections(if highLevel then highLevelConn else lowLevelConn, pid);
      if i != -1 {
        added := AddToEntry(pid, conn, i, random);
        return;
      }
      AddEntry(pid, conn);
      var ePID, ok := EliminateConnections(highLevel, random);
      assert ok;  // else the code logs a fatal error
      if ePID != [] {
        eliminatePeers := eliminatePeers + {ePID};
      }
      added := true;
    }

    static method RemoveEntry(list: seq<Entry>, pid: PeerId, conn: ConnId) returns (r: seq<Entry>, removed: bool)
      ensures r == RemoveFrom(list, pid, conn)
      ensures removed <==> r != list
    {
      var idx := GetConnections(list, pid);
      removed := idx != -1 && conn in list[idx].conns;
      r := list;
      if removed {
        if idx == |list| - 1 {
          r := list[..idx];
        } else {
          r := list[..idx] + list[idx + 1..];
        }
      }
    }

    /** Drops the whole entry of the peer, and forgets that it was eliminated. */
    method RemovePeerConnection(pid: PeerId, conn: ConnId) returns (removed: bool)
      requires Inv(View())
      modifies this
      ensures View() == Do(old(View()), RemoveOp(pid, conn))
      ensures removed <==> View() != old(View())
      ensures Inv(View())
    {
      RemoveKeepsInv(View(), pid, conn);
      RemoveChangesIff(View(), pid, conn);
      var fromHigh, fromLow;
      highLevelConn, fromHigh := RemoveEntry(highLevelConn, pid, conn);
      lowLevelConn, fromLow := RemoveEntry(lowLevelConn, pid, conn);
      removed := fromHigh || fromLow;
      if pid in eliminatePeers {
        eliminatePeers := eliminatePeers - {pid};
        removed := true;
      }
    }

    method AddHighLevelPeer(pid: PeerId)
      requires Inv(View())
      modifies this`highLevelPeers
      ensures View() == Do(old(View()), PromoteOp(pid)) && Inv(View())
      ensures highLevelPeers == old(highLevelPeers) + {pid}
    {
      highLevelPeers := highLevelPeers + {pid};
    }

    method SetStrategy(strategy: Strategy)
      modifies this`strategy
      ensures View() == Do(old(View()), StrategyOp(strategy))
      ensures this.strategy == if strategy in {Random, Fifo, Lifo} then strategy else DEFAULT_STRATEGY
    {
      if strategy == Random || strategy == Fifo || strategy == Lifo {
        this.strategy := strategy;
      } else {
        this.strategy := DEFAULT_STRATEGY;
      }
    }

    method IsAllowed(pid: PeerId) returns (allowed: bool)
      ensures allowed == Allowed(View(), pid)
      ensures CountOf(View(), pid) > 0 ==> (allowed <==> CountOf(View(), pid) < maxCountOfConnectionsEachPeer)
    {
      var currentCount := 0;
      var i := GetConnections(highLevelConn, pid);
      if i != -1 {
        currentCount := currentCount + |highLevelConn[i].conns|;
      }
      i := GetConnections(lowLevelConn, pid);
      if i != -1 {
        currentCount := currentCount + |lowLevelConn[i].conns|;
      }
      if currentCount > 0 {
        return currentCount < maxCountOfConnectionsEachPeer;
      }
      var highLevel := pid in highLevelPeers;
      if strategy == Lifo {
        if highLevel {
          return |highLevelConn| < maxCountOfPeers;
        }
        return |highLevelConn| + |lowLevelConn| < maxCountOfPeers;
      }
      if !highLevel {
        return |highLevelConn| < maxCountOfPeers;
      }
      allowed := true;
    }

    method AllPeers() returns (res: seq<PeerId>)
      ensures res == Pids(highLevelConn) + Pids(lowLevelConn)
    {
      res := [];
      for i := 0 to |highLevelConn|
        invariant res == Pids(highLevelConn)[..i]
      {
        res := res + [highLevelConn[i].pid];
      }
      for i := 0 to |lowLevelConn|
        invariant res == Pids(highLevelConn) + Pids(lowLevelConn)[..i]
      {
        res := res + [lowLevelConn[i].pid];
      }
    }

    /** A peer is connected exactly when AllPeers lists it. */
    method Connected(pid: PeerId) returns (connected: bool)
      requires Inv(View())
      ensures connected <==> pid in Pids(highLevelConn) + Pids(lowLevelConn)
    {
      var i := GetConnections(highLevelConn, pid);
      if i != -1 && |highLevelConn[i].conns| > 0 {
        assert Pids(highLevelConn)[i] == pid;
        return true;
      }
      i := GetConnections(lowLevelConn, pid);
      if i != -1 && |lowLevelConn[i].conns| > 0 {
        assert Pids(lowLevelConn)[i] == pid;
        return true;
      }
      connected := false;
    }
  }
}
