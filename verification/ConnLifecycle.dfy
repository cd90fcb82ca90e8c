// Connections coming and going: handleNewConnection and handleClosingConn of
// host.go over the connection manager and the pool manager.
//
// Handlers of different connections interleave at every call of a manager.
module ConnLifecycle {
  import opened PeerOrder
  import CM = ConnectionManager
  import opened PoolManager

  /**
   * How far a connection is: its pool is registered, it has been added to the
   * connection manager (its accept loop runs), or its closing handler has removed it
   * there. A connection nothing is done for any more is Finished, if it was turned away
   * or its closing handler came to its end, with the pool removed or (see Leaks) still
   * there; or Abandoned, if its goroutine went away before that: an accept loop that
   * ends without calling the closing handler, or was never started because what comes
   * before it failed, or a closing handler that panics or blocks on its way.
   */
  datatype Phase = Pooled | Running | Removing | Finished | Abandoned

  datatype World = World(mgr: CM.Mgr, pools: Pools, phases: map<ConnId, Phase>, peers: map<ConnId, PeerId>)

  datatype Step =
    | AddPool(conn: ConnId, pid: PeerId, pool: PoolId)
    | AddConn(conn: ConnId, random: nat)
    | RemoveConn(conn: ConnId)
    | RemovePool(conn: ConnId)
    | Abandon(conn: ConnId)
    | PromotePeer(pid: PeerId)

  predicate CanStep(w: World, st: Step) {
    match st
    case AddPool(conn, _, _) => conn !in w.phases
    case AddConn(conn, random) =>
      InPhase(w, conn, Pooled) && CM.RandomOk(w.mgr, w.peers[conn], conn, random)
    case RemoveConn(conn) => InPhase(w, conn, Running)
    case RemovePool(conn) => InPhase(w, conn, Removing)
    case Abandon(conn) => InPhase(w, conn, Running) || InPhase(w, conn, Removing)
    case PromotePeer(_) => true
  }

  predicate InPhase(w: World, conn: ConnId, phase: Phase) {
    conn in w.phases && w.phases[conn] == phase && conn in w.peers
  }

  function Next(w: World, st: Step): World
    requires CanStep(w, st)
  {
    match st
    case AddPool(conn, pid, pool) =>
      w.(pools := Added(w.pools, pid, conn, pool),
         phases := w.phases[conn := if Has(w.pools, pid, conn) then Finished else Pooled],
         peers := w.peers[conn := pid])
    case AddConn(conn, random) =>
      var r := CM.Add(w.mgr, w.peers[conn], conn, random);
      w.(mgr := r.mgr, phases := w.phases[conn := if r.added then Running else Finished])
    case RemoveConn(conn) =>
      var m := CM.Remove(w.mgr, w.peers[conn], conn);
      w.(mgr := m, phases := w.phases[conn := if m != w.mgr then Removing else Finished])
    case RemovePool(conn) =>
      w.(pools := Removed(w.pools, w.peers[conn], conn), phases := w.phases[conn := Finished])
    case Abandon(conn) =>
      w.(phases := w.phases[conn := Abandoned])
    case PromotePeer(pid) =>
      w.(mgr := CM.Promote(w.mgr, pid))
  }

  /** The connection manager holds this connection for this peer. */
  ghost predicate HeldIn(list: seq<CM.Entry>, pid: PeerId, conn: ConnId) {
    exists i :: 0 <= i < |list| && list[i].pid == pid && conn in list[i].conns
  }

  ghost predicate Held(m: CM.Mgr, pid: PeerId, conn: ConnId) {
    HeldIn(m.high, pid, conn) || HeldIn(m.low, pid, conn)
  }

  /** Its accept loop runs, or has gone without telling anybody. */
  predicate Accepting(w: World, conn: ConnId) {
    InPhase(w, conn, Running) || InPhase(w, conn, Abandoned)
  }

  /** No connection is on both levels. */
  ghost predicate HeldOnce(m: CM.Mgr) {
    forall pid, conn :: !(HeldIn(m.high, pid, conn) && HeldIn(m.low, pid, conn))
  }

  ghost predicate Inv(w: World) {
    && CM.Inv(w.mgr)
    && NoEmptyPeers(w.pools)
    && w.phases.Keys == w.peers.Keys
    && (forall pid, conn :: Held(w.mgr, pid, conn) ==> Accepting(w, conn) && w.peers[conn] == pid)
    && HeldOnce(w.mgr)
    && (forall conn :: conn in w.phases && w.phases[conn] != Finished ==> Has(w.pools, w.peers[conn], conn))
    && (forall pid, conn :: Has(w.pools, pid, conn) ==> conn in w.phases && w.peers[conn] == pid)
  }

  // ---------------------------------------------------------------- who is held

  lemma HeldWithout(list: seq<CM.Entry>, i: nat, pid: PeerId, conn: ConnId)
    requires i < |list| && HeldIn(CM.Without(list, i), pid, conn)
    ensures HeldIn(list, pid, conn)
  {
    var r := CM.Without(list, i);
    var k :| 0 <= k < |r| && r[k].pid == pid && conn in r[k].conns;
    assert r[k] == list[if k < i then k else k + 1];
  }

  lemma HeldAppend(list: seq<CM.Entry>, e: CM.Entry, pid: PeerId, conn: ConnId)
    requires HeldIn(list + [e], pid, conn)
    ensures HeldIn(list, pid, conn) || (e.pid == pid && conn in e.conns)
  {
    var r := list + [e];
    var k :| 0 <= k < |r| && r[k].pid == pid && conn in r[k].conns;
    if k < |list| {
      assert list[k] == r[k];
    }
  }

  lemma HeldPut(list: seq<CM.Entry>, i: nat, c: ConnId, pid: PeerId, conn: ConnId)
    requires i < |list| && HeldIn(CM.Put(list, i, c), pid, conn)
    ensures HeldIn(list, pid, conn) || (list[i].pid == pid && conn == c)
  {
    var r := CM.Put(list, i, c);
    var k :| 0 <= k < |r| && r[k].pid == pid && conn in r[k].conns;
    if k != i {
      assert list[k] == r[k];
    } else if conn != c {
      assert conn in list[i].conns;
    }
  }

  /** Adding a connection makes each level hold nothing but that, and only the peer's own level. */
  lemma AddHoldsAt(m: CM.Mgr, p: PeerId, c: ConnId, random: nat, at: CM.Level, pid: PeerId, conn: ConnId)
    requires CM.RandomOk(m, p, c, random)
    requires HeldIn(CM.ListOf(CM.Add(m, p, c, random).mgr, at), pid, conn)
    ensures HeldIn(CM.ListOf(m, at), pid, conn)
            || (pid == p && conn == c && at == CM.LevelOf(m, p) && CM.Add(m, p, c, random).added)
  {
    var level := CM.LevelOf(m, p);
    var list := CM.ListOf(m, level);
    var i := CM.IndexOf(list, p);
    if i != -1 {
      if at == level && c !in list[i].conns {
        HeldPut(list, i, c, pid, conn);
      }
    } else {
      EliminateHoldsAt(CM.Listed(m, p, c), level == CM.High, random, at, pid, conn);
      if at == level {
        HeldAppend(list, CM.Entry(p, {c}, m.clock), pid, conn);
      }
    }
  }

  lemma EliminateHoldsAt(m: CM.Mgr, high: bool, random: nat, at: CM.Level, pid: PeerId, conn: ConnId)
    requires |m.high| + |m.low| > m.maxPeers ==> random < CM.Candidates(m)
    requires HeldIn(CM.ListOf(CM.Eliminate(m, high, random).0, at), pid, conn)
    ensures HeldIn(CM.ListOf(m, at), pid, conn)
  {
    if |m.high| + |m.low| > m.maxPeers {
      var strategy := if m.strategy == CM.Unknown then CM.Lifo else m.strategy;
      if |m.low| > 0 {
        if at == CM.Low {
          HeldWithout(m.low, CM.Pick(strategy, |m.low|, random), pid, conn);
        }
      } else if high && at == CM.High {
        HeldWithout(m.high, CM.Pick(strategy, |m.high|, random), pid, conn);
      }
    }
  }

  /** Adding a connection makes the manager hold nothing but that. */
  lemma AddHolds(m: CM.Mgr, p: PeerId, c: ConnId, random: nat, pid: PeerId, conn: ConnId)
    requires CM.RandomOk(m, p, c, random)
    requires Held(CM.Add(m, p, c, random).mgr, pid, conn)
    ensures Held(m, pid, conn) || (pid == p && conn == c && CM.Add(m, p, c, random).added)
  {
    AddHoldsAt(m, p, c, random, if HeldIn(CM.Add(m, p, c, random).mgr.high, pid, conn) then CM.High else CM.Low, pid, conn);
  }

  lemma AddHoldsOnce(m: CM.Mgr, p: PeerId, c: ConnId, random: nat)
    requires CM.RandomOk(m, p, c, random) && HeldOnce(m) && forall pid :: !Held(m, pid, c)
    ensures HeldOnce(CM.Add(m, p, c, random).mgr)
  {
    var n := CM.Add(m, p, c, random).mgr;
    forall pid, conn ensures !(HeldIn(n.high, pid, conn) && HeldIn(n.low, pid, conn)) {
      assert !Held(m, pid, c) && !(HeldIn(m.high, pid, conn) && HeldIn(m.low, pid, conn));
      if HeldIn(n.high, pid, conn) && HeldIn(n.low, pid, conn) {
        AddHoldsAt(m, p, c, random, CM.High, pid, conn);
        AddHoldsAt(m, p, c, random, CM.Low, pid, conn);
        assert false;
      }
    }
  }

  lemma RemoveHoldsOnce(m: CM.Mgr, p: PeerId, c: ConnId)
    requires CM.Inv(m) && HeldOnce(m)
    ensures HeldOnce(CM.Remove(m, p, c))
  {
    var n := CM.Remove(m, p, c);
    forall pid, conn ensures !(HeldIn(n.high, pid, conn) && HeldIn(n.low, pid, conn)) {
      if HeldIn(n.high, pid, conn) && HeldIn(n.low, pid, conn) {
        RemoveFromHolds(m.high, m.clock, p, c, pid, conn);
        RemoveFromHolds(m.low, m.clock, p, c, pid, conn);
        assert false;
      }
    }
  }

  lemma RemoveFromHolds(list: seq<CM.Entry>, clock: nat, p: PeerId, c: ConnId, pid: PeerId, conn: ConnId)
    requires CM.ListOk(list, clock)
    requires HeldIn(CM.RemoveFrom(list, p, c), pid, conn)
    ensures HeldIn(list, pid, conn) && !(pid == p && conn == c)
  {
    var i := CM.IndexOf(list, p);
    var r := CM.RemoveFrom(list, p, c);
    var k :| 0 <= k < |r| && r[k].pid == pid && conn in r[k].conns;
    if i != -1 && c in list[i].conns {
      assert r[k] == list[if k < i then k else k + 1];
    }
  }

  /** After removing a connection the manager does not hold it any more, nor anything new. */
  lemma RemoveHolds(m: CM.Mgr, p: PeerId, c: ConnId, pid: PeerId, conn: ConnId)
    requires CM.Inv(m) && Held(CM.Remove(m, p, c), pid, conn)
    ensures Held(m, pid, conn) && !(pid == p && conn == c)
  {
    if HeldIn(CM.RemoveFrom(m.high, p, c), pid, conn) {
      RemoveFromHolds(m.high, m.clock, p, c, pid, conn);
    } else {
      RemoveFromHolds(m.low, m.clock, p, c, pid, conn);
    }
  }

  // ---------------------------------------------------------------- what a removal takes along

  /** Between before and after, connection c of p has gone, and nothing else. */
  ghost predicate LosesOnly(before: seq<CM.Entry>, after: seq<CM.Entry>, p: PeerId, c: ConnId) {
    forall pid, conn :: HeldIn(after, pid, conn) <==> HeldIn(before, pid, conn) && !(pid == p && conn == c)
  }

  /** The entry of p that holds c, if there is one, holds nothing else. */
  ghost predicate HeldAlone(list: seq<CM.Entry>, p: PeerId, c: ConnId) {
    forall i :: 0 <= i < |list| && list[i].pid == p && c in list[i].conns ==> list[i].conns == {c}
  }

  lemma EntryGone(list: seq<CM.Entry>, i: nat, clock: nat, conn: ConnId)
    requires i < |list| && CM.ListOk(list, clock)
    ensures !HeldIn(CM.Without(list, i), list[i].pid, conn)
  {
    var r := CM.Without(list, i);
    assert forall k :: 0 <= k < |r| ==> r[k] == list[if k < i then k else k + 1];
  }

  lemma RemoveFromExactIff(list: seq<CM.Entry>, clock: nat, p: PeerId, c: ConnId)
    requires CM.ListOk(list, clock)
    ensures LosesOnly(list, CM.RemoveFrom(list, p, c), p, c) <==> HeldAlone(list, p, c)
  {
    var i := CM.IndexOf(list, p);
    var r := CM.RemoveFrom(list, p, c);
    if i != -1 && c in list[i].conns {
      if HeldAlone(list, p, c) {
        forall pid, conn | HeldIn(list, pid, conn) && !(pid == p && conn == c) ensures HeldIn(r, pid, conn) {
          var k :| 0 <= k < |list| && list[k].pid == pid && conn in list[k].conns;
          assert k != i && r[if k < i then k else k - 1] == list[k];
        }
        forall pid, conn | HeldIn(r, pid, conn) ensures HeldIn(list, pid, conn) && !(pid == p && conn == c) {
          RemoveFromHolds(list, clock, p, c, pid, conn);
        }
      } else {
        var conn :| conn in list[i].conns && conn != c;
        assert HeldIn(list, p, conn);
        EntryGone(list, i, clock, conn);
      }
    } else {
      assert !HeldIn(list, p, c);
    }
  }

  /** Removing a connection is exact on both levels: no other connection goes with it. */
  ghost predicate RemovesExactly(m: CM.Mgr, p: PeerId, c: ConnId) {
    var n := CM.Remove(m, p, c);
    LosesOnly(m.high, n.high, p, c) && LosesOnly(m.low, n.low, p, c)
  }

  /** It is, exactly if the peer has no other connection in the entry that holds this one. */
  lemma RemoveExactIff(m: CM.Mgr, p: PeerId, c: ConnId)
    requires CM.Inv(m)
    ensures RemovesExactly(m, p, c) <==> HeldAlone(m.high, p, c) && HeldAlone(m.low, p, c)
  {
    RemoveFromExactIff(m.high, m.clock, p, c);
    RemoveFromExactIff(m.low, m.clock, p, c);
  }

  /** So it is with one connection of the peer, the default limit. */
  lemma OneConnectionRemovesExactly(m: CM.Mgr, p: PeerId, c: ConnId)
    requires CM.Inv(m) && CM.CountOf(m, p) <= 1
    ensures RemovesExactly(m, p, c)
  {
    SmallEntryHoldsAlone(m.high, m.clock, p, c);
    SmallEntryHoldsAlone(m.low, m.clock, p, c);
    RemoveExactIff(m, p, c);
  }

  lemma SmallEntryHoldsAlone(list: seq<CM.Entry>, clock: nat, p: PeerId, c: ConnId)
    requires CM.ListOk(list, clock) && CM.SizeIn(list, p) <= 1
    ensures HeldAlone(list, p, c)
  {
    forall i | 0 <= i < |list| && list[i].pid == p && c in list[i].conns ensures list[i].conns == {c} {
      assert CM.IndexOf(list, p) == i;
      assert |list[i].conns - {c}| == |list[i].conns| - 1;
      assert list[i].conns == {c} + (list[i].conns - {c});
    }
  }

  /** With two it is not: the second, though open, is no longer held. */
  lemma SecondConnectionDropped(p: PeerId) returns (m: CM.Mgr)
    ensures CM.Inv(m) && Held(m, p, 0) && Held(m, p, 1)
    ensures !Held(CM.Remove(m, p, 0), p, 1) && 1 !in CM.Remove(m, p, 0).closed
  {
    m := CM.Mgr(20, 2, CM.Lifo, {}, [], [CM.Entry(p, {0, 1}, 0)], {}, {}, 1);
    assert m.low[0].pid == p;
    assert CM.Remove(m, p, 0).low == [];
  }

  // ---------------------------------------------------------------- the invariant over runs

  lemma AddPoolKeepsInv(w: World, st: Step)
    requires Inv(w) && st.AddPool? && CanStep(w, st)
    ensures Inv(Next(w, st))
  {
    AddedHas(w.pools, st.pid, st.conn, st.pool);
  }

  lemma AddConnKeepsInv(w: World, st: Step)
    requires Inv(w) && st.AddConn? && CanStep(w, st)
    ensures Inv(Next(w, st))
  {
    var n := Next(w, st);
    CM.AddKeepsInv(w.mgr, w.peers[st.conn], st.conn, st.random);
    AddHoldsOnce(w.mgr, w.peers[st.conn], st.conn, st.random);
    forall pid, conn | Held(n.mgr, pid, conn) ensures Accepting(n, conn) && n.peers[conn] == pid {
      AddHolds(w.mgr, w.peers[st.conn], st.conn, st.random, pid, conn);
    }
  }

  lemma RemoveConnKeepsInv(w: World, st: Step)
    requires Inv(w) && st.RemoveConn? && CanStep(w, st)
    ensures Inv(Next(w, st))
  {
    var n := Next(w, st);
    CM.RemoveKeepsInv(w.mgr, w.peers[st.conn], st.conn);
    RemoveHoldsOnce(w.mgr, w.peers[st.conn], st.conn);
    forall pid, conn | Held(n.mgr, pid, conn) ensures Accepting(n, conn) && n.peers[conn] == pid {
      RemoveHolds(w.mgr, w.peers[st.conn], st.conn, pid, conn);
      assert conn != st.conn;
    }
  }

  lemma RemovePoolKeepsInv(w: World, st: Step)
    requires Inv(w) && st.RemovePool? && CanStep(w, st)
    ensures Inv(Next(w, st))
  {
    RemovedHas(w.pools, w.peers[st.conn], st.conn);
    assert !Held(w.mgr, w.peers[st.conn], st.conn);
  }

  lemma AbandonKeepsInv(w: World, st: Step)
    requires Inv(w) && st.Abandon? && CanStep(w, st)
    ensures Inv(Next(w, st))
  {
  }

  lemma StepKeepsInv(w: World, st: Step)
    requires Inv(w) && CanStep(w, st)
    ensures Inv(Next(w, st))
  {
    match st
    case AddPool(_, _, _) => AddPoolKeepsInv(w, st);
    case AddConn(_, _) => AddConnKeepsInv(w, st);
    case RemoveConn(_) => RemoveConnKeepsInv(w, st);
    case RemovePool(_) => RemovePoolKeepsInv(w, st);
    case Abandon(_) => AbandonKeepsInv(w, st);
    case PromotePeer(_) =>
      forall pid, conn | Held(Next(w, st).mgr, pid, conn) ensures Held(w.mgr, pid, conn) {
      }
  }

  ghost predicate CanRun(w: World, run: seq<Step>)
    decreases |run|
  {
    run == [] || (CanStep(w, run[0]) && CanRun(Next(w, run[0]), run[1..]))
  }

  ghost function Run(w: World, run: seq<Step>): World
    requires CanRun(w, run)
    decreases |run|
  {
    if run == [] then w else Run(Next(w, run[0]), run[1..])
  }

  lemma {:induction false} RunKeepsInv(w: World, run: seq<Step>)
    requires Inv(w) && CanRun(w, run)
    ensures Inv(Run(w, run))
    decreases |run|
  {
    if run != [] {
      StepKeepsInv(w, run[0]);
      RunKeepsInv(Next(w, run[0]), run[1..]);
    }
  }

  /** The calls of the connection manager that a step makes. */
  function ManagerCalls(w: World, st: Step): seq<CM.Op>
    requires CanStep(w, st)
  {
    match st
    case AddConn(conn, random) => [CM.AddOp(w.peers[conn], conn, random)]
    case RemoveConn(conn) => [CM.RemoveOp(w.peers[conn], conn)]
    case PromotePeer(pid) => [CM.PromoteOp(pid)]
    case _ => []
  }

  ghost function AllManagerCalls(w: World, run: seq<Step>): seq<CM.Op>
    requires CanRun(w, run)
    decreases |run|
  {
    if run == [] then [] else ManagerCalls(w, run[0]) + AllManagerCalls(Next(w, run[0]), run[1..])
  }

  /** To the connection manager every run of the handlers is a run of its own operations. */
  lemma {:induction false} RunsTheManager(w: World, run: seq<Step>)
    requires CanRun(w, run)
    ensures CM.CanRun(w.mgr, AllManagerCalls(w, run))
    ensures CM.Run(w.mgr, AllManagerCalls(w, run)) == Run(w, run).mgr
    decreases |run|
  {
    if run != [] {
      var calls, rest := ManagerCalls(w, run[0]), AllManagerCalls(Next(w, run[0]), run[1..]);
      RunsTheManager(Next(w, run[0]), run[1..]);
      if calls == [] {
        assert calls + rest == rest;
      } else {
        assert (calls + rest)[1..] == rest;
        assert CM.Do(w.mgr, calls[0]) == Next(w, run[0]).mgr;
      }
    }
  }

  // ---------------------------------------------------------------- pools that outlive their connection

  /** Somebody is still going to do something for the connection. */
  predicate LookedAfter(w: World, conn: ConnId) {
    conn in w.phases && w.phases[conn] != Finished && w.phases[conn] != Abandoned
  }

  /** Every registered pool belongs to a connection of its peer that is looked after. */
  ghost predicate AllLive(w: World) {
    forall pid, conn :: Has(w.pools, pid, conn) ==>
      LookedAfter(w, conn) && conn in w.peers && w.peers[conn] == pid
  }

  lemma StepKeepsPool(w: World, st: Step, pid: PeerId, conn: ConnId)
    requires Inv(w) && CanStep(w, st) && Has(w.pools, pid, conn)
    ensures Has(Next(w, st).pools, pid, conn) <==> st != RemovePool(conn)
    ensures conn in Next(w, st).phases && (st == RemovePool(conn) ==> Next(w, st).phases[conn] == Finished)
    ensures w.phases[conn] == Finished ==> Next(w, st).phases[conn] == Finished
  {
    match st
    case AddPool(c, q, pool) => AddedHas(w.pools, q, c, pool);
    case RemovePool(c) => RemovedHas(w.pools, w.peers[c], c);
    case _ =>
  }

  lemma StepStaysGone(w: World, st: Step, pid: PeerId, conn: ConnId)
    requires Inv(w) && CanStep(w, st) && InPhase(w, conn, Finished) && !Has(w.pools, pid, conn)
    ensures InPhase(Next(w, st), conn, Finished) && !Has(Next(w, st).pools, pid, conn) && st != RemovePool(conn)
  {
    match st
    case AddPool(c, q, pool) => AddedHas(w.pools, q, c, pool);
    case RemovePool(c) => RemovedHas(w.pools, w.peers[c], c);
    case _ =>
  }

  /** Nothing is done any more for a connection without a pool. */
  lemma {:induction false} GoneForGood(w: World, run: seq<Step>, pid: PeerId, conn: ConnId)
    requires Inv(w) && CanRun(w, run) && InPhase(w, conn, Finished) && !Has(w.pools, pid, conn)
    ensures InPhase(Run(w, run), conn, Finished) && !Has(Run(w, run).pools, pid, conn)
    ensures RemovePool(conn) !in run
    decreases |run|
  {
    if run != [] {
      StepStaysGone(w, run[0], pid, conn);
      StepKeepsInv(w, run[0]);
      GoneForGood(Next(w, run[0]), run[1..], pid, conn);
      assert run == [run[0]] + run[1..];
    }
  }

  /** A registered pool is there until the closing handler of its connection removes it, and never again after that. */
  lemma {:induction false} PoolStaysIff(w: World, run: seq<Step>, pid: PeerId, conn: ConnId)
    requires Inv(w) && CanRun(w, run) && Has(w.pools, pid, conn)
    ensures Has(Run(w, run).pools, pid, conn) <==> RemovePool(conn) !in run
    decreases |run|
  {
    if run != [] {
      var n := Next(w, run[0]);
      assert run == [run[0]] + run[1..];
      StepKeepsPool(w, run[0], pid, conn);
      StepKeepsInv(w, run[0]);
      if run[0] == RemovePool(conn) {
        GoneForGood(n, run[1..], pid, conn);
      } else {
        PoolStaysIff(n, run[1..], pid, conn);
      }
    }
  }

  /**
   * The two ways to leave a pool behind: the goroutine goes away before the pool is
   * removed; or the closing handler finds nothing to remove and returns, because the
   * peer's entry is gone and so is the note that it was eliminated.
   */
  ghost predicate Leaks(w: World, st: Step)
    requires CanStep(w, st)
  {
    || st.Abandon?
    || (st.RemoveConn? && !Held(w.mgr, w.peers[st.conn], st.conn) && w.peers[st.conn] !in w.mgr.eliminated)
  }

  lemma RemoveFromSameIff(list: seq<CM.Entry>, clock: nat, p: PeerId, c: ConnId)
    requires CM.ListOk(list, clock)
    ensures CM.RemoveFrom(list, p, c) == list <==> !HeldIn(list, p, c)
  {
    var i := CM.IndexOf(list, p);
    if i != -1 && c in list[i].conns {
      assert HeldIn(list, p, c);
      assert |CM.RemoveFrom(list, p, c)| == |list| - 1;
    }
  }

  lemma LeaksIff(w: World, st: Step)
    requires Inv(w) && CanStep(w, st) && st.RemoveConn?
    ensures Next(w, st).phases[st.conn] == (if Leaks(w, st) then Finished else Removing)
    ensures Next(w, st).phases.Keys == w.phases.Keys && forall c :: c in w.phases && c != st.conn ==> Next(w, st).phases[c] == w.phases[c]
  {
    var p := w.peers[st.conn];
    RemoveFromSameIff(w.mgr.high, w.mgr.clock, p, st.conn);
    RemoveFromSameIff(w.mgr.low, w.mgr.clock, p, st.conn);
    assert w.mgr.eliminated - {p} == w.mgr.eliminated <==> p !in w.mgr.eliminated;
  }

  /**
   * A closing handler that does not leak and runs to its end takes the connection out of
   * the connection manager and its pool out of the pool manager, and no other pool.
   */
  lemma ClosingHandlerCleans(w: World, conn: ConnId)
    requires Inv(w) && InPhase(w, conn, Running) && !Leaks(w, RemoveConn(conn))
    ensures var run := [RemoveConn(conn), RemovePool(conn)];
            && CanRun(w, run)
            && var n, p := Run(w, run), w.peers[conn];
               && InPhase(n, conn, Finished) && !Held(n.mgr, p, conn) && !Has(n.pools, p, conn)
               && forall q, c :: Has(w.pools, q, c) && c != conn ==> Has(n.pools, q, c) && n.pools[q][c] == w.pools[q][c]
  {
    var first, second := RemoveConn(conn), RemovePool(conn);
    var p := w.peers[conn];
    LeaksIff(w, first);
    var v := Next(w, first);
    StepKeepsInv(w, first);
    var run := ExtendTwo(w, [], first, second);
    assert run == [first, second];
    RemovedHas(w.pools, p, conn);
    PoolsKept(w.pools, p, conn, 0);
    assert !Held(v.mgr, p, conn) by {
      if Held(v.mgr, p, conn) {
        RemoveHolds(w.mgr, p, conn, p, conn);
      }
    }
  }

  lemma AddConnAdds(w: World, st: Step)
    requires Inv(w) && CanStep(w, st) && st.AddConn?
    ensures Next(w, st).phases == w.phases[st.conn := Running]
  {
    var p := w.peers[st.conn];
    var list := CM.ListOf(w.mgr, CM.LevelOf(w.mgr, p));
    var i := CM.IndexOf(list, p);
    EntriesHeld(list);
    assert !Held(w.mgr, p, st.conn);
  }

  lemma EntriesHeld(list: seq<CM.Entry>)
    ensures forall i, c :: 0 <= i < |list| && c in list[i].conns ==> HeldIn(list, list[i].pid, c)
  {
  }

  lemma StepStaysLiveIff(w: World, st: Step)
    requires Inv(w) && CanStep(w, st)
    ensures AllLive(Next(w, st)) <==> AllLive(w) && !Leaks(w, st)
  {
    match st
    case AddPool(conn, pid, pool) => AddPoolStaysLiveIff(w, st);
    case AddConn(conn, _) => AddConnStaysLiveIff(w, st);
    case RemoveConn(conn) => RemoveConnStaysLiveIff(w, st);
    case RemovePool(conn) => RemovePoolStaysLiveIff(w, st);
    case Abandon(conn) => assert Has(w.pools, w.peers[conn], conn);
    case PromotePeer(_) =>
  }

  lemma AddPoolStaysLiveIff(w: World, st: Step)
    requires Inv(w) && CanStep(w, st) && st.AddPool?
    ensures AllLive(Next(w, st)) <==> AllLive(w)
  {
    var n := Next(w, st);
    AddedHas(w.pools, st.pid, st.conn, st.pool);
    assert !Has(w.pools, st.pid, st.conn);
    assert n.phases == w.phases[st.conn := Pooled];
    forall pid, conn | Has(w.pools, pid, conn)
      ensures Has(n.pools, pid, conn) && n.peers[conn] == pid && (LookedAfter(n, conn) <==> LookedAfter(w, conn))
    {
      assert conn in w.phases;
    }
  }

  lemma AddConnStaysLiveIff(w: World, st: Step)
    requires Inv(w) && CanStep(w, st) && st.AddConn?
    ensures AllLive(Next(w, st)) <==> AllLive(w)
  {
    AddConnAdds(w, st);
  }

  lemma RemoveConnStaysLiveIff(w: World, st: Step)
    requires Inv(w) && CanStep(w, st) && st.RemoveConn?
    ensures AllLive(Next(w, st)) <==> AllLive(w) && !Leaks(w, st)
  {
    LeaksIff(w, st);
    assert Has(w.pools, w.peers[st.conn], st.conn);
  }

  lemma RemovePoolStaysLiveIff(w: World, st: Step)
    requires Inv(w) && CanStep(w, st) && st.RemovePool?
    ensures AllLive(Next(w, st)) <==> AllLive(w)
  {
    RemovedHas(w.pools, w.peers[st.conn], st.conn);
    var n := Next(w, st);
    if AllLive(n) {
      forall pid, conn | Has(w.pools, pid, conn) ensures LookedAfter(w, conn) {
        assert conn != st.conn ==> Has(n.pools, pid, conn);
      }
    }
  }

  ghost predicate EverLeaks(w: World, run: seq<Step>)
    requires CanRun(w, run)
    decreases |run|
  {
    run != [] && (Leaks(w, run[0]) || EverLeaks(Next(w, run[0]), run[1..]))
  }

  lemma {:induction false} StaysLiveIff(w: World, run: seq<Step>)
    requires Inv(w) && CanRun(w, run)
    ensures AllLive(Run(w, run)) <==> AllLive(w) && !EverLeaks(w, run)
    decreases |run|
  {
    if run != [] {
      StepKeepsInv(w, run[0]);
      StepStaysLiveIff(w, run[0]);
      StaysLiveIff(Next(w, run[0]), run[1..]);
    }
  }

  function NewWorld(maxPeers: nat, maxConns: nat, strategy: CM.Strategy): World {
    World(CM.NewMgr(maxPeers, maxConns, strategy), map[], map[], map[])
  }

  lemma NewWorldInv(maxPeers: nat, maxConns: nat, strategy: CM.Strategy)
    requires maxPeers >= 1 && maxConns >= 1 && strategy != CM.Unknown
    ensures Inv(NewWorld(maxPeers, maxConns, strategy)) && AllLive(NewWorld(maxPeers, maxConns, strategy))
  {
  }

  /** After any run every registered pool belongs to a connection that is still looked after, iff no step left one behind. */
  lemma PoolsLiveIff(maxPeers: nat, maxConns: nat, strategy: CM.Strategy, run: seq<Step>)
    requires maxPeers >= 1 && maxConns >= 1 && strategy != CM.Unknown
    requires CanRun(NewWorld(maxPeers, maxConns, strategy), run)
    ensures AllLive(Run(NewWorld(maxPeers, maxConns, strategy), run)) <==> !EverLeaks(NewWorld(maxPeers, maxConns, strategy), run)
  {
    NewWorldInv(maxPeers, maxConns, strategy);
    StaysLiveIff(NewWorld(maxPeers, maxConns, strategy), run);
  }

  lemma {:induction false} Extend(w: World, run: seq<Step>, st: Step)
    requires CanRun(w, run) && CanStep(Run(w, run), st)
    ensures CanRun(w, run + [st]) && Run(w, run + [st]) == Next(Run(w, run), st)
    decreases |run|
  {
    if run == [] {
      assert CanRun(Next(w, st), []) && [st][1..] == [];
      assert [] + [st] == [st];
    } else {
      assert (run + [st])[0] == run[0] && (run + [st])[1..] == run[1..] + [st];
      Extend(Next(w, run[0]), run[1..], st);
    }
  }

  /** A manager of at most one peer, which is conn of p. */
  function OnePeer(p: PeerId, conn: ConnId, clock: nat, eliminated: set<PeerId>, closed: set<ConnId>): CM.Mgr {
    CM.Mgr(1, 1, CM.Fifo, {}, [], [CM.Entry(p, {conn}, clock)], eliminated, closed, clock + 1)
  }

  /** Adding conn of p to a full one-peer manager evicts the other peer. */
  lemma AddReplaces(m: CM.Mgr, q: PeerId, victim: ConnId, clock: nat, p: PeerId, conn: ConnId)
    requires m == OnePeer(q, victim, clock, m.eliminated, m.closed) && p != q && q != []
    ensures CM.RandomOk(m, p, conn, 0) && CM.Add(m, p, conn, 0).added
    ensures CM.Add(m, p, conn, 0).mgr == OnePeer(p, conn, clock + 1, m.eliminated + {q}, m.closed + {victim})
  {
    var n := CM.Listed(m, p, conn);
    var gone, next := CM.Entry(q, {victim}, clock), CM.Entry(p, {conn}, clock + 1);
    assert n.low == [gone, next];
    assert CM.Without(n.low, 0) == [next];
  }

  lemma Replaces(w: World, q: PeerId, victim: ConnId, clock: nat, p: PeerId, conn: ConnId)
    requires w.mgr == OnePeer(q, victim, clock, w.mgr.eliminated, w.mgr.closed) && p != q && q != [] && conn !in w.phases && !Has(w.pools, p, conn)
    ensures CanStep(w, AddPool(conn, p, conn)) && CanStep(Next(w, AddPool(conn, p, conn)), AddConn(conn, 0))
    ensures var n := Next(Next(w, AddPool(conn, p, conn)), AddConn(conn, 0));
            && n.mgr == OnePeer(p, conn, clock + 1, w.mgr.eliminated + {q}, w.mgr.closed + {victim})
            && n.phases == w.phases[conn := Running] && n.peers == w.peers[conn := p]
            && n.pools == Added(w.pools, p, conn, conn)
  {
    AddReplaces(w.mgr, q, victim, clock, p, conn);
    assert w.phases[conn := Pooled][conn := Running] == w.phases[conn := Running];
  }

  lemma FirstOfAll(p: PeerId)
    requires p != []
    ensures var w := NewWorld(1, 1, CM.Fifo);
            && CanStep(w, AddPool(0, p, 0)) && CanStep(Next(w, AddPool(0, p, 0)), AddConn(0, 0))
            && var n := Next(Next(w, AddPool(0, p, 0)), AddConn(0, 0));
               && n.mgr == OnePeer(p, 0, 0, {}, {}) && n.phases == map[0 := Running] && n.peers == map[0 := p]
               && n.pools == Added(map[], p, 0, 0)
  {
  }

  lemma TakesOver(p: PeerId, q: PeerId) returns (run: seq<Step>)
    requires p != q && p != []
    ensures CanRun(NewWorld(1, 1, CM.Fifo), run)
    ensures var w := Run(NewWorld(1, 1, CM.Fifo), run);
            && w.mgr == OnePeer(q, 1, 1, {p}, {0})
            && w.phases == map[0 := Running, 1 := Running] && w.peers == map[0 := p, 1 := q]
            && w.pools == Added(Added(map[], p, 0, 0), q, 1, 1)
  {
    var w0 := NewWorld(1, 1, CM.Fifo);
    FirstOfAll(p);
    run := ExtendTwo(w0, [], AddPool(0, p, 0), AddConn(0, 0));
    Replaces(Run(w0, run), p, 0, 0, q, 1);
    run := ExtendTwo(w0, run, AddPool(1, q, 1), AddConn(1, 0));
  }

  /** p, then q in its place, then p again. */
  lemma ComesBack(p: PeerId, q: PeerId) returns (run: seq<Step>)
    requires p != q && p != [] && q != []
    ensures CanRun(NewWorld(1, 1, CM.Fifo), run)
    ensures var w := Run(NewWorld(1, 1, CM.Fifo), run);
            && w.mgr == OnePeer(p, 2, 2, {p, q}, {0, 1})
            && w.phases == map[0 := Running, 1 := Running, 2 := Running] && w.peers == map[0 := p, 1 := q, 2 := p]
  {
    var w0 := NewWorld(1, 1, CM.Fifo);
    run := TakesOver(p, q);
    Replaces(Run(w0, run), q, 1, 1, p, 2);
    run := ExtendTwo(w0, run, AddPool(2, p, 2), AddConn(2, 0));
    assert {p} + {q} == {p, q} && {0} + {1} == {0, 1};
  }

  /**
   * With one connection per peer, too: p is evicted, comes back and goes again before
   * the handler of its first connection gets round to closing it.
   */
  lemma LeakHappens(p: PeerId, q: PeerId) returns (run: seq<Step>)
    requires p != q && p != [] && q != []
    ensures CanRun(NewWorld(1, 1, CM.Fifo), run)
    ensures var w := Run(NewWorld(1, 1, CM.Fifo), run);
            CanStep(w, RemoveConn(0)) && Leaks(w, RemoveConn(0)) && w.peers[0] == p && Has(w.pools, p, 0)
  {
    var w0 := NewWorld(1, 1, CM.Fifo);
    run := ComesBack(p, q);
    var w := Run(w0, run);
    Extend(w0, run, RemoveConn(2));
    run := run + [RemoveConn(2)];
    assert CM.Remove(w.mgr, p, 2).low == [];
    NewWorldInv(1, 1, CM.Fifo);
    RunKeepsInv(w0, run);
  }

  /**
   * Nor does it take two connections of a peer: p is evicted while its accept loop
   * waits for a stream; the wait fails, and the loop ends without the closing handler.
   */
  lemma EvictedLoopEnds(p: PeerId, q: PeerId) returns (run: seq<Step>)
    requires p != q && p != []
    ensures CanRun(NewWorld(1, 1, CM.Fifo), run)
    ensures var w := Run(NewWorld(1, 1, CM.Fifo), run);
            && 0 in w.mgr.closed && !Held(w.mgr, p, 0)
            && CanStep(w, Abandon(0)) && Leaks(w, Abandon(0)) && w.peers[0] == p && Has(w.pools, p, 0)
  {
    run := TakesOver(p, q);
    NewWorldInv(1, 1, CM.Fifo);
    RunKeepsInv(NewWorld(1, 1, CM.Fifo), run);
  }

  // ---------------------------------------------------------------- how long a connection stays held

  /** One entry of p holds both connections. */
  ghost predicate Together(list: seq<CM.Entry>, p: PeerId, c: ConnId, d: ConnId) {
    exists i :: 0 <= i < |list| && list[i].pid == p && c in list[i].conns && d in list[i].conns
  }

  /** The entry that holds conn is evicted, or goes with another connection of the peer. */
  ghost predicate TakesEntry(w: World, st: Step, pid: PeerId, conn: ConnId)
    requires CanStep(w, st)
  {
    match st
    case AddConn(c, random) =>
      var e := CM.Add(w.mgr, w.peers[c], c, random).eviction;
      e.Evicted? && e.entry.pid == pid && conn in e.entry.conns
    case RemoveConn(c) =>
      w.peers[c] == pid && (Together(w.mgr.high, pid, c, conn) || Together(w.mgr.low, pid, c, conn))
    case _ => false
  }

  lemma RemoveFromHeldIff(list: seq<CM.Entry>, clock: nat, p: PeerId, c: ConnId, pid: PeerId, conn: ConnId)
    requires CM.ListOk(list, clock)
    ensures HeldIn(CM.RemoveFrom(list, p, c), pid, conn) <==> HeldIn(list, pid, conn) && !(pid == p && Together(list, p, c, conn))
  {
    var i := CM.IndexOf(list, p);
    if i != -1 && c in list[i].conns {
      WithoutHeldIff(list, i, clock, pid, conn);
    }
  }

  lemma WithoutHeldIff(list: seq<CM.Entry>, i: nat, clock: nat, pid: PeerId, conn: ConnId)
    requires i < |list| && CM.ListOk(list, clock)
    ensures HeldIn(CM.Without(list, i), pid, conn) <==>
            HeldIn(list, pid, conn) && !(list[i].pid == pid && conn in list[i].conns)
  {
    var r := CM.Without(list, i);
    assert forall k :: 0 <= k < |r| ==> r[k] == list[if k < i then k else k + 1];
    if HeldIn(list, pid, conn) {
      var k :| 0 <= k < |list| && list[k].pid == pid && conn in list[k].conns;
      if k != i {
        assert r[if k < i then k else k - 1] == list[k];
      }
    }
  }

  lemma RemoveConnStaysHeldIff(w: World, st: Step, pid: PeerId, conn: ConnId)
    requires Inv(w) && st.RemoveConn? && CanStep(w, st) && Held(w.mgr, pid, conn)
    ensures Held(Next(w, st).mgr, pid, conn) <==> !TakesEntry(w, st, pid, conn)
  {
    var p := w.peers[st.conn];
    RemoveFromHeldIff(w.mgr.high, w.mgr.clock, p, st.conn, pid, conn);
    RemoveFromHeldIff(w.mgr.low, w.mgr.clock, p, st.conn, pid, conn);
    TogetherHeld(w.mgr.high, p, st.conn, conn);
    TogetherHeld(w.mgr.low, p, st.conn, conn);
  }

  lemma TogetherHeld(list: seq<CM.Entry>, p: PeerId, c: ConnId, d: ConnId)
    ensures Together(list, p, c, d) ==> HeldIn(list, p, d)
  {
  }

  lemma HeldMore(list: seq<CM.Entry>, more: seq<CM.Entry>, pid: PeerId, conn: ConnId)
    requires HeldIn(list, pid, conn) && |list| <= |more|
    requires forall i :: 0 <= i < |list| ==> more[i].pid == list[i].pid && list[i].conns <= more[i].conns
    ensures HeldIn(more, pid, conn)
  {
    var i :| 0 <= i < |list| && list[i].pid == pid && conn in list[i].conns;
    assert conn in more[i].conns;
  }

  /** Before anyone is evicted all are still held, each on one level. */
  lemma ListedHolds(m: CM.Mgr, p: PeerId, c: ConnId, pid: PeerId, conn: ConnId)
    requires c != conn && Held(m, pid, conn) && !(HeldIn(m.high, pid, conn) && HeldIn(m.low, pid, conn))
    ensures var n := CM.Listed(m, p, c);
            Held(n, pid, conn) && !(HeldIn(n.high, pid, conn) && HeldIn(n.low, pid, conn))
  {
    var level := CM.LevelOf(m, p);
    var list := CM.ListOf(m, level);
    var e := CM.Entry(p, {c}, m.clock);
    if HeldIn(list, pid, conn) {
      HeldMore(list, list + [e], pid, conn);
    }
    if HeldIn(list + [e], pid, conn) {
      HeldAppend(list, e, pid, conn);
    }
  }

  lemma EliminateHeldIff(m: CM.Mgr, high: bool, random: nat, pid: PeerId, conn: ConnId)
    requires CM.AlmostInv(m) && (|m.high| + |m.low| > m.maxPeers ==> random < CM.Candidates(m))
    requires Held(m, pid, conn) && !(HeldIn(m.high, pid, conn) && HeldIn(m.low, pid, conn))
    ensures var (n, e) := CM.Eliminate(m, high, random);
            Held(n, pid, conn) <==> !(e.Evicted? && e.entry.pid == pid && conn in e.entry.conns)
  {
    if |m.high| + |m.low| > m.maxPeers {
      if |m.low| > 0 {
        var i := CM.Pick(m.strategy, |m.low|, random);
        WithoutHeldIff(m.low, i, m.clock, pid, conn);
        EntriesHeld(m.low);
      } else if high {
        var i := CM.Pick(m.strategy, |m.high|, random);
        WithoutHeldIff(m.high, i, m.clock, pid, conn);
      }
    }
  }

  lemma AddHeldIff(m: CM.Mgr, p: PeerId, c: ConnId, random: nat, pid: PeerId, conn: ConnId)
    requires CM.Inv(m) && CM.RandomOk(m, p, c, random) && c != conn
    requires Held(m, pid, conn) && !(HeldIn(m.high, pid, conn) && HeldIn(m.low, pid, conn))
    ensures var r := CM.Add(m, p, c, random);
            Held(r.mgr, pid, conn) <==> !(r.eviction.Evicted? && r.eviction.entry.pid == pid && conn in r.eviction.entry.conns)
  {
    var level := CM.LevelOf(m, p);
    var list := CM.ListOf(m, level);
    var i := CM.IndexOf(list, p);
    if i == -1 {
      CM.ListedAlmostInv(m, p, c);
      ListedHolds(m, p, c, pid, conn);
      EliminateHeldIff(CM.Listed(m, p, c), level == CM.High, random, pid, conn);
    } else if HeldIn(list, pid, conn) {
      HeldMore(list, CM.Put(list, i, c), pid, conn);
    }
  }

  /** A new connection is held from then on, and all others as before, but for those of the entry evicted for it. */
  lemma AddAdmitsExactly(m: CM.Mgr, p: PeerId, c: ConnId, random: nat, pid: PeerId, conn: ConnId)
    requires CM.Inv(m) && CM.RandomOk(m, p, c, random) && HeldOnce(m) && forall q :: !Held(m, q, c)
    ensures var r := CM.Add(m, p, c, random);
            && r.added
            && (Held(r.mgr, pid, conn) <==>
                  && (Held(m, pid, conn) || (pid == p && conn == c))
                  && !(r.eviction.Evicted? && r.eviction.entry.pid == pid && conn in r.eviction.entry.conns))
  {
    AddedNew(m, p, c, random);
    if conn != c && Held(m, pid, conn) {
      assert !(HeldIn(m.high, pid, conn) && HeldIn(m.low, pid, conn));
      AddHeldIff(m, p, c, random, pid, conn);
    }
    if Held(CM.Add(m, p, c, random).mgr, pid, conn) {
      AddHolds(m, p, c, random, pid, conn);
    }
  }

  lemma AddedNew(m: CM.Mgr, p: PeerId, c: ConnId, random: nat)
    requires CM.Inv(m) && CM.RandomOk(m, p, c, random) && !Held(m, p, c)
    ensures var r := CM.Add(m, p, c, random);
            && r.added
            && (Held(r.mgr, p, c) <==> !(r.eviction.Evicted? && r.eviction.entry.pid == p && c in r.eviction.entry.conns))
  {
    var level := CM.LevelOf(m, p);
    var list := CM.ListOf(m, level);
    var i := CM.IndexOf(list, p);
    if i != -1 {
      EntriesHeld(list);
      assert CM.Put(list, i, c)[i].pid == p && c in CM.Put(list, i, c)[i].conns;
    } else {
      var n := CM.Listed(m, p, c);
      var grown := list + [CM.Entry(p, {c}, m.clock)];
      assert grown[|list|].pid == p && c in grown[|list|].conns;
      assert HeldIn(grown, p, c);
      CM.ListedAlmostInv(m, p, c);
      EliminateHeldIff(n, level == CM.High, random, p, c);
    }
  }

  lemma StepStaysHeldIff(w: World, st: Step, pid: PeerId, conn: ConnId)
    requires Inv(w) && CanStep(w, st) && Held(w.mgr, pid, conn)
    ensures Held(Next(w, st).mgr, pid, conn) <==> !TakesEntry(w, st, pid, conn)
  {
    match st
    case AddConn(c, random) => AddHeldIff(w.mgr, w.peers[c], c, random, pid, conn);
    case RemoveConn(_) => RemoveConnStaysHeldIff(w, st, pid, conn);
    case _ =>
  }

  ghost predicate EverTaken(w: World, run: seq<Step>, pid: PeerId, conn: ConnId)
    requires CanRun(w, run)
    decreases |run|
  {
    run != [] && (TakesEntry(w, run[0], pid, conn) || EverTaken(Next(w, run[0]), run[1..], pid, conn))
  }

  /** What the connection manager has let go of does not come back: a connection is added once. */
  lemma {:induction false} StaysUnheld(w: World, run: seq<Step>, pid: PeerId, conn: ConnId)
    requires Inv(w) && CanRun(w, run) && !Held(w.mgr, pid, conn)
    requires conn in w.phases && w.phases[conn] != Pooled
    ensures !Held(Run(w, run).mgr, pid, conn)
    decreases |run|
  {
    if run != [] {
      StepStaysUnheld(w, run[0], pid, conn);
      StepKeepsInv(w, run[0]);
      StaysUnheld(Next(w, run[0]), run[1..], pid, conn);
    }
  }

  lemma StepStaysUnheld(w: World, st: Step, pid: PeerId, conn: ConnId)
    requires Inv(w) && CanStep(w, st) && !Held(w.mgr, pid, conn)
    requires conn in w.phases && w.phases[conn] != Pooled
    ensures !Held(Next(w, st).mgr, pid, conn)
    ensures conn in Next(w, st).phases && Next(w, st).phases[conn] != Pooled
  {
    if Held(Next(w, st).mgr, pid, conn) {
      match st
      case AddConn(c, random) => AddHolds(w.mgr, w.peers[c], c, random, pid, conn);
      case RemoveConn(c) => RemoveHolds(w.mgr, w.peers[c], c, pid, conn);
      case _ =>
    }
  }

  /**
   * A held connection is held after a run exactly if its entry was not taken: not
   * evicted, and not removed on behalf of it or of another connection in the entry.
   */
  lemma {:induction false} HeldUntilTakenIff(w: World, run: seq<Step>, pid: PeerId, conn: ConnId)
    requires Inv(w) && CanRun(w, run) && Held(w.mgr, pid, conn)
    ensures Held(Run(w, run).mgr, pid, conn) <==> !EverTaken(w, run, pid, conn)
    decreases |run|
  {
    if run != [] {
      var n := Next(w, run[0]);
      StepStaysHeldIff(w, run[0], pid, conn);
      StepKeepsInv(w, run[0]);
      if Held(n.mgr, pid, conn) {
        HeldUntilTakenIff(n, run[1..], pid, conn);
      } else {
        StaysAdded(w, run[0], conn);
        StaysUnheld(n, run[1..], pid, conn);
      }
    }
  }

  lemma StaysAdded(w: World, st: Step, conn: ConnId)
    requires CanStep(w, st) && conn in w.phases && w.phases[conn] != Pooled
    ensures conn in Next(w, st).phases && Next(w, st).phases[conn] != Pooled
  {
  }

  lemma {:induction false} StaysAbandoned(w: World, run: seq<Step>, conn: ConnId)
    requires CanRun(w, run) && InPhase(w, conn, Abandoned)
    ensures InPhase(Run(w, run), conn, Abandoned)
    decreases |run|
  {
    if run != [] {
      StaysAbandoned(Next(w, run[0]), run[1..], conn);
    }
  }

  /**
   * A held connection that is left behind stays left behind and held through every run,
   * and its peer counts as connected, until a newcomer evicts its entry or another
   * connection in the entry is removed. Nothing is ever done on its own behalf.
   */
  lemma DeadPeerStaysConnectedIff(w: World, run: seq<Step>, pid: PeerId, conn: ConnId)
    requires Inv(w) && CanRun(w, run) && Held(w.mgr, pid, conn) && InPhase(w, conn, Abandoned)
    ensures InPhase(Run(w, run), conn, Abandoned)
    ensures Held(Run(w, run).mgr, pid, conn) <==> !EverTaken(w, run, pid, conn)
    ensures !EverTaken(w, run, pid, conn) ==> ConnectedPeer(Run(w, run).mgr, pid)
    ensures forall i :: 0 <= i < |run| ==> run[i] != RemoveConn(conn)
  {
    StaysAbandoned(w, run, conn);
    HeldUntilTakenIff(w, run, pid, conn);
    NeverRemoved(w, run, conn);
    if Held(Run(w, run).mgr, pid, conn) {
      HeldIsConnected(Run(w, run).mgr, pid, conn);
    }
  }

  lemma {:induction false} NeverRemoved(w: World, run: seq<Step>, conn: ConnId)
    requires CanRun(w, run) && InPhase(w, conn, Abandoned)
    ensures forall i :: 0 <= i < |run| ==> run[i] != RemoveConn(conn)
    decreases |run|
  {
    if run != [] {
      NeverRemoved(Next(w, run[0]), run[1..], conn);
      assert forall i :: 0 < i < |run| ==> run[i] == run[1..][i - 1];
    }
  }

  lemma HeldIsConnected(m: CM.Mgr, pid: PeerId, conn: ConnId)
    requires Held(m, pid, conn)
    ensures ConnectedPeer(m, pid)
  {
    if HeldIn(m.high, pid, conn) {
      var i :| 0 <= i < |m.high| && m.high[i].pid == pid && conn in m.high[i].conns;
      assert CM.Pids(m.high)[i] == pid;
    } else {
      var i :| 0 <= i < |m.low| && m.low[i].pid == pid && conn in m.low[i].conns;
      assert CM.Pids(m.low)[i] == pid;
    }
  }

  lemma ExtendTwo(w: World, run: seq<Step>, a: Step, b: Step) returns (longer: seq<Step>)
    requires CanRun(w, run) && CanStep(Run(w, run), a) && CanStep(Next(Run(w, run), a), b)
    ensures longer == run + [a] + [b] && CanRun(w, longer) && Run(w, longer) == Next(Next(Run(w, run), a), b)
  {
    Extend(w, run, a);
    Extend(w, run + [a], b);
    longer := run + [a] + [b];
  }

  /** A peer the connection manager calls connected. */
  ghost predicate ConnectedPeer(m: CM.Mgr, pid: PeerId) {
    pid in CM.Pids(m.high) + CM.Pids(m.low)
  }

  lemma ConnectedHolds(m: CM.Mgr, pid: PeerId) returns (conn: ConnId)
    requires CM.Inv(m) && ConnectedPeer(m, pid)
    ensures Held(m, pid, conn)
  {
    if pid in CM.Pids(m.high) {
      var i :| 0 <= i < |m.high| && CM.Pids(m.high)[i] == pid;
      conn :| conn in m.high[i].conns;
    } else {
      var i :| 0 <= i < |m.low| && CM.Pids(m.low)[i] == pid;
      conn :| conn in m.low[i].conns;
    }
  }

  /**
   * At every moment of every interleaving, each connection the connection manager
   * holds has its pool, so that a connected peer always has a pool to be looked up.
   */
  lemma ConnectedPeersHavePools(maxPeers: nat, maxConns: nat, strategy: CM.Strategy, run: seq<Step>)
    requires maxPeers >= 1 && maxConns >= 1 && strategy != CM.Unknown
    requires CanRun(NewWorld(maxPeers, maxConns, strategy), run)
    ensures var w := Run(NewWorld(maxPeers, maxConns, strategy), run);
            && (forall pid, conn :: Held(w.mgr, pid, conn) ==> Has(w.pools, pid, conn))
            && (forall pid :: ConnectedPeer(w.mgr, pid) ==> exists conn :: Has(w.pools, pid, conn))
  {
    var w0 := NewWorld(maxPeers, maxConns, strategy);
    NewWorldInv(maxPeers, maxConns, strategy);
    RunKeepsInv(w0, run);
    var w := Run(w0, run);
    forall pid | ConnectedPeer(w.mgr, pid) ensures exists conn :: Has(w.pools, pid, conn) {
      var conn := ConnectedHolds(w.mgr, pid);
      assert Has(w.pools, pid, conn);
    }
  }

  /**
   * The lookup of SendMsg, for a connected peer: never nil, and a pool with the most
   * idle streams. It is that of a connection still looked after if none was left behind.
   */
  method BestPoolOfConnected(ghost w: World, mgr: SendStreamPoolManager, pid: PeerId, idleSizes: map<PoolId, nat>)
    returns (best: PoolId)
    requires Inv(w) && mgr.pools == w.pools && ConnectedPeer(w.mgr, pid)
    requires forall conn :: conn in PoolsOf(mgr.pools, pid) ==> PoolsOf(mgr.pools, pid)[conn] in idleSizes
    ensures exists conn :: Has(mgr.pools, pid, conn) && mgr.pools[pid][conn] == best
    ensures forall conn :: Has(mgr.pools, pid, conn) ==> idleSizes[mgr.pools[pid][conn]] <= idleSizes[best]
    ensures AllLive(w) ==> exists conn :: Has(mgr.pools, pid, conn) && mgr.pools[pid][conn] == best && LookedAfter(w, conn)
  {
    ghost var conn := ConnectedHolds(w.mgr, pid);
    assert Has(w.pools, pid, conn);
    var r := mgr.GetPeerBestConnSendStreamPool(pid, idleSizes);
    best := r.value;
  }
}
