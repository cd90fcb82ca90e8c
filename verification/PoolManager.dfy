// The pools of all connections: components/send_stream_pool_manager.go.
module PoolManager {
  import opened Wrappers
  import opened PeerOrder

  type ConnId = nat
  type PoolId = nat

  type Pools = map<PeerId, map<ConnId, PoolId>>

  predicate Has(pools: Pools, pid: PeerId, conn: ConnId) {
    pid in pools && conn in pools[pid]
  }

  function PoolsOf(pools: Pools, pid: PeerId): map<ConnId, PoolId> {
    if pid in pools then pools[pid] else map[]
  }

  function Added(pools: Pools, pid: PeerId, conn: ConnId, pool: PoolId): Pools {
    if Has(pools, pid, conn) then pools else pools[pid := PoolsOf(pools, pid)[conn := pool]]
  }

  function Removed(pools: Pools, pid: PeerId, conn: ConnId): Pools {
    if !Has(pools, pid, conn) then pools
    else if pools[pid] - {conn} == map[] then pools - {pid}
    else pools[pid := pools[pid] - {conn}]
  }

  /** No peer is kept without a connection. */
  ghost predicate NoEmptyPeers(pools: Pools) {
    forall pid :: pid in pools ==> pools[pid] != map[]
  }

  lemma AddedHas(pools: Pools, pid: PeerId, conn: ConnId, pool: PoolId)
    requires NoEmptyPeers(pools)
    ensures NoEmptyPeers(Added(pools, pid, conn, pool))
    ensures forall q, d :: Has(Added(pools, pid, conn, pool), q, d) <==> Has(pools, q, d) || (q == pid && d == conn)
  {
    var n := Added(pools, pid, conn, pool);
    assert conn in n[pid];
  }

  lemma RemovedHas(pools: Pools, pid: PeerId, conn: ConnId)
    requires NoEmptyPeers(pools)
    ensures NoEmptyPeers(Removed(pools, pid, conn))
    ensures forall q, d :: Has(Removed(pools, pid, conn), q, d) <==> Has(pools, q, d) && !(q == pid && d == conn)
  {
    if Has(pools, pid, conn) {
      assert forall d :: d in pools[pid] && d != conn ==> d in pools[pid] - {conn};
    }
  }

  /** The pair that is added has the given pool, and every other pair the pool it had. */
  lemma PoolsKept(pools: Pools, pid: PeerId, conn: ConnId, pool: PoolId)
    requires NoEmptyPeers(pools)
    ensures forall q, d :: Has(Added(pools, pid, conn, pool), q, d) ==>
              Added(pools, pid, conn, pool)[q][d] == if Has(pools, q, d) then pools[q][d] else pool
    ensures forall q, d :: Has(Removed(pools, pid, conn), q, d) ==> Has(pools, q, d) && Removed(pools, pid, conn)[q][d] == pools[q][d]
  {
    AddedHas(pools, pid, conn, pool);
    RemovedHas(pools, pid, conn);
  }

  class SendStreamPoolManager {
    var pools: Pools

    /** Pools closed on removal. */
    var closed: set<PoolId>

    constructor ()
      ensures pools == map[] && NoEmptyPeers(pools) && closed == {}
    {
      pools, closed := map[], {};
    }

    method AddPeerConnSendStreamPool(pid: PeerId, conn: ConnId, pool: PoolId) returns (err: bool)
      requires NoEmptyPeers(pools)
      modifies this`pools
      ensures pools == Added(old(pools), pid, conn, pool) && NoEmptyPeers(pools)
      ensures err <==> Has(old(pools), pid, conn)
      ensures forall q, d :: Has(pools, q, d) <==> Has(old(pools), q, d) || (q == pid && d == conn)
      ensures forall q, d :: Has(pools, q, d) ==> pools[q][d] == if Has(old(pools), q, d) then old(pools)[q][d] else pool
    {
      AddedHas(pools, pid, conn, pool);
      PoolsKept(pools, pid, conn, pool);
      var connM: map<ConnId, PoolId> := if pid in pools then pools[pid] else map[];
      if conn in connM {
        return true;
      }
      connM := connM[conn := pool];
      pools := pools[pid := connM];
      err := false;
    }

    method RemovePeerConnAndCloseSendStreamPool(pid: PeerId, conn: ConnId) returns (err: bool)
      requires NoEmptyPeers(pools)
      modifies this
      ensures pools == Removed(old(pools), pid, conn) && NoEmptyPeers(pools)
      ensures err <==> !Has(old(pools), pid, conn)
      ensures closed == if err then old(closed) else old(closed) + {old(pools)[pid][conn]}
      ensures forall q, d :: Has(pools, q, d) <==> Has(old(pools), q, d) && !(q == pid && d == conn)
      ensures forall q, d :: Has(pools, q, d) ==> pools[q][d] == old(pools)[q][d]
    {
      RemovedHas(pools, pid, conn);
      PoolsKept(pools, pid, conn, 0);
      if pid !in pools {
        return true;
      }
      var connM: map<ConnId, PoolId> := pools[pid];
      if conn !in connM {
        return true;
      }
      var pool := connM[conn];
      connM := connM - {conn};
      pools := if |connM| == 0 then pools - {pid} else pools[pid := connM];
      closed := closed + {pool};
      err := false;
    }

    /**
     * A pool of the peer with the most idle streams, whatever the order in which the
     * map is ranged over; none exactly when the peer has no connection.
     */
    method GetPeerBestConnSendStreamPool(pid: PeerId, idleSizes: map<PoolId, nat>) returns (best: Option<PoolId>)
      requires NoEmptyPeers(pools)
      requires forall conn :: conn in PoolsOf(pools, pid) ==> PoolsOf(pools, pid)[conn] in idleSizes
      ensures best.Some? <==> exists conn :: Has(pools, pid, conn)
      ensures best.Some? ==> best.value in PoolsOf(pools, pid).Values && best.value in idleSizes
      ensures best.Some? ==> forall conn :: conn in PoolsOf(pools, pid) ==>
                               idleSizes[PoolsOf(pools, pid)[conn]] <= idleSizes[best.value]
    {
      best := None;
      if pid !in pools {
        return;
      }
      var connM: map<ConnId, PoolId> := pools[pid];
      assert connM == PoolsOf(pools, pid);
      var idleSize := 0;
      var todo := connM.Keys;
      while todo != {}
        invariant todo <= connM.Keys
        invariant best.None? ==> todo == connM.Keys && idleSize == 0
        invariant best.Some? ==> best.value in connM.Values && best.value in idleSizes && idleSizes[best.value] == idleSize
        invariant forall c :: c in connM && c !in todo ==> idleSizes[connM[c]] <= idleSize
        decreases todo
      {
        var c :| c in todo;
        var idle := idleSizes[connM[c]];
        if idleSize <= idle {
          best := Some(connM[c]);
          idleSize := idle;
        }
        todo := todo - {c};
      }
      assert exists c :: c in connM;
      assert forall c :: c in connM ==> Has(pools, pid, c);
    }
  }
}
