// The receive stream counts: components/receive_stream_manager.go.
//
// countMap is an index over streamMap that every method updates by hand.
module ReceiveStreams {
  import opened PeerOrder

  type ConnId = nat
  type StreamId = nat

  datatype Book = Book(maxCount: int, counts: map<PeerId, int>, streams: map<PeerId, map<ConnId, set<StreamId>>>)

  /** How many streams the sets of one peer hold together. */
  ghost function StreamTotal(conns: map<ConnId, set<StreamId>>): nat
    decreases |conns|
  {
    if conns == map[] then 0
    else
      var c :| c in conns;
      |conns[c]| + StreamTotal(conns - {c})
  }

  function StreamsOf(b: Book, pid: PeerId, conn: ConnId): set<StreamId> {
    if pid in b.streams && conn in b.streams[pid] then b.streams[pid][conn] else {}
  }

  function ConnsOf(b: Book, pid: PeerId): map<ConnId, set<StreamId>> {
    if pid in b.streams then b.streams[pid] else map[]
  }

  function CountOf(b: Book, pid: PeerId): int {
    if pid in b.counts then b.counts[pid] else 0
  }

  /** What one connection's set becomes, with no empty leftovers. */
  function WithConn(conns: map<ConnId, set<StreamId>>, conn: ConnId, s: set<StreamId>): map<ConnId, set<StreamId>> {
    if s == {} then conns - {conn} else conns[conn := s]
  }

  /** The book in which a connection's set is s: the only thing any method does to it. */
  function Put(b: Book, pid: PeerId, conn: ConnId, s: set<StreamId>): Book {
    var conns := WithConn(ConnsOf(b, pid), conn, s);
    var count := CountOf(b, pid) + |s| - |StreamsOf(b, pid, conn)|;
    if conns == map[] then b.(counts := b.counts - {pid}, streams := b.streams - {pid})
    else b.(counts := b.counts[pid := count], streams := b.streams[pid := conns])
  }

  ghost predicate Inv(b: Book) {
    && b.counts.Keys == b.streams.Keys
    && (forall pid :: pid in b.streams ==> b.streams[pid] != map[])
    && (forall pid, conn :: pid in b.streams && conn in b.streams[pid] ==> b.streams[pid][conn] != {})
    && (forall pid :: pid in b.streams ==> b.counts[pid] == StreamTotal(b.streams[pid]))
  }

  // ---------------------------------------------------------------- sums

  /** The sum does not depend on the order in which the connections are taken. */
  lemma {:induction false} TotalSplits(conns: map<ConnId, set<StreamId>>, c: ConnId)
    requires c in conns
    ensures StreamTotal(conns) == |conns[c]| + StreamTotal(conns - {c})
    decreases |conns|
  {
    var d :| d in conns && StreamTotal(conns) == |conns[d]| + StreamTotal(conns - {d});
    if d != c {
      TotalSplits(conns - {d}, c);
      assert conns - {d} - {c} == conns - {c} - {d};
      TotalSplits(conns - {c}, d);
    }
  }

  lemma TotalWith(conns: map<ConnId, set<StreamId>>, conn: ConnId, s: set<StreamId>)
    ensures StreamTotal(WithConn(conns, conn, s)) == StreamTotal(conns) + |s| - if conn in conns then |conns[conn]| else 0
  {
    if conn in conns {
      TotalSplits(conns, conn);
    } else {
      assert conns - {conn} == conns;
    }
    if s != {} {
      TotalSplits(conns[conn := s], conn);
      assert conns[conn := s] - {conn} == conns - {conn};
    }
  }

  lemma {:induction false} TotalPositive(conns: map<ConnId, set<StreamId>>)
    requires forall c :: c in conns ==> conns[c] != {}
    ensures StreamTotal(conns) == 0 <==> conns == map[]
  {
    if conns != map[] {
      var c :| c in conns;
      TotalSplits(conns, c);
    }
  }

  lemma PutKeepsInv(b: Book, pid: PeerId, conn: ConnId, s: set<StreamId>)
    requires Inv(b)
    ensures Inv(Put(b, pid, conn, s))
    ensures CountOf(Put(b, pid, conn, s), pid) == CountOf(b, pid) + |s| - |StreamsOf(b, pid, conn)|
  {
    var conns := ConnsOf(b, pid);
    TotalWith(conns, conn, s);
    assert StreamTotal(conns) == CountOf(b, pid);
    TotalPositive(WithConn(conns, conn, s));
  }

  lemma PutNonempty(b: Book, pid: PeerId, conn: ConnId, s: set<StreamId>)
    requires s != {}
    ensures Put(b, pid, conn, s) ==
            b.(counts := b.counts[pid := CountOf(b, pid) + |s| - |StreamsOf(b, pid, conn)|],
               streams := b.streams[pid := ConnsOf(b, pid)[conn := s]])
  {
    assert conn in ConnsOf(b, pid)[conn := s];
  }

  lemma PutSame(b: Book, pid: PeerId, conn: ConnId)
    requires Inv(b) && StreamsOf(b, pid, conn) != {}
    ensures Put(b, pid, conn, StreamsOf(b, pid, conn)) == b
  {
    assert b.streams[pid][conn := b.streams[pid][conn]] == b.streams[pid];
  }

  /** Put changes the one set it is about, and no other peer's count. */
  lemma PutFrame(b: Book, pid: PeerId, conn: ConnId, s: set<StreamId>)
    ensures StreamsOf(Put(b, pid, conn, s), pid, conn) == s
    ensures forall d :: d != conn ==> StreamsOf(Put(b, pid, conn, s), pid, d) == StreamsOf(b, pid, d)
    ensures forall q :: q != pid ==> SamePeer(b, Put(b, pid, conn, s), q)
  {
    var conns := ConnsOf(b, pid);
    var conns' := WithConn(conns, conn, s);
    assert if s == {} then conn !in conns' else conn in conns' && conns'[conn] == s;
    assert forall d :: d != conn ==> (d in conns' <==> d in conns) && (d in conns ==> conns'[d] == conns[d]);
  }

  ghost predicate SamePeer(b: Book, c: Book, q: PeerId) {
    && (q in b.counts <==> q in c.counts) && (q in b.counts ==> b.counts[q] == c.counts[q])
    && (q in b.streams <==> q in c.streams) && (q in b.streams ==> b.streams[q] == c.streams[q])
  }

  /** From b to c the streams of one connection have become s, its peer's count went along, and nothing else changed. */
  ghost predicate OneSetChanged(b: Book, c: Book, pid: PeerId, conn: ConnId, s: set<StreamId>) {
    && StreamsOf(c, pid, conn) == s
    && (forall d :: d != conn ==> StreamsOf(c, pid, d) == StreamsOf(b, pid, d))
    && (forall q :: q != pid ==> SamePeer(b, c, q))
    && StreamTotal(ConnsOf(c, pid)) == StreamTotal(ConnsOf(b, pid)) + |s| - |StreamsOf(b, pid, conn)|
    && CountOf(c, pid) == StreamTotal(ConnsOf(c, pid)) && c.maxCount == b.maxCount
  }

  lemma PutChangesOne(b: Book, pid: PeerId, conn: ConnId, s: set<StreamId>)
    requires Inv(b)
    ensures OneSetChanged(b, Put(b, pid, conn, s), pid, conn, s)
    ensures s == StreamsOf(b, pid, conn) ==> OneSetChanged(b, b, pid, conn, s)
  {
    PutFrame(b, pid, conn, s);
    PutKeepsInv(b, pid, conn, s);
  }

  // ---------------------------------------------------------------- runs

  datatype Op =
    | AddOp(pid: PeerId, conn: ConnId, stream: StreamId)
    | RemoveOp(pid: PeerId, conn: ConnId, stream: StreamId)
    | CloseOp(pid: PeerId, conn: ConnId)
    | SetMaxOp(max: int)

  predicate Full(b: Book, pid: PeerId) {
    b.maxCount > 0 && CountOf(b, pid) >= b.maxCount
  }

  function Do(b: Book, op: Op): Book {
    match op
    case AddOp(pid, conn, stream) =>
      if Full(b, pid) then b else Put(b, pid, conn, StreamsOf(b, pid, conn) + {stream})
    case RemoveOp(pid, conn, stream) =>
      if stream !in StreamsOf(b, pid, conn) then b else Put(b, pid, conn, StreamsOf(b, pid, conn) - {stream})
    case CloseOp(pid, conn) =>
      if StreamsOf(b, pid, conn) == {} then b else Put(b, pid, conn, {})
    case SetMaxOp(max) => b.(maxCount := max)
  }

  function Run(b: Book, ops: seq<Op>): Book
    decreases |ops|
  {
    if ops == [] then b else Run(Do(b, ops[0]), ops[1..])
  }

  ghost predicate WithinLimit(b: Book) {
    b.maxCount > 0 ==> forall pid :: CountOf(b, pid) <= b.maxCount
  }

  lemma DoKeepsInv(b: Book, op: Op)
    requires Inv(b)
    ensures Inv(Do(b, op))
  {
    match op
    case AddOp(pid, conn, x) => PutKeepsInv(b, pid, conn, StreamsOf(b, pid, conn) + {x});
    case RemoveOp(pid, conn, x) => PutKeepsInv(b, pid, conn, StreamsOf(b, pid, conn) - {x});
    case CloseOp(pid, conn) => PutKeepsInv(b, pid, conn, {});
    case SetMaxOp(_) =>
  }

  /** Operations on one peer leave all others as they were, and respect the limit. */
  lemma DoFrame(b: Book, op: Op)
    requires Inv(b) && !op.SetMaxOp?
    ensures forall q :: q != op.pid ==> SamePeer(b, Do(b, op), q)
    ensures CountOf(Do(b, op), op.pid) <= CountOf(b, op.pid) + if op.AddOp? && !Full(b, op.pid) then 1 else 0
    ensures Do(b, op).maxCount == b.maxCount
  {
    var s := StreamsOf(b, op.pid, op.conn);
    match op
    case AddOp(pid, conn, x) => PutOthers(b, pid, conn, s + {x});
    case RemoveOp(pid, conn, x) => PutOthers(b, pid, conn, s - {x});
    case CloseOp(pid, conn) => PutOthers(b, pid, conn, {});
  }

  lemma PutOthers(b: Book, pid: PeerId, conn: ConnId, s: set<StreamId>)
    requires Inv(b)
    ensures forall q :: q != pid ==> SamePeer(b, Put(b, pid, conn, s), q)
    ensures CountOf(Put(b, pid, conn, s), pid) == CountOf(b, pid) + |s| - |StreamsOf(b, pid, conn)|
    ensures Put(b, pid, conn, s).maxCount == b.maxCount
  {
    PutFrame(b, pid, conn, s);
    PutKeepsInv(b, pid, conn, s);
  }

  /**
   * After every run, each peer's count is the number of its streams over all its
   * connections, the two maps know the same peers, and nothing empty is kept.
   */
  lemma {:induction false} CountsExact(b: Book, ops: seq<Op>)
    requires Inv(b)
    ensures Inv(Run(b, ops))
    decreases |ops|
  {
    if ops != [] {
      DoKeepsInv(b, ops[0]);
      CountsExact(Do(b, ops[0]), ops[1..]);
    }
  }

  // ---------------------------------------------------------------- the limit

  /** Nobody sets the limit. */
  predicate LimitFixed(ops: seq<Op>) {
    forall i :: 0 <= i < |ops| ==> !ops[i].SetMaxOp?
  }

  function Max(a: int, b: int): int {
    if a < b then b else a
  }

  lemma DoBounded(b: Book, op: Op, pid: PeerId)
    requires Inv(b) && b.maxCount > 0 && !op.SetMaxOp?
    ensures CountOf(Do(b, op), pid) <= Max(CountOf(b, pid), b.maxCount) && Do(b, op).maxCount == b.maxCount
  {
    DoFrame(b, op);
    if pid != op.pid {
      assert SamePeer(b, Do(b, op), pid);
    }
  }

  /** While a limit stands, no peer gets more streams than it allows or the peer had already. */
  lemma {:induction false} LimitBounds(b: Book, ops: seq<Op>, pid: PeerId)
    requires Inv(b) && b.maxCount > 0 && LimitFixed(ops)
    ensures CountOf(Run(b, ops), pid) <= Max(CountOf(b, pid), b.maxCount) && Run(b, ops).maxCount == b.maxCount
    decreases |ops|
  {
    if ops != [] {
      assert !ops[0].SetMaxOp? && LimitFixed(ops[1..]);
      DoKeepsInv(b, ops[0]);
      DoBounded(b, ops[0], pid);
      LimitBounds(Do(b, ops[0]), ops[1..], pid);
    }
  }

  lemma {:induction false} LimitKept(b: Book, ops: seq<Op>)
    requires LimitFixed(ops)
    ensures Run(b, ops).maxCount == b.maxCount
    decreases |ops|
  {
    if ops != [] {
      assert !ops[0].SetMaxOp? && LimitFixed(ops[1..]);
      LimitKept(Do(b, ops[0]), ops[1..]);
    }
  }

  /** Every state from b on, until the limit is set again, is within it. */
  ghost predicate AlwaysWithinLimit(b: Book) {
    forall ops :: LimitFixed(ops) ==> WithinLimit(Run(b, ops))
  }

  /** A limit that is set is never exceeded exactly if nobody exceeds it when it is set. */
  lemma LimitHoldsIff(b: Book, max: int)
    requires Inv(b)
    ensures AlwaysWithinLimit(Do(b, SetMaxOp(max))) <==> max <= 0 || forall pid :: CountOf(b, pid) <= max
  {
    var n := Do(b, SetMaxOp(max));
    assert forall pid :: CountOf(n, pid) == CountOf(b, pid);
    if max <= 0 || forall pid :: CountOf(b, pid) <= max {
      forall ops | LimitFixed(ops) ensures WithinLimit(Run(n, ops)) {
        LimitKept(n, ops);
        if max > 0 {
          forall pid ensures CountOf(Run(n, ops), pid) <= max {
            LimitBounds(n, ops, pid);
          }
        }
      }
    } else {
      assert LimitFixed([]) && Run(n, []) == n;
      assert !WithinLimit(n);
    }
  }

  /** A limit set later can be exceeded at once. */
  lemma LateLimitExceeded(pid: PeerId)
    ensures var b := Run(Book(-1, map[], map[]), [AddOp(pid, 0, 0), AddOp(pid, 0, 1), SetMaxOp(1)]);
            Inv(b) && b.maxCount == 1 && CountOf(b, pid) == 2
  {
    var b0 := Book(-1, map[], map[]);
    CountsExact(b0, [AddOp(pid, 0, 0), AddOp(pid, 0, 1), SetMaxOp(1)]);
    RunThree(b0, AddOp(pid, 0, 0), AddOp(pid, 0, 1), SetMaxOp(1));
    TwoStreams(b0, pid);
  }

  lemma RunThree(b: Book, x: Op, y: Op, z: Op)
    ensures Run(b, [x, y, z]) == Do(Do(Do(b, x), y), z)
  {
    assert [x, y, z][1..] == [y, z] && [y, z][1..] == [z] && [z][1..] == [];
    assert Run(Do(Do(b, x), y), [z]) == Do(Do(Do(b, x), y), z);
    assert Run(Do(b, x), [y, z]) == Run(Do(Do(b, x), y), [z]);
  }

  lemma TwoStreams(b: Book, pid: PeerId)
    requires b == Book(-1, map[], map[])
    ensures CountOf(Do(Do(b, AddOp(pid, 0, 0)), AddOp(pid, 0, 1)), pid) == 2
  {
    var b1 := Do(b, AddOp(pid, 0, 0));
    assert {} + {0} == {0} && {0} + {1} == {0, 1} && |{0, 1}| == 2;
    PutFrame(b, pid, 0, {0});
    PutKeepsInv(b, pid, 0, {0});
    PutKeepsInv(b1, pid, 0, {0, 1});
  }

  // ---------------------------------------------------------------- the code

  class ReceiveStreamManager {
    var maxCount: int
    var countMap: map<PeerId, int>
    var streamMap: map<PeerId, map<ConnId, set<StreamId>>>

    /** Streams closed by ClosePeerReceiveStreams. */
    var closed: set<StreamId>

    constructor ()
      ensures View() == Book(-1, map[], map[]) && Inv(View()) && closed == {}
    {
      maxCount, countMap, streamMap, closed := -1, map[], map[], {};
    }

    function View(): Book
      reads this
    {
      Book(maxCount, countMap, streamMap)
    }

    method SetPeerReceiveStreamMaxCount(max: int)
      modifies this`maxCount
      ensures View() == Do(old(View()), SetMaxOp(max))
      ensures maxCount == max
    {
      maxCount := max;
    }

    method AddPeerReceiveStream(pid: PeerId, conn: ConnId, stream: StreamId) returns (err: bool)
      requires Inv(View())
      modifies this`countMap, this`streamMap
      ensures View() == Do(old(View()), AddOp(pid, conn, stream)) && Inv(View())
      ensures err <==> maxCount > 0 && StreamTotal(ConnsOf(old(View()), pid)) >= maxCount
      ensures OneSetChanged(old(View()), View(), pid, conn, StreamsOf(old(View()), pid, conn) + if err then {} else {stream})
    {
      AddChangesOne(View(), pid, conn, stream);
      AddShape(View(), pid, conn, stream);
      var count := if pid in countMap then countMap[pid] else 0;
      if maxCount > 0 && count >= maxCount {
        return true;
      }
      err := false;
      var streamSet := if pid in streamMap && conn in streamMap[pid] then streamMap[pid][conn] else {};
      if stream in streamSet {
        return;
      }
      var connM: map<ConnId, set<StreamId>> := if pid in streamMap then streamMap[pid] else map[];
      connM := connM[conn := streamSet + {stream}];
      streamMap := streamMap[pid := connM];
      countMap := countMap[pid := count + 1];
    }

    method RemovePeerReceiveStream(pid: PeerId, conn: ConnId, stream: StreamId)
      requires Inv(View())
      modifies this`countMap, this`streamMap
      ensures View() == Do(old(View()), RemoveOp(pid, conn, stream)) && Inv(View())
      ensures OneSetChanged(old(View()), View(), pid, conn, StreamsOf(old(View()), pid, conn) - {stream})
    {
      RemoveChangesOne(View(), pid, conn, stream);
      DoKeepsInv(View(), RemoveOp(pid, conn, stream));
      var count := if pid in countMap then countMap[pid] else 0;
      if count == 0 {
        CountZero(View(), pid);
        return;
      }
      if pid !in streamMap || conn !in streamMap[pid] {
        return;
      }
      var connM: map<ConnId, set<StreamId>> := streamMap[pid];
      var streamSet := connM[conn];
      if stream in streamSet {
        PutShape(View(), pid, conn, streamSet - {stream});
        streamSet := streamSet - {stream};
        count := count - 1;
        if count == 0 {
          countMap, streamMap := countMap - {pid}, streamMap - {pid};
        } else {
          countMap := countMap[pid := count];
          if |streamSet| == 0 {
            streamMap := streamMap[pid := connM - {conn}];
          } else {
            connM := connM[conn := streamSet];
            streamMap := streamMap[pid := connM];
          }
        }
      }
    }

    /** Closes each stream of a set, counting down. */
    method CloseEach(streams: set<StreamId>, before: int) returns (count: int)
      modifies this`closed
      ensures count == before - |streams| && closed == old(closed) + streams
    {
      count := before;
      var todo := streams;
      while todo != {}
        invariant todo <= streams && count == before - |streams| + |todo|
        invariant closed == old(closed) + (streams - todo)
        decreases todo
      {
        var s :| s in todo;
        count := count - 1;
        closed := closed + {s};
        todo := todo - {s};
      }
    }

    method ClosePeerReceiveStreams(pid: PeerId, conn: ConnId)
      requires Inv(View())
      modifies this`countMap, this`streamMap, this`closed
      ensures View() == Do(old(View()), CloseOp(pid, conn)) && Inv(View())
      ensures closed == old(closed) + StreamsOf(old(View()), pid, conn)
      ensures OneSetChanged(old(View()), View(), pid, conn, {})
    {
      PutChangesOne(View(), pid, conn, {});
      CloseShape(View(), pid, conn);
      var count := if pid in countMap then countMap[pid] else 0;
      if count == 0 {
        return;
      }
      if pid !in streamMap || conn !in streamMap[pid] {
        return;
      }
      var connM: map<ConnId, set<StreamId>> := streamMap[pid];
      assert StreamsOf(View(), pid, conn) == connM[conn];
      count := CloseEach(connM[conn], count);
      Forget(pid, conn, count);
    }

    /** The last lines of ClosePeerReceiveStreams. */
    method Forget(pid: PeerId, conn: ConnId, count: int)
      requires pid in streamMap
      modifies this`countMap, this`streamMap
      ensures View() == if count == 0 then old(View()).(counts := old(countMap) - {pid}, streams := old(streamMap) - {pid})
                        else old(View()).(counts := old(countMap)[pid := count],
                                          streams := old(streamMap)[pid := old(streamMap)[pid] - {conn}])
    {
      if count == 0 {
        countMap, streamMap := countMap - {pid}, streamMap - {pid};
      } else {
        countMap := countMap[pid := count];
        var connM: map<ConnId, set<StreamId>> := streamMap[pid] - {conn};
        streamMap := streamMap[pid := connM];
      }
    }

    method GetConnReceiveStreamCount(pid: PeerId, conn: ConnId) returns (n: nat)
      ensures n == |StreamsOf(View(), pid, conn)|
    {
      if pid !in streamMap || conn !in streamMap[pid] {
        return 0;
      }
      n := |streamMap[pid][conn]|;
    }

    method GetCurrentPeerReceiveStreamCount(pid: PeerId) returns (n: int)
      requires Inv(View())
      ensures n == StreamTotal(ConnsOf(View(), pid))
    {
      n := if pid in countMap then countMap[pid] else 0;
    }
  }

  lemma AddChangesOne(b: Book, pid: PeerId, conn: ConnId, stream: StreamId)
    requires Inv(b)
    ensures Full(b, pid) <==> b.maxCount > 0 && StreamTotal(ConnsOf(b, pid)) >= b.maxCount
    ensures OneSetChanged(b, Do(b, AddOp(pid, conn, stream)), pid, conn,
                          StreamsOf(b, pid, conn) + if Full(b, pid) then {} else {stream})
  {
    PutChangesOne(b, pid, conn, StreamsOf(b, pid, conn) + if Full(b, pid) then {} else {stream});
  }

  lemma RemoveChangesOne(b: Book, pid: PeerId, conn: ConnId, stream: StreamId)
    requires Inv(b)
    ensures OneSetChanged(b, Do(b, RemoveOp(pid, conn, stream)), pid, conn, StreamsOf(b, pid, conn) - {stream})
  {
    PutChangesOne(b, pid, conn, StreamsOf(b, pid, conn) - {stream});
  }

  /** The early returns on a zero count lose nothing. */
  lemma CountZero(b: Book, pid: PeerId)
    requires Inv(b) && CountOf(b, pid) == 0
    ensures pid !in b.streams
  {
    if pid in b.streams {
      TotalPositive(b.streams[pid]);
    }
  }

  /** The count reaches zero exactly when the last connection goes. */
  lemma PutShape(b: Book, pid: PeerId, conn: ConnId, s: set<StreamId>)
    requires Inv(b) && pid in b.streams && conn in b.streams[pid]
    ensures var count := CountOf(b, pid) + |s| - |b.streams[pid][conn]|;
            Put(b, pid, conn, s) ==
            if count == 0 then b.(counts := b.counts - {pid}, streams := b.streams - {pid})
            else b.(counts := b.counts[pid := count], streams := b.streams[pid := WithConn(b.streams[pid], conn, s)])
  {
    TotalWith(b.streams[pid], conn, s);
    TotalPositive(WithConn(b.streams[pid], conn, s));
  }

  /** An addition that is let in changes one count and one set, or nothing. */
  lemma AddShape(b: Book, pid: PeerId, conn: ConnId, stream: StreamId)
    requires Inv(b)
    ensures Inv(Do(b, AddOp(pid, conn, stream)))
    ensures !Full(b, pid) && stream in StreamsOf(b, pid, conn) ==> Do(b, AddOp(pid, conn, stream)) == b
    ensures !Full(b, pid) && stream !in StreamsOf(b, pid, conn) ==>
              Do(b, AddOp(pid, conn, stream)) ==
              b.(counts := b.counts[pid := CountOf(b, pid) + 1],
                 streams := b.streams[pid := ConnsOf(b, pid)[conn := StreamsOf(b, pid, conn) + {stream}]])
  {
    DoKeepsInv(b, AddOp(pid, conn, stream));
    var s := StreamsOf(b, pid, conn);
    if stream in s {
      PutSame(b, pid, conn);
      assert s + {stream} == s;
    } else {
      PutNonempty(b, pid, conn, s + {stream});
    }
  }

  /** Closing a connection's streams takes its set away, and its peer with the last of them. */
  lemma CloseShape(b: Book, pid: PeerId, conn: ConnId)
    requires Inv(b)
    ensures Inv(Do(b, CloseOp(pid, conn)))
    ensures CountOf(b, pid) == 0 ==> pid !in b.streams
    ensures pid !in b.streams || conn !in b.streams[pid] ==> Do(b, CloseOp(pid, conn)) == b
    ensures pid in b.streams && conn in b.streams[pid] ==>
              var count := CountOf(b, pid) - |b.streams[pid][conn]|;
              Do(b, CloseOp(pid, conn)) ==
              if count == 0 then b.(counts := b.counts - {pid}, streams := b.streams - {pid})
              else b.(counts := b.counts[pid := count], streams := b.streams[pid := b.streams[pid] - {conn}])
  {
    DoKeepsInv(b, CloseOp(pid, conn));
    if CountOf(b, pid) == 0 {
      CountZero(b, pid);
    }
    if pid in b.streams && conn in b.streams[pid] {
      PutShape(b, pid, conn, {});
    }
  }
}
