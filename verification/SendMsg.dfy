// SendMsg of host.go as one sender runs it: borrow a stream, write one frame,
// give the stream back. It keeps the discipline that the pool's books rely on, and
// what it does to the pool and to the wires are steps of the machine of Delivery.
module SendMsg {
  import opened Wrappers
  import opened Bytes
  import opened Payload
  import opened Framing
  import opened SendStreamPool
  import D = Delivery

  datatype SendError =
    | PeerNotConnected | ProtocolNotSupported | PoolNotFound
    | BorrowFailed(why: BorrowResult) | MarshalFailed
    | ConnectionLost | WriteFailed | WriteIncomplete

  /** The error SendMsg comes to its deferred block with. */
  function ErrorOf(result: D.WriteResult): Option<SendError> {
    match result
    case NoPackage => Some(MarshalFailed)
    case Written => None
    case Incomplete => Some(WriteIncomplete)
    case WriteError(networkClosed, looksClosed) =>
      if networkClosed then None else if looksClosed then Some(ConnectionLost) else Some(WriteFailed)
  }

  function OnWire(wire: map<Stream, seq<Byte>>, s: Stream): seq<Byte> {
    if s in wire then wire[s] else []
  }

  /** The write halves of a connection's streams. Reliable ones take whatever is written to them. */
  class SendStreams {
    const reliable: bool
    var wire: map<Stream, seq<Byte>>

    /** What the last write answered. */
    var failed: bool

    constructor (reliable: bool)
      ensures this.reliable == reliable && wire == map[]
    {
      this.reliable, wire, failed := reliable, map[], false;
    }

    ghost function On(s: Stream): seq<Byte>
      reads this
    {
      OnWire(wire, s)
    }

    /** Writes as much as it can; it may come short with or without an error. */
    method Write(s: Stream, bytes: seq<Byte>) returns (n: nat, failed: bool)
      modifies this
      ensures n <= |bytes| && On(s) == old(On(s)) + bytes[..n]
      ensures reliable ==> n == |bytes| && !failed
      ensures failed == this.failed
      ensures forall t: Stream :: t != s ==> On(t) == old(On(t))
    {
      n, failed := *, *;
      if n > |bytes| || reliable {
        n := |bytes|;
      }
      failed := failed && !reliable;
      this.failed := failed;
      wire := wire[s := (if s in wire then wire[s] else []) + bytes[..n]];
    }
  }

  /** The world with the expand signal as it is afterwards. */
  function Signalled(w: World, signal: bool): World {
    w.(pool := w.pool.(signal := signal))
  }

  /**
   * How a borrow that came to r changed the world. An open pool with an idle stream
   * lends the first one, and has its expand signal raised.
   */
  ghost predicate Borrowed(was: World, now: World, r: BorrowResult) {
    var p, q := was.pool, now.pool;
    && (r.Got? ==>
          && p.queue != [] && r.stream == p.queue[0] && r.stream !in was.lent
          && now == Signalled(Apply(was, Borrow), q.signal)
          && q.queue == p.queue[1..] && now.lent == was.lent + {r.stream})
    && (!r.Got? ==> now == Signalled(was, q.signal))
    && (!p.closed && p.queue != [] ==> r.Got?)
    && (p.closed && p.queue == [] ==> r.PoolClosed?)
    && (r.PoolClosed? ==> p.closed)
    && (r.NoStream? <==> !p.closed && p.queue == [] && |was.lent| == p.maxSize)
    && (p.signal || (!p.closed && (r.Got? || r.Retry?)) ==> q.signal)
    && q.closed == p.closed && q.current == p.current && now.abandoned == was.abandoned
  }

  /** BorrowStream: its two critical sections again and again, for a while. */
  method BorrowStream(pool: SendStreamPool, attempts: nat) returns (r: BorrowResult)
    requires Conserved(pool.View())
    modifies pool
    ensures Conserved(pool.View()) && Borrowed(old(pool.View()), pool.View(), r)
    decreases attempts
  {
    r := BorrowOnce(pool);
    if r.Retry? && attempts > 0 {
      r := BorrowStream(pool, attempts - 1);
    }
  }

  method BorrowOnce(pool: SendStreamPool) returns (r: BorrowResult)
    requires Conserved(pool.View())
    modifies pool
    ensures Conserved(pool.View()) && Borrowed(old(pool.View()), pool.View(), r)
  {
    ghost var was := pool.View();
    r := pool.BorrowFirst();
    if r.Got? {
      pool.TriggerExpand();
      assert pool.View() == Signalled(Apply(was, Borrow), pool.expandingSignalC);
    } else if r.Retry? {
      assert pool.View() == Signalled(was, true);
      r := pool.BorrowSecond();
    }
  }

  /** What writing msg on stream s did: n bytes of its frame are out. */
  ghost predicate WroteFrame(gz: Gzip, msg: Fields, before: seq<Byte>, after: seq<Byte>, n: nat) {
    if Marshalled(gz, msg).Err? then n == 0 && after == before
    else
      var f := Frame(Marshalled(gz, msg).value);
      n <= |f| && after == before + f[..n]
  }

  /** How SendMsg came to its deferred block, when its write (if any) put out n bytes. */
  ghost predicate Came(gz: Gzip, msg: Fields, n: nat, failed: bool, networkClosed: bool, looksClosed: bool, result: D.WriteResult) {
    && (result.NoPackage? <==> Marshalled(gz, msg).Err?)
    && (result.WriteError? <==> Marshalled(gz, msg).Ok? && failed)
    && (result.WriteError? ==> result == D.WriteError(networkClosed, looksClosed))
    && (result.Written? ==> n == 8 + |Marshalled(gz, msg).value|)
    && (result.Incomplete? ==> n < 8 + |Marshalled(gz, msg).value|)
  }

  method WriteMsg(streams: SendStreams, s: Stream, gz: Gzip, msg: Fields, networkClosed: bool, looksClosed: bool)
    returns (err: Option<SendError>, ghost n: nat, ghost result: D.WriteResult)
    modifies streams
    ensures WroteFrame(gz, msg, old(streams.On(s)), streams.On(s), n)
    ensures Came(gz, msg, n, streams.failed, networkClosed, looksClosed, result) && err == ErrorOf(result)
    ensures forall t: Stream :: t != s ==> streams.On(t) == old(streams.On(t))
    ensures err == Some(MarshalFailed) <==> Marshalled(gz, msg).Err?
    ensures err == Some(WriteFailed) <==> result.WriteError? && !networkClosed && !looksClosed
    ensures err == Some(ConnectionLost) <==> result.WriteError? && !networkClosed && looksClosed
    ensures err == Some(WriteIncomplete) <==> result.Incomplete?
    ensures err.None? <==> result.Written? || (result.WriteError? && networkClosed)
    ensures streams.reliable && Marshalled(gz, msg).Ok? ==>
              err.None? && n == |streams.On(s)| - |old(streams.On(s))| == 8 + |Marshalled(gz, msg).value|
  {
    n := 0;
    var pkg := new PayloadPkg(msg.protocol, msg.payload, msg.compressType);
    var bz := pkg.Marshal(gz);
    if bz.Err? {
      return Some(MarshalFailed), 0, D.NoPackage;
    }
    var buffer := Word(|bz.value|) + bz.value;
    var count, failed := streams.Write(s, buffer);
    n := count;
    if failed {
      err := if networkClosed then None else if looksClosed then Some(ConnectionLost) else Some(WriteFailed);
      result := D.WriteError(networkClosed, looksClosed);
    } else if count < |bz.value| + 8 {
      err, result := Some(WriteIncomplete), D.Incomplete;
    } else {
      err, result := None, D.Written;
    }
  }

  /** The deferred block of SendMsg does to the pool what the machine does when a job ends. */
  method GiveBack(pool: SendStreamPool, s: Stream, err: Option<SendError>, ghost msg: Fields, ghost n: nat, ghost result: D.WriteResult)
    returns (ghost refused: bool)
    requires Conserved(pool.View()) && s in pool.lent && err == ErrorOf(result)
    modifies pool
    ensures var end := D.PoolAction(D.Job(s, msg, n), result, refused);
            Enabled(old(pool.View()), end) && pool.View() == Apply(old(pool.View()), end)
    ensures Conserved(pool.View()) && pool.lent == old(pool.lent) - {s} && pool.closed == old(pool.closed)
    ensures pool.currentSize ==
            if err in {Some(WriteFailed), Some(WriteIncomplete)} then old(pool.currentSize) - 1 else old(pool.currentSize)
    ensures pool.poolC ==
            if err in {Some(WriteFailed), Some(WriteIncomplete)} || refused then old(pool.poolC) else old(pool.poolC) + [s]
    ensures refused ==> old(pool.closed)
  {
    refused := false;
    if err == Some(WriteFailed) || err == Some(WriteIncomplete) {
      pool.DropStream(s);
    } else {
      var closed := pool.ReturnStream(s);
      refused := closed;
    }
  }

  /** SendMsg with the stream s borrowed: one frame, and s goes back. */
  method SendOn(pool: SendStreamPool, streams: SendStreams, s: Stream, gz: Gzip, msg: Fields, networkClosed: bool, looksClosed: bool)
    returns (err: Option<SendError>, ghost n: nat, ghost result: D.WriteResult, ghost refused: bool)
    requires Conserved(pool.View()) && s in pool.lent
    modifies pool, streams
    ensures Conserved(pool.View()) && pool.lent == old(pool.lent) - {s}
    ensures WroteFrame(gz, msg, old(streams.On(s)), streams.On(s), n)
    ensures Came(gz, msg, n, streams.failed, networkClosed, looksClosed, result) && err == ErrorOf(result)
    ensures forall t: Stream :: t != s ==> streams.On(t) == old(streams.On(t))
    ensures var end := D.PoolAction(D.Job(s, msg, n), result, refused);
            Enabled(old(pool.View()), end) && pool.View() == Apply(old(pool.View()), end)
    ensures pool.currentSize ==
            if err in {Some(WriteFailed), Some(WriteIncomplete)} then old(pool.currentSize) - 1 else old(pool.currentSize)
    ensures streams.reliable && Marshalled(gz, msg).Ok? ==>
              err.None? && n == |streams.On(s)| - |old(streams.On(s))| == 8 + |Marshalled(gz, msg).value|
  {
    err, n, result := WriteMsg(streams, s, gz, msg, networkClosed, looksClosed);
    refused := GiveBack(pool, s, err, msg, n, result);
  }

  /** What a Send that borrowed s and ended with result did to the pool: a borrow and the end of a job. */
  ghost predicate PoolUsed(was: World, now: World, s: Stream, msg: Fields, n: nat, result: D.WriteResult, refused: bool)
    requires was.pool.queue != []
  {
    var lent, end := Apply(was, Borrow), D.PoolAction(D.Job(s, msg, n), result, refused);
    && s == was.pool.queue[0] && s !in was.lent
    && Enabled(lent, end) && now == Signalled(Apply(lent, end), now.pool.signal)
    && now.lent == was.lent
    && now.pool.current == was.pool.current - (if ErrorOf(result) in {Some(WriteFailed), Some(WriteIncomplete)} then 1 else 0)
    && (!was.pool.closed && ErrorOf(result) !in {Some(WriteFailed), Some(WriteIncomplete)} ==>
          now.pool.queue == was.pool.queue[1..] + [s])
  }

  lemma BorrowedAndEnded(was: World, mid: World, now: World, s: Stream, msg: Fields, n: nat, result: D.WriteResult, refused: bool)
    requires Conserved(was) && Borrowed(was, mid, Got(s)) && Conserved(mid)
    requires var end := D.PoolAction(D.Job(s, msg, n), result, refused); Enabled(mid, end) && now == Apply(mid, end)
    ensures PoolUsed(was, now, s, msg, n, result, refused)
    ensures now.pool.signal == mid.pool.signal
  {
    assert mid.lent - {s} == was.lent;
    DropNeverClamps(mid, s);
  }

  /**
   * Whatever happens, what was borrowed is given back once: returned (or refused by
   * a closed pool), or dropped, and dropped exactly when the write came short or
   * failed without a closed network or connection to blame. Success puts the whole
   * frame on the borrowed stream, and nothing is ever put on another one. With an
   * idle stream in an open pool and a reliable connection, every message that can be
   * marshalled to a connected peer is sent.
   */
  method Send(pool: SendStreamPool, streams: SendStreams, gz: Gzip, msg: Fields, attempts: nat,
              connected: bool, supported: bool, found: bool, networkClosed: bool, looksClosed: bool)
    returns (err: Option<SendError>, ghost used: Option<Stream>, ghost n: nat, ghost result: D.WriteResult, ghost refused: bool)
    requires Conserved(pool.View())
    modifies pool, streams
    ensures Conserved(pool.View()) && pool.lent == old(pool.lent)
    ensures !connected ==> err == Some(PeerNotConnected)
    ensures connected && !supported ==> err == Some(ProtocolNotSupported)
    ensures connected && supported && !found ==> err == Some(PoolNotFound)
    ensures connected && supported && found && used.None? ==> err.Some? && err.value.BorrowFailed?
    ensures err == Some(BorrowFailed(NoStream)) ==> |pool.lent| == pool.maxSize
    ensures used.None? ==> err.Some? && streams.wire == old(streams.wire)
    ensures used.None? ==> pool.View() == Signalled(old(pool.View()), pool.expandingSignalC)
    ensures used.Some? ==> connected && supported && found && old(pool.poolC) != [] && used.value !in old(pool.lent)
    ensures used.Some? ==>
              && WroteFrame(gz, msg, old(streams.On(used.value)), streams.On(used.value), n)
              && Came(gz, msg, n, streams.failed, networkClosed, looksClosed, result) && err == ErrorOf(result)
    ensures used.Some? ==> PoolUsed(old(pool.View()), pool.View(), used.value, msg, n, result, refused)
    ensures forall t: Stream :: used != Some(t) ==> streams.On(t) == old(streams.On(t))
    ensures pool.currentSize ==
            if err in {Some(WriteFailed), Some(WriteIncomplete)} then old(pool.currentSize) - 1 else old(pool.currentSize)
    ensures old(pool.expandingSignalC) ==> pool.expandingSignalC
    ensures connected && supported && found && old(pool.poolC) != [] && !old(pool.closed) ==> used.Some? && pool.expandingSignalC
    ensures used.Some? && streams.reliable && Marshalled(gz, msg).Ok? ==>
              err.None? && n == |streams.On(used.value)| - |old(streams.On(used.value))| == 8 + |Marshalled(gz, msg).value|
  {
    ghost var was := pool.View();
    used, n, result, refused := None, 0, D.NoPackage, false;
    if !connected {
      err := Some(PeerNotConnected);
      return;
    }
    if !supported {
      err := Some(ProtocolNotSupported);
      return;
    }
    if !found {
      err := Some(PoolNotFound);
      return;
    }
    var borrowed := BorrowStream(pool, attempts);
    if !borrowed.Got? {
      err := Some(BorrowFailed(borrowed));
      return;
    }
    var s := borrowed.stream;
    used := Some(s);
    ghost var mid := pool.View();
    err, n, result, refused := SendOn(pool, streams, s, gz, msg, networkClosed, looksClosed);
    BorrowedAndEnded(was, mid, pool.View(), s, msg, n, result, refused);
  }
  // ---------------------------------------------------------------- as steps of the machine

  /** The steps of one sender from its borrow on. */
  function JobSteps(gz: Gzip, c: D.Client, msg: Fields, n: nat, result: D.WriteResult, refused: bool): seq<D.Step> {
    [D.Start(c, msg)] + (if Marshalled(gz, msg).Ok? then [D.Write(c, n)] else []) + [D.End(c, result, refused)]
  }

  lemma Prepend(sys: D.System, st: D.Step, run: seq<D.Step>)
    requires D.CanStep(sys, st) && D.Possible(D.Next(sys, st), run)
    ensures D.Possible(sys, [st] + run) && D.After(sys, [st] + run) == D.After(D.Next(sys, st), run)
  {
    assert ([st] + run)[1..] == run;
  }

  lemma EndOnly(sys: D.System, st: D.Step)
    requires D.CanStep(sys, st)
    ensures D.Possible(sys, [st]) && D.After(sys, [st]) == D.Next(sys, st)
  {
    Prepend(sys, st, []);
    assert [st] + [] == [st];
  }

  /** From sys to next, the wire of s got `more`, and no other wire anything. */
  ghost predicate WireGrew(sys: D.System, next: D.System, s: Stream, more: seq<Byte>) {
    && next.gz == sys.gz
    && D.ChannelOf(next, s).wire == D.ChannelOf(sys, s).wire + more
    && forall t :: t != s ==> D.ChannelOf(next, t).wire == D.ChannelOf(sys, t).wire
  }

  lemma EndIsRun(sys: D.System, st: D.Step)
    requires st.End? && D.CanStep(sys, st)
    ensures D.Possible(sys, [st])
    ensures var next, s := D.After(sys, [st]), sys.jobs[st.c].stream;
            && next.jobs == sys.jobs - {st.c} && WireGrew(sys, next, s, [])
            && next.world == Apply(sys.world, D.PoolAction(sys.jobs[st.c], st.result, st.refused))
  {
    EndOnly(sys, st);
  }

  lemma WriteGrows(sys: D.System, c: D.Client, n: nat)
    requires D.CanStep(sys, D.Write(c, n)) && sys.jobs[c].written == 0
    ensures var next, j := D.Next(sys, D.Write(c, n)), sys.jobs[c];
            && next.world == sys.world && next.jobs == sys.jobs[c := j.(written := n)]
            && WireGrew(sys, next, j.stream, D.FrameOf(sys, j)[..n])
  {
    var f := D.FrameOf(sys, sys.jobs[c]);
    assert f[0..n] == f[..n];
  }

  /** A result that fits a message of which n bytes came out. */
  ghost predicate Fitting(gz: Gzip, msg: Fields, n: nat, result: D.WriteResult) {
    && (result.NoPackage? <==> Marshalled(gz, msg).Err?)
    && n <= |D.FrameOfMsg(gz, msg)|
    && (result.Written? ==> n == |D.FrameOfMsg(gz, msg)|)
    && (result.Incomplete? ==> n < |D.FrameOfMsg(gz, msg)|)
  }

  /** The job of c, from its write to its end. */
  lemma RestIsRun(sys: D.System, c: D.Client, n: nat, result: D.WriteResult, refused: bool)
    requires c in sys.jobs && sys.jobs[c].written == 0 && Fitting(sys.gz, sys.jobs[c].msg, n, result)
    requires Enabled(sys.world, D.PoolAction(sys.jobs[c].(written := n), result, refused))
    ensures var j := sys.jobs[c];
            var run := JobSteps(sys.gz, c, j.msg, n, result, refused)[1..];
            && D.Possible(sys, run)
            && var next := D.After(sys, run);
               && next.jobs == sys.jobs - {c} && WireGrew(sys, next, j.stream, D.FrameOf(sys, j)[..n])
               && next.world == Apply(sys.world, D.PoolAction(j.(written := n), result, refused))
  {
    var j := sys.jobs[c];
    var write, end := D.Write(c, n), D.End(c, result, refused);
    if Marshalled(sys.gz, j.msg).Ok? {
      var s2 := D.Next(sys, write);
      WriteGrows(sys, c, n);
      EndIsRun(s2, end);
      Prepend(sys, write, [end]);
      assert JobSteps(sys.gz, c, j.msg, n, result, refused)[1..] == [write] + [end];
      assert s2.jobs - {c} == sys.jobs - {c};
    } else {
      EndIsRun(sys, end);
      assert JobSteps(sys.gz, c, j.msg, n, result, refused)[1..] == [end];
    }
  }

  /** From the borrow to the end of the job. */
  lemma JobIsRun(sys: D.System, c: D.Client, msg: Fields, n: nat, result: D.WriteResult, refused: bool)
    requires c !in sys.jobs && Enabled(sys.world, Borrow) && D.Acceptable(sys.gz, msg) && Fitting(sys.gz, msg, n, result)
    requires Enabled(Apply(sys.world, Borrow), D.PoolAction(D.Job(sys.world.pool.queue[0], msg, n), result, refused))
    ensures var run, s := JobSteps(sys.gz, c, msg, n, result, refused), sys.world.pool.queue[0];
            && D.Possible(sys, run)
            && var next := D.After(sys, run);
               && next.jobs == sys.jobs && WireGrew(sys, next, s, D.FrameOfMsg(sys.gz, msg)[..n])
               && next.world == Apply(Apply(sys.world, Borrow), D.PoolAction(D.Job(s, msg, n), result, refused))
  {
    var run := JobSteps(sys.gz, c, msg, n, result, refused);
    var s1 := D.Next(sys, D.Start(c, msg));
    RestIsRun(s1, c, n, result, refused);
    Prepend(sys, D.Start(c, msg), run[1..]);
    assert run == [D.Start(c, msg)] + run[1..];
    assert s1.jobs - {c} == sys.jobs;
  }

  /** Giving a stream back does not look at the signal. */
  lemma EndSignalled(w: World, signal: bool, j: D.Job, result: D.WriteResult, refused: bool)
    ensures var end := D.PoolAction(j, result, refused);
            && (Enabled(Signalled(w, signal), end) <==> Enabled(w, end))
            && (Enabled(w, end) ==> Apply(Signalled(w, signal), end) == Signalled(Apply(w, end), signal))
  {
  }

  /** The expand signal is raised, or it was raised, or nobody raised it. */
  function TriggerSteps(was: bool, now: bool): seq<D.Step> {
    if !was && now then [D.Other(Trigger(true))] else []
  }

  lemma TriggerThen(sys: D.System, now: bool, run: seq<D.Step>)
    requires sys.world.pool.signal ==> now
    requires D.Possible(sys.(world := Signalled(sys.world, now)), run)
    ensures var all := TriggerSteps(sys.world.pool.signal, now) + run;
            D.Possible(sys, all) && D.After(sys, all) == D.After(sys.(world := Signalled(sys.world, now)), run)
  {
    if !sys.world.pool.signal && now {
      Prepend(sys, D.Other(Trigger(true)), run);
    } else {
      assert [] + run == run;
    }
  }

  lemma SendIsRun(sys: D.System, c: D.Client, now: World, msg: Fields, n: nat, result: D.WriteResult, refused: bool)
    requires c !in sys.jobs && D.Acceptable(sys.gz, msg) && Fitting(sys.gz, msg, n, result)
    requires sys.world.pool.queue != [] && (sys.world.pool.signal ==> now.pool.signal)
    requires var lent, end := Apply(sys.world, Borrow), D.PoolAction(D.Job(sys.world.pool.queue[0], msg, n), result, refused);
             Enabled(lent, end) && now == Signalled(Apply(lent, end), now.pool.signal)
    ensures var run := TriggerSteps(sys.world.pool.signal, now.pool.signal) + JobSteps(sys.gz, c, msg, n, result, refused);
            && D.Possible(sys, run)
            && var next := D.After(sys, run);
               && next.jobs == sys.jobs && next.world == now
               && WireGrew(sys, next, sys.world.pool.queue[0], D.FrameOfMsg(sys.gz, msg)[..n])
  {
    var job := JobSteps(sys.gz, c, msg, n, result, refused);
    var raised := sys.(world := Signalled(sys.world, now.pool.signal));
    EndSignalled(Apply(sys.world, Borrow), now.pool.signal, D.Job(sys.world.pool.queue[0], msg, n), result, refused);
    assert Apply(raised.world, Borrow) == Signalled(Apply(sys.world, Borrow), now.pool.signal);
    JobIsRun(raised, c, msg, n, result, refused);
    TriggerThen(sys, now.pool.signal, job);
  }

  lemma WiresAgree(sys: D.System, next: D.System, s: Stream, more: seq<Byte>, was: map<Stream, seq<Byte>>, now: map<Stream, seq<Byte>>)
    requires WireGrew(sys, next, s, more)
    requires forall t: Stream :: D.ChannelOf(sys, t).wire == OnWire(was, t)
    requires OnWire(now, s) == OnWire(was, s) + more && forall t: Stream :: t != s ==> OnWire(now, t) == OnWire(was, t)
    ensures forall t: Stream :: D.ChannelOf(next, t).wire == OnWire(now, t)
  {
  }

  /** The pool and the wires are those of sys. */
  ghost predicate Agrees(sys: D.System, pool: SendStreamPool, streams: SendStreams)
    reads pool, pool.conn, streams
  {
    sys.world == pool.View() && forall s: Stream :: D.ChannelOf(sys, s).wire == OnWire(streams.wire, s)
  }

  /**
   * What SendMsg does to the pool and the wires is what a sender of Delivery does in
   * one Start, one Write of what came out (if there was a package) and one End, after
   * a Trigger if it raised the expand signal; or that Trigger alone, if it got no stream.
   */
  method SendAsClient(pool: SendStreamPool, streams: SendStreams, msg: Fields, attempts: nat,
                      connected: bool, supported: bool, found: bool, networkClosed: bool, looksClosed: bool,
                      gz: Gzip, ghost sys: D.System, ghost c: D.Client)
    returns (err: Option<SendError>, ghost run: seq<D.Step>)
    requires Conserved(pool.View()) && Agrees(sys, pool, streams)
    requires sys.gz == gz && c !in sys.jobs && D.Acceptable(gz, msg)
    modifies pool, streams
    ensures D.Possible(sys, run) && Agrees(D.After(sys, run), pool, streams) && D.After(sys, run).jobs == sys.jobs
    ensures var trigger := TriggerSteps(old(pool.expandingSignalC), pool.expandingSignalC);
            || (run == trigger && err.Some?)
            || exists n, result, refused :: run == trigger + JobSteps(gz, c, msg, n, result, refused) && err == ErrorOf(result)
  {
    ghost var used, n, result, refused;
    err, used, n, result, refused := Send(pool, streams, gz, msg, attempts, connected, supported, found, networkClosed, looksClosed);
    if used.Some? {
      run := TriggerSteps(sys.world.pool.signal, pool.expandingSignalC) + JobSteps(gz, c, msg, n, result, refused);
      SendIsRun(sys, c, pool.View(), msg, n, result, refused);
      forall t | t != used.value ensures OnWire(streams.wire, t) == OnWire(old(streams.wire), t) {
        assert streams.On(t) == old(streams.On(t));
      }
      WiresAgree(sys, D.After(sys, run), used.value, D.FrameOfMsg(gz, msg)[..n], old(streams.wire), streams.wire);
    } else {
      run := TriggerSteps(sys.world.pool.signal, pool.expandingSignalC);
      TriggerThen(sys, pool.expandingSignalC, []);
      assert run + [] == run;
    }
  }
}
