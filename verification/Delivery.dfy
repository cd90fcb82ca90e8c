// From SendMsg to the receive loop: many senders share the streams of a pool
// (SendMsg of host.go), each stream is read at the other end by the receive loop.
module Delivery {
  import opened Wrappers
  import opened Bytes
  import opened Payload
  import opened Framing
  import opened SendStreamPool

  type Client = nat

  /** A sender between BorrowStream and the deferred block: its message, and how much of the frame is out. */
  datatype Job = Job(stream: Stream, msg: Fields, written: nat)

  /** How SendMsg came to its deferred block: without a package to write, or by the result of the write. */
  datatype WriteResult = NoPackage | Written | Incomplete | WriteError(networkClosed: bool, looksClosed: bool)

  /**
   * What is known of one stream: the bytes written to it, the messages whose frames
   * are out completely, the bytes of the frame now being written (or given up for
   * good), and how many bytes of unfinished frames were left on it when it went back
   * to the pool.
   */
  datatype Channel = Channel(wire: seq<Byte>, log: seq<Fields>, part: seq<Byte>, waste: nat)

  datatype System = System(gz: Gzip, world: World, jobs: map<Client, Job>, channels: map<Stream, Channel>)

  datatype Step =
    | Start(c: Client, msg: Fields)
    | Write(c: Client, n: nat)
    | End(c: Client, result: WriteResult, refused: bool)
    | Other(a: Action)

  /** The error paths that end in DropStream; all others end in ReturnStream. */
  predicate Drops(r: WriteResult) {
    r.Incomplete? || (r.WriteError? && !r.networkClosed && !r.looksClosed)
  }

  function PackageOf(gz: Gzip, f: Fields): Package
    requires Marshalled(gz, f).Ok?
  {
    Marshalled(gz, f).value
  }

  ghost predicate Wellformed(gz: Gzip, f: Fields) {
    && Marshalled(gz, f).Ok?
    && Representable(gz, f)
    && |PackageOf(gz, f)| < LENGTH_LIMIT
  }

  /** What a sender may come with: a message that Marshal turns down, or one whose lengths a machine can hold. */
  ghost predicate Acceptable(gz: Gzip, f: Fields) {
    Marshalled(gz, f).Err? || Wellformed(gz, f)
  }

  ghost predicate AllWellformed(gz: Gzip, log: seq<Fields>) {
    forall i :: 0 <= i < |log| ==> Wellformed(gz, log[i])
  }

  ghost function Packages(gz: Gzip, log: seq<Fields>): (pkgs: seq<Package>)
    requires AllWellformed(gz, log)
    ensures |pkgs| == |log| && Sendable(pkgs)
    ensures forall i :: 0 <= i < |log| ==> pkgs[i] == PackageOf(gz, log[i])
  {
    seq(|log|, i requires 0 <= i < |log| => PackageOf(gz, log[i]))
  }

  function ChannelOf(sys: System, s: Stream): Channel {
    if s in sys.channels then sys.channels[s] else Channel([], [], [], 0)
  }

  /** What a job has to write: nothing if its message cannot be marshalled. */
  function FrameOfMsg(gz: Gzip, f: Fields): seq<Byte> {
    if Marshalled(gz, f).Ok? then Frame(PackageOf(gz, f)) else []
  }

  function FrameOf(sys: System, j: Job): seq<Byte> {
    FrameOfMsg(sys.gz, j.msg)
  }

  function PoolAction(j: Job, result: WriteResult, refused: bool): Action {
    if Drops(result) then Drop(j.stream) else if refused then Refuse(j.stream) else Return(j.stream)
  }

  ghost predicate CanStep(sys: System, st: Step) {
    match st
    case Start(c, msg) => c !in sys.jobs && Enabled(sys.world, Borrow) && Acceptable(sys.gz, msg)
    case Write(c, n) =>
      && c in sys.jobs
      && sys.jobs[c].written + n <= |FrameOf(sys, sys.jobs[c])|
    case End(c, result, refused) =>
      && c in sys.jobs
      && (result.NoPackage? <==> Marshalled(sys.gz, sys.jobs[c].msg).Err?)
      && (result.Written? ==> sys.jobs[c].written == |FrameOf(sys, sys.jobs[c])|)
      && (result.Incomplete? ==> sys.jobs[c].written < |FrameOf(sys, sys.jobs[c])|)
      && Enabled(sys.world, PoolAction(sys.jobs[c], result, refused))
    case Other(a) =>
      && Enabled(sys.world, a)
      && (a.Init? || a.Trigger? || a.TakeSignal? || a.Expand? || a.StopLoop? || a.Close?)
  }

  /** What a channel becomes when the job that holds it ends. */
  ghost function Ended(gz: Gzip, ch: Channel, j: Job, result: WriteResult, refused: bool): Channel
  {
    if Marshalled(gz, j.msg).Err? then ch
    else if j.written == |FrameOfMsg(gz, j.msg)| then ch.(log := ch.log + [j.msg], part := [])
    else if Drops(result) || refused then ch
    else ch.(part := [], waste := ch.waste + j.written)
  }

  ghost function Next(sys: System, st: Step): System
    requires CanStep(sys, st)
  {
    match st
    case Start(c, msg) =>
      sys.(world := Apply(sys.world, Borrow), jobs := sys.jobs[c := Job(sys.world.pool.queue[0], msg, 0)])
    case Write(c, n) =>
      var j := sys.jobs[c];
      var bytes := FrameOf(sys, j)[j.written..j.written + n];
      var ch := ChannelOf(sys, j.stream);
      sys.(jobs := sys.jobs[c := j.(written := j.written + n)],
           channels := sys.channels[j.stream := ch.(wire := ch.wire + bytes, part := ch.part + bytes)])
    case End(c, result, refused) =>
      var j := sys.jobs[c];
      sys.(world := Apply(sys.world, PoolAction(j, result, refused)),
           jobs := sys.jobs - {c},
           channels := sys.channels[j.stream := Ended(sys.gz, ChannelOf(sys, j.stream), j, result, refused)])
    case Other(a) =>
      sys.(world := Apply(sys.world, a))
  }

  // ---------------------------------------------------------------- the invariant

  ghost predicate ChannelOk(gz: Gzip, ch: Channel) {
    && AllWellformed(gz, ch.log)
    && |ch.wire| == |Frames(Packages(gz, ch.log))| + ch.waste + |ch.part|
    && (ch.waste == 0 ==> ch.wire == Frames(Packages(gz, ch.log)) + ch.part)
  }

  ghost predicate JobOk(sys: System, j: Job) {
    && j.stream in sys.world.lent
    && Acceptable(sys.gz, j.msg)
    && j.written <= |FrameOf(sys, j)|
    && ChannelOf(sys, j.stream).part == FrameOf(sys, j)[..j.written]
  }

  ghost predicate ChannelsOk(sys: System) {
    forall s :: ChannelOk(sys.gz, ChannelOf(sys, s))
  }

  ghost predicate IdleStreamsClean(sys: System) {
    forall s :: s in sys.world.pool.queue || s >= sys.world.next ==> ChannelOf(sys, s).part == []
  }

  ghost predicate JobsOk(sys: System) {
    && (forall c :: c in sys.jobs ==> JobOk(sys, sys.jobs[c]))
    && (forall c, d :: c in sys.jobs && d in sys.jobs && c != d ==> sys.jobs[c].stream != sys.jobs[d].stream)
  }

  /** Some sender has written its whole frame on s and has not given s back yet. */
  ghost predicate AboutToEnd(sys: System, s: Stream) {
    exists c :: c in sys.jobs && sys.jobs[c].stream == s && Wellformed(sys.gz, sys.jobs[c].msg)
                && sys.jobs[c].written == |FrameOf(sys, sys.jobs[c])|
  }

  ghost predicate PartsOk(sys: System) {
    forall s :: Complete(ChannelOf(sys, s).part) ==> AboutToEnd(sys, s)
  }

  ghost predicate Inv(sys: System) {
    Conserved(sys.world) && ChannelsOk(sys) && IdleStreamsClean(sys) && JobsOk(sys) && PartsOk(sys)
  }

  /** Only the channel of s changes. */
  ghost predicate OthersSame(sys: System, next: System, s: Stream) {
    next.gz == sys.gz && forall t :: t != s ==> ChannelOf(next, t) == ChannelOf(sys, t)
  }

  lemma ChannelsStayOk(sys: System, next: System, s: Stream)
    requires ChannelsOk(sys) && OthersSame(sys, next, s) && ChannelOk(sys.gz, ChannelOf(next, s))
    ensures ChannelsOk(next)
  {
    forall t ensures ChannelOk(next.gz, ChannelOf(next, t)) {
      assert ChannelOk(sys.gz, ChannelOf(sys, t));
    }
  }

  /** Jobs on other streams do not notice. */
  lemma OtherJobsStayOk(sys: System, next: System, s: Stream)
    requires JobsOk(sys) && OthersSame(sys, next, s)
    requires forall c :: c in sys.jobs && sys.jobs[c].stream != s ==> sys.jobs[c].stream in next.world.lent
    ensures forall c :: c in sys.jobs && sys.jobs[c].stream != s ==> JobOk(next, sys.jobs[c])
  {
    forall c | c in sys.jobs && sys.jobs[c].stream != s ensures JobOk(next, sys.jobs[c]) {
      assert JobOk(sys, sys.jobs[c]);
    }
  }

  lemma JobsHoldLent(sys: System)
    requires JobsOk(sys)
    ensures forall c :: c in sys.jobs ==> sys.jobs[c].stream in sys.world.lent
  {
    forall c | c in sys.jobs ensures sys.jobs[c].stream in sys.world.lent {
      assert JobOk(sys, sys.jobs[c]);
    }
  }

  lemma StartKeepsJobs(sys: System, st: Step)
    requires st.Start? && CanStep(sys, st) && JobsOk(sys)
    requires sys.world.pool.queue[0] !in sys.world.lent && ChannelOf(sys, sys.world.pool.queue[0]).part == []
    ensures JobsOk(Next(sys, st))
  {
    var s := sys.world.pool.queue[0];
    var next := Next(sys, st);
    assert OthersSame(sys, next, s);
    JobsHoldLent(sys);
    OtherJobsStayOk(sys, next, s);
    assert JobOk(next, next.jobs[st.c]);
  }

  lemma StartKeepsParts(sys: System, st: Step)
    requires st.Start? && CanStep(sys, st) && PartsOk(sys)
    ensures PartsOk(Next(sys, st))
  {
    var next := Next(sys, st);
    forall s | Complete(ChannelOf(next, s).part) ensures AboutToEnd(next, s) {
      assert Complete(ChannelOf(sys, s).part);
      var c :| c in sys.jobs && sys.jobs[c].stream == s && Wellformed(sys.gz, sys.jobs[c].msg)
               && sys.jobs[c].written == |FrameOf(sys, sys.jobs[c])|;
      assert c in next.jobs && next.jobs[c] == sys.jobs[c];
    }
  }

  lemma StartKeepsInv(sys: System, st: Step)
    requires Inv(sys) && st.Start? && CanStep(sys, st)
    ensures Inv(Next(sys, st))
  {
    var s := sys.world.pool.queue[0];
    assert s in sys.world.pool.queue;
    StepConserves(sys.world, Borrow);
    BorrowIsExclusive(sys.world);
    StartKeepsJobs(sys, st);
    StartKeepsParts(sys, st);
    SameChannels(sys, Next(sys, st));
  }

  lemma SameChannels(sys: System, next: System)
    requires next.gz == sys.gz && next.channels == sys.channels
    ensures ChannelsOk(sys) ==> ChannelsOk(next)
    ensures forall s :: ChannelOf(next, s) == ChannelOf(sys, s)
  {
    if ChannelsOk(sys) {
      forall t ensures ChannelOk(next.gz, ChannelOf(next, t)) {
        assert ChannelOk(sys.gz, ChannelOf(sys, t));
      }
    }
  }

  lemma WrittenOk(gz: Gzip, ch: Channel, bytes: seq<Byte>)
    requires ChannelOk(gz, ch)
    ensures ChannelOk(gz, ch.(wire := ch.wire + bytes, part := ch.part + bytes))
  {
    assert Frames(Packages(gz, ch.log)) + ch.part + bytes == Frames(Packages(gz, ch.log)) + (ch.part + bytes);
  }

  lemma WriteKeepsJobs(sys: System, st: Step)
    requires st.Write? && CanStep(sys, st) && JobsOk(sys)
    ensures JobsOk(Next(sys, st))
  {
    var next := Next(sys, st);
    var j := sys.jobs[st.c];
    assert JobOk(sys, j);
    var f := FrameOf(sys, j);
    assert f[..j.written] + f[j.written..j.written + st.n] == f[..j.written + st.n];
    JobsHoldLent(sys);
    OtherJobsStayOk(sys, next, j.stream);
    assert JobOk(next, next.jobs[st.c]);
  }

  lemma WriteKeepsChannels(sys: System, st: Step)
    requires st.Write? && CanStep(sys, st) && ChannelsOk(sys)
    ensures ChannelsOk(Next(sys, st))
  {
    var j := sys.jobs[st.c];
    WrittenOk(sys.gz, ChannelOf(sys, j.stream), FrameOf(sys, j)[j.written..j.written + st.n]);
    ChannelsStayOk(sys, Next(sys, st), j.stream);
  }

  /** A job on another stream stands where it stood. */
  lemma StillAboutToEnd(sys: System, next: System, s: Stream, c: Client)
    requires AboutToEnd(sys, s) && next.gz == sys.gz && c in sys.jobs && sys.jobs[c].stream != s
    requires forall d :: d in sys.jobs && d != c ==> d in next.jobs && next.jobs[d] == sys.jobs[d]
    ensures AboutToEnd(next, s)
  {
    var d :| d in sys.jobs && sys.jobs[d].stream == s && Wellformed(sys.gz, sys.jobs[d].msg)
             && sys.jobs[d].written == |FrameOf(sys, sys.jobs[d])|;
    assert d in next.jobs && next.jobs[d] == sys.jobs[d];
  }

  lemma WriteKeepsParts(sys: System, st: Step)
    requires st.Write? && CanStep(sys, st) && PartsOk(sys) && JobsOk(sys)
    ensures PartsOk(Next(sys, st))
  {
    var next := Next(sys, st);
    var j := next.jobs[st.c];
    WriteKeepsJobs(sys, st);
    assert JobOk(next, j);
    forall s | Complete(ChannelOf(next, s).part) ensures AboutToEnd(next, s) {
      if s != j.stream {
        assert Complete(ChannelOf(sys, s).part);
        StillAboutToEnd(sys, next, s, st.c);
      } else if j.written < |FrameOf(next, j)| {
        PartialFrame(PackageOf(next.gz, j.msg), j.written);
      }
    }
  }

  lemma WriteKeepsInv(sys: System, st: Step)
    requires Inv(sys) && st.Write? && CanStep(sys, st)
    ensures Inv(Next(sys, st))
  {
    assert JobOk(sys, sys.jobs[st.c]);
    WriteKeepsJobs(sys, st);
    WriteKeepsChannels(sys, st);
    WriteKeepsParts(sys, st);
  }

  lemma PackagesAppend(gz: Gzip, log: seq<Fields>, f: Fields)
    requires AllWellformed(gz, log) && Wellformed(gz, f)
    ensures AllWellformed(gz, log + [f])
    ensures Frames(Packages(gz, log + [f])) == Frames(Packages(gz, log)) + Frame(PackageOf(gz, f))
  {
    assert Packages(gz, log + [f]) == Packages(gz, log) + [PackageOf(gz, f)];
    FramesAppend(Packages(gz, log), PackageOf(gz, f));
  }

  lemma EndedOk(gz: Gzip, ch: Channel, j: Job, result: WriteResult, refused: bool)
    requires ChannelOk(gz, ch) && Acceptable(gz, j.msg)
    requires j.written <= |FrameOfMsg(gz, j.msg)| && ch.part == FrameOfMsg(gz, j.msg)[..j.written]
    ensures ChannelOk(gz, Ended(gz, ch, j, result, refused))
    ensures !Drops(result) && !refused ==> Ended(gz, ch, j, result, refused).part == []
  {
    var e := Ended(gz, ch, j, result, refused);
    if Marshalled(gz, j.msg).Ok? {
      PackagesAppend(gz, ch.log, j.msg);
      if j.written == |FrameOfMsg(gz, j.msg)| {
        assert ch.part == FrameOfMsg(gz, j.msg);
        assert Frames(Packages(gz, e.log)) + [] == Frames(Packages(gz, e.log));
      } else if e.waste == 0 {
        assert j.written == 0 || e == ch;
      }
    }
  }

  lemma EndKeepsJobs(sys: System, st: Step)
    requires st.End? && CanStep(sys, st) && JobsOk(sys)
    ensures JobsOk(Next(sys, st))
  {
    var next := Next(sys, st);
    var s := sys.jobs[st.c].stream;
    assert next.world.lent == sys.world.lent - {s};
    assert OthersSame(sys, next, s);
    JobsHoldLent(sys);
    OtherJobsStayOk(sys, next, s);
  }

  lemma EndKeepsChannels(sys: System, st: Step)
    requires st.End? && CanStep(sys, st) && ChannelsOk(sys) && JobOk(sys, sys.jobs[st.c])
    ensures ChannelsOk(Next(sys, st))
  {
    var j := sys.jobs[st.c];
    EndedOk(sys.gz, ChannelOf(sys, j.stream), j, st.result, st.refused);
    ChannelsStayOk(sys, Next(sys, st), j.stream);
  }

  lemma QueueAfterEnd(sys: System, st: Step, s: Stream)
    requires st.End? && CanStep(sys, st) && s in Next(sys, st).world.pool.queue
    ensures s in sys.world.pool.queue || (!Drops(st.result) && !st.refused && s == sys.jobs[st.c].stream)
  {
  }

  lemma EndKeepsIdle(sys: System, st: Step)
    requires st.End? && CanStep(sys, st) && IdleStreamsClean(sys) && ChannelsOk(sys) && JobOk(sys, sys.jobs[st.c])
    requires sys.jobs[st.c].stream < sys.world.next && sys.jobs[st.c].stream !in sys.world.pool.queue
    ensures IdleStreamsClean(Next(sys, st))
  {
    var next := Next(sys, st);
    var j := sys.jobs[st.c];
    EndedOk(sys.gz, ChannelOf(sys, j.stream), j, st.result, st.refused);
    assert next.world.next == sys.world.next && OthersSame(sys, next, j.stream);
    forall s | s in next.world.pool.queue ensures ChannelOf(next, s).part == [] {
      QueueAfterEnd(sys, st, s);
    }
  }

  lemma EndKeepsParts(sys: System, st: Step)
    requires st.End? && CanStep(sys, st) && PartsOk(sys) && JobOk(sys, sys.jobs[st.c])
    ensures PartsOk(Next(sys, st))
  {
    var next := Next(sys, st);
    var j := sys.jobs[st.c];
    if j.written < |FrameOf(sys, j)| {
      PartialFrame(PackageOf(sys.gz, j.msg), j.written);
    }
    forall s | Complete(ChannelOf(next, s).part) ensures AboutToEnd(next, s) {
      if s != j.stream {
        assert Complete(ChannelOf(sys, s).part);
        StillAboutToEnd(sys, next, s, st.c);
      }
    }
  }

  lemma EndKeepsInv(sys: System, st: Step)
    requires Inv(sys) && st.End? && CanStep(sys, st)
    ensures Inv(Next(sys, st))
  {
    var j := sys.jobs[st.c];
    assert JobOk(sys, j);
    StepConserves(sys.world, PoolAction(j, st.result, st.refused));
    EndKeepsJobs(sys, st);
    EndKeepsChannels(sys, st);
    EndKeepsIdle(sys, st);
    EndKeepsParts(sys, st);
  }

  lemma {:induction false} OpenedNQueue(w: World, n: nat)
    ensures var v := OpenedN(w, n);
            && v.lent == w.lent && v.next == w.next + n
            && forall s :: s in v.pool.queue ==> s in w.pool.queue || s >= w.next
  {
    if n > 0 {
      OpenedNQueue(w, n - 1);
      var u := OpenedN(w, n - 1);
      assert forall s :: s in u.pool.queue + [u.next] ==> s in u.pool.queue || s == u.next;
    }
  }

  lemma OtherLeavesLent(w: World, a: Action)
    requires Enabled(w, a) && (a.Init? || a.Trigger? || a.TakeSignal? || a.Expand? || a.StopLoop? || a.Close?)
    ensures var v := Apply(w, a);
            v.lent == w.lent && v.next >= w.next && forall s :: s in v.pool.queue ==> s in w.pool.queue || s >= w.next
  {
    if a.Init? || a.Expand? {
      OpenedNQueue(w, a.grown);
    }
  }

  lemma OtherKeepsInv(sys: System, st: Step)
    requires Inv(sys) && st.Other? && CanStep(sys, st)
    ensures Inv(Next(sys, st))
  {
    var next := Next(sys, st);
    StepConserves(sys.world, st.a);
    OtherLeavesLent(sys.world, st.a);
    SameChannels(sys, next);
    OtherKeepsJobs(sys, next);
  }

  lemma OtherKeepsJobs(sys: System, next: System)
    requires JobsOk(sys) && PartsOk(sys) && next == sys.(world := next.world) && next.world.lent == sys.world.lent
    ensures JobsOk(next) && PartsOk(next)
  {
    forall s | Complete(ChannelOf(next, s).part) ensures AboutToEnd(next, s) {
      assert Complete(ChannelOf(sys, s).part);
      var c :| c in sys.jobs && sys.jobs[c].stream == s && Wellformed(sys.gz, sys.jobs[c].msg)
               && sys.jobs[c].written == |FrameOf(sys, sys.jobs[c])|;
      assert next.jobs[c] == sys.jobs[c];
    }
    forall c | c in sys.jobs ensures JobOk(next, next.jobs[c]) {
      assert JobOk(sys, sys.jobs[c]);
    }
  }

  lemma StepKeepsInv(sys: System, st: Step)
    requires Inv(sys) && CanStep(sys, st)
    ensures Inv(Next(sys, st))
  {
    match st
    case Start(_, _) => StartKeepsInv(sys, st);
    case Write(_, _) => WriteKeepsInv(sys, st);
    case End(_, _, _) => EndKeepsInv(sys, st);
    case Other(_) => OtherKeepsInv(sys, st);
  }

  // ---------------------------------------------------------------- runs

  ghost predicate Possible(sys: System, run: seq<Step>)
    decreases |run|
  {
    run == [] || (CanStep(sys, run[0]) && Possible(Next(sys, run[0]), run[1..]))
  }

  ghost function After(sys: System, run: seq<Step>): System
    requires Possible(sys, run)
    decreases |run|
  {
    if run == [] then sys else After(Next(sys, run[0]), run[1..])
  }

  function NewSystem(gz: Gzip, initSize: nat, maxSize: nat): System {
    System(gz, NewWorld(initSize, maxSize, 0), map[], map[])
  }

  lemma {:induction false} RunKeepsInv(sys: System, run: seq<Step>)
    requires Inv(sys) && Possible(sys, run)
    ensures Inv(After(sys, run)) && After(sys, run).gz == sys.gz
    decreases |run|
  {
    if run != [] {
      StepKeepsInv(sys, run[0]);
      RunKeepsInv(Next(sys, run[0]), run[1..]);
    }
  }

  lemma NewSystemInv(gz: Gzip, initSize: nat, maxSize: nat)
    requires initSize <= maxSize
    ensures Inv(NewSystem(gz, initSize, maxSize))
  {
    assert Packages(gz, []) == [];
  }

  /** The one step that can spoil a stream: it goes back to the pool with part of a frame on it. */
  ghost predicate CutShort(sys: System, st: Step, s: Stream) {
    && st.End? && CanStep(sys, st)
    && sys.jobs[st.c].stream == s
    && !Drops(st.result) && !st.refused
    && 0 < sys.jobs[st.c].written < |FrameOf(sys, sys.jobs[st.c])|
  }

  ghost predicate EverCutShort(sys: System, run: seq<Step>, s: Stream)
    requires Possible(sys, run)
    decreases |run|
  {
    run != [] && (CutShort(sys, run[0], s) || EverCutShort(Next(sys, run[0]), run[1..], s))
  }

  lemma StepWastes(sys: System, st: Step, s: Stream)
    requires CanStep(sys, st) && JobsOk(sys)
    ensures ChannelOf(Next(sys, st), s).waste >= ChannelOf(sys, s).waste
    ensures ChannelOf(Next(sys, st), s).waste > ChannelOf(sys, s).waste <==> CutShort(sys, st, s)
  {
    if st.End? {
      assert JobOk(sys, sys.jobs[st.c]);
    }
  }

  lemma {:induction false} WasteIffCutShort(sys: System, run: seq<Step>, s: Stream)
    requires Inv(sys) && Possible(sys, run)
    ensures ChannelOf(After(sys, run), s).waste >= ChannelOf(sys, s).waste
    ensures ChannelOf(After(sys, run), s).waste == ChannelOf(sys, s).waste <==> !EverCutShort(sys, run, s)
    decreases |run|
  {
    if run != [] {
      StepWastes(sys, run[0], s);
      StepKeepsInv(sys, run[0]);
      WasteIffCutShort(Next(sys, run[0]), run[1..], s);
    }
  }

  /**
   * What every stream carries, after every run of any number of senders: a stream
   * waiting in the pool holds exactly the frames of the messages sent on it, one
   * after the other, if and only if it was never returned in the middle of a frame.
   */
  lemma StreamAlignedIff(gz: Gzip, initSize: nat, maxSize: nat, run: seq<Step>, s: Stream)
    requires initSize <= maxSize && Possible(NewSystem(gz, initSize, maxSize), run)
    ensures var sys := After(NewSystem(gz, initSize, maxSize), run);
            var ch := ChannelOf(sys, s);
            && AllWellformed(gz, ch.log)
            && (s in sys.world.pool.queue ==>
                  (ch.wire == Frames(Packages(gz, ch.log)) <==> !EverCutShort(NewSystem(gz, initSize, maxSize), run, s)))
  {
    var sys0 := NewSystem(gz, initSize, maxSize);
    NewSystemInv(gz, initSize, maxSize);
    RunKeepsInv(sys0, run);
    WasteIffCutShort(sys0, run, s);
    var ch := ChannelOf(After(sys0, run), s);
    assert ChannelOk(gz, ch);
    assert Frames(Packages(gz, ch.log)) + [] == Frames(Packages(gz, ch.log));
  }

  /**
   * The messages whose frames are out completely: the log, and the message of a sender
   * that has written its last byte and not given the stream back yet.
   */
  ghost function SentOn(sys: System, s: Stream): seq<Fields> {
    if AboutToEnd(sys, s) then
      var c :| c in sys.jobs && sys.jobs[c].stream == s && Wellformed(sys.gz, sys.jobs[c].msg)
               && sys.jobs[c].written == |FrameOf(sys, sys.jobs[c])|;
      ChannelOf(sys, s).log + [sys.jobs[c].msg]
    else ChannelOf(sys, s).log
  }

  lemma ChannelDelivers(sys: System, s: Stream)
    requires Inv(sys) && ChannelOf(sys, s).waste == 0
    ensures AllWellformed(sys.gz, SentOn(sys, s))
    ensures Deframe(ChannelOf(sys, s).wire) == Packages(sys.gz, SentOn(sys, s))
  {
    var ch := ChannelOf(sys, s);
    assert ChannelOk(sys.gz, ch);
    if AboutToEnd(sys, s) {
      var c :| c in sys.jobs && sys.jobs[c].stream == s && Wellformed(sys.gz, sys.jobs[c].msg)
               && sys.jobs[c].written == |FrameOf(sys, sys.jobs[c])| && SentOn(sys, s) == ch.log + [sys.jobs[c].msg];
      LastMessageDelivered(sys, c);
    } else {
      DeframeFrames(Packages(sys.gz, ch.log), ch.part);
      assert Packages(sys.gz, ch.log) + [] == Packages(sys.gz, ch.log);
    }
  }

  /** The message of a sender about to give its stream back has been delivered as well, after all earlier ones. */
  lemma LastMessageDelivered(sys: System, c: Client)
    requires Inv(sys) && c in sys.jobs && ChannelOf(sys, sys.jobs[c].stream).waste == 0
    requires Wellformed(sys.gz, sys.jobs[c].msg) && sys.jobs[c].written == |FrameOf(sys, sys.jobs[c])|
    ensures var ch := ChannelOf(sys, sys.jobs[c].stream);
            AllWellformed(sys.gz, ch.log + [sys.jobs[c].msg]) && Deframe(ch.wire) == Packages(sys.gz, ch.log + [sys.jobs[c].msg])
  {
    var ch := ChannelOf(sys, sys.jobs[c].stream);
    assert ChannelOk(sys.gz, ch) && JobOk(sys, sys.jobs[c]);
    assert ch.part == FrameOf(sys, sys.jobs[c]);
    PackagesAppend(sys.gz, ch.log, sys.jobs[c].msg);
    var pkgs := Packages(sys.gz, ch.log + [sys.jobs[c].msg]);
    DeframeFrames(pkgs, []);
    assert Frames(pkgs) + [] == Frames(pkgs) && pkgs + [] == pkgs;
  }

  /**
   * The receiving end, after every run: from a stream never cut short it gets the
   * messages sent on it, whole and in order, and nothing else; from the bytes that
   * have arrived so far it gets the first of them.
   */
  lemma DeliveredInOrder(gz: Gzip, initSize: nat, maxSize: nat, run: seq<Step>, s: Stream, arrived: nat)
    requires initSize <= maxSize && Possible(NewSystem(gz, initSize, maxSize), run)
    requires !EverCutShort(NewSystem(gz, initSize, maxSize), run, s)
    requires arrived <= |ChannelOf(After(NewSystem(gz, initSize, maxSize), run), s).wire|
    ensures var sys := After(NewSystem(gz, initSize, maxSize), run);
            var wire := ChannelOf(sys, s).wire;
            && AllWellformed(gz, SentOn(sys, s))
            && Deframe(wire) == Packages(gz, SentOn(sys, s))
            && Deframe(wire[..arrived]) <= Packages(gz, SentOn(sys, s))
  {
    var sys0 := NewSystem(gz, initSize, maxSize);
    NewSystemInv(gz, initSize, maxSize);
    RunKeepsInv(sys0, run);
    WasteIffCutShort(sys0, run, s);
    ChannelDelivers(After(sys0, run), s);
    DeframePrefix(ChannelOf(After(sys0, run), s).wire, arrived);
  }

  /** A message Unmarshal gives back: all but the one whose protocol ID and final payload are both empty. */
  predicate ComesBack(gz: Gzip, f: Fields)
    requires Marshalled(gz, f).Ok?
  {
    !(f.protocol == [] && FinalPayload(gz, f).value == [])
  }

  /** Each delivered package gives the receiver the message that was sent. */
  lemma DeliveredMessages(gz: Gzip, log: seq<Fields>, i: nat)
    requires gz.Lossless() && i < |log| && AllWellformed(gz, log)
    ensures Carries(gz, Packages(gz, log)[i], log[i]) <==> ComesBack(gz, log[i])
  {
    MarshalRoundTrip(gz, log[i]);
  }

  lemma RunFour(sys: System, a: Step, b: Step, c: Step, d: Step)
    requires CanStep(sys, a) && CanStep(Next(sys, a), b)
    requires CanStep(Next(Next(sys, a), b), c) && CanStep(Next(Next(Next(sys, a), b), c), d)
    ensures Possible(sys, [a, b, c, d]) && After(sys, [a, b, c, d]) == Next(Next(Next(Next(sys, a), b), c), d)
  {
    var r3, r2, r1 := [d], [c, d], [b, c, d];
    assert [a, b, c, d][1..] == r1 && r1[1..] == r2 && r2[1..] == r3 && r3[1..] == [];
    var s1 := Next(sys, a);
    var s2 := Next(s1, b);
    var s3 := Next(s2, c);
    assert Possible(Next(s3, d), []) && After(Next(s3, d), []) == Next(s3, d);
    assert Possible(s3, r3) && After(s3, r3) == Next(s3, d);
    assert Possible(s2, r2) && After(s2, r2) == Next(s3, d);
    assert Possible(s1, r1) && After(s1, r1) == Next(s3, d);
  }

  /** One stream, opened and borrowed for msg. */
  lemma OneBorrowed(gz: Gzip, msg: Fields)
    requires Wellformed(gz, msg)
    ensures var s0 := NewSystem(gz, 1, 1);
            && CanStep(s0, Other(Init(1))) && CanStep(Next(s0, Other(Init(1))), Start(0, msg))
            && var s2 := Next(Next(s0, Other(Init(1))), Start(0, msg));
               && s2.gz == gz && s2.jobs == map[0 := Job(0, msg, 0)] && s2.channels == map[]
               && s2.world.lent == {0} && s2.world.pool.queue == [] && s2.world.pool.maxSize == 1
  {
    var s0 := NewSystem(gz, 1, 1);
    assert OpenedN(s0.world, 1) == Opened(s0.world) by {
      assert OpenedN(s0.world, 0) == s0.world;
    }
    assert Next(s0, Other(Init(1))).world.pool.queue == [0];
  }

  /** It happens: one sender, one stream, and a write that times out after its first byte. */
  lemma CutShortHappens(gz: Gzip, msg: Fields) returns (run: seq<Step>)
    requires Wellformed(gz, msg)
    ensures Possible(NewSystem(gz, 1, 1), run)
    ensures var sys := After(NewSystem(gz, 1, 1), run);
            && 0 in sys.world.pool.queue
            && ChannelOf(sys, 0).log == []
            && ChannelOf(sys, 0).wire == Frame(PackageOf(gz, msg))[..1]
  {
    var a, b, c, d := Other(Init(1)), Start(0, msg), Write(0, 1), End(0, WriteError(false, true), false);
    run := [a, b, c, d];
    OneBorrowed(gz, msg);
    var s2 := Next(Next(NewSystem(gz, 1, 1), a), b);
    var f := Frame(PackageOf(gz, msg));
    assert f[0..1] == f[..1];
    var s3 := Next(s2, c);
    assert s3.jobs[0] == Job(0, msg, 1) && s3.world == s2.world;
    RunFour(NewSystem(gz, 1, 1), a, b, c, d);
  }

  /**
   * What the receiver makes of a message that follows left-over bytes: it comes out
   * first exactly when the bytes happen to repeat the beginning of its own frame.
   */
  lemma ArrivesAfterLeftoverIff(leftover: seq<Byte>, pkg: Package)
    requires |pkg| < LENGTH_LIMIT
    ensures var bz := leftover + Frame(pkg);
            Deframe(bz) != [] && Deframe(bz)[0] == pkg <==> bz[..8 + |pkg|] == Frame(pkg)
  {
    var bz := leftover + Frame(pkg);
    var n := 8 + |pkg|;
    if bz[..n] == Frame(pkg) {
      assert bz == Frame(pkg) + bz[n..];
      HeadOfFrame(pkg, bz[n..]);
    }
    if Complete(bz) && Head(bz) == pkg {
      WordOfDecode(bz[..8]);
      assert bz[..n] == bz[..8] + bz[8..n];
    }
  }

  /** One byte of an unfinished frame is enough: no message that follows it arrives as it is. */
  lemma CutShortMisdelivers(cut: Package, pkg: Package)
    requires |cut| < Pow256(WORD - 1) && 0 < |pkg| < LENGTH_LIMIT
    ensures Deframe(Frame(cut)[..1] + Frame(pkg)) == [] || |Deframe(Frame(cut)[..1] + Frame(pkg))[0]| != |pkg|
  {
    var bz := Frame(cut)[..1] + Frame(pkg);
    var high := Encode(|pkg| / 256, WORD - 1);
    LeadingZero(|cut|, WORD);
    assert Word(|pkg|) == high + [|pkg| % 256];
    assert bz[..8] == [0] + high;
    ZeroInFront(high);
    PowWord();
    DecodeEncode(|pkg| / 256, WORD - 1);
  }

  lemma {:induction false} LeadingZero(n: nat, k: nat)
    requires k >= 1 && n < Pow256(k - 1)
    ensures Encode(n, k)[0] == 0
  {
    if k > 1 {
      LeadingZero(n / 256, k - 1);
    }
  }

  lemma {:induction false} ZeroInFront(s: seq<Byte>)
    ensures Decode([0] + s) == Decode(s)
  {
    if s != [] {
      var n := |s| - 1;
      assert ([0] + s)[..|s|] == [0] + s[..n];
      ZeroInFront(s[..n]);
    }
  }

  /**
   * From end to end: after any run of any number of senders, the receive loop on a
   * stream never cut short pushes one package for each message sent on it, in order,
   * however its reads cut the bytes up, and each gives that message back. If the
   * stream fails early, it pushes the first of them.
   */
  method ReceiveAll(gz: Gzip, ghost initSize: nat, ghost maxSize: nat, ghost run: seq<Step>, ghost s: Stream,
                    stream: ReceiveStream, pipeline: Pipeline)
    requires gz.Lossless() && initSize <= maxSize && Possible(NewSystem(gz, initSize, maxSize), run)
    requires !EverCutShort(NewSystem(gz, initSize, maxSize), run, s)
    requires stream.pending == ChannelOf(After(NewSystem(gz, initSize, maxSize), run), s).wire
    modifies stream, pipeline
    ensures var sent := SentOn(After(NewSystem(gz, initSize, maxSize), run), s);
            && AllWellformed(gz, sent)
            && old(pipeline.jobs) <= pipeline.jobs
            && var pushed := pipeline.jobs[|old(pipeline.jobs)|..];
               && |pushed| <= |sent|
               && (!stream.faulty ==> |pushed| == |sent|)
               && forall i :: 0 <= i < |pushed| ==> (Carries(gz, pushed[i], sent[i]) <==> ComesBack(gz, sent[i]))
  {
    DeliveredInOrder(gz, initSize, maxSize, run, s, 0);
    ghost var sent := SentOn(After(NewSystem(gz, initSize, maxSize), run), s);
    ReceiveLoop(stream, pipeline);
    ghost var pushed := pipeline.jobs[|old(pipeline.jobs)|..];
    assert pushed <= Packages(gz, sent);
    forall i | 0 <= i < |pushed| ensures Carries(gz, pushed[i], sent[i]) <==> ComesBack(gz, sent[i]) {
      DeliveredMessages(gz, sent, i);
    }
  }
}
