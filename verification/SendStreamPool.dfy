// The pool of send streams of one connection: components/send_stream_pool.go.
//
// Every critical section of the pool's mutex is one Action on a World. The class
// at the end runs the code and is proved to perform exactly these actions.
module SendStreamPool {

  /** Streams are named in the order in which the connection opened them. */
  type Stream = nat

  datatype Pool = Pool(
    initSize: nat, maxSize: nat, idle: int, current: int,
    queue: seq<Stream>, closed: bool, signal: bool, initialised: bool, looping: bool)

  /**
   * A pool and where the streams it opened are. Abandoned streams were brought
   * back to a closed pool, which refused them without counting them out.
   */
  datatype World = World(pool: Pool, lent: set<Stream>, abandoned: set<Stream>, next: Stream)

  datatype ExpandEnd = Expanded(raise: bool) | ConnClosed | Crashed

  /** One critical section each. The parameters record how the environment and select chose. */
  datatype Action =
    | Init(grown: nat)
    | Borrow
    | Trigger(raise: bool)
    | Return(s: Stream)
    | Refuse(s: Stream)
    | Overflow(s: Stream)
    | Drop(s: Stream)
    | TakeSignal
    | Expand(grown: nat, end: ExpandEnd)
    | StopLoop
    | Close

  const IDLE_PERCENTAGE: real := 0.2

  function Threshold(current: nat): int {
    (IDLE_PERCENTAGE * current as real + 0.5).Floor
  }

  /** The rounded percentage in integers. */
  lemma ThresholdInIntegers(current: nat)
    ensures Threshold(current) == (current + 2) / 5
  {
    var q, r := (current + 2) / 5, (current + 2) % 5;
    assert IDLE_PERCENTAGE * current as real + 0.5 == q as real + (2 * r + 1) as real / 10.0;
  }

  predicate NeedsExpand(p: Pool) {
    p.current > 0 && Threshold(p.current) >= p.idle && p.current < p.maxSize
  }

  function ExpandStep(initSize: nat): (n: nat)
    ensures n == if initSize >= 2 then initSize / 2 else 1
  {
    if initSize / 2 == 0 then 1 else initSize / 2
  }

  function ExpandSize(p: Pool): int {
    if ExpandStep(p.initSize) + p.current > p.maxSize then p.maxSize - p.current else ExpandStep(p.initSize)
  }

  function Opened(w: World): World {
    w.(pool := w.pool.(queue := w.pool.queue + [w.next], idle := w.pool.idle + 1, current := w.pool.current + 1),
       next := w.next + 1)
  }

  function OpenedN(w: World, n: nat): World {
    if n == 0 then w else Opened(OpenedN(w, n - 1))
  }

  predicate Enabled(w: World, a: Action) {
    match a
    case Init(n) => !w.pool.initialised && (n == 0 || w.pool.current + n <= w.pool.initSize)
    case Borrow => w.pool.queue != []
    case Trigger(raise) => w.pool.closed || raise
    case Return(s) => s in w.lent && |w.pool.queue| < w.pool.maxSize
    case Refuse(s) => s in w.lent && w.pool.closed
    case Overflow(s) => s in w.lent && !w.pool.closed && |w.pool.queue| >= w.pool.maxSize
    case Drop(s) => s in w.lent
    case TakeSignal => w.pool.looping && w.pool.signal
    case Expand(n, end) => w.pool.looping && n <= ExpandSize(w.pool) && (end == Expanded(false) ==> w.pool.closed)
    case StopLoop => w.pool.closed
    case Close => true
  }

  function Apply(w: World, a: Action): World
    requires Enabled(w, a)
  {
    var p := w.pool;
    match a
    case Init(n) =>
      var v := OpenedN(w, n);
      v.(pool := v.pool.(initialised := true, looping := v.pool.current >= p.initSize))
    case Borrow =>
      w.(pool := p.(queue := p.queue[1..], idle := p.idle - 1), lent := w.lent + {p.queue[0]})
    case Trigger(raise) =>
      w.(pool := p.(signal := p.signal || raise))
    case Return(s) =>
      w.(pool := p.(queue := p.queue + [s], idle := p.idle + 1), lent := w.lent - {s})
    case Refuse(s) =>
      w.(lent := w.lent - {s}, abandoned := w.abandoned + {s})
    case Overflow(s) =>
      w.(lent := w.lent - {s})
    case Drop(s) =>
      w.(pool := if p.current - 1 < 0 then p.(current := 0, idle := 0) else p.(current := p.current - 1),
         lent := w.lent - {s})
    case TakeSignal =>
      w.(pool := p.(signal := false))
    case Expand(n, end) =>
      var v := OpenedN(w, n);
      (match end
       case Expanded(raise) => v.(pool := v.pool.(signal := p.signal || raise))
       case ConnClosed => v.(pool := v.pool.(closed := true))
       case Crashed => v.(pool := v.pool.(looping := false)))
    case StopLoop =>
      w.(pool := p.(looping := false))
    case Close =>
      w.(pool := p.(closed := true))
  }

  // ---------------------------------------------------------------- conservation

  ghost predicate Distinct(q: seq<Stream>) {
    forall i, j :: 0 <= i < j < |q| ==> q[i] != q[j]
  }

  ghost predicate Conserved(w: World) {
    var p := w.pool;
    && p.initSize <= p.maxSize
    && p.idle == |p.queue|
    && p.current == p.idle + |w.lent| + |w.abandoned|
    && p.current <= p.maxSize
    && Distinct(p.queue)
    && w.lent !! w.abandoned
    && (forall s :: s in p.queue ==> s < w.next && s !in w.lent && s !in w.abandoned)
    && (forall s :: s in w.lent || s in w.abandoned ==> s < w.next)
    && (w.abandoned != {} ==> p.closed)
  }

  function NewWorld(initSize: nat, maxSize: nat, next: Stream): World {
    World(Pool(initSize, maxSize, 0, 0, [], false, false, false, false), {}, {}, next)
  }

  lemma OpenedConserves(w: World)
    requires Conserved(w) && w.pool.current < w.pool.maxSize
    ensures Conserved(Opened(w))
  {
    var q := Opened(w).pool.queue;
    assert forall s :: s in q ==> s in w.pool.queue || s == w.next;
    assert forall i :: 0 <= i < |w.pool.queue| ==> w.pool.queue[i] in w.pool.queue;
  }

  /** Opening n streams keeps everything and, each time, finds room in the channel: the send cannot block. */
  lemma {:induction false} OpenedNConserves(w: World, n: nat)
    requires Conserved(w) && w.pool.current + n <= w.pool.maxSize
    ensures Conserved(OpenedN(w, n))
    ensures OpenedN(w, n).pool == w.pool.(queue := OpenedN(w, n).pool.queue, idle := w.pool.idle + n, current := w.pool.current + n)
    ensures OpenedN(w, n).lent == w.lent && OpenedN(w, n).abandoned == w.abandoned
    ensures n > 0 ==> |OpenedN(w, n - 1).pool.queue| < w.pool.maxSize
  {
    if n > 0 {
      OpenedNConserves(w, n - 1);
      OpenedConserves(OpenedN(w, n - 1));
    }
  }

  lemma BorrowConserves(w: World)
    requires Conserved(w) && w.pool.queue != []
    ensures Conserved(Apply(w, Borrow))
  {
    var q := w.pool.queue;
    assert q == [q[0]] + q[1..];
    assert q[0] in q;
    assert forall s :: s in q[1..] ==> s in q && s != q[0];
  }

  lemma ReturnConserves(w: World, s: Stream)
    requires Conserved(w) && s in w.lent && |w.pool.queue| < w.pool.maxSize
    ensures Conserved(Apply(w, Return(s)))
  {
    var q := w.pool.queue;
    assert forall t :: t in q + [s] ==> t in q || t == s;
    assert forall i :: 0 <= i < |q| ==> q[i] in q;
    assert |w.lent| == |w.lent - {s}| + 1;
  }

  lemma GiveUpConserves(w: World, s: Stream)
    requires Conserved(w) && s in w.lent
    ensures Conserved(Apply(w, Drop(s)))
    ensures w.pool.closed ==> Conserved(Apply(w, Refuse(s)))
  {
    assert |w.lent| == |w.lent - {s}| + 1;
  }

  /** Conservation is about the streams and the counters, not about the flags. */
  lemma FlagsConserve(w: World, closed: bool, signal: bool, looping: bool, initialised: bool)
    requires Conserved(w) && (w.pool.closed ==> closed)
    ensures Conserved(w.(pool := w.pool.(closed := closed, signal := signal, looping := looping, initialised := initialised)))
  {
  }

  lemma GrownConserves(w: World, n: nat)
    requires Conserved(w) && (n == 0 || w.pool.current + n <= w.pool.maxSize)
    ensures Conserved(OpenedN(w, n)) && OpenedN(w, n).pool.closed == w.pool.closed
  {
    if n > 0 {
      OpenedNConserves(w, n);
    }
  }

  lemma InitConserves(w: World, n: nat)
    requires Conserved(w) && Enabled(w, Init(n))
    ensures Conserved(Apply(w, Init(n)))
  {
    GrownConserves(w, n);
    var v := OpenedN(w, n);
    FlagsConserve(v, v.pool.closed, v.pool.signal, v.pool.current >= w.pool.initSize, true);
  }

  lemma ExpandConserves(w: World, n: nat, end: ExpandEnd)
    requires Conserved(w) && Enabled(w, Expand(n, end))
    ensures Conserved(Apply(w, Expand(n, end)))
  {
    GrownConserves(w, n);
    var v := OpenedN(w, n);
    match end
    case Expanded(raise) =>
      FlagsConserve(v, v.pool.closed, w.pool.signal || raise, v.pool.looping, v.pool.initialised);
    case ConnClosed =>
      FlagsConserve(v, true, v.pool.signal, v.pool.looping, v.pool.initialised);
    case Crashed =>
      FlagsConserve(v, v.pool.closed, v.pool.signal, false, v.pool.initialised);
  }

  lemma StepConserves(w: World, a: Action)
    requires Conserved(w) && Enabled(w, a)
    ensures Conserved(Apply(w, a))
  {
    match a
    case Init(n) => InitConserves(w, n);
    case Expand(n, end) => ExpandConserves(w, n, end);
    case Borrow => BorrowConserves(w);
    case Return(s) => ReturnConserves(w, s);
    case Overflow(s) => NeverOverflows(w, s);
    case Drop(s) => GiveUpConserves(w, s);
    case Refuse(s) => GiveUpConserves(w, s);
    case _ =>
  }

  // ---------------------------------------------------------------- runs

  ghost predicate Possible(w: World, run: seq<Action>)
    decreases |run|
  {
    run == [] || (Enabled(w, run[0]) && Possible(Apply(w, run[0]), run[1..]))
  }

  ghost function After(w: World, run: seq<Action>): World
    requires Possible(w, run)
    decreases |run|
  {
    if run == [] then w else After(Apply(w, run[0]), run[1..])
  }

  lemma {:induction false} RunConserves(w: World, run: seq<Action>)
    requires Conserved(w) && Possible(w, run)
    ensures Conserved(After(w, run))
    decreases |run|
  {
    if run != [] {
      StepConserves(w, run[0]);
      RunConserves(Apply(w, run[0]), run[1..]);
    }
  }

  /** No ReturnStream of the run came back with the error of a closed pool. */
  predicate NeverRefuses(run: seq<Action>) {
    forall i :: 0 <= i < |run| ==> !run[i].Refuse?
  }

  lemma StepAbandons(w: World, a: Action)
    requires Conserved(w) && Enabled(w, a)
    ensures w.abandoned <= Apply(w, a).abandoned
    ensures a.Refuse? <==> Apply(w, a).abandoned != w.abandoned
  {
    if a.Init? || a.Expand? {
      OpenedNFixed(w, a.grown);
      OpenedNLeaves(w, a.grown);
    }
  }

  lemma {:induction false} OpenedNLeaves(w: World, n: nat)
    ensures OpenedN(w, n).abandoned == w.abandoned
  {
    if n > 0 {
      OpenedNLeaves(w, n - 1);
    }
  }

  lemma {:induction false} AbandonedIffRefused(w: World, run: seq<Action>)
    requires Conserved(w) && Possible(w, run)
    ensures w.abandoned <= After(w, run).abandoned
    ensures After(w, run).abandoned == w.abandoned <==> NeverRefuses(run)
    decreases |run|
  {
    if run != [] {
      StepAbandons(w, run[0]);
      StepConserves(w, run[0]);
      AbandonedIffRefused(Apply(w, run[0]), run[1..]);
      assert NeverRefuses(run) <==> !run[0].Refuse? && NeverRefuses(run[1..]) by {
        assert forall i :: 0 < i < |run| ==> run[i] == run[1..][i - 1];
      }
    }
  }

  /**
   * The pool's books are right after every run: the idle counter is the length of
   * the queue, the size is what is queued, lent and abandoned, and no stream is in
   * two places. Nothing is abandoned, and the size is what is queued and lent,
   * exactly if ReturnStream never answered that the pool is closed.
   */
  lemma PoolConservation(initSize: nat, maxSize: nat, next: Stream, run: seq<Action>)
    requires initSize <= maxSize
    requires Possible(NewWorld(initSize, maxSize, next), run)
    ensures var w := After(NewWorld(initSize, maxSize, next), run);
            && Conserved(w)
            && 0 <= w.pool.idle <= w.pool.current <= w.pool.maxSize == maxSize
            && (!w.pool.closed ==> w.pool.current == w.pool.idle + |w.lent|)
            && (w.pool.current == w.pool.idle + |w.lent| <==> NeverRefuses(run))
  {
    var w0 := NewWorld(initSize, maxSize, next);
    RunConserves(w0, run);
    AbandonedIffRefused(w0, run);
    SizesFixed(w0, run);
  }

  lemma {:induction false} SizesFixed(w: World, run: seq<Action>)
    requires Possible(w, run)
    ensures After(w, run).pool.initSize == w.pool.initSize && After(w, run).pool.maxSize == w.pool.maxSize
    decreases |run|
  {
    if run != [] {
      match run[0] {
        case Init(n) => OpenedNFixed(w, n);
        case Expand(n, _) => OpenedNFixed(w, n);
        case _ =>
      }
      SizesFixed(Apply(w, run[0]), run[1..]);
    }
  }

  lemma {:induction false} OpenedNFixed(w: World, n: nat)
    ensures var v := OpenedN(w, n);
            v.pool == w.pool.(queue := v.pool.queue, idle := w.pool.idle + n, current := w.pool.current + n)
  {
    if n > 0 {
      OpenedNFixed(w, n - 1);
    }
  }

  // ---------------------------------------------------------------- order and flags

  /** The streams a step puts into the channel, in order. */
  function Sent(w: World, a: Action): seq<Stream> {
    match a
    case Init(n) => seq(n, i => w.next + i)
    case Expand(n, _) => seq(n, i => w.next + i)
    case Return(s) => [s]
    case _ => []
  }

  ghost function AllSent(w: World, run: seq<Action>): seq<Stream>
    requires Possible(w, run)
    decreases |run|
  {
    if run == [] then [] else Sent(w, run[0]) + AllSent(Apply(w, run[0]), run[1..])
  }

  /** The streams the run lends, in order. */
  ghost function AllBorrowed(w: World, run: seq<Action>): seq<Stream>
    requires Possible(w, run)
    decreases |run|
  {
    if run == [] then []
    else (if run[0].Borrow? then [w.pool.queue[0]] else []) + AllBorrowed(Apply(w, run[0]), run[1..])
  }

  lemma {:induction false} OpenedNAppends(w: World, n: nat)
    ensures OpenedN(w, n).pool.queue == w.pool.queue + seq(n, i => w.next + i)
    ensures OpenedN(w, n).next == w.next + n && OpenedN(w, n).lent == w.lent
  {
    if n > 0 {
      OpenedNAppends(w, n - 1);
      assert seq(n, i => w.next + i) == seq(n - 1, i => w.next + i) + [w.next + n - 1];
    }
  }

  lemma StepIsFifo(w: World, a: Action)
    requires Enabled(w, a)
    ensures a.Borrow? ==> w.pool.queue == [w.pool.queue[0]] + Apply(w, a).pool.queue && Apply(w, a).lent == w.lent + {w.pool.queue[0]}
    ensures !a.Borrow? ==> Apply(w, a).pool.queue == w.pool.queue + Sent(w, a)
    ensures (if a.Borrow? then [w.pool.queue[0]] else []) + Apply(w, a).pool.queue == w.pool.queue + Sent(w, a)
  {
    if a.Init? || a.Expand? {
      OpenedNAppends(w, a.grown);
    }
  }

  /** What one step takes off the front or puts at the back. */
  lemma Regroup(first: seq<Stream>, lent: seq<Stream>, left: seq<Stream>,
                before: seq<Stream>, queue: seq<Stream>, added: seq<Stream>, sent: seq<Stream>)
    requires lent + left == queue + sent && first + queue == before + added
    ensures (first + lent) + left == before + (added + sent)
  {
    assert (first + lent) + left == first + (lent + left);
    assert first + (queue + sent) == (first + queue) + sent;
    assert (before + added) + sent == before + (added + sent);
  }

  /**
   * The pool is a queue: in every run, the streams lent and then those still waiting
   * are the streams that waited at first and then those returned or opened, in order.
   */
  lemma {:induction false} FirstInFirstOut(w: World, run: seq<Action>)
    requires Possible(w, run)
    ensures AllBorrowed(w, run) + After(w, run).pool.queue == w.pool.queue + AllSent(w, run)
    decreases |run|
  {
    if run != [] {
      var v := Apply(w, run[0]);
      StepIsFifo(w, run[0]);
      FirstInFirstOut(v, run[1..]);
      var lent, sent := AllBorrowed(v, run[1..]), AllSent(v, run[1..]);
      var first: seq<Stream> := if run[0].Borrow? then [w.pool.queue[0]] else [];
      Regroup(first, lent, After(v, run[1..]).pool.queue, w.pool.queue, v.pool.queue, Sent(w, run[0]), sent);
    }
  }

  /** What each step does to the flags. */
  lemma FlagsOf(w: World, a: Action)
    requires Enabled(w, a)
    ensures var p, q := w.pool, Apply(w, a).pool;
            && (q.closed <==> p.closed || a.Close? || (a.Expand? && a.end == ConnClosed))
            && (q.initialised <==> p.initialised || a.Init?)
            && (q.looping <==> if a.Init? then p.current + a.grown >= p.initSize
                               else p.looping && !a.StopLoop? && !(a.Expand? && a.end == Crashed))
            && (q.signal <==> (p.signal && !a.TakeSignal?) || a == Trigger(true) || (a.Expand? && a.end == Expanded(true)))
  {
    if a.Init? || a.Expand? {
      OpenedNFixed(w, a.grown);
    }
  }

  /** Once closed, a pool stays closed; and once its loop is gone, it stays gone. */
  lemma {:induction false} FlagsAreFinal(w: World, run: seq<Action>)
    requires Possible(w, run)
    ensures w.pool.closed ==> After(w, run).pool.closed
    ensures w.pool.initialised ==> After(w, run).pool.initialised && (!w.pool.looping ==> !After(w, run).pool.looping)
    decreases |run|
  {
    if run != [] {
      FlagsOf(w, run[0]);
      FlagsAreFinal(Apply(w, run[0]), run[1..]);
    }
  }

  /** A closed pool can lose count: one stream is refused and stays in currentSize. */
  lemma ClosedPoolLosesCount()
    ensures var run := [Init(1), Borrow, Close, Refuse(0)];
            && Possible(NewWorld(1, 1, 0), run)
            && After(NewWorld(1, 1, 0), run).pool.current == 1
            && After(NewWorld(1, 1, 0), run).pool.idle == 0
            && After(NewWorld(1, 1, 0), run).lent == {}
  {
    var w0 := NewWorld(1, 1, 0);
    assert OpenedN(w0, 1) == Opened(w0);
    var r3, r2, r1, r0 := [Refuse(0)], [Close, Refuse(0)], [Borrow, Close, Refuse(0)], [Init(1), Borrow, Close, Refuse(0)];
    assert r0[1..] == r1 && r1[1..] == r2 && r2[1..] == r3 && r3[1..] == [];
    var w1 := Apply(w0, Init(1));
    var w2 := Apply(w1, Borrow);
    var w3 := Apply(w2, Close);
    assert Possible(w3, r3) && After(w3, r3) == Apply(w3, Refuse(0));
    assert Possible(w2, r2) && After(w2, r2) == After(w3, r3);
    assert Possible(w1, r1) && After(w1, r1) == After(w3, r3);
  }

  // ---------------------------------------------------------------- what conservation rules out

  /** The branch of ReturnStream for a full pool never runs. */
  lemma NeverOverflows(w: World, s: Stream)
    requires Conserved(w)
    ensures !Enabled(w, Overflow(s))
  {
    if s in w.lent {
      assert |w.lent| == |w.lent - {s}| + 1;
    }
  }

  /** The clamp of DropStream never runs. */
  lemma DropNeverClamps(w: World, s: Stream)
    requires Conserved(w) && s in w.lent
    ensures Apply(w, Drop(s)).pool == w.pool.(current := w.pool.current - 1)
  {
    assert |w.lent| == |w.lent - {s}| + 1;
  }

  /** BorrowStream gives up exactly when maxSize streams are lent out. */
  lemma NoStreamMeansAllLent(w: World)
    requires Conserved(w) && !w.pool.closed
    ensures w.pool.queue == [] && w.pool.current >= w.pool.maxSize <==> |w.lent| == w.pool.maxSize
  {
  }

  /** What is borrowed was lent to nobody. */
  lemma BorrowIsExclusive(w: World)
    requires Conserved(w) && Enabled(w, Borrow)
    ensures w.pool.queue[0] !in w.lent && w.pool.queue[0] !in w.abandoned
    ensures w.pool.queue[0] !in Apply(w, Borrow).pool.queue
  {
    assert w.pool.queue[0] in w.pool.queue;
  }

  // ---------------------------------------------------------------- the code

  datatype OpenResult = OpenOk(stream: Stream) | OpenFailed(looksClosed: bool)

  /** The connection as the pool sees it. A reliable one opens whatever it is asked for. */
  class Connection {
    const reliable: bool
    var next: Stream

    constructor (reliable: bool)
      ensures this.reliable == reliable && next == 0
    {
      this.reliable, next := reliable, 0;
    }

    method OpenSendStream() returns (r: OpenResult)
      modifies this
      ensures r.OpenOk? ==> r.stream == old(next) && next == old(next) + 1
      ensures r.OpenFailed? ==> next == old(next) && !reliable
    {
      var fail, looksClosed: bool := *, *;
      if fail && !reliable {
        return OpenFailed(looksClosed);
      }
      r := OpenOk(next);
      next := next + 1;
    }

    method Closed() returns (closed: bool)
      ensures reliable ==> !closed
    {
      closed := *;
      closed := closed && !reliable;
    }
  }

  datatype BorrowResult = Got(stream: Stream) | PoolClosed | NoStream | Retry

  /** How many streams an expansion by size opens, and how it ends. */
  ghost predicate Outcome(size: int, nilGuard: bool, reliable: bool, grown: nat, end: ExpandEnd) {
    && (end == Crashed <==> !nilGuard && grown > 0)
    && (end == Crashed ==> grown == 1)
    && (reliable && nilGuard ==> grown == size && end.Expanded?)
    && (reliable && !nilGuard && size > 0 ==> end == Crashed)
  }

  lemma AfterExpansion(w: World, grown: nat, end: ExpandEnd, nilGuard: bool, reliable: bool)
    requires Conserved(w) && Enabled(w, Expand(grown, end)) && Outcome(ExpandSize(w.pool), nilGuard, reliable, grown, end)
    ensures var p, q := w.pool, Apply(w, Expand(grown, end)).pool;
            && q.current == p.current + grown <= p.maxSize
            && (grown <= 1 || grown <= p.initSize / 2)
            && (reliable && nilGuard ==>
                  && (q.current == p.maxSize || q.current == p.current + (if p.initSize >= 2 then p.initSize / 2 else 1))
                  && q.looping && q.closed == p.closed && (!q.closed ==> q.signal))
            && (reliable && !nilGuard && p.current < p.maxSize ==> q.current == p.current + 1 && !q.looping)
  {
    OpenedNFixed(w, grown);
    FlagsOf(w, Expand(grown, end));
  }

  class SendStreamPool {
    const conn: Connection
    const initSize: nat
    const maxSize: nat

    /**
     * Whether util.IsConnClosedError survives a nil error. It does not
     * (util/error.go:37), so the code as it stands is the pool with nilGuard false.
     */
    const nilGuard: bool

    var idleSize: int
    var currentSize: int
    var poolC: seq<Stream>
    var closed: bool
    var expandingSignalC: bool
    var once: bool
    var looping: bool

    ghost var lent: set<Stream>
    ghost var abandoned: set<Stream>

    constructor (initSize: nat, maxSize: nat, conn: Connection, nilGuard: bool)
      requires initSize <= maxSize
      ensures View() == NewWorld(initSize, maxSize, conn.next) && Conserved(View())
      ensures this.conn == conn && this.nilGuard == nilGuard
    {
      this.initSize, this.maxSize, this.conn, this.nilGuard := initSize, maxSize, conn, nilGuard;
      idleSize, currentSize, poolC := 0, 0, [];
      closed, expandingSignalC, once, looping := false, false, false, false;
      lent, abandoned := {}, {};
    }

    ghost function View(): World
      reads this, conn
    {
      World(Pool(initSize, maxSize, idleSize, currentSize, poolC, closed, expandingSignalC, once, looping),
            lent, abandoned, conn.next)
    }

    method InitStreams() returns (ok: bool, ghost grown: nat)
      requires Conserved(View())
      modifies this, conn
      ensures old(once) ==> ok && View() == old(View())
      ensures !old(once) ==> Enabled(old(View()), Init(grown)) && View() == Apply(old(View()), Init(grown))
      ensures !old(once) ==> once && looping == ok && (ok <==> currentSize >= initSize)
      ensures !old(once) ==> currentSize == old(currentSize) + grown && (grown == 0 || currentSize <= initSize)
      ensures conn.reliable ==> ok
      ensures Conserved(View())
    {
      ok, grown := true, 0;
      if once {
        return;
      }
      ghost var w := View();
      while currentSize < initSize && ok
        invariant grown == 0 || w.pool.current + grown <= initSize
        invariant w.pool.current + grown <= maxSize && View() == OpenedN(w, grown) && Conserved(View())
        invariant currentSize == w.pool.current + grown
        invariant !ok ==> currentSize < initSize && !conn.reliable
        decreases initSize - currentSize, ok
      {
        OpenedNConserves(w, grown + 1);
        var r := OpenSendStream();
        if r.OpenOk? {
          grown := grown + 1;
        } else {
          ok := false;
        }
      }
      StartLoop(w, grown, ok);
    }

    /** The end of the initialisation: the loop is started if it got that far. */
    method StartLoop(ghost w: World, ghost grown: nat, ok: bool)
      requires Conserved(w) && !w.pool.initialised && (grown == 0 || w.pool.current + grown <= w.pool.initSize)
      requires View() == OpenedN(w, grown) && w.pool.initSize == initSize && ok == (currentSize >= initSize)
      modifies this`once, this`looping
      ensures Enabled(w, Init(grown)) && View() == Apply(w, Init(grown)) && once && looping == ok && Conserved(View())
    {
      once, looping := true, ok;
      StepConserves(w, Init(grown));
    }

    /** The first critical section of BorrowStream. */
    method BorrowFirst() returns (r: BorrowResult)
      requires Conserved(View())
      modifies this
      ensures r.Got? ==> Enabled(old(View()), Borrow) && r.stream == old(poolC)[0] && r.stream !in old(lent)
                         && View() == Apply(old(View()), Borrow)
      ensures r.Got? ==> poolC == old(poolC)[1..] && lent == old(lent) + {r.stream} && idleSize == old(idleSize) - 1
      ensures !old(closed) && old(poolC) != [] ==> r.Got?
      ensures r.PoolClosed? ==> old(closed) && View() == old(View())
      ensures r.NoStream? ==> !closed && View() == old(View()) && |lent| == maxSize && abandoned == {}
      ensures r.Retry? ==> View() == Apply(old(View()), Trigger(true)) && !closed && poolC == [] && |lent| < maxSize
      ensures r.Retry? ==> expandingSignalC && lent == old(lent)
      ensures closed == old(closed) && currentSize == old(currentSize) && abandoned == old(abandoned)
      ensures Conserved(View())
    {
      var preferClose: bool := *;
      if closed && (preferClose || poolC == []) {
        return PoolClosed;
      }
      if poolC != [] {
        BorrowIsExclusive(View());
        BorrowConserves(View());
        var s := TakeFromQueue();
        return Got(s);
      }
      NoStreamMeansAllLent(View());
      if currentSize >= maxSize {
        return NoStream;
      }
      TriggerExpand();
      r := Retry;
    }

    /** The second critical section: wait for a stream that another section put there, or time out. */
    method BorrowSecond() returns (r: BorrowResult)
      requires Conserved(View())
      modifies this
      ensures r.Got? ==> Enabled(old(View()), Borrow) && r.stream == old(poolC)[0] && r.stream !in old(lent)
                         && View() == Apply(old(View()), Borrow)
      ensures r.Got? ==> poolC == old(poolC)[1..] && lent == old(lent) + {r.stream} && idleSize == old(idleSize) - 1
      ensures !old(closed) && old(poolC) != [] ==> r.Got?
      ensures r.PoolClosed? ==> old(closed) && View() == old(View())
      ensures r.Retry? ==> View() == old(View()) && poolC == [] && !closed
      ensures closed == old(closed) && currentSize == old(currentSize) && abandoned == old(abandoned)
      ensures !r.NoStream?
      ensures Conserved(View())
    {
      var preferClose: bool := *;
      if closed && (preferClose || poolC == []) {
        return PoolClosed;
      }
      if poolC != [] {
        BorrowIsExclusive(View());
        BorrowConserves(View());
        var s := TakeFromQueue();
        return Got(s);
      }
      r := Retry;
    }

    method TakeFromQueue() returns (s: Stream)
      requires poolC != []
      modifies this
      ensures View() == Apply(old(View()), Borrow) && s == old(poolC)[0]
      ensures poolC == old(poolC)[1..] && lent == old(lent) + {s} && idleSize == old(idleSize) - 1
      ensures closed == old(closed) && currentSize == old(currentSize) && abandoned == old(abandoned)
    {
      s, poolC := poolC[0], poolC[1..];
      idleSize := idleSize - 1;
      lent := lent + {s};
    }

    method PutIntoQueue(s: Stream)
      requires Conserved(View()) && s in lent && |poolC| < maxSize
      modifies this`poolC, this`idleSize, this`lent
      ensures View() == Apply(old(View()), Return(s)) && Conserved(View())
      ensures poolC == old(poolC) + [s] && lent == old(lent) - {s}
    {
      ReturnConserves(View(), s);
      poolC := poolC + [s];
      idleSize := idleSize + 1;
      lent := lent - {s};
    }

    ghost method Abandon(s: Stream)
      requires Conserved(View()) && s in lent && closed
      modifies this`lent, this`abandoned
      ensures View() == Apply(old(View()), Refuse(s)) && Conserved(View())
      ensures lent == old(lent) - {s} && abandoned == old(abandoned) + {s}
    {
      GiveUpConserves(View(), s);
      lent, abandoned := lent - {s}, abandoned + {s};
    }

    /** Puts s back, unless the pool is closed and select picks that case. The full-pool branch is dead. */
    method ReturnStream(s: Stream) returns (err: bool)
      requires Conserved(View()) && s in lent
      modifies this
      ensures !err ==> View() == Apply(old(View()), Return(s))
      ensures err ==> old(closed) && View() == Apply(old(View()), Refuse(s))
      ensures poolC == if err then old(poolC) else old(poolC) + [s]
      ensures lent == old(lent) - {s} && abandoned == old(abandoned) + if err then {s} else {}
      ensures currentSize == old(currentSize) && closed == old(closed) && expandingSignalC == old(expandingSignalC)
      ensures Conserved(View())
    {
      NeverOverflows(View(), s);
      var preferClose: bool := *;
      if closed && preferClose {
        Abandon(s);
        return true;
      }
      if |poolC| < maxSize {
        PutIntoQueue(s);
      } else {
        assert false;
      }
      err := false;
    }

    method DropStream(s: Stream)
      requires Conserved(View()) && s in lent
      modifies this
      ensures View() == Apply(old(View()), Drop(s))
      ensures currentSize == old(currentSize) - 1 && idleSize == old(idleSize)
      ensures lent == old(lent) - {s} && poolC == old(poolC) && closed == old(closed)
      ensures Conserved(View())
    {
      DropNeverClamps(View(), s);
      StepConserves(View(), Drop(s));
      currentSize := currentSize - 1;
      if currentSize < 0 {
        // Here the code resets both counters to 0.
        assert false;
      }
      lent := lent - {s};
    }

    method Close()
      modifies this
      ensures View() == Apply(old(View()), Action.Close)
      ensures closed && View() == old(View()).(pool := old(View()).pool.(closed := true))
    {
      if !closed {
        closed := true;
      }
    }

    /** Opens one stream and queues it. The send on the channel needs room: under the lock it would block for ever. */
    method OpenSendStream() returns (r: OpenResult)
      requires |poolC| < maxSize
      modifies this`poolC, this`idleSize, this`currentSize, conn
      ensures r.OpenOk? ==> View() == Opened(old(View()))
      ensures r.OpenOk? ==> poolC == old(poolC) + [r.stream] && idleSize == old(idleSize) + 1 && currentSize == old(currentSize) + 1
      ensures r.OpenFailed? ==> View() == old(View()) && !conn.reliable
    {
      r := conn.OpenSendStream();
      if r.OpenFailed? {
        return;
      }
      poolC := poolC + [r.stream];
      idleSize := idleSize + 1;
      currentSize := currentSize + 1;
    }

    method ExpandCheck() returns (b: bool)
      requires Conserved(View())
      ensures b <==> NeedsExpand(View().pool)
      ensures b <==> 0 < currentSize < maxSize && idleSize <= (currentSize + 2) / 5
    {
      ThresholdInIntegers(currentSize);
      var threshold := Threshold(currentSize);
      b := threshold >= idleSize && currentSize < maxSize && currentSize != 0;
    }

    method TriggerExpand()
      modifies this`expandingSignalC
      ensures View() == Apply(old(View()), Trigger(expandingSignalC || !closed))
      ensures !closed || old(expandingSignalC) ==> expandingSignalC
    {
      var preferClose: bool := *;
      if closed && preferClose {
        return;
      }
      expandingSignalC := true;
    }

    /** One attempt of an expansion: open, then the closed check on whatever error came back. */
    method TryOpen() returns (grown: bool, closes: bool, crashes: bool)
      requires |poolC| < maxSize
      modifies this`poolC, this`idleSize, this`currentSize, conn
      ensures View() == if grown then Opened(old(View())) else old(View())
      ensures crashes <==> grown && !nilGuard
      ensures conn.reliable ==> grown && !closes
    {
      var r := OpenSendStream();
      grown := r.OpenOk?;
      crashes := grown && !nilGuard;
      var connClosed := conn.Closed();
      closes := connClosed || (r.OpenFailed? && r.looksClosed);
    }

    /** The loop of an expansion, with where it ended: Expanded(true) when it ran to the end. */
    method OpenUpTo(expandSize: nat) returns (ghost grown: nat, end: ExpandEnd)
      requires Conserved(View()) && currentSize + expandSize <= maxSize
      modifies this`poolC, this`idleSize, this`currentSize, conn
      ensures View() == OpenedN(old(View()), grown) && (grown == 0 || grown <= expandSize)
      ensures end.Expanded? ==> end.raise
      ensures Outcome(expandSize, nilGuard, conn.reliable, grown, end)
    {
      ghost var w := View();
      grown, end := 0, Expanded(true);
      for i := 0 to expandSize
        invariant grown <= i && View() == OpenedN(w, grown)
        invariant grown > 0 ==> nilGuard
        invariant conn.reliable ==> grown == i
      {
        OpenedNConserves(w, grown + 1);
        assert grown + 1 - 1 == grown;
        var opens, closes, crashes := TryOpen();
        grown := if opens then grown + 1 else grown;
        if crashes {
          return grown, Crashed;
        }
        if closes {
          return grown, ConnClosed;
        }
      }
    }

    /** What an expansion does after its loop: close the pool, die, or raise the signal again. */
    method EndExpansion(ghost w: World, ghost grown: nat, how: ExpandEnd) returns (end: ExpandEnd)
      requires View() == OpenedN(w, grown) && w.pool.looping && grown <= ExpandSize(w.pool)
      modifies this`closed, this`looping, this`expandingSignalC
      ensures Enabled(w, Expand(grown, end)) && View() == Apply(w, Expand(grown, end))
      ensures how.Expanded? <==> end.Expanded?
      ensures !how.Expanded? ==> end == how
    {
      OpenedNFixed(w, grown);
      end := how;
      match how {
        case Crashed => looping := false;
        case ConnClosed => closed := true;
        case Expanded(_) =>
          TriggerExpand();
          end := Expanded(expandingSignalC);
      }
    }

    /**
     * One expansion. Without the guard, the closed check panics on the nil error of
     * the first stream that opens: the loop's goroutine dies there, the lock is released.
     */
    method ExpandStream() returns (ghost grown: nat, end: ExpandEnd)
      requires Conserved(View()) && looping
      modifies this, conn
      ensures Enabled(old(View()), Expand(grown, end)) && View() == Apply(old(View()), Expand(grown, end))
      ensures Conserved(View())
      ensures Outcome(ExpandSize(old(View()).pool), nilGuard, conn.reliable, grown, end)
      ensures currentSize == old(currentSize) + grown <= maxSize
      ensures grown <= 1 || grown <= initSize / 2
      ensures conn.reliable && nilGuard ==>
                && (currentSize == maxSize || currentSize == old(currentSize) + (if initSize >= 2 then initSize / 2 else 1))
                && looping && closed == old(closed) && (!closed ==> expandingSignalC)
      ensures conn.reliable && !nilGuard && old(currentSize) < maxSize ==> currentSize == old(currentSize) + 1 && !looping
    {
      var expandSize := initSize / 2;
      if expandSize == 0 {
        expandSize := 1;
      }
      if expandSize + currentSize > maxSize {
        expandSize := maxSize - currentSize;
      }
      ghost var w := View();
      grown, end := OpenUpTo(expandSize);
      end := EndExpansion(w, grown, end);
      StepConserves(w, Expand(grown, end));
      AfterExpansion(w, grown, end, nilGuard, conn.reliable);
    }
  }
}
