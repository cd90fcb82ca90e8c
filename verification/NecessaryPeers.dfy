// What allConnected of the supervisor is worth: components/connection_supervisor.go,
// with the connection manager it asks and the host that tells it of disconnected peers.
module NecessaryPeers {
  import opened PeerOrder

  datatype Watch = Watch(self: PeerId, necessary: set<PeerId>, allConnected: bool)

  function Required(v: Watch, p: PeerId): Watch {
    v.(necessary := v.necessary + {p})
  }

  function Released(v: Watch, p: PeerId): Watch {
    v.(necessary := v.necessary - {p})
  }

  function Noticed(v: Watch, p: PeerId): Watch {
    if p in v.necessary then v.(allConnected := false) else v
  }

  /** After a round of checks; answers are the peers found connected. */
  function Answered(v: Watch, answers: set<PeerId>): Watch {
    if v.allConnected || v.necessary == {} then v
    else v.(allConnected := v.self !in v.necessary && v.necessary <= answers)
  }

  /**
   * The supervisor's view; the peers connected in fact; those that are gone and whose
   * notice is under way; and those that went without one, which the connection manager
   * may go on listing.
   */
  datatype World = World(watch: Watch, connected: set<PeerId>, pending: set<PeerId>, stale: set<PeerId>)

  /**
   * A disconnection is told if the closing handler of the connection runs: not if its
   * accept loop has ended without it, or the handler does not get to its notice. Then
   * the connection manager may keep the peer. A notice need not be the last one under
   * way for its peer. A round of checks hears from the connection manager; a peer that
   * disconnects meanwhile has its notice wait for the round to end.
   */
  datatype Step =
    | SetPeer(p: PeerId)
    | RemovePeer(p: PeerId)
    | RemoveAll
    | Notice(p: PeerId, last: bool)
    | CheckAll(answers: set<PeerId>)
    | Connect(p: PeerId)
    | Disconnect(p: PeerId, told: bool)

  /** Whom the connection manager may list. */
  function Listed(w: World): set<PeerId> {
    w.connected + w.pending + w.stale
  }

  predicate CanStep(w: World, s: Step) {
    s.CheckAll? ==> s.answers <= Listed(w)
  }

  function Next(w: World, s: Step): World {
    match s
    case SetPeer(p) => w.(watch := Required(w.watch, p))
    case RemovePeer(p) => w.(watch := Released(w.watch, p))
    case RemoveAll => w.(watch := w.watch.(necessary := {}))
    case Notice(p, last) =>
      w.(watch := Noticed(w.watch, p), pending := if last then w.pending - {p} else w.pending)
    case CheckAll(answers) => w.(watch := Answered(w.watch, answers))
    case Connect(p) => w.(connected := w.connected + {p})
    case Disconnect(p, told) =>
      if told then w.(connected := w.connected - {p}, pending := w.pending + {p})
      else w.(connected := w.connected - {p}, stale := w.stale + {p})
  }

  /** If all are said to be connected, they are, but for those whose notice is under way. */
  predicate Truthful(w: World) {
    w.watch.allConnected ==> w.watch.necessary <= w.connected + w.pending
  }

  /** Gone, and nobody is going to say so. */
  predicate Lost(w: World, p: PeerId) {
    p !in w.connected && p !in w.pending
  }

  /**
   * While allConnected is set, a peer that is not connected becomes necessary, or a
   * necessary one goes without a notice; or a round of checks sets it by what the
   * connection manager says of a necessary peer that went without a notice before.
   */
  predicate Overlooks(w: World, s: Step) {
    match s
    case SetPeer(p) => w.watch.allConnected && Lost(w, p)
    case Disconnect(p, told) => w.watch.allConnected && !told && p in w.watch.necessary && p !in w.pending
    case CheckAll(answers) =>
      && !w.watch.allConnected && Answered(w.watch, answers).allConnected
      && exists p :: p in w.watch.necessary && p in w.stale && Lost(w, p)
    case _ => false
  }

  lemma StepStaysTruthfulIff(w: World, s: Step)
    requires Truthful(w) && CanStep(w, s)
    ensures Truthful(Next(w, s)) <==> !Overlooks(w, s)
  {
    var n := Next(w, s);
    match s {
      case SetPeer(p) =>
        assert p in n.watch.necessary;
      case CheckAll(answers) =>
        if n.watch.allConnected && !w.watch.allConnected {
          assert forall p :: p in w.watch.necessary ==> p in Listed(w);
        }
      case _ =>
    }
  }

  ghost predicate CanRun(w: World, run: seq<Step>)
    decreases |run|
  {
    run == [] || (CanStep(w, run[0]) && CanRun(Next(w, run[0]), run[1..]))
  }

  function Run(w: World, run: seq<Step>): World
    decreases |run|
  {
    if run == [] then w else Run(Next(w, run[0]), run[1..])
  }

  predicate AlwaysTruthful(w: World, run: seq<Step>)
    decreases |run|
  {
    Truthful(w) && (run == [] || AlwaysTruthful(Next(w, run[0]), run[1..]))
  }

  predicate EverOverlooks(w: World, run: seq<Step>)
    decreases |run|
  {
    run != [] && (Overlooks(w, run[0]) || EverOverlooks(Next(w, run[0]), run[1..]))
  }

  /**
   * Over any run, allConnected is worth its name all along exactly if no step overlooks
   * a peer: neither while it is set nor in setting it.
   */
  lemma {:induction false} AlwaysTruthfulIff(w: World, run: seq<Step>)
    requires Truthful(w) && CanRun(w, run)
    ensures AlwaysTruthful(w, run) <==> !EverOverlooks(w, run)
    decreases |run|
  {
    if run != [] {
      var n := Next(w, run[0]);
      StepStaysTruthfulIff(w, run[0]);
      if Truthful(n) {
        AlwaysTruthfulIff(n, run[1..]);
      } else {
        assert !AlwaysTruthful(n, run[1..]);
      }
    }
  }

  /** Whether p is wanted after the run: what the last call about it said. */
  predicate Wanted(run: seq<Step>, p: PeerId, was: bool)
    decreases |run|
  {
    if run == [] then was
    else
      var now := if run[0] == SetPeer(p) then true else if run[0] == RemovePeer(p) || run[0] == RemoveAll then false else was;
      Wanted(run[1..], p, now)
  }

  /** Whether p is connected after the run: what happened to it last. */
  predicate Up(run: seq<Step>, p: PeerId, was: bool)
    decreases |run|
  {
    if run == [] then was
    else
      var now := if run[0] == Connect(p) then true else if run[0].Disconnect? && run[0].p == p then false else was;
      Up(run[1..], p, now)
  }

  /** Whether a notice about p is under way after the run. */
  predicate Announced(run: seq<Step>, p: PeerId, was: bool)
    decreases |run|
  {
    if run == [] then was
    else
      var now := if run[0] == Disconnect(p, true) then true else if run[0] == Notice(p, true) then false else was;
      Announced(run[1..], p, now)
  }

  /**
   * The necessary peers are those last asked for, the connected ones those last seen to
   * connect; a notice is under way from the disconnection to the last notice about it.
   */
  lemma {:induction false} LastCallCounts(w: World, run: seq<Step>, p: PeerId)
    requires CanRun(w, run)
    ensures p in Run(w, run).watch.necessary <==> Wanted(run, p, p in w.watch.necessary)
    ensures p in Run(w, run).connected <==> Up(run, p, p in w.connected)
    ensures p in Run(w, run).pending <==> Announced(run, p, p in w.pending)
    ensures p in Run(w, run).stale <==> p in w.stale || Disconnect(p, false) in run
    decreases |run|
  {
    if run != [] {
      assert run == [run[0]] + run[1..];
      LastCallCounts(Next(w, run[0]), run[1..], p);
    }
  }

  /** Some necessary peer is reported gone. */
  predicate EverNoticed(w: World, run: seq<Step>)
    decreases |run|
  {
    run != [] && ((run[0].Notice? && run[0].p in w.watch.necessary) || EverNoticed(Next(w, run[0]), run[1..]))
  }

  predicate AlwaysSet(w: World, run: seq<Step>)
    decreases |run|
  {
    w.watch.allConnected && (run == [] || AlwaysSet(Next(w, run[0]), run[1..]))
  }

  /**
   * Once set, allConnected stays until some necessary peer is reported gone; all
   * rounds of checks until then do nothing, whoever has become necessary since.
   */
  lemma {:induction false} StaysSetIff(w: World, run: seq<Step>)
    requires w.watch.allConnected
    ensures AlwaysSet(w, run) <==> !EverNoticed(w, run)
    decreases |run|
  {
    if run != [] {
      var n := Next(w, run[0]);
      if n.watch.allConnected {
        StaysSetIff(n, run[1..]);
      } else {
        assert !AlwaysSet(n, run[1..]);
      }
    }
  }

  function NewWorld(self: PeerId): World {
    World(Watch(self, {}, false), {}, {}, {})
  }

  lemma RunFour(w: World, a: Step, b: Step, c: Step, d: Step)
    requires CanStep(w, a) && CanStep(Next(w, a), b)
    requires CanStep(Next(Next(w, a), b), c) && CanStep(Next(Next(Next(w, a), b), c), d)
    ensures var v := Next(Next(Next(w, a), b), c);
            && CanRun(w, [a, b, c, d]) && Run(w, [a, b, c, d]) == Next(v, d)
            && (EverOverlooks(w, [a, b, c, d]) <==>
                Overlooks(w, a) || Overlooks(Next(w, a), b) || Overlooks(Next(Next(w, a), b), c) || Overlooks(v, d))
  {
    var r3, r2, r1 := [d], [c, d], [b, c, d];
    assert [a, b, c, d][1..] == r1 && r1[1..] == r2 && r2[1..] == r3 && r3[1..] == [];
    var w1 := Next(w, a);
    var w2 := Next(w1, b);
    var w3 := Next(w2, c);
    var w4 := Next(w3, d);
    assert CanRun(w4, []) && Run(w4, []) == w4 && !EverOverlooks(w4, []);
    assert CanRun(w3, r3) && Run(w3, r3) == w4 && (EverOverlooks(w3, r3) <==> Overlooks(w3, d));
    assert CanRun(w2, r2) && Run(w2, r2) == w4 && (EverOverlooks(w2, r2) <==> Overlooks(w2, c) || Overlooks(w3, d));
    assert CanRun(w1, r1) && Run(w1, r1) == w4;
  }

  /** A peer that becomes necessary once all others are connected is overlooked. */
  lemma NewPeerOverlooked(self: PeerId, a: PeerId, b: PeerId)
    requires a != self && b != a
    ensures var run := [SetPeer(a), Connect(a), CheckAll({a}), SetPeer(b)];
            && CanRun(NewWorld(self), run) && EverOverlooks(NewWorld(self), run)
            && var w := Run(NewWorld(self), run);
               w.watch.allConnected && b in w.watch.necessary && Lost(w, b)
  {
    var w0 := NewWorld(self);
    var w3 := Next(Next(Next(w0, SetPeer(a)), Connect(a)), CheckAll({a}));
    assert w3 == World(Watch(self, {a}, true), {a}, {}, {});
    RunFour(w0, SetPeer(a), Connect(a), CheckAll({a}), SetPeer(b));
  }

  /** A peer that went without a notice before the flag was set: the round hears that it is connected. */
  lemma StaleAnswerTrusted(self: PeerId, a: PeerId, b: PeerId)
    requires a != self && b != self && a != b
    ensures var run := [SetPeer(a), SetPeer(b), Connect(a), Disconnect(a, false)];
            && CanRun(NewWorld(self), run) && !EverOverlooks(NewWorld(self), run)
            && var w := Next(Run(NewWorld(self), run), Connect(b));
               && CanStep(w, CheckAll({a, b})) && Overlooks(w, CheckAll({a, b}))
               && Next(w, CheckAll({a, b})).watch.allConnected && Lost(Next(w, CheckAll({a, b})), a)
  {
    var w0 := NewWorld(self);
    RunFour(w0, SetPeer(a), SetPeer(b), Connect(a), Disconnect(a, false));
    var w := Next(Run(w0, [SetPeer(a), SetPeer(b), Connect(a), Disconnect(a, false)]), Connect(b));
    assert w == World(Watch(self, {a, b}, false), {b}, {}, {a});
  }
}
