// The supervisor of necessary peers and its actuators, in place:
// components/connection_supervisor.go.
module ConnectionSupervisor {
  import opened Wrappers
  import opened PeerOrder
  import D = DialActuator
  import N = NecessaryPeers

  type Addr = nat

  /** Extending a run by one step. */
  lemma Extend(w: D.World, run: seq<D.Step>, s: D.Step)
    requires D.Inv(w) && D.CanRun(w, run) && D.Possible(D.Run(w, run), s)
    ensures D.CanRun(w, run + [s]) && D.Run(w, run + [s]) == D.After(D.Run(w, run), s)
    ensures D.Inv(D.After(D.Run(w, run), s))
  {
    D.RunKeepsInv(w, run);
    var v := D.Run(w, run);
    D.StepKeepsInv(v, s);
    assert D.CanRun(D.After(v, s), []) && [s][1..] == [];
    assert D.CanRun(v, [s]) && D.Run(v, [s]) == D.After(v, s);
    D.RunAppend(w, run, [s]);
  }

  /** At the top of the loop of the only Run. */
  lemma TopOfLoop(w: D.World, id: D.RunId)
    requires D.Inv(w) && !w.midRun && w.runs == map[id := D.AtTop]
    ensures w.tryTimes < |w.f| && !w.giveUp && !w.finished
  {
    assert id in w.runs;
    D.OnlyRun(w, id);
  }

  /**
   * What an actuator meets: whether the supervisor is never stopped (`running`),
   * whether nobody else connects the peer (`apart`), and what every dial gives if it
   * always gives the same (`dials`).
   */
  class Surroundings {
    const running: bool
    const apart: bool
    const dials: Option<D.Answer>

    constructor (running: bool, apart: bool, dials: Option<D.Answer>)
      ensures this.running == running && this.apart == apart && this.dials == dials
    {
      this.running, this.apart, this.dials := running, apart, dials;
    }

    method Closed() returns (closed: bool)
      ensures running ==> !closed
    {
      closed := *;
      closed := closed && !running;
    }

    method Connected() returns (connected: bool)
      ensures apart ==> !connected
    {
      connected := *;
      connected := connected && !apart;
    }

    method Dial() returns (answer: D.Answer)
      ensures dials.Some? ==> answer == dials.value
    {
      answer := *;
      if dials.Some? {
        answer := dials.value;
      }
    }

    /** Nothing but the dials decides. */
    ghost predicate Quiet() {
      running && apart && dials.Some?
    }
  }

  class Actuator {
    const around: Surroundings
    const fibonacci: seq<nat>
    var tryTimes: nat
    var giveUp: bool
    var finished: bool

    /** stateC holds an element. */
    var busy: bool

    constructor (fibonacci: seq<nat>, around: Surroundings)
      ensures this.fibonacci == fibonacci && this.around == around
      ensures tryTimes == 0 && !giveUp && !finished && !busy
    {
      this.fibonacci, this.around := fibonacci, around;
      tryTimes, giveUp, finished, busy := 0, false, false, false;
    }

    ghost predicate Shows(w: D.World)
      reads this
    {
      && w.f == fibonacci && w.tryTimes == tryTimes
      && w.giveUp == giveUp && w.finished == finished
      && (busy <==> w.runs != map[])
    }

    method Reset()
      modifies this
      ensures tryTimes == 0 && !giveUp && !finished && busy == old(busy)
    {
      tryTimes, giveUp, finished := 0, false, false;
    }

    method BreakCheck(closed: bool, connected: bool) returns (stop: bool)
      modifies this`finished
      ensures stop == (closed || connected)
      ensures finished == (old(finished) || (!closed && connected))
    {
      if closed {
        return true;
      }
      if connected {
        finished := true;
        return true;
      }
      return false;
    }

    /** The steps taken so far lead to what the fields show, and the Run stands at pc. */
    ghost predicate Stands(id: D.RunId, w: D.World, steps: seq<D.Step>, pc: D.Pc)
      reads this
    {
      && D.Inv(w) && D.CanRun(w, steps)
      && Shows(D.Run(w, steps)) && D.Inv(D.Run(w, steps)) && !D.Run(w, steps).midRun
      && D.Run(w, steps).runs == map[id := pc]
    }

    /** Where a Run among quiet surroundings stands, from its entry on: one dial, or as many as the budget has. */
    ghost predicate Budget(stop: bool, before: nat, dialled: int)
      reads this
      requires around.dials.Some?
    {
      match around.dials.value
      case Failed =>
        && tryTimes >= before && dialled == tryTimes - before
        && !finished && (giveUp <==> stop) && (if stop then tryTimes == |fibonacci| else tryTimes < |fibonacci|)
      case Reached => tryTimes == before && !giveUp && (finished <==> stop) && dialled == if stop then 1 else 0
      case Stranger => tryTimes == before && !finished && (giveUp <==> stop) && dialled == if stop then 1 else 0
    }

    /** Some break check found the supervisor stopped. */
    ghost predicate Stopped(steps: seq<D.Step>) {
      exists s :: s in steps && (s.Look? || s.LookAgain?) && s.closed
    }

    /** The break check before the dial, and the dial. */
    method LookAndDial(id: D.RunId, ghost w: D.World, before: seq<D.Step>) returns (stop: bool, answer: D.Answer, steps: seq<D.Step>)
      requires Stands(id, w, before, D.AtTop)
      modifies this`finished
      ensures Stands(id, w, steps, if stop then D.Leaving else D.Dialled(answer))
      ensures stop ==> finished || Stopped(steps)
      ensures D.Run(w, steps).dials == D.Run(w, before).dials + if stop then 0 else 1
      ensures around.Quiet() ==> !stop && answer == around.dials.value && finished == old(finished)
    {
      var closed := around.Closed();
      var connected := around.Connected();
      answer := D.Failed;
      stop := BreakCheck(closed, connected);
      var look := D.Look(id, closed, connected);
      Extend(w, before, look);
      steps := before + [look];
      assert look in steps;
      if !stop {
        answer := around.Dial();
        var dial := D.Dial(id, answer);
        Extend(w, steps, dial);
        steps := steps + [dial];
      }
    }

    /** What the answer of the dial leads to. */
    method Settle(answer: D.Answer) returns (stop: bool)
      modifies this
      ensures stop == !answer.Failed? && busy == old(busy)
      ensures tryTimes == old(tryTimes) + if answer.Failed? then 1 else 0
      ensures giveUp == (old(giveUp) || answer.Stranger?)
      ensures finished == (old(finished) || answer.Reached?)
    {
      match answer {
        case Failed =>
          tryTimes := tryTimes + 1;
          stop := false;
        case Stranger =>
          giveUp := true;
          stop := true;
        case Reached =>
          finished := true;
          stop := true;
      }
    }

    /** The break check after the dial. */
    method LookAgain(id: D.RunId, ghost w: D.World, before: seq<D.Step>, answer: D.Answer) returns (stop: bool, steps: seq<D.Step>)
      requires Stands(id, w, before, D.Dialled(answer))
      modifies this
      ensures Stands(id, w, steps, if stop then D.Leaving else D.Deciding)
      ensures stop ==> finished || giveUp || Stopped(steps)
      ensures !stop ==> tryTimes == old(tryTimes) + 1
      ensures D.Run(w, steps).dials == D.Run(w, before).dials
      ensures around.Quiet() ==>
                && stop == !answer.Failed? && tryTimes == old(tryTimes) + (if stop then 0 else 1)
                && finished == (old(finished) || answer.Reached?) && giveUp == (old(giveUp) || answer.Stranger?)
    {
      var closed := around.Closed();
      var connected := around.Connected();
      stop := BreakCheck(closed, connected);
      if !stop {
        stop := Settle(answer);
      }
      var look := D.LookAgain(id, closed, connected);
      Extend(w, before, look);
      steps := before + [look];
      assert look in steps;
    }

    /** Give up, or sleep and go round. */
    method GiveUpOrSleep(id: D.RunId, ghost w: D.World, before: seq<D.Step>) returns (stop: bool, steps: seq<D.Step>)
      requires Stands(id, w, before, D.Deciding)
      modifies this`giveUp
      ensures Stands(id, w, steps, if stop then D.Leaving else D.AtTop)
      ensures stop <==> !finished && !old(giveUp) && tryTimes >= |fibonacci|
      ensures giveUp == (old(giveUp) || stop)
      ensures D.Run(w, steps).dials == D.Run(w, before).dials
    {
      stop := false;
      if !finished && !giveUp {
        if tryTimes >= |fibonacci| {
          giveUp := true;
          stop := true;
        }
      }
      Extend(w, before, D.Decide(id));
      steps := before + [D.Decide(id)];
    }

    /** The try-lock on stateC and the first test of the flags. */
    method Enter(id: D.RunId, ghost w: D.World) returns (entered: bool, steps: seq<D.Step>)
      requires Shows(w) && D.Inv(w) && id !in w.runs
      modifies this`busy
      ensures D.CanRun(w, steps) && Shows(D.Run(w, steps)) && D.Inv(D.Run(w, steps))
      ensures D.Run(w, steps).midRun == w.midRun && D.Run(w, steps).dials == w.dials
      ensures old(busy) ==> !entered && D.Run(w, steps) == w
      ensures !old(busy) ==> entered == !(giveUp || finished)
      ensures !old(busy) ==> D.Run(w, steps).runs == map[id := if entered then D.AtTop else D.Leaving]
    {
      Extend(w, [], D.Start(id));
      steps := [] + [D.Start(id)];
      if busy {
        return false, steps;
      }
      busy := true;
      assert D.Run(w, steps).runs == map[id := D.Entered];
      Extend(w, steps, D.Check(id));
      steps := steps + [D.Check(id)];
      entered := !(giveUp || finished);
    }

    /** The loop of Run. */
    method Turns(id: D.RunId, ghost w: D.World, before: seq<D.Step>) returns (steps: seq<D.Step>)
      requires Stands(id, w, before, D.AtTop) && D.Run(w, before).dials == w.dials
      modifies this
      ensures Stands(id, w, steps, D.Leaving)
      ensures finished || giveUp || Stopped(steps)
      ensures around.Quiet() ==> Budget(true, old(tryTimes), D.Run(w, steps).dials - w.dials)
    {
      steps := before;
      var stop := false;
      TopOfLoop(D.Run(w, steps), id);
      while !stop
        invariant Stands(id, w, steps, if stop then D.Leaving else D.AtTop)
        invariant stop ==> finished || giveUp || Stopped(steps)
        invariant around.Quiet() ==> Budget(stop, old(tryTimes), D.Run(w, steps).dials - w.dials)
        decreases !stop, |fibonacci| - tryTimes
      {
        TopOfLoop(D.Run(w, steps), id);
        var answer;
        stop, answer, steps := LookAndDial(id, w, steps);
        if stop {
          break;
        }
        stop, steps := LookAgain(id, w, steps, answer);
        if stop {
          break;
        }
        stop, steps := GiveUpOrSleep(id, w, steps);
      }
    }

    /**
     * One Run with nobody else stepping between its own steps: it takes steps of the
     * machine and comes to an end, having reached the peer, given up or been stopped. If
     * every dial fails it dials exactly as often as its budget still has, and gives up.
     */
    method Run(id: D.RunId, ghost w: D.World) returns (steps: seq<D.Step>)
      requires Shows(w) && D.Inv(w) && !w.midRun && id !in w.runs
      modifies this
      ensures D.CanRun(w, steps) && Shows(D.Run(w, steps)) && !D.Run(w, steps).midRun
      ensures old(busy) ==> D.Run(w, steps) == w
      ensures !old(busy) ==> D.Run(w, steps).runs == map[]
      ensures !old(busy) ==> giveUp || finished || Stopped(steps)
      ensures !old(busy) && !old(giveUp) && !old(finished) && around.Quiet() ==>
                && finished == around.dials.value.Reached? && giveUp == !around.dials.value.Reached?
                && tryTimes == (if around.dials.value.Failed? then |fibonacci| else old(tryTimes))
                && D.Run(w, steps).dials == w.dials + if around.dials.value.Failed? then |fibonacci| - old(tryTimes) else 1
    {
      var free := !busy;
      var entered;
      entered, steps := Enter(id, w);
      if !entered {
        if free {
          steps := End(id, w, D.Run(w, steps), steps);
        }
        return;
      }
      steps := Turns(id, w, steps);
      ghost var before := steps;
      steps := End(id, w, D.Run(w, steps), steps);
      assert forall s :: s in before ==> s in steps;
    }

    method End(id: D.RunId, ghost w: D.World, ghost v: D.World, steps: seq<D.Step>) returns (all: seq<D.Step>)
      requires D.Inv(w) && D.CanRun(w, steps) && D.Run(w, steps) == v
      requires Shows(v) && v.runs == map[id := D.Leaving]
      modifies this`busy
      ensures all == steps + [D.Leave(id)] && D.CanRun(w, all)
      ensures Shows(D.Run(w, all)) && D.Run(w, all) == D.After(v, D.Leave(id)) && D.Run(w, all).runs == map[]
    {
      Extend(w, steps, D.Leave(id));
      all := steps + [D.Leave(id)];
      busy := false;
    }
  }

  /** What the supervisor reads and resets of an actuator. */
  datatype Act = Act(tryTimes: nat, giveUp: bool, finished: bool)

  /** An unconnected peer's actuator after its check: made if missing, reset if finished, kept if given up. */
  function Readied(acts: map<PeerId, Act>, p: PeerId): Act {
    if p !in acts || (acts[p].finished && !acts[p].giveUp) then Act(0, false, false) else acts[p]
  }

  function ActOf(w: D.World): Act {
    Act(w.tryTimes, w.giveUp, w.finished)
  }

  /** The supervisor resets an actuator it holds exactly when the machine can take the step. */
  lemma ReadiedIsReset(w: D.World, p: PeerId)
    requires !w.detached
    ensures Readied(map[p := ActOf(w)], p) == ActOf(if D.Possible(w, D.Step.Reset) then D.After(w, D.Step.Reset) else w)
  {
  }

  /** Peer p is one the round of checks asks the connection manager about. */
  predicate Asked(p: PeerId, peers: set<PeerId>, self: PeerId) {
    p in peers && p != self
  }

  /** Peer by peer, the actuators after the checks of `done` and the Runs they started. */
  ghost predicate Checked(was: map<PeerId, Act>, acts: map<PeerId, Act>, started: set<PeerId>,
                          done: set<PeerId>, self: PeerId, connected: set<PeerId>)
  {
    && (forall p :: p in acts <==> if Asked(p, done, self) then p !in connected else p in was)
    && (forall p :: p in acts ==> acts[p] == if Asked(p, done, self) then Readied(was, p) else was[p])
    && (forall p :: p in started <==> Asked(p, done, self) && p !in connected && !Readied(was, p).giveUp)
  }

  /** An unconnected necessary peer: one seen for the first time is dialled afresh, one that gave up is not dialled. */
  ghost predicate Attended(was: map<PeerId, Act>, acts: map<PeerId, Act>, started: set<PeerId>, p: PeerId) {
    && p in acts
    && (p !in was ==> p in started && acts[p] == Act(0, false, false))
    && (p in was && was[p].giveUp ==> p !in started && acts[p] == was[p])
    && (p in was && !was[p].giveUp && was[p].finished ==> p in started && acts[p] == Act(0, false, false))
    && (p in was && !was[p].giveUp && !was[p].finished ==> p in started && acts[p] == was[p])
  }

  ghost predicate LeftAlone(was: map<PeerId, Act>, acts: map<PeerId, Act>, started: set<PeerId>, p: PeerId) {
    && p !in started
    && (p in acts <==> p in was) && (p in acts ==> acts[p] == was[p])
  }

  lemma CheckedMeans(was: map<PeerId, Act>, acts: map<PeerId, Act>, started: set<PeerId>,
                     peers: set<PeerId>, self: PeerId, connected: set<PeerId>)
    requires Checked(was, acts, started, peers, self, connected)
    ensures forall p :: p in peers && p != self && p !in connected ==> Attended(was, acts, started, p)
    ensures forall p :: p in peers && p != self && p in connected ==> p !in acts && p !in started
    ensures forall p :: p !in peers || p == self ==> LeftAlone(was, acts, started, p)
  {
  }

  function ConnectedOf(peers: set<PeerId>, self: PeerId, connected: set<PeerId>): set<PeerId> {
    set p | p in peers && p != self && p in connected
  }

  lemma OneMore(peers: set<PeerId>, pid: PeerId, self: PeerId, connected: set<PeerId>)
    requires pid !in peers
    ensures |ConnectedOf(peers + {pid}, self, connected)|
         == |ConnectedOf(peers, self, connected)| + if pid != self && pid in connected then 1 else 0
  {
    var now := ConnectedOf(peers + {pid}, self, connected);
    if pid != self && pid in connected {
      assert now == ConnectedOf(peers, self, connected) + {pid};
    } else {
      assert now == ConnectedOf(peers, self, connected);
    }
  }

  lemma CheckedMore(was: map<PeerId, Act>, acts: map<PeerId, Act>, after: map<PeerId, Act>, started: set<PeerId>,
                    start: bool, done: set<PeerId>, pid: PeerId, self: PeerId, connected: set<PeerId>)
    requires Checked(was, acts, started, done, self, connected) && pid !in done && pid != self
    requires after == if pid in connected then acts - {pid} else acts[pid := Readied(acts, pid)]
    requires start == (pid !in connected && !Readied(acts, pid).giveUp)
    ensures Checked(was, after, if start then started + {pid} else started, done + {pid}, self, connected)
  {
    assert Readied(acts, pid) == Readied(was, pid);
  }

  lemma Begun(acts: map<PeerId, Act>, all: set<PeerId>, self: PeerId, connected: set<PeerId>)
    ensures Checked(acts, acts, {}, all - all, self, connected) && ConnectedOf(all - all, self, connected) == {}
  {
  }

  lemma Picked(all: set<PeerId>, todo: set<PeerId>, pid: PeerId)
    requires pid in todo && todo <= all
    ensures all - (todo - {pid}) == (all - todo) + {pid}
  {
  }

  lemma SelfUnchecked(was: map<PeerId, Act>, acts: map<PeerId, Act>, started: set<PeerId>,
                      done: set<PeerId>, self: PeerId, connected: set<PeerId>)
    requires Checked(was, acts, started, done, self, connected)
    ensures Checked(was, acts, started, done + {self}, self, connected)
  {
    assert forall p :: Asked(p, done + {self}, self) == Asked(p, done, self);
  }

  /** The count reaches the number of peers exactly when all are connected and the host is not among them. */
  lemma CountMeansAll(peers: set<PeerId>, self: PeerId, connected: set<PeerId>)
    ensures |ConnectedOf(peers, self, connected)| == |peers| <==> self !in peers && peers <= connected
  {
    var c := ConnectedOf(peers, self, connected);
    assert peers == c + (peers - c);
    assert |peers| == |c| + |peers - c|;
    if |c| == |peers| {
      assert peers - c == {};
    } else {
      var p :| p in peers - c;
    }
  }

  class Supervisor {
    const self: PeerId
    var necessary: map<PeerId, Addr>
    var actuators: map<PeerId, Act>
    var allConnected: bool

    /** signalC holds an element: the loop will check the connections. */
    var signalled: bool

    constructor (self: PeerId)
      ensures this.self == self && necessary == map[] && actuators == map[] && !allConnected && !signalled
    {
      this.self := self;
      necessary, actuators, allConnected, signalled := map[], map[], false, false;
    }

    /** What NecessaryPeers knows of the supervisor. */
    function View(): N.Watch
      reads this
    {
      N.Watch(self, necessary.Keys, allConnected)
    }

    method SetPeerAddr(pid: PeerId, addr: Addr)
      modifies this`necessary, this`signalled
      ensures necessary == old(necessary)[pid := addr] && signalled
      ensures View() == N.Required(old(View()), pid)
    {
      necessary := necessary[pid := addr];
      signalled := true;
    }

    method RemovePeerAddr(pid: PeerId)
      modifies this`necessary, this`actuators
      ensures necessary == old(necessary) - {pid} && actuators == old(actuators) - {pid}
      ensures View() == N.Released(old(View()), pid)
    {
      necessary := necessary - {pid};
      actuators := actuators - {pid};
    }

    /** Unlike RemovePeerAddr this keeps the actuators. */
    method RemoveAllPeer()
      modifies this`necessary
      ensures necessary == map[] && View() == old(View()).(necessary := {})
    {
      necessary := map[];
    }

    /** `closed`: the supervisor was stopped; select may then pick that case or the signal. */
    method NoticePeerDisconnected(pid: PeerId, closed: bool)
      modifies this`allConnected, this`signalled
      ensures View() == N.Noticed(old(View()), pid)
      ensures allConnected == (old(allConnected) && pid !in necessary)
      ensures pid in necessary && !closed ==> signalled
      ensures old(signalled) ==> signalled
      ensures pid !in necessary ==> signalled == old(signalled)
    {
      if pid !in necessary {
        return;
      }
      allConnected := false;
      var pickClosed: bool := *;
      if !(closed && pickClosed) {
        signalled := true;
      }
    }

    /** The check of one peer other than the host. */
    method CheckPeer(pid: PeerId, connected: bool) returns (start: bool)
      modifies this`actuators
      ensures connected ==> actuators == old(actuators) - {pid} && !start
      ensures !connected ==> actuators == old(actuators)[pid := Readied(old(actuators), pid)]
      ensures !connected ==> start == !actuators[pid].giveUp
    {
      if connected {
        actuators := actuators - {pid};
        return false;
      }
      if pid !in actuators {
        actuators := actuators[pid := Act(0, false, false)];
      }
      var act := actuators[pid];
      if act.giveUp {
        return false;
      }
      if act.finished {
        actuators := actuators[pid := Act(0, false, false)];
      }
      start := true;
    }

    /** The turn of the loop of CheckConn for one peer. */
    method CheckNext(pid: PeerId, connected: set<PeerId>, ghost was: map<PeerId, Act>, ghost done: set<PeerId>, started: set<PeerId>)
      returns (counts: nat, more: set<PeerId>)
      requires pid !in done && Checked(was, actuators, started, done, self, connected)
      modifies this`actuators
      ensures Checked(was, actuators, more, done + {pid}, self, connected)
      ensures counts == if pid != self && pid in connected then 1 else 0
    {
      counts, more := 0, started;
      if pid == self {
        SelfUnchecked(was, actuators, started, done, self, connected);
        return;
      }
      ghost var before := actuators;
      var start := CheckPeer(pid, pid in connected);
      CheckedMore(was, before, actuators, started, start, done, pid, self, connected);
      if pid in connected {
        counts := 1;
      }
      if start {
        more := started + {pid};
      }
    }

    /**
     * One round of checks; `connected` is what the connection manager answered for each
     * peer, `started` the peers for which a goroutine of Run was started. A necessary
     * peer that is the host itself keeps allConnected from ever being set.
     */
    method CheckConn(connected: set<PeerId>) returns (started: set<PeerId>)
      modifies this`actuators, this`allConnected
      ensures View() == N.Answered(old(View()), connected)
      ensures old(allConnected) || necessary == map[] ==> started == {} && actuators == old(actuators)
      ensures old(allConnected) ==> allConnected
      ensures necessary == map[] ==> allConnected == old(allConnected)
      ensures !old(allConnected) && necessary != map[] ==>
                && Checked(old(actuators), actuators, started, necessary.Keys, self, connected)
                && (allConnected <==> self !in necessary && necessary.Keys <= connected)
                && (forall p :: p in necessary && p != self && p !in connected ==> Attended(old(actuators), actuators, started, p))
                && (forall p :: p in necessary && p != self && p in connected ==> p !in actuators && p !in started)
                && (forall p :: p !in necessary || p == self ==> LeftAlone(old(actuators), actuators, started, p))
    {
      started := {};
      if |necessary| == 0 || allConnected {
        return;
      }
      var currentConnected := 0;
      var todo := necessary.Keys;
      ghost var all := necessary.Keys;
      Begun(actuators, all, self, connected);
      while todo != {}
        invariant todo <= all && !allConnected
        invariant currentConnected == |ConnectedOf(all - todo, self, connected)|
        invariant Checked(old(actuators), actuators, started, all - todo, self, connected)
        decreases todo
      {
        var pid :| pid in todo;
        Picked(all, todo, pid);
        OneMore(all - todo, pid, self, connected);
        var counts;
        counts, started := CheckNext(pid, connected, old(actuators), all - todo, started);
        currentConnected := currentConnected + counts;
        todo := todo - {pid};
      }
      assert all - todo == all;
      CountMeansAll(all, self, connected);
      CheckedMeans(old(actuators), actuators, started, all, self, connected);
      if currentConnected == |necessary.Keys| {
        allConnected := true;
      }
    }
  }
}
