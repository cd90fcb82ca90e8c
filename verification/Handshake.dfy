// The protocol exchange on a fresh connection: exchangeProtocol of
// components/protocol_exchanger.go, over the stream reuse of HalfStreams.
//
// The outbound end sends REQUEST and waits for RESPONSE, the inbound end the other
// way round. Each end runs its program; between any two instructions the other end
// may run, and handlers may be registered.
module Handshake {
  import opened Wrappers
  import opened HalfStreams

  type Protocols = seq<string>

  datatype Kind = Request | Response

  datatype Message = Message(kind: Kind, protocols: Protocols)

  datatype Side = Outbound | Inbound

  datatype Instr = OpenSend | Build(kind: Kind) | Write | AcceptReceive | Read(kind: Kind)

  const LENGTH: nat := 5

  function Program(side: Side): (p: seq<Instr>)
    ensures |p| == LENGTH
  {
    match side
    case Outbound => [OpenSend, Build(Request), Write, AcceptReceive, Read(Response)]
    case Inbound => [AcceptReceive, Read(Request), OpenSend, Build(Response), Write]
  }

  /**
   * One end: its half streams, the streams waiting to be accepted, where its program
   * is, what it holds, the handlers registered now, the payload it built, and what it
   * returns or why it failed.
   */
  datatype Party = Party(
    end: End, incoming: seq<Stream>, pc: nat, send: Option<Stream>, receive: Option<Stream>,
    registered: Protocols, built: Option<Message>, result: Option<Protocols>, failed: bool)

  /** Both ends, the messages on their way to each by stream, and the number of streams opened. */
  datatype System = System(
    out: Party, inn: Party, toOut: map<Stream, seq<Message>>, toInn: map<Stream, seq<Message>>, next: Stream)

  function Of(sys: System, side: Side): Party {
    if side == Outbound then sys.out else sys.inn
  }

  function With(sys: System, side: Side, p: Party): System {
    if side == Outbound then sys.(out := p) else sys.(inn := p)
  }

  function Other(side: Side): Side {
    if side == Outbound then Inbound else Outbound
  }

  function WireTo(sys: System, side: Side, s: Stream): seq<Message> {
    var w := if side == Outbound then sys.toOut else sys.toInn;
    if s in w then w[s] else []
  }

  function WithWire(sys: System, side: Side, s: Stream, ms: seq<Message>): System {
    if side == Outbound then sys.(toOut := sys.toOut[s := ms]) else sys.(toInn := sys.toInn[s := ms])
  }

  /** A step of the handshake on one side, with the choices of a scan; or a registration. */
  datatype Step =
    | Exec(side: Side, found: Option<Stream>, swept: set<Stream>)
    | Register(side: Side, protocols: Protocols)

  function Scan(i: Instr, found: Option<Stream>, swept: set<Stream>): HalfStreams.Step {
    TakeOther(if i == OpenSend then Accepted else Opened, found, swept)
  }

  predicate CanExec(sys: System, side: Side, found: Option<Stream>, swept: set<Stream>) {
    var p := Of(sys, side);
    && p.pc < LENGTH && !p.failed
    && match Program(side)[p.pc]
       case OpenSend => HalfStreams.CanStep(p.end, Scan(OpenSend, found, swept)) && sys.next !in p.end.origin
       case AcceptReceive =>
         && HalfStreams.CanStep(p.end, Scan(AcceptReceive, found, swept))
         && (found.None? ==> p.incoming != [] && p.incoming[0] !in p.end.origin)
       case Build(_) => true
       case Write => p.send.Some? && p.built.Some?
       case Read(_) => p.receive.Some? && WireTo(sys, side, p.receive.value) != []
  }

  function Exec'(sys: System, side: Side, found: Option<Stream>, swept: set<Stream>): System
    requires CanExec(sys, side, found, swept)
  {
    var p := Of(sys, side).(pc := Of(sys, side).pc + 1);
    match Program(side)[p.pc - 1]
    case OpenSend =>
      var e := HalfStreams.Next(p.end, Scan(OpenSend, found, swept));
      if found.Some? then With(sys, side, p.(end := e, send := found))
      else
        var peer := Of(sys, Other(side));
        var q := p.(end := HalfStreams.Next(e, NewStream(sys.next, Opened)), send := Some(sys.next));
        With(With(sys, side, q), Other(side), peer.(incoming := peer.incoming + [sys.next])).(next := sys.next + 1)
    case AcceptReceive =>
      var e := HalfStreams.Next(p.end, Scan(AcceptReceive, found, swept));
      if found.Some? then With(sys, side, p.(end := e, receive := found))
      else
        With(sys, side, p.(end := HalfStreams.Next(e, NewStream(p.incoming[0], Accepted)),
                           receive := Some(p.incoming[0]), incoming := p.incoming[1..]))
    case Build(kind) =>
      With(sys, side, p.(built := Some(Message(kind, p.registered))))
    case Write =>
      var s := p.send.value;
      WithWire(With(sys, side, p), Other(side), s, WireTo(sys, Other(side), s) + [p.built.value])
    case Read(kind) =>
      var s := p.receive.value;
      var m := WireTo(sys, side, s)[0];
      WithWire(With(sys, side, if m.kind == kind then p.(result := Some(m.protocols)) else p.(failed := true)),
               side, s, WireTo(sys, side, s)[1..])
  }

  predicate CanStep(sys: System, st: Step) {
    st.Exec? ==> CanExec(sys, st.side, st.found, st.swept)
  }

  function Next(sys: System, st: Step): System
    requires CanStep(sys, st)
  {
    match st
    case Exec(side, found, swept) => Exec'(sys, side, found, swept)
    case Register(side, protocols) => With(sys, side, Of(sys, side).(registered := protocols))
  }

  function FreshParty(registered: Protocols): Party {
    Party(FRESH, [], 0, None, None, registered, None, None, false)
  }

  function FreshSystem(out: Protocols, inn: Protocols, next: Stream): System {
    System(FreshParty(out), FreshParty(inn), map[], map[], next)
  }

  // ---------------------------------------------------------------- the invariant

  /** The outbound end, when s is the one stream of the handshake. */
  ghost predicate OutOk(sys: System, s: Stream) {
    var p := sys.out;
    && p.pc <= LENGTH && !p.failed && p.incoming == []
    && p.end == (if p.pc == 0 then FRESH
                 else if p.pc <= 3 then End(map[s := Opened], {s}, {}, {}, {}, [(s, WriteHalf)])
                 else End(map[s := Opened], {}, {}, {}, {}, [(s, WriteHalf), (s, ReadHalf)]))
    && p.send == (if p.pc == 0 then None else Some(s))
    && p.receive == (if p.pc <= 3 then None else Some(s))
    && (p.built.Some? <==> p.pc >= 2) && (p.pc >= 2 ==> p.built.value.kind == Request)
    && p.result == (if p.pc <= 4 then None else if sys.inn.built.None? then None else Some(sys.inn.built.value.protocols))
  }

  ghost predicate InnOk(sys: System, s: Stream) {
    var p := sys.inn;
    && p.pc <= LENGTH && !p.failed
    && p.incoming == (if sys.out.pc >= 1 && p.pc == 0 then [s] else [])
    && p.end == (if p.pc == 0 then FRESH
                 else if p.pc <= 2 then End(map[s := Accepted], {}, {s}, {}, {}, [(s, ReadHalf)])
                 else End(map[s := Accepted], {}, {}, {}, {}, [(s, ReadHalf), (s, WriteHalf)]))
    && p.receive == (if p.pc == 0 then None else Some(s))
    && p.send == (if p.pc <= 2 then None else Some(s))
    && (p.built.Some? <==> p.pc >= 4) && (p.pc >= 4 ==> p.built.value.kind == Response)
    && p.result == (if p.pc <= 1 then None else if sys.out.built.None? then None else Some(sys.out.built.value.protocols))
  }

  /** Who waits for whom, and what is on the wire meanwhile. */
  ghost predicate WireOk(sys: System, s: Stream) {
    var o, i := sys.out, sys.inn;
    && (i.pc >= 1 ==> o.pc >= 1) && (i.pc >= 2 ==> o.pc >= 3) && (o.pc == 5 ==> i.pc == 5)
    && sys.next == (if o.pc == 0 then s else s + 1)
    && WireTo(sys, Inbound, s) == (if o.pc >= 3 && i.pc <= 1 && o.built.Some? then [o.built.value] else [])
    && WireTo(sys, Outbound, s) == (if i.pc == 5 && o.pc <= 4 && i.built.Some? then [i.built.value] else [])
  }

  ghost predicate Inv(sys: System, s: Stream) {
    OutOk(sys, s) && InnOk(sys, s) && WireOk(sys, s)
  }

  lemma OutStepFirst(sys: System, st: Step, s: Stream)
    requires Inv(sys, s) && st.Exec? && st.side == Outbound && CanStep(sys, st) && sys.out.pc <= 1
    ensures Inv(Next(sys, st), s)
  {
  }

  lemma OutStepLast(sys: System, st: Step, s: Stream)
    requires Inv(sys, s) && st.Exec? && st.side == Outbound && CanStep(sys, st) && sys.out.pc >= 2
    ensures Inv(Next(sys, st), s)
  {
  }

  lemma InnStepFirst(sys: System, st: Step, s: Stream)
    requires Inv(sys, s) && st.Exec? && st.side == Inbound && CanStep(sys, st) && sys.inn.pc <= 1
    ensures Inv(Next(sys, st), s)
  {
  }

  lemma InnStepLast(sys: System, st: Step, s: Stream)
    requires Inv(sys, s) && st.Exec? && st.side == Inbound && CanStep(sys, st) && sys.inn.pc >= 2
    ensures Inv(Next(sys, st), s)
  {
  }

  lemma StepKeepsInv(sys: System, st: Step, s: Stream)
    requires Inv(sys, s) && CanStep(sys, st)
    ensures Inv(Next(sys, st), s)
  {
    if st.Exec? {
      if st.side == Outbound {
        if sys.out.pc <= 1 { OutStepFirst(sys, st, s); } else { OutStepLast(sys, st, s); }
      } else {
        if sys.inn.pc <= 1 { InnStepFirst(sys, st, s); } else { InnStepLast(sys, st, s); }
      }
    }
  }

  // ---------------------------------------------------------------- no deadlock

  predicate Done(sys: System) {
    sys.out.pc == LENGTH && sys.inn.pc == LENGTH
  }

  lemma OutCanGo(sys: System, s: Stream) returns (st: Step)
    requires Inv(sys, s) && sys.out.pc < LENGTH && (sys.out.pc == 4 ==> sys.inn.pc == LENGTH)
    ensures st.Exec? && CanStep(sys, st)
  {
    st := Exec(Outbound, if sys.out.pc == 3 then Some(s) else None, {});
  }

  lemma InnCanGo(sys: System, s: Stream) returns (st: Step)
    requires Inv(sys, s) && sys.inn.pc < LENGTH && (if sys.inn.pc == 0 then sys.out.pc >= 1 else sys.out.pc >= 3)
    ensures st.Exec? && CanStep(sys, st)
  {
    st := Exec(Inbound, if sys.inn.pc == 2 then Some(s) else None, {});
  }

  /** As long as an end is not done, one of them can take its next step. */
  lemma NoDeadlock(sys: System, s: Stream) returns (st: Step)
    requires Inv(sys, s) && !Done(sys)
    ensures st.Exec? && CanStep(sys, st)
  {
    if sys.out.pc == 4 && sys.inn.pc < LENGTH {
      st := InnCanGo(sys, s);
    } else if sys.out.pc < LENGTH {
      st := OutCanGo(sys, s);
    } else {
      st := InnCanGo(sys, s);
    }
  }

  // ---------------------------------------------------------------- runs

  ghost predicate CanRun(sys: System, run: seq<Step>)
    decreases |run|
  {
    run == [] || (CanStep(sys, run[0]) && CanRun(Next(sys, run[0]), run[1..]))
  }

  ghost function Run(sys: System, run: seq<Step>): System
    requires CanRun(sys, run)
    decreases |run|
  {
    if run == [] then sys else Run(Next(sys, run[0]), run[1..])
  }

  function Execs(run: seq<Step>): nat {
    if run == [] then 0 else (if run[0].Exec? then 1 else 0) + Execs(run[1..])
  }

  lemma {:induction false} RunKeepsInv(sys: System, run: seq<Step>, s: Stream)
    requires Inv(sys, s) && CanRun(sys, run)
    ensures Inv(Run(sys, run), s)
    decreases |run|
  {
    if run != [] {
      StepKeepsInv(sys, run[0], s);
      RunKeepsInv(Next(sys, run[0]), run[1..], s);
    }
  }

  function Progress(sys: System): nat {
    sys.out.pc + sys.inn.pc
  }

  lemma StepProgresses(sys: System, st: Step)
    requires CanStep(sys, st)
    ensures Progress(Next(sys, st)) == Progress(sys) + if st.Exec? then 1 else 0
  {
  }

  lemma {:induction false} RunProgresses(sys: System, run: seq<Step>)
    requires CanRun(sys, run)
    ensures Progress(Run(sys, run)) == Progress(sys) + Execs(run)
    decreases |run|
  {
    if run != [] {
      StepProgresses(sys, run[0]);
      RunProgresses(Next(sys, run[0]), run[1..]);
    }
  }

  /** The payload a side built holds the handlers registered when it built it. */
  lemma BuildSnapshots(sys: System, st: Step, side: Side)
    requires CanStep(sys, st)
    ensures var p, q := Of(sys, side), Of(Next(sys, st), side);
            q.built != p.built ==> q.built.Some? && q.built.value.protocols == p.registered
  {
  }

  /** The other kind of message than the one waited for ends the exchange on this side: no result, and no further step. */
  lemma WrongMessageFails(sys: System, side: Side, found: Option<Stream>, swept: set<Stream>, run: seq<Step>)
    requires CanExec(sys, side, found, swept) && Program(side)[Of(sys, side).pc].Read?
    requires WireTo(sys, side, Of(sys, side).receive.value)[0].kind != Program(side)[Of(sys, side).pc].kind
    requires CanRun(Next(sys, Exec(side, found, swept)), run)
    ensures var p := Of(Run(Next(sys, Exec(side, found, swept)), run), side);
            p.failed && p.result == Of(sys, side).result && p.pc == Of(sys, side).pc + 1
  {
    FailedStays(Next(sys, Exec(side, found, swept)), side, run);
  }

  lemma {:induction false} FailedStays(sys: System, side: Side, run: seq<Step>)
    requires Of(sys, side).failed && CanRun(sys, run)
    ensures var p, q := Of(sys, side), Of(Run(sys, run), side); q.failed && q.result == p.result && q.pc == p.pc
    decreases |run|
  {
    if run != [] {
      FailedStays(Next(sys, run[0]), side, run[1..]);
    }
  }

  /** The step is the one that builds the payload of this side. */
  predicate Builds(sys: System, st: Step, side: Side)
    requires CanStep(sys, st)
  {
    st.Exec? && st.side == side && Program(side)[Of(sys, side).pc].Build?
  }

  /** What the side registered last before it built its payload, if it did; `known` is what it starts with. */
  ghost function Offered(sys: System, run: seq<Step>, side: Side, known: Protocols): Option<Protocols>
    requires CanRun(sys, run)
    decreases |run|
  {
    if run == [] then None
    else if Builds(sys, run[0], side) then Some(known)
    else Offered(Next(sys, run[0]), run[1..], side, if run[0].Register? && run[0].side == side then run[0].protocols else known)
  }

  /** Only that step changes the payload, and only registering changes what is registered. */
  lemma StepOffers(sys: System, st: Step, side: Side)
    requires CanStep(sys, st)
    ensures var p, q := Of(sys, side), Of(Next(sys, st), side);
            && q.registered == (if st.Register? && st.side == side then st.protocols else p.registered)
            && (!Builds(sys, st, side) ==> q.built == p.built)
            && (Builds(sys, st, side) ==> q.pc > (if side == Outbound then 1 else 3) && q.built.Some? && q.built.value.protocols == p.registered)
  {
  }

  /** The payload of a side stays as it was built. */
  lemma {:induction false} BuiltStays(sys: System, run: seq<Step>, side: Side)
    requires CanRun(sys, run) && Of(sys, side).pc > (if side == Outbound then 1 else 3)
    ensures Of(Run(sys, run), side).built == Of(sys, side).built
    decreases |run|
  {
    if run != [] {
      BuiltStays(Next(sys, run[0]), run[1..], side);
    }
  }

  lemma {:induction false} BuiltIsOffered(sys: System, run: seq<Step>, side: Side)
    requires CanRun(sys, run) && Of(sys, side).built.None?
    ensures var built, offered := Of(Run(sys, run), side).built, Offered(sys, run, side, Of(sys, side).registered);
            && (built.Some? <==> offered.Some?)
            && (built.Some? ==> built.value.protocols == offered.value)
    decreases |run|
  {
    if run != [] {
      var n := Next(sys, run[0]);
      StepOffers(sys, run[0], side);
      if Builds(sys, run[0], side) {
        BuiltStays(n, run[1..], side);
      } else {
        BuiltIsOffered(n, run[1..], side);
      }
    }
  }

  /** So each end comes back with what the other had registered last when it built its payload. */
  lemma ResultIsOffered(out: Protocols, inn: Protocols, next: Stream, run: seq<Step>)
    requires CanRun(FreshSystem(out, inn, next), run) && Done(Run(FreshSystem(out, inn, next), run))
    ensures var sys0 := FreshSystem(out, inn, next);
            && Run(sys0, run).out.result == Offered(sys0, run, Inbound, inn)
            && Run(sys0, run).inn.result == Offered(sys0, run, Outbound, out)
  {
    var sys0 := FreshSystem(out, inn, next);
    HandshakeCompletes(out, inn, next, run);
    BuiltIsOffered(sys0, run, Inbound);
    BuiltIsOffered(sys0, run, Outbound);
  }

  /**
   * However the two ends interleave, with each other and with registrations, the
   * handshake takes ten steps and cannot stop before. No end ever fails, a single
   * stream is opened, RESPONSE travels on the other half of the stream of REQUEST,
   * and each end returns the protocols in the payload the other one built.
   */
  lemma HandshakeCompletes(out: Protocols, inn: Protocols, next: Stream, run: seq<Step>)
    requires CanRun(FreshSystem(out, inn, next), run)
    ensures var sys := Run(FreshSystem(out, inn, next), run);
            && !sys.out.failed && !sys.inn.failed
            && Execs(run) <= 2 * LENGTH
            && (Execs(run) == 2 * LENGTH <==> Done(sys))
            && (!Done(sys) ==> exists st: Step :: st.Exec? && CanStep(sys, st))
            && (Done(sys) ==>
                  && sys.next == next + 1
                  && sys.out.send == sys.out.receive == sys.inn.receive == sys.inn.send == Some(next)
                  && sys.out.built.Some? && sys.inn.built.Some?
                  && sys.out.result == Some(sys.inn.built.value.protocols)
                  && sys.inn.result == Some(sys.out.built.value.protocols))
  {
    var sys0 := FreshSystem(out, inn, next);
    assert Inv(sys0, next);
    RunKeepsInv(sys0, run, next);
    RunProgresses(sys0, run);
    var sys := Run(sys0, run);
    if !Done(sys) {
      var st := NoDeadlock(sys, next);
    }
  }
}
