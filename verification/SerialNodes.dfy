// Two nodes that dial each other at once: acceptConnLoop of host.go handles one
// connection after the other, and the exchange of protocols on it waits for the node
// at the other end to handle the same connection.
module SerialNodes {
  import opened Wrappers
  import H = Handshake

  datatype Node = A | B

  /** The link A dialed and the link B dialed. */
  datatype Link = DialedByA | DialedByB

  /** The exchange on each link, and the link each node has taken up. */
  datatype Nodes = Nodes(byA: H.System, byB: H.System, atA: Link, atB: Link)

  datatype Step =
    | Go(n: Node, found: Option<nat>, swept: set<nat>)
    | Register(n: Node, protocols: H.Protocols)

  function SideOf(n: Node, l: Link): H.Side {
    if (n == A) == (l == DialedByA) then H.Outbound else H.Inbound
  }

  function At(ns: Nodes, n: Node): Link {
    if n == A then ns.atA else ns.atB
  }

  function On(ns: Nodes, l: Link): H.System {
    if l == DialedByA then ns.byA else ns.byB
  }

  function PcOf(ns: Nodes, n: Node, l: Link): nat {
    H.Of(On(ns, l), SideOf(n, l)).pc
  }

  /** A node works on the link it has taken up and on no other. */
  predicate CanStep(ns: Nodes, s: Step) {
    s.Go? ==> H.CanExec(On(ns, At(ns, s.n)), SideOf(s.n, At(ns, s.n)), s.found, s.swept)
  }

  function Next(ns: Nodes, s: Step): Nodes
    requires CanStep(ns, s)
  {
    match s
    case Go(n, found, swept) =>
      var l := At(ns, n);
      var sys := H.Next(On(ns, l), H.Exec(SideOf(n, l), found, swept));
      if l == DialedByA then ns.(byA := sys) else ns.(byB := sys)
    case Register(n, protocols) =>
      ns.(byA := H.Next(ns.byA, H.Register(SideOf(n, DialedByA), protocols)),
          byB := H.Next(ns.byB, H.Register(SideOf(n, DialedByB), protocols)))
  }

  ghost predicate CanRun(ns: Nodes, run: seq<Step>)
    decreases |run|
  {
    run == [] || (CanStep(ns, run[0]) && CanRun(Next(ns, run[0]), run[1..]))
  }

  ghost function Run(ns: Nodes, run: seq<Step>): Nodes
    requires CanRun(ns, run)
    decreases |run|
  {
    if run == [] then ns else Run(Next(ns, run[0]), run[1..])
  }

  /** Two fresh links; a and b are what the nodes have registered, x and y name the first stream of each link. */
  function Fresh(a: H.Protocols, b: H.Protocols, x: nat, y: nat, atA: Link, atB: Link): Nodes {
    Nodes(H.FreshSystem(a, b, x), H.FreshSystem(b, a, y), atA, atB)
  }

  /** The node is through with the exchange on the link it has taken up. */
  predicate Through(ns: Nodes, n: Node) {
    PcOf(ns, n, At(ns, n)) == H.LENGTH
  }

  ghost predicate Inv(ns: Nodes, x: nat, y: nat) {
    H.Inv(ns.byA, x) && H.Inv(ns.byB, y)
  }

  lemma StepKeepsInv(ns: Nodes, s: Step, x: nat, y: nat)
    requires Inv(ns, x, y) && CanStep(ns, s)
    ensures Inv(Next(ns, s), x, y) && Next(ns, s).atA == ns.atA && Next(ns, s).atB == ns.atB
  {
    match s
    case Go(n, found, swept) =>
      var l := At(ns, n);
      H.StepKeepsInv(On(ns, l), H.Exec(SideOf(n, l), found, swept), if l == DialedByA then x else y);
    case Register(n, protocols) =>
      H.StepKeepsInv(ns.byA, H.Register(SideOf(n, DialedByA), protocols), x);
      H.StepKeepsInv(ns.byB, H.Register(SideOf(n, DialedByB), protocols), y);
  }

  // ---------------------------------------------------------------- different links

  function OtherNode(n: Node): Node {
    if n == A then B else A
  }

  /** On each link a node has taken up the other node has done nothing. */
  predicate Unanswered(ns: Nodes) {
    ns.atA != ns.atB && PcOf(ns, B, ns.atA) == 0 && PcOf(ns, A, ns.atB) == 0
  }

  lemma ExecLeavesOther(sys: H.System, side: H.Side, found: Option<nat>, swept: set<nat>)
    requires H.CanExec(sys, side, found, swept)
    ensures H.Of(H.Next(sys, H.Exec(side, found, swept)), H.Other(side)).pc == H.Of(sys, H.Other(side)).pc
    ensures H.Of(H.Next(sys, H.Exec(side, found, swept)), side).pc == H.Of(sys, side).pc + 1
  {
  }

  /** An end whose counterpart does nothing gets to wait for REQUEST at once, or for RESPONSE after four steps. */
  lemma EndWaits(sys: H.System, s: nat, side: H.Side)
    requires H.Inv(sys, s) && H.Of(sys, H.Other(side)).pc == 0
    ensures H.Of(sys, side).pc <= 4
    ensures side == H.Inbound ==> H.Of(sys, side).pc == 0
    ensures side == H.Outbound && H.Of(sys, side).pc < 4 ==>
              exists found: Option<nat>, swept: set<nat> :: H.CanExec(sys, side, found, swept)
    ensures side == H.Inbound || H.Of(sys, side).pc == 4 ==>
              forall found: Option<nat>, swept: set<nat> :: !H.CanExec(sys, side, found, swept)
  {
    if side == H.Outbound && sys.out.pc < 4 {
      var st := H.OutCanGo(sys, s);
      assert H.CanExec(sys, H.Outbound, if sys.out.pc == 3 then Some(s) else None, {});
    }
  }

  lemma StepStaysUnanswered(ns: Nodes, s: Step)
    requires Unanswered(ns) && CanStep(ns, s)
    ensures Unanswered(Next(ns, s))
  {
    if s.Go? {
      var l := At(ns, s.n);
      ExecLeavesOther(On(ns, l), SideOf(s.n, l), s.found, s.swept);
    }
  }

  function Gos(run: seq<Step>): nat {
    if run == [] then 0 else (if run[0].Go? then 1 else 0) + Gos(run[1..])
  }

  function Progress(ns: Nodes): nat {
    H.Progress(ns.byA) + H.Progress(ns.byB)
  }

  lemma StepProgresses(ns: Nodes, s: Step)
    requires CanStep(ns, s)
    ensures Progress(Next(ns, s)) == Progress(ns) + if s.Go? then 1 else 0
  {
    match s
    case Go(n, found, swept) =>
      H.StepProgresses(On(ns, At(ns, n)), H.Exec(SideOf(n, At(ns, n)), found, swept));
    case Register(n, protocols) =>
      H.StepProgresses(ns.byA, H.Register(SideOf(n, DialedByA), protocols));
      H.StepProgresses(ns.byB, H.Register(SideOf(n, DialedByB), protocols));
  }

  lemma {:induction false} RunKeepsInv(ns: Nodes, run: seq<Step>, x: nat, y: nat)
    requires Inv(ns, x, y) && CanRun(ns, run)
    ensures Inv(Run(ns, run), x, y) && Progress(Run(ns, run)) == Progress(ns) + Gos(run)
    ensures Run(ns, run).atA == ns.atA && Run(ns, run).atB == ns.atB
    ensures Unanswered(ns) ==> Unanswered(Run(ns, run))
    decreases |run|
  {
    if run != [] {
      StepKeepsInv(ns, run[0], x, y);
      StepProgresses(ns, run[0]);
      if Unanswered(ns) {
        StepStaysUnanswered(ns, run[0]);
      }
      RunKeepsInv(Next(ns, run[0]), run[1..], x, y);
    }
  }

  lemma BothWait(ns: Nodes, x: nat, y: nat)
    requires Inv(ns, x, y) && Unanswered(ns)
    ensures !Through(ns, A) && !Through(ns, B)
    ensures Progress(ns) <= 8
  {
    EndWaits(On(ns, ns.atA), if ns.atA == DialedByA then x else y, SideOf(A, ns.atA));
    EndWaits(On(ns, ns.atB), if ns.atB == DialedByA then x else y, SideOf(B, ns.atB));
  }

  // ---------------------------------------------------------------- one link

  lemma SameLinkGoes(ns: Nodes, x: nat, y: nat) returns (s: Step)
    requires Inv(ns, x, y) && ns.atA == ns.atB && !H.Done(On(ns, ns.atA))
    ensures s.Go? && CanStep(ns, s)
  {
    var l := ns.atA;
    var st := H.NoDeadlock(On(ns, l), if l == DialedByA then x else y);
    s := Go(if st.side == SideOf(A, l) then A else B, st.found, st.swept);
  }

  lemma {:induction false} SameLinkFinishes(ns: Nodes, x: nat, y: nat) returns (run: seq<Step>)
    requires Inv(ns, x, y) && ns.atA == ns.atB
    ensures CanRun(ns, run) && Through(Run(ns, run), A) && Through(Run(ns, run), B)
    decreases 10 - H.Progress(On(ns, ns.atA))
  {
    var l := ns.atA;
    if H.Done(On(ns, l)) {
      run := [];
    } else {
      var s := SameLinkGoes(ns, x, y);
      H.StepProgresses(On(ns, l), H.Exec(SideOf(s.n, l), s.found, s.swept));
      StepKeepsInv(ns, s, x, y);
      var rest := SameLinkFinishes(Next(ns, s), x, y);
      run := [s] + rest;
      assert run[1..] == rest;
    }
  }

  /** What a run of the nodes does on one link. */
  function StepOn(ns: Nodes, s: Step, l: Link): seq<H.Step> {
    match s
    case Go(n, found, swept) => if At(ns, n) == l then [H.Exec(SideOf(n, l), found, swept)] else []
    case Register(n, protocols) => [H.Register(SideOf(n, l), protocols)]
  }

  function StepsOn(ns: Nodes, run: seq<Step>, l: Link): seq<H.Step>
    decreases |run|
  {
    if run == [] then [] else StepOn(ns, run[0], l) + StepsOn(ns, run[1..], l)
  }

  lemma StepIsHandshake(ns: Nodes, s: Step, l: Link)
    requires CanStep(ns, s)
    ensures var steps := StepOn(ns, s, l);
            if steps == [] then On(Next(ns, s), l) == On(ns, l)
            else |steps| == 1 && H.CanStep(On(ns, l), steps[0]) && On(Next(ns, s), l) == H.Next(On(ns, l), steps[0])
    ensures Next(ns, s).atA == ns.atA && Next(ns, s).atB == ns.atB
  {
  }

  lemma {:induction false} SameLinksTaken(ns: Nodes, ms: Nodes, run: seq<Step>, l: Link)
    requires ns.atA == ms.atA && ns.atB == ms.atB
    ensures StepsOn(ns, run, l) == StepsOn(ms, run, l)
    decreases |run|
  {
    if run != [] {
      SameLinksTaken(ns, ms, run[1..], l);
    }
  }

  /** On each link every run of the two nodes is a run of the handshake. */
  lemma {:induction false} LinkRunsHandshake(ns: Nodes, run: seq<Step>, l: Link)
    requires CanRun(ns, run)
    ensures H.CanRun(On(ns, l), StepsOn(ns, run, l))
    ensures H.Run(On(ns, l), StepsOn(ns, run, l)) == On(Run(ns, run), l)
    decreases |run|
  {
    if run != [] {
      var n := Next(ns, run[0]);
      var steps, rest := StepOn(ns, run[0], l), StepsOn(ns, run[1..], l);
      StepIsHandshake(ns, run[0], l);
      SameLinksTaken(ns, n, run[1..], l);
      LinkRunsHandshake(n, run[1..], l);
      if steps == [] {
        assert steps + rest == rest;
      } else {
        assert (steps + rest)[0] == steps[0] && (steps + rest)[1..] == rest;
      }
    }
  }

  /** On the link both have taken up, each node comes back with what the other registered last before it built its payload. */
  lemma ExchangedOnSameLink(a: H.Protocols, b: H.Protocols, x: nat, y: nat, at: Link, run: seq<Step>)
    requires CanRun(Fresh(a, b, x, y, at, at), run)
    requires var ns := Run(Fresh(a, b, x, y, at, at), run); Through(ns, A) && Through(ns, B)
    ensures var ns0 := Fresh(a, b, x, y, at, at);
            var sys0, steps := On(ns0, at), StepsOn(ns0, run, at);
            var sys := On(Run(ns0, run), at);
            && H.CanRun(sys0, steps)
            && H.Of(sys, SideOf(A, at)).result == H.Offered(sys0, steps, SideOf(B, at), b)
            && H.Of(sys, SideOf(B, at)).result == H.Offered(sys0, steps, SideOf(A, at), a)
  {
    var ns0 := Fresh(a, b, x, y, at, at);
    LinkRunsHandshake(ns0, run, at);
    RunKeepsInv(ns0, run, x, y);
    var (out, inn, next) := if at == DialedByA then (a, b, x) else (b, a, y);
    H.ResultIsOffered(out, inn, next, StepsOn(ns0, run, at));
  }

  // ---------------------------------------------------------------- the two together

  ghost predicate CanGetThrough(ns: Nodes, n: Node) {
    exists run :: CanRun(ns, run) && Through(Run(ns, run), n)
  }

  /**
   * Without timeouts, a node gets through its exchange in some run exactly if both
   * have taken up the same link; then both get through, and nothing can stop before.
   * Otherwise, in particular when each takes up its own dial first, every run comes to
   * an end after at most eight steps with both waiting for each other.
   */
  lemma GetThroughIff(a: H.Protocols, b: H.Protocols, x: nat, y: nat, atA: Link, atB: Link, n: Node)
    ensures CanGetThrough(Fresh(a, b, x, y, atA, atB), n) <==> atA == atB
  {
    var ns := Fresh(a, b, x, y, atA, atB);
    assert Inv(ns, x, y);
    if atA == atB {
      var run := SameLinkFinishes(ns, x, y);
      assert CanRun(ns, run) && Through(Run(ns, run), n);
    } else {
      forall run | CanRun(ns, run) ensures !Through(Run(ns, run), n) {
        DifferentLinksWait(a, b, x, y, atA, atB, run);
      }
    }
  }

  lemma DifferentLinksWait(a: H.Protocols, b: H.Protocols, x: nat, y: nat, atA: Link, atB: Link, run: seq<Step>)
    requires atA != atB && CanRun(Fresh(a, b, x, y, atA, atB), run)
    ensures var ns := Run(Fresh(a, b, x, y, atA, atB), run);
            && !Through(ns, A) && !Through(ns, B)
            && Gos(run) <= 8
  {
    var ns := Fresh(a, b, x, y, atA, atB);
    assert Inv(ns, x, y) && Unanswered(ns);
    RunKeepsInv(ns, run, x, y);
    BothWait(Run(ns, run), x, y);
  }

  lemma SameLinkNeverStops(a: H.Protocols, b: H.Protocols, x: nat, y: nat, at: Link, run: seq<Step>)
    requires CanRun(Fresh(a, b, x, y, at, at), run)
    ensures var ns := Run(Fresh(a, b, x, y, at, at), run);
            (Through(ns, A) && Through(ns, B)) || exists s: Step :: s.Go? && CanStep(ns, s)
  {
    var ns0 := Fresh(a, b, x, y, at, at);
    assert Inv(ns0, x, y);
    RunKeepsInv(ns0, run, x, y);
    var ns := Run(ns0, run);
    if !H.Done(On(ns, at)) {
      var s := SameLinkGoes(ns, x, y);
    }
  }
}
