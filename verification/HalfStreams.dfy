// Reusing the two halves of a yamux stream: network/tcp/stream.go and
// network/tcp/connection.go.
//
// Whoever opens a stream gets its write half and leaves its read half in a map,
// for the next AcceptReceiveStream; whoever accepts one does the opposite.
module HalfStreams {
  import opened Wrappers

  /** A yamux stream, named by its session. */
  type Stream = nat

  datatype Half = WriteHalf | ReadHalf

  /** How a stream came to this end of the connection. */
  datatype Origin = Opened | Accepted

  /**
   * One end of a connection. usableRS and usableSS hold the streams whose other
   * half is still to be had, closedFirst those whose first wrapper was closed, and
   * shut those whose other half was closed unused. handouts is everything given
   * out so far, in order.
   */
  datatype End = End(
    origin: map<Stream, Origin>, usableRS: set<Stream>, usableSS: set<Stream>,
    closedFirst: set<Stream>, shut: set<Stream>, handouts: seq<(Stream, Half)>)

  const FRESH: End := End(map[], {}, {}, {}, {}, [])

  function FirstHalf(o: Origin): Half {
    if o == Opened then WriteHalf else ReadHalf
  }

  function OtherHalf(o: Origin): Half {
    if o == Opened then ReadHalf else WriteHalf
  }

  function Usable(e: End, o: Origin): set<Stream> {
    if o == Opened then e.usableRS else e.usableSS
  }

  function WithUsable(e: End, o: Origin, s: set<Stream>): End {
    if o == Opened then e.(usableRS := s) else e.(usableSS := s)
  }

  datatype Step =
    | NewStream(s: Stream, o: Origin)
    | TakeOther(o: Origin, found: Option<Stream>, swept: set<Stream>)
    | CloseFirst(s: Stream)

  /**
   * TakeOther is one scan of a usable map: it shuts and removes the closed streams
   * it passes (swept) and stops at the first open one; without one it passes all.
   */
  predicate CanStep(e: End, st: Step) {
    match st
    case NewStream(s, o) => s !in e.origin
    case TakeOther(o, found, swept) =>
      && swept <= Usable(e, o) * e.closedFirst
      && (match found
          case Some(s) => s in Usable(e, o) && s !in e.closedFirst
          case None => swept == Usable(e, o))
    case CloseFirst(s) => s in e.origin
  }

  function Next(e: End, st: Step): End {
    match st
    case NewStream(s, o) =>
      WithUsable(e, o, Usable(e, o) + {s}).(origin := e.origin[s := o], handouts := e.handouts + [(s, FirstHalf(o))])
    case TakeOther(o, found, swept) =>
      var rest := Usable(e, o) - swept - (if found.Some? then {found.value} else {});
      WithUsable(e, o, rest).(
        shut := e.shut + swept,
        handouts := if found.Some? then e.handouts + [(found.value, OtherHalf(o))] else e.handouts)
    case CloseFirst(s) =>
      e.(closedFirst := e.closedFirst + {s})
  }

  // ---------------------------------------------------------------- ownership

  ghost predicate NoRepeats(handouts: seq<(Stream, Half)>) {
    forall i, j :: 0 <= i < j < |handouts| ==> handouts[i] != handouts[j]
  }

  /** The other half of s is in the map, handed out, or shut: exactly one of them. */
  ghost predicate Owned(e: End, s: Stream)
    requires s in e.origin
  {
    var o := e.origin[s];
    var usable, given, shut := s in Usable(e, o), (s, OtherHalf(o)) in e.handouts, s in e.shut;
    && (usable || given || shut)
    && !(usable && given) && !(usable && shut) && !(given && shut)
    && (s, FirstHalf(o)) in e.handouts
    && (shut ==> s in e.closedFirst)
  }

  ghost predicate Inv(e: End) {
    && NoRepeats(e.handouts)
    && (forall s :: s in e.origin ==> Owned(e, s))
    && (forall h :: h in e.handouts ==> h.0 in e.origin)
    && (forall s :: s in e.usableRS ==> s in e.origin && e.origin[s] == Opened)
    && (forall s :: s in e.usableSS ==> s in e.origin && e.origin[s] == Accepted)
    && (forall s :: s in e.shut ==> s in e.origin)
  }

  lemma UsableNotShut(e: End)
    requires Inv(e)
    ensures e.usableRS !! e.shut && e.usableSS !! e.shut
  {
    forall s | s in e.origin ensures !(s in e.shut && s in Usable(e, e.origin[s])) {
      assert Owned(e, s);
    }
  }

  lemma NewKeepsInv(e: End, s: Stream, o: Origin)
    requires Inv(e) && s !in e.origin
    ensures Inv(Next(e, NewStream(s, o)))
  {
    var n := Next(e, NewStream(s, o));
    forall h ensures h in n.handouts <==> h in e.handouts || h == (s, FirstHalf(o)) {
    }
    assert (s, OtherHalf(o)) !in e.handouts && (s, FirstHalf(o)) !in e.handouts;
    forall t | t in e.origin ensures Owned(n, t) {
      assert Owned(e, t);
    }
  }

  lemma TakeKeepsInv(e: End, st: Step)
    requires Inv(e) && st.TakeOther? && CanStep(e, st)
    ensures Inv(Next(e, st))
  {
    var n := Next(e, st);
    if st.found.Some? {
      var s := st.found.value;
      assert Owned(e, s);
      forall h ensures h in n.handouts <==> h in e.handouts || h == (s, OtherHalf(st.o)) {
      }
    }
    forall t | t in e.origin ensures Owned(n, t) {
      assert Owned(e, t);
    }
  }

  lemma StepKeepsInv(e: End, st: Step)
    requires Inv(e) && CanStep(e, st)
    ensures Inv(Next(e, st))
  {
    match st
    case NewStream(s, o) => NewKeepsInv(e, s, o);
    case TakeOther(_, _, _) => TakeKeepsInv(e, st);
    case CloseFirst(_) =>
      forall t | t in e.origin ensures Owned(Next(e, st), t) {
        assert Owned(e, t);
      }
  }

  ghost predicate CanRun(e: End, run: seq<Step>)
    decreases |run|
  {
    run == [] || (CanStep(e, run[0]) && CanRun(Next(e, run[0]), run[1..]))
  }

  function Run(e: End, run: seq<Step>): End
    decreases |run|
  {
    if run == [] then e else Run(Next(e, run[0]), run[1..])
  }

  lemma {:induction false} RunKeepsInv(e: End, run: seq<Step>)
    requires Inv(e) && CanRun(e, run)
    ensures Inv(Run(e, run))
    decreases |run|
  {
    if run != [] {
      StepKeepsInv(e, run[0]);
      RunKeepsInv(Next(e, run[0]), run[1..]);
    }
  }

  /**
   * Over every run of opens, accepts and closes on a new connection, no half of a
   * stream is handed out twice, one half of each was handed out when it came to this
   * end, and the other half is usable, handed out or shut: exactly one of them.
   */
  lemma {:induction false} HalvesHaveOneOwner(run: seq<Step>)
    requires CanRun(FRESH, run)
    ensures var e := Run(FRESH, run);
            && (forall i, j :: 0 <= i < j < |e.handouts| ==> e.handouts[i] != e.handouts[j])
            && (forall h :: h in e.handouts ==> h.0 in e.origin)
            && (forall s :: s in e.origin ==> (s, FirstHalf(e.origin[s])) in e.handouts)
            && (forall s :: s in e.origin ==>
                  var other := OtherHalf(e.origin[s]);
                  var usable := s in if e.origin[s] == Opened then e.usableRS else e.usableSS;
                  || (usable && (s, other) !in e.handouts && s !in e.shut)
                  || (!usable && (s, other) in e.handouts && s !in e.shut)
                  || (!usable && (s, other) !in e.handouts && s in e.shut && s in e.closedFirst))
  {
    RunKeepsInv(FRESH, run);
    var e := Run(FRESH, run);
    assert forall s :: s in e.origin ==> Owned(e, s);
  }

  /** e came before n: nothing handed out, shut or known at e is undone at n. */
  ghost predicate Before(e: End, n: End) {
    && e.handouts <= n.handouts
    && e.shut <= n.shut
    && (forall s :: s in e.origin ==> s in n.origin && n.origin[s] == e.origin[s])
  }

  lemma {:induction false} RunGoesForward(e: End, run: seq<Step>)
    requires CanRun(e, run)
    ensures Before(e, Run(e, run))
    decreases |run|
  {
    if run != [] {
      var n := Next(e, run[0]);
      assert Before(e, n);
      RunGoesForward(n, run[1..]);
      assert e.handouts <= n.handouts <= Run(e, run).handouts;
    }
  }

  /** What was handed out stays handed out, and what was shut is never handed out afterwards. */
  lemma HandoutsAreFinal(e: End, run: seq<Step>)
    requires Inv(e) && CanRun(e, run)
    ensures e.handouts <= Run(e, run).handouts
    ensures forall s :: s in e.shut ==> (s, OtherHalf(e.origin[s])) !in Run(e, run).handouts
  {
    RunKeepsInv(e, run);
    RunGoesForward(e, run);
    forall s | s in e.shut ensures (s, OtherHalf(e.origin[s])) !in Run(e, run).handouts {
      assert Owned(Run(e, run), s);
    }
  }

  lemma {:induction false} ClosedStaysUnused(e: End, run: seq<Step>, s: Stream)
    requires s in e.origin && s in e.closedFirst && (s, OtherHalf(e.origin[s])) !in e.handouts && CanRun(e, run)
    ensures (s, OtherHalf(e.origin[s])) !in Run(e, run).handouts
    decreases |run|
  {
    if run != [] {
      ClosedStaysUnused(Next(e, run[0]), run[1..], s);
    }
  }

  /** The other half of a stream whose first wrapper is closed is not handed out any more. */
  lemma ClosedNeverReused(e: End, s: Stream, run: seq<Step>)
    requires Inv(e) && s in e.origin && (s, OtherHalf(e.origin[s])) !in e.handouts
    requires CanRun(Next(e, CloseFirst(s)), run)
    ensures (s, OtherHalf(e.origin[s])) !in Run(Next(e, CloseFirst(s)), run).handouts
  {
    ClosedStaysUnused(Next(e, CloseFirst(s)), run, s);
  }

  lemma RunOne(e: End, a: Step)
    requires CanStep(e, a)
    ensures CanRun(e, [a]) && Run(e, [a]) == Next(e, a)
  {
    assert [a][1..] == [];
  }

  lemma RunTwo(e: End, a: Step, b: Step)
    requires CanStep(e, a) && CanStep(Next(e, a), b)
    ensures CanRun(e, [a, b]) && Run(e, [a, b]) == Next(Next(e, a), b)
  {
    assert [a, b][1..] == [b] && [b][1..] == [];
    assert CanRun(Next(e, a), [b]) && Run(Next(e, a), [b]) == Next(Next(e, a), b);
  }

  // ---------------------------------------------------------------- the code

  /** The yamux session: the streams the peer opened wait in incoming, in order. A reliable one never fails. */
  class Session {
    const reliable: bool
    var next: Stream
    var incoming: seq<Stream>

    constructor (next: Stream, incoming: seq<Stream>, reliable: bool)
      ensures this.next == next && this.incoming == incoming && this.reliable == reliable
    {
      this.next, this.incoming, this.reliable := next, incoming, reliable;
    }

    /** A stream with a name nobody used yet, or none. */
    method OpenStream() returns (r: Option<Stream>)
      modifies this
      ensures incoming == old(incoming)
      ensures r.Some? ==> r.value == old(next) && next == old(next) + 1
      ensures r.None? ==> next == old(next) && !reliable
    {
      var fail: bool := *;
      if fail && !reliable {
        return None;
      }
      r := Some(next);
      next := next + 1;
    }

    /** AcceptStream would wait while nothing is incoming; here it fails. */
    method AcceptStream() returns (r: Option<Stream>)
      modifies this
      ensures next == old(next)
      ensures r.Some? ==> old(incoming) != [] && r.value == old(incoming)[0] && incoming == old(incoming)[1..]
      ensures r.None? ==> incoming == old(incoming) && (!reliable || incoming == [])
    {
      var fail: bool := *;
      if (fail && !reliable) || incoming == [] {
        return None;
      }
      r := Some(incoming[0]);
      incoming := incoming[1..];
    }
  }

  class Conn {
    const sess: Session
    var usableSS: set<Stream>
    var usableRS: set<Stream>

    /** Streams whose first wrapper has been closed, and the other halves closed by the scans. */
    var closedFirst: set<Stream>
    var shut: set<Stream>

    ghost var origin: map<Stream, Origin>
    ghost var handouts: seq<(Stream, Half)>

    constructor (sess: Session)
      ensures View() == FRESH && this.sess == sess
    {
      this.sess := sess;
      usableSS, usableRS, closedFirst, shut := {}, {}, {}, {};
      origin, handouts := map[], [];
    }

    ghost function View(): End
      reads this
    {
      End(origin, usableRS, usableSS, closedFirst, shut, handouts)
    }

    /** Streams yet to come bear names this end has not seen. */
    ghost predicate Valid()
      reads this, sess
    {
      && Inv(View())
      && (forall s :: s in origin ==> s < sess.next)
      && (forall i :: 0 <= i < |sess.incoming| ==> sess.incoming[i] !in origin && sess.incoming[i] < sess.next)
      && (forall i, j :: 0 <= i < j < |sess.incoming| ==> sess.incoming[i] != sess.incoming[j])
    }

    /** One scan of a usable map, in any order. */
    method Scan(usable: set<Stream>) returns (found: Option<Stream>, rest: set<Stream>, ghost swept: set<Stream>)
      modifies this`shut
      ensures swept <= usable * closedFirst && shut == old(shut) + swept
      ensures found.Some? ==> found.value in usable && found.value !in closedFirst
      ensures found.None? ==> swept == usable
      ensures rest == usable - swept - (if found.Some? then {found.value} else {})
    {
      found := None;
      var closed := {};
      var todo := usable;
      while todo != {}
        invariant todo <= usable && closed == usable - todo && closed <= closedFirst
        invariant shut == old(shut) + closed
        decreases todo
      {
        var s :| s in todo;
        if s in closedFirst {
          shut := shut + {s};
          closed := closed + {s};
          todo := todo - {s};
        } else {
          found := Some(s);
          break;
        }
      }
      swept := closed;
      rest := usable - closed;
      if found.Some? {
        rest := rest - {found.value};
      }
    }

    /** One scan of usableSS: shuts the other halves of closed streams it meets, takes the first open one. */
    method GetUsableSendStream() returns (ss: Option<Stream>)
      requires Inv(View())
      modifies this`usableSS, this`shut, this`handouts
      ensures CanStep(old(View()), TakeOther(Accepted, ss, shut - old(shut)))
      ensures View() == Next(old(View()), TakeOther(Accepted, ss, shut - old(shut)))
      ensures Inv(View())
      ensures (exists s :: s in old(usableSS) && s !in closedFirst) ==> ss.Some? && ss.value in old(usableSS)
    {
      UsableNotShut(View());
      var rest;
      ghost var swept;
      ss, rest, swept := Scan(usableSS);
      assert shut - old(shut) == swept;
      TakeKeepsInv(old(View()), TakeOther(Accepted, ss, swept));
      usableSS := rest;
      if ss.Some? {
        handouts := handouts + [(ss.value, WriteHalf)];
      }
    }

    /** One scan of usableRS: shuts the other halves of closed streams it meets, takes the first open one. */
    method GetUsableReceiveStream() returns (rs: Option<Stream>)
      requires Inv(View())
      modifies this`usableRS, this`shut, this`handouts
      ensures CanStep(old(View()), TakeOther(Opened, rs, shut - old(shut)))
      ensures View() == Next(old(View()), TakeOther(Opened, rs, shut - old(shut)))
      ensures Inv(View())
      ensures (exists s :: s in old(usableRS) && s !in closedFirst) ==> rs.Some? && rs.value in old(usableRS)
    {
      UsableNotShut(View());
      var rest;
      ghost var swept;
      rs, rest, swept := Scan(usableRS);
      assert shut - old(shut) == swept;
      TakeKeepsInv(old(View()), TakeOther(Opened, rs, swept));
      usableRS := rest;
      if rs.Some? {
        handouts := handouts + [(rs.value, ReadHalf)];
      }
    }

    /** The caller keeps the write half of the new stream s; the other one goes into the map. */
    method PutUsableReceiveStream(s: Stream)
      requires Inv(View()) && s !in origin
      modifies this`usableRS, this`origin, this`handouts
      ensures View() == Next(old(View()), NewStream(s, Opened)) && Inv(View())
      ensures usableRS == old(usableRS) + {s} && handouts == old(handouts) + [(s, WriteHalf)]
    {
      NewKeepsInv(View(), s, Opened);
      usableRS := usableRS + {s};
      origin := origin[s := Opened];
      handouts := handouts + [(s, WriteHalf)];
    }

    /** The caller keeps the read half of the new stream s; the other one goes into the map. */
    method PutUsableSendStream(s: Stream)
      requires Inv(View()) && s !in origin
      modifies this`usableSS, this`origin, this`handouts
      ensures View() == Next(old(View()), NewStream(s, Accepted)) && Inv(View())
      ensures usableSS == old(usableSS) + {s} && handouts == old(handouts) + [(s, ReadHalf)]
    {
      NewKeepsInv(View(), s, Accepted);
      usableSS := usableSS + {s};
      origin := origin[s := Accepted];
      handouts := handouts + [(s, ReadHalf)];
    }

    method OpenNew() returns (r: Option<Stream>)
      requires Valid()
      modifies this, sess
      ensures Valid() && sess.incoming == old(sess.incoming)
      ensures r.Some? ==> r.value !in old(origin) && View() == Next(old(View()), NewStream(r.value, Opened))
      ensures r.Some? ==> usableRS == old(usableRS) + {r.value}
      ensures r.None? ==> View() == old(View()) && !sess.reliable
    {
      r := sess.OpenStream();
      if r.Some? {
        PutUsableReceiveStream(r.value);
      }
    }

    method AcceptNew() returns (r: Option<Stream>)
      requires Valid()
      modifies this, sess
      ensures Valid() && sess.next == old(sess.next)
      ensures r.Some? ==> r.value !in old(origin) && View() == Next(old(View()), NewStream(r.value, Accepted))
      ensures r.Some? ==> usableSS == old(usableSS) + {r.value} && old(sess.incoming) == [r.value] + sess.incoming
      ensures r.None? ==> View() == old(View()) && (!sess.reliable || old(sess.incoming) == [])
    {
      r := sess.AcceptStream();
      if r.Some? {
        PutUsableSendStream(r.value);
      }
    }

    /** Reuses the write half of an accepted stream if one is to be had, else opens a stream. */
    method OpenSendStream() returns (r: Option<Stream>, ghost run: seq<Step>)
      requires Valid()
      modifies this, sess
      ensures Valid()
      ensures CanRun(old(View()), run) && View() == Run(old(View()), run)
      ensures handouts == if r.Some? then old(handouts) + [(r.value, WriteHalf)] else old(handouts)
      ensures (exists s :: s in old(usableSS) && s !in old(closedFirst)) ==>
                r.Some? && r.value in old(usableSS) && origin == old(origin)
      ensures sess.reliable ==> r.Some?
      ensures sess.incoming == old(sess.incoming) && closedFirst == old(closedFirst)
    {
      var ss := GetUsableSendStream();
      ghost var take := TakeOther(Accepted, ss, shut - old(shut));
      if ss.Some? {
        RunOne(old(View()), take);
        return ss, [take];
      }
      r := OpenNew();
      run := if r.Some? then [take, NewStream(r.value, Opened)] else [take];
      if r.Some? {
        RunTwo(old(View()), take, NewStream(r.value, Opened));
      } else {
        RunOne(old(View()), take);
      }
    }

    /** Reuses the read half of an opened stream if one is to be had, else accepts a stream. */
    method AcceptReceiveStream() returns (r: Option<Stream>, ghost run: seq<Step>)
      requires Valid()
      modifies this, sess
      ensures Valid()
      ensures CanRun(old(View()), run) && View() == Run(old(View()), run)
      ensures handouts == if r.Some? then old(handouts) + [(r.value, ReadHalf)] else old(handouts)
      ensures (exists s :: s in old(usableRS) && s !in old(closedFirst)) ==>
                r.Some? && r.value in old(usableRS) && origin == old(origin)
      ensures sess.reliable && old(sess.incoming) != [] ==> r.Some?
      ensures sess.next == old(sess.next) && closedFirst == old(closedFirst)
    {
      var rs := GetUsableReceiveStream();
      ghost var take := TakeOther(Opened, rs, shut - old(shut));
      if rs.Some? {
        RunOne(old(View()), take);
        return rs, [take];
      }
      r := AcceptNew();
      run := if r.Some? then [take, NewStream(r.value, Accepted)] else [take];
      if r.Some? {
        RunTwo(old(View()), take, NewStream(r.value, Accepted));
      } else {
        RunOne(old(View()), take);
      }
    }

    /** Closing the wrapper that an open or an accept returned first. */
    method CloseFirstWrapper(s: Stream)
      requires Valid() && s in origin
      modifies this`closedFirst
      ensures View() == Next(old(View()), CloseFirst(s)) && Valid()
      ensures closedFirst == old(closedFirst) + {s}
    {
      StepKeepsInv(View(), CloseFirst(s));
      closedFirst := closedFirst + {s};
    }
  }
}
