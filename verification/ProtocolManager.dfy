// Protocols of peers and their notifications: components/protocol_manager.go over
// peerstore/protocol_book.go.
//
// The manager announces every change of a peer's protocols through two callbacks.
// An observer that only hears the callbacks should know what the book says.
module ProtocolManager {
  import opened PeerOrder

  type ProtocolId = string

  /** One call of the supported or the unsupported callback. */
  datatype Event = Event(supported: bool, protocol: ProtocolId, pid: PeerId)

  datatype State = State(self: PeerId, handlers: set<ProtocolId>, book: map<PeerId, set<ProtocolId>>, log: seq<Event>)

  function Of(book: map<PeerId, set<ProtocolId>>, pid: PeerId): set<ProtocolId> {
    if pid in book then book[pid] else {}
  }

  function Elements(list: seq<ProtocolId>): set<ProtocolId> {
    set x | x in list
  }

  predicate NoDuplicates(list: seq<ProtocolId>) {
    forall i, j :: 0 <= i < j < |list| ==> list[i] != list[j]
  }

  /** The order in which a range over a set may visit its elements. */
  predicate Enumerates(order: seq<ProtocolId>, s: set<ProtocolId>) {
    NoDuplicates(order) && Elements(order) == s
  }

  // ---------------------------------------------------------------- what is announced

  /** One event for each entry of list that is not known yet, duplicates and all. */
  function Announced(list: seq<ProtocolId>, known: set<ProtocolId>, pid: PeerId): seq<Event> {
    if list == [] then []
    else
      var init, last := list[..|list| - 1], list[|list| - 1];
      Announced(init, known, pid) + if last in known then [] else [Event(true, last, pid)]
  }

  /** What is announced is announced in the order of the list, entry by entry. */
  lemma {:induction false} AnnouncedInOrder(list: seq<ProtocolId>, more: seq<ProtocolId>, known: set<ProtocolId>, pid: PeerId)
    ensures Announced(list + more, known, pid) == Announced(list, known, pid) + Announced(more, known, pid)
    decreases |more|
  {
    if more == [] {
      assert list + more == list;
    } else {
      var init, last := more[..|more| - 1], more[|more| - 1];
      var all := list + more;
      assert all[..|all| - 1] == list + init && all[|all| - 1] == last;
      AnnouncedInOrder(list, init, known, pid);
      var news := if last in known then [] else [Event(true, last, pid)];
      assert Announced(all, known, pid) == Announced(list + init, known, pid) + news;
      assert Announced(more, known, pid) == Announced(init, known, pid) + news;
    }
  }

  lemma OneAnnounced(x: ProtocolId, known: set<ProtocolId>, pid: PeerId)
    ensures Announced([x], known, pid) == if x in known then [] else [Event(true, x, pid)]
  {
    assert [x][..0] == [];
  }

  function Withdrawn(order: seq<ProtocolId>, pid: PeerId): seq<Event> {
    seq(|order|, i requires 0 <= i < |order| => Event(false, order[i], pid))
  }

  datatype Op =
    | SetOp(pid: PeerId, list: seq<ProtocolId>, order: seq<ProtocolId>)
    | CleanOp(pid: PeerId, order: seq<ProtocolId>)
    | RegisterOp(protocol: ProtocolId)
    | UnregisterOp(protocol: ProtocolId)

  /** order is how the protocols that go away happen to be visited. */
  predicate CanDo(s: State, op: Op) {
    match op
    case SetOp(pid, list, order) => Enumerates(order, Of(s.book, pid) - Elements(list))
    case CleanOp(pid, order) => Enumerates(order, Of(s.book, pid))
    case _ => true
  }

  /** One operation with both callbacks set, as NewHost sets them. */
  function Do(s: State, op: Op): State {
    match op
    case SetOp(pid, list, order) =>
      s.(log := if list == [] then s.log else s.log + Announced(list, Of(s.book, pid), pid) + Withdrawn(order, pid),
         book := s.book[pid := Elements(list)])
    case CleanOp(pid, order) =>
      s.(log := s.log + Withdrawn(order, pid), book := s.book - {pid})
    case RegisterOp(x) =>
      if x in s.handlers then s
      else s.(handlers := s.handlers + {x}, book := if s.self == [] then s.book else s.book[s.self := Of(s.book, s.self) + {x}])
    case UnregisterOp(x) =>
      if x !in s.handlers then s
      else s.(handlers := s.handlers - {x},
              book := if s.self == [] || s.self !in s.book then s.book else s.book[s.self := s.book[s.self] - {x}])
  }

  // ---------------------------------------------------------------- the observer

  /** What an observer of the callbacks believes about one peer. */
  function Believed(log: seq<Event>, pid: PeerId): set<ProtocolId> {
    if log == [] then {}
    else
      var before := Believed(log[..|log| - 1], pid);
      var e := log[|log| - 1];
      if e.pid != pid then before else if e.supported then before + {e.protocol} else before - {e.protocol}
  }

  /** For each peer and protocol, supported and unsupported come in turns, supported first. */
  predicate Alternates(log: seq<Event>) {
    log == [] ||
    (var init, e := log[..|log| - 1], log[|log| - 1];
     Alternates(init) && (e.supported <==> e.protocol !in Believed(init, e.pid)))
  }

  /** The observer's beliefs about all remote peers are what the book says. */
  ghost predicate Mirrors(s: State) {
    forall pid :: pid != s.self ==> Believed(s.log, pid) == Of(s.book, pid)
  }

  lemma BelievedAppend(log: seq<Event>, e: Event, pid: PeerId)
    ensures Believed(log + [e], pid) ==
            if e.pid != pid then Believed(log, pid)
            else if e.supported then Believed(log, pid) + {e.protocol}
            else Believed(log, pid) - {e.protocol}
    ensures Alternates(log + [e]) <==> Alternates(log) && (e.supported <==> e.protocol !in Believed(log, e.pid))
  {
    assert (log + [e])[..|log|] == log;
  }

  /** After announcing list, the observer has added exactly its elements, and the turns were kept iff no news came twice. */
  lemma {:induction false} AnnouncedHeard(log: seq<Event>, list: seq<ProtocolId>, pid: PeerId, q: PeerId)
    ensures var known := Believed(log, pid);
            && Believed(log + Announced(list, known, pid), q) == Believed(log, q) + (if q == pid then Elements(list) else {})
            && (Alternates(log + Announced(list, known, pid)) <==> Alternates(log) && NewsOnce(list, known))
    decreases |list|
  {
    var known := Believed(log, pid);
    if list == [] {
      assert log + [] == log;
    } else {
      var init, last := list[..|list| - 1], list[|list| - 1];
      assert list == init + [last];
      AnnouncedHeard(log, init, pid, q);
      AnnouncedHeard(log, init, pid, pid);
      assert Elements(list) == Elements(init) + {last};
      var heard := log + Announced(init, known, pid);
      if last in known {
        assert log + Announced(list, known, pid) == heard;
        assert NewsOnce(list, known) <==> NewsOnce(init, known);
      } else {
        var e := Event(true, last, pid);
        assert log + Announced(list, known, pid) == heard + [e];
        BelievedAppend(heard, e, q);
        BelievedAppend(heard, e, pid);
        NewsOnceAppend(init, last, known);
      }
    }
  }

  /** No protocol that was not known before is listed twice. */
  predicate NewsOnce(list: seq<ProtocolId>, known: set<ProtocolId>) {
    forall i, j :: 0 <= i < j < |list| && list[i] == list[j] ==> list[i] in known
  }

  lemma NewsOnceAppend(init: seq<ProtocolId>, last: ProtocolId, known: set<ProtocolId>)
    requires last !in known
    ensures NewsOnce(init + [last], known) <==> NewsOnce(init, known) && last !in init
  {
    var list := init + [last];
    if last in init {
      var i :| 0 <= i < |init| && init[i] == last;
      assert list[i] == list[|init|];
    } else if NewsOnce(list, known) {
      assert forall i :: 0 <= i < |init| ==> list[i] == init[i];
    }
  }

  lemma LastWithdrawn(log: seq<Event>, order: seq<ProtocolId>, pid: PeerId)
    requires NoDuplicates(order) && order != []
    ensures var init, last := order[..|order| - 1], order[|order| - 1];
            && NoDuplicates(init)
            && Elements(order) == Elements(init) + {last} && last !in Elements(init)
            && log + Withdrawn(order, pid) == (log + Withdrawn(init, pid)) + [Event(false, last, pid)]
  {
    var init, last := order[..|order| - 1], order[|order| - 1];
    assert order == init + [last];
  }

  lemma {:induction false} WithdrawnHeard(log: seq<Event>, order: seq<ProtocolId>, pid: PeerId, q: PeerId)
    requires NoDuplicates(order) && Elements(order) <= Believed(log, pid)
    ensures Believed(log + Withdrawn(order, pid), q) == Believed(log, q) - (if q == pid then Elements(order) else {})
    ensures Alternates(log + Withdrawn(order, pid)) <==> Alternates(log)
    decreases |order|
  {
    if order == [] {
      assert log + Withdrawn(order, pid) == log;
    } else {
      var init, last := order[..|order| - 1], order[|order| - 1];
      LastWithdrawn(log, order, pid);
      WithdrawnHeard(log, init, pid, q);
      WithdrawnHeard(log, init, pid, pid);
      var heard := log + Withdrawn(init, pid);
      BelievedAppend(heard, Event(false, last, pid), q);
      BelievedAppend(heard, Event(false, last, pid), pid);
    }
  }

  /** The events of one SetOp, heard in order. */
  lemma SetHeard(s: State, pid: PeerId, list: seq<ProtocolId>, order: seq<ProtocolId>, q: PeerId)
    requires Enumerates(order, Of(s.book, pid) - Elements(list)) && Believed(s.log, pid) == Of(s.book, pid)
    ensures var log := s.log + Announced(list, Of(s.book, pid), pid) + Withdrawn(order, pid);
            && Believed(log, q) == (if q == pid then Elements(list) else Believed(s.log, q))
            && (Alternates(log) <==> Alternates(s.log) && NewsOnce(list, Of(s.book, pid)))
  {
    var heard := s.log + Announced(list, Of(s.book, pid), pid);
    AnnouncedHeard(s.log, list, pid, pid);
    AnnouncedHeard(s.log, list, pid, q);
    WithdrawnHeard(heard, order, pid, q);
  }

  /**
   * Setting a remote peer's protocols keeps the mirror exactly unless it silently
   * empties a known peer, and keeps the turns exactly if no news is listed twice.
   */
  lemma SetKeepsMirrorIff(s: State, op: Op)
    requires Mirrors(s) && op.SetOp? && op.pid != s.self && CanDo(s, op)
    ensures Mirrors(Do(s, op)) <==> op.list != [] || Of(s.book, op.pid) == {}
    ensures Alternates(s.log) ==> (Alternates(Do(s, op).log) <==> NewsOnce(op.list, Of(s.book, op.pid)))
  {
    var next := Do(s, op);
    if op.list != [] {
      forall q | q != s.self ensures Believed(next.log, q) == Of(next.book, q) {
        SetHeard(s, op.pid, op.list, op.order, q);
      }
      SetHeard(s, op.pid, op.list, op.order, op.pid);
    } else {
      assert Elements([]) == {};
      if Mirrors(next) {
        assert Believed(next.log, op.pid) == Of(next.book, op.pid);
      }
    }
  }

  lemma CleanKeepsMirror(s: State, op: Op)
    requires Mirrors(s) && op.CleanOp? && op.pid != s.self && CanDo(s, op)
    ensures Mirrors(Do(s, op)) && (Alternates(s.log) ==> Alternates(Do(s, op).log))
  {
    var next := Do(s, op);
    forall q | q != s.self ensures Believed(next.log, q) == Of(next.book, q) {
      WithdrawnHeard(s.log, op.order, op.pid, q);
    }
    WithdrawnHeard(s.log, op.order, op.pid, op.pid);
  }

  // ---------------------------------------------------------------- runs

  /** A list that does not silently empty a known peer, and brings no news twice. */
  predicate Proper(s: State, op: Op) {
    op.SetOp? ==> (op.list != [] || Of(s.book, op.pid) == {}) && NewsOnce(op.list, Of(s.book, op.pid))
  }

  /** The host's own entry is left to registering and unregistering. */
  predicate AboutRemote(s: State, op: Op) {
    op.SetOp? || op.CleanOp? ==> op.pid != s.self
  }

  ghost predicate Inv(s: State) {
    && Mirrors(s)
    && Alternates(s.log)
    && (s.self != [] ==> Of(s.book, s.self) == s.handlers)
  }

  ghost predicate CanRun(s: State, ops: seq<Op>)
    decreases |ops|
  {
    ops == [] || (CanDo(s, ops[0]) && AboutRemote(s, ops[0]) && CanRun(Do(s, ops[0]), ops[1..]))
  }

  ghost predicate AllProper(s: State, ops: seq<Op>)
    decreases |ops|
  {
    ops == [] || (Proper(s, ops[0]) && AllProper(Do(s, ops[0]), ops[1..]))
  }

  /** The invariant holds before and after every operation. */
  ghost predicate AlwaysInv(s: State, ops: seq<Op>)
    decreases |ops|
  {
    Inv(s) && (ops == [] || AlwaysInv(Do(s, ops[0]), ops[1..]))
  }

  ghost function Run(s: State, ops: seq<Op>): State
    decreases |ops|
  {
    if ops == [] then s else Run(Do(s, ops[0]), ops[1..])
  }

  lemma RegisterKeepsMirror(s: State, op: Op)
    requires Mirrors(s) && (op.RegisterOp? || op.UnregisterOp?)
    requires s.self != [] ==> Of(s.book, s.self) == s.handlers
    ensures Mirrors(Do(s, op))
    ensures s.self != [] ==> Of(Do(s, op).book, s.self) == Do(s, op).handlers
  {
    var next := Do(s, op);
    forall q | q != s.self ensures Believed(next.log, q) == Of(next.book, q) {
      assert Believed(s.log, q) == Of(s.book, q);
    }
  }

  lemma StepKeepsInvIff(s: State, op: Op)
    requires Inv(s) && CanDo(s, op) && AboutRemote(s, op)
    ensures Inv(Do(s, op)) <==> Proper(s, op)
    ensures Do(s, op).self == s.self
  {
    match op
    case SetOp(_, _, _) => SetKeepsMirrorIff(s, op);
    case CleanOp(_, _) => CleanKeepsMirror(s, op);
    case _ => RegisterKeepsMirror(s, op); RegisterIsSilent(s, op);
  }

  lemma RegisterIsSilent(s: State, op: Op)
    requires op.RegisterOp? || op.UnregisterOp?
    ensures Do(s, op).log == s.log
  {
  }

  /**
   * Throughout a run, the observer's picture of every remote peer is the book's, the
   * events of each protocol take turns, and the book's entry for the host itself is
   * the set of registered handlers, exactly if every call is proper when it is made.
   */
  lemma {:induction false} ObserverMirrorsBookIff(s: State, ops: seq<Op>)
    requires Inv(s) && CanRun(s, ops)
    ensures AlwaysInv(s, ops) <==> AllProper(s, ops)
    decreases |ops|
  {
    if ops != [] {
      StepKeepsInvIff(s, ops[0]);
      if Proper(s, ops[0]) {
        ObserverMirrorsBookIff(Do(s, ops[0]), ops[1..]);
      } else {
        assert !AlwaysInv(Do(s, ops[0]), ops[1..]);
      }
    }
  }

  /** In particular with lists that are never empty and never repeat themselves. */
  lemma {:induction false} ObserverMirrorsBook(s: State, ops: seq<Op>)
    requires Inv(s) && CanRun(s, ops)
    requires forall i :: 0 <= i < |ops| && ops[i].SetOp? ==> ops[i].list != [] && NoDuplicates(ops[i].list)
    ensures Inv(Run(s, ops)) && Run(s, ops).self == s.self
    decreases |ops|
  {
    if ops != [] {
      assert ops[0].SetOp? ==> NewsOnce(ops[0].list, Of(s.book, ops[0].pid));
      StepKeepsInvIff(s, ops[0]);
      ObserverMirrorsBook(Do(s, ops[0]), ops[1..]);
    }
  }

  /** A peer known for one protocol that then supports none: the observer is not told. */
  lemma EmptiedInSilence(self: PeerId, pid: PeerId, x: ProtocolId) returns (s: State)
    requires pid != self && self != []
    ensures Inv(s) && Of(s.book, pid) == {x} && CanDo(s, SetOp(pid, [], [x]))
    ensures !Mirrors(Do(s, SetOp(pid, [], [x])))
  {
    s := State(self, {}, map[pid := {x}], [Event(true, x, pid)]);
    OneEvent(s, pid, x);
    assert Elements([]) == {} && Elements([x]) == {x};
    SetKeepsMirrorIff(s, SetOp(pid, [], [x]));
  }

  /** A list that names one new protocol twice announces it twice. */
  lemma RepeatedNews(self: PeerId, pid: PeerId, x: ProtocolId) returns (s: State)
    requires pid != self && self != []
    ensures Inv(s) && Of(s.book, pid) == {} && CanDo(s, SetOp(pid, [x, x], []))
    ensures !Alternates(Do(s, SetOp(pid, [x, x], [])).log)
  {
    s := State(self, {}, map[], []);
    assert Elements([]) == {} && Elements([x, x]) == {x};
    assert !NewsOnce([x, x], {}) by {
      var list := [x, x];
      assert list[0] == list[1];
    }
    SetKeepsMirrorIff(s, SetOp(pid, [x, x], []));
  }

  lemma OneEvent(s: State, pid: PeerId, x: ProtocolId)
    requires s.log == [Event(true, x, pid)] && s.book == map[pid := {x}] && s.handlers == {} && s.self != pid
    ensures Inv(s)
  {
    assert s.log == [] + [Event(true, x, pid)];
    forall q ensures Believed(s.log, q) == Of(s.book, q) {
      BelievedAppend([], Event(true, x, pid), q);
    }
    BelievedAppend([], Event(true, x, pid), pid);
  }

  // ---------------------------------------------------------------- the code

  class ProtocolBook {
    var book: map<PeerId, set<ProtocolId>>

    constructor ()
      ensures book == map[]
    {
      book := map[];
    }

    method AddProtocol(pid: PeerId, protocols: seq<ProtocolId>)
      modifies this
      ensures book == old(book)[pid := Of(old(book), pid) + Elements(protocols)]
    {
      var s := if pid in book then book[pid] else {};
      for i := 0 to |protocols|
        invariant s == Of(old(book), pid) + Elements(protocols[..i])
      {
        assert protocols[..i + 1] == protocols[..i] + [protocols[i]];
        s := s + {protocols[i]};
      }
      assert protocols[..|protocols|] == protocols;
      book := book[pid := s];
    }

    method SetProtocols(pid: PeerId, protocols: seq<ProtocolId>)
      modifies this
      ensures book == old(book)[pid := Elements(protocols)]
    {
      var s: set<ProtocolId> := {};
      for i := 0 to |protocols|
        invariant s == Elements(protocols[..i])
      {
        assert protocols[..i + 1] == protocols[..i] + [protocols[i]];
        s := s + {protocols[i]};
      }
      assert protocols[..|protocols|] == protocols;
      book := book[pid := s];
    }

    method DeleteProtocol(pid: PeerId, protocols: seq<ProtocolId>)
      modifies this
      ensures book == if pid in old(book) then old(book)[pid := old(book)[pid] - Elements(protocols)] else old(book)
    {
      if pid !in book {
        return;
      }
      var s := book[pid];
      for i := 0 to |protocols|
        invariant s == old(book)[pid] - Elements(protocols[..i])
      {
        assert protocols[..i + 1] == protocols[..i] + [protocols[i]];
        s := s - {protocols[i]};
      }
      assert protocols[..|protocols|] == protocols;
      book := book[pid := s];
    }

    method ClearProtocol(pid: PeerId)
      modifies this
      ensures book == old(book) - {pid}
    {
      book := book - {pid};
    }

    /** The protocols of a peer, each once, in no particular order. */
    method GetProtocols(pid: PeerId) returns (res: seq<ProtocolId>)
      ensures Enumerates(res, Of(book, pid))
    {
      res := [];
      var todo := if pid in book then book[pid] else {};
      while todo != {}
        invariant Enumerates(res, Of(book, pid) - todo) && todo <= Of(book, pid)
        decreases todo
      {
        var x :| x in todo;
        assert Elements(res + [x]) == Elements(res) + {x};
        res, todo := res + [x], todo - {x};
      }
    }

    method ContainsProtocol(pid: PeerId, protocol: ProtocolId) returns (b: bool)
      ensures b <==> protocol in Of(book, pid)
    {
      b := pid in book && protocol in book[pid];
    }
  }

  class ProtocolManager {
    const self: PeerId
    var handlers: set<ProtocolId>
    const protocolBook: ProtocolBook
    var supportedCallback: bool
    var unsupportedCallback: bool

    /** Every callback made so far. */
    var log: seq<Event>

    constructor (self: PeerId, book: ProtocolBook)
      ensures this.self == self && protocolBook == book && handlers == {} && log == []
      ensures !supportedCallback && !unsupportedCallback
    {
      this.self, protocolBook, handlers, log := self, book, {}, [];
      supportedCallback, unsupportedCallback := false, false;
    }

    function View(): State
      reads this, protocolBook
    {
      State(self, handlers, protocolBook.book, log)
    }

    method RegisterMsgPayloadHandler(protocol: ProtocolId) returns (err: bool)
      modifies this, protocolBook
      ensures View() == Do(old(View()), RegisterOp(protocol)) && (err <==> protocol in old(handlers))
      ensures handlers == old(handlers) + {protocol} && log == old(log)
      ensures !err && self != [] ==> Of(protocolBook.book, self) == Of(old(protocolBook.book), self) + {protocol}
      ensures forall pid :: err || pid != self || self == [] ==> Of(protocolBook.book, pid) == Of(old(protocolBook.book), pid)
    {
      if protocol in handlers {
        return true;
      }
      handlers := handlers + {protocol};
      if self != [] {
        protocolBook.AddProtocol(self, [protocol]);
        assert Elements([protocol]) == {protocol};
      }
      err := false;
    }

    method UnregisterMsgPayloadHandler(protocol: ProtocolId) returns (err: bool)
      modifies this, protocolBook
      ensures View() == Do(old(View()), UnregisterOp(protocol)) && (err <==> protocol !in old(handlers))
      ensures handlers == old(handlers) - {protocol} && log == old(log)
      ensures !err && self != [] ==> Of(protocolBook.book, self) == Of(old(protocolBook.book), self) - {protocol}
      ensures forall pid :: err || pid != self || self == [] ==> Of(protocolBook.book, pid) == Of(old(protocolBook.book), pid)
    {
      if protocol !in handlers {
        return true;
      }
      handlers := handlers - {protocol};
      if self != [] {
        protocolBook.DeleteProtocol(self, [protocol]);
        assert Elements([protocol]) == {protocol};
      }
      err := false;
    }

    method NotifyIfChanged(pid: PeerId, protocols: seq<ProtocolId>) returns (ghost order: seq<ProtocolId>)
      modifies this`log
      ensures Enumerates(order, Of(protocolBook.book, pid) - Elements(protocols))
      ensures protocols == [] ==> log == old(log)
      ensures protocols != [] ==>
                log == old(log) + (if supportedCallback then Announced(protocols, Of(protocolBook.book, pid), pid) else [])
                                + (if unsupportedCallback then Withdrawn(order, pid) else [])
    {
      var supported := protocolBook.GetProtocols(pid);
      var unsupported := ExcludeAll(supported, protocols);
      order := unsupported;
      if |protocols| == 0 {
        return;
      }
      ghost var known := Of(protocolBook.book, pid);
      if supportedCallback {
        for i := 0 to |protocols|
          invariant log == old(log) + Announced(protocols[..i], known, pid)
        {
          assert protocols[..i + 1][..i] == protocols[..i];
          var contained := protocolBook.ContainsProtocol(pid, protocols[i]);
          if !contained {
            log := log + [Event(true, protocols[i], pid)];
          }
        }
        assert protocols[..|protocols|] == protocols;
      }
      if unsupportedCallback {
        Withdraw(unsupported, pid);
      }
    }

    static method ExcludeAll(list: seq<ProtocolId>, remove: seq<ProtocolId>) returns (res: seq<ProtocolId>)
      requires NoDuplicates(list)
      ensures Enumerates(res, Elements(list) - Elements(remove))
    {
      res := [];
      for i := 0 to |list|
        invariant Enumerates(res, Elements(list[..i]) - Elements(remove))
      {
        assert list[..i + 1] == list[..i] + [list[i]];
        assert list[i] !in Elements(list[..i]);
        if list[i] !in remove {
          assert Elements(res + [list[i]]) == Elements(res) + {list[i]};
          res := res + [list[i]];
        }
      }
      assert list[..|list|] == list;
    }

    method Withdraw(order: seq<ProtocolId>, pid: PeerId)
      modifies this`log
      ensures log == old(log) + Withdrawn(order, pid)
    {
      for i := 0 to |order|
        invariant log == old(log) + Withdrawn(order, pid)[..i]
      {
        log := log + [Event(false, order[i], pid)];
      }
    }

    method SetSupportedProtocolsOfPeer(pid: PeerId, protocols: seq<ProtocolId>) returns (ghost order: seq<ProtocolId>)
      modifies this`log, protocolBook
      ensures CanDo(old(View()), SetOp(pid, protocols, order))
      ensures supportedCallback && unsupportedCallback ==> View() == Do(old(View()), SetOp(pid, protocols, order))
      ensures View().(log := []) == Do(old(View()), SetOp(pid, protocols, order)).(log := [])
      ensures protocolBook.book == old(protocolBook.book)[pid := Elements(protocols)]
      ensures log == old(log)
                     + (if supportedCallback && protocols != [] then Announced(protocols, Of(old(protocolBook.book), pid), pid) else [])
                     + (if unsupportedCallback && protocols != [] then Withdrawn(order, pid) else [])
    {
      order := NotifyIfChanged(pid, protocols);
      protocolBook.SetProtocols(pid, protocols);
    }

    /** Without an unsupported callback this panics as soon as there is something to announce, and clears nothing. */
    method CleanPeer(pid: PeerId) returns (panicked: bool, ghost order: seq<ProtocolId>)
      modifies this`log, protocolBook
      ensures panicked <==> !unsupportedCallback && Of(old(protocolBook.book), pid) != {}
      ensures panicked ==> View() == old(View())
      ensures !panicked ==> CanDo(old(View()), CleanOp(pid, order)) && View() == Do(old(View()), CleanOp(pid, order))
      ensures !panicked ==> protocolBook.book == old(protocolBook.book) - {pid} && log == old(log) + Withdrawn(order, pid)
    {
      var supported := protocolBook.GetProtocols(pid);
      order := supported;
      if |supported| > 0 && !unsupportedCallback {
        assert supported[0] in Elements(supported);
        return true, order;
      }
      Withdraw(supported, pid);
      protocolBook.ClearProtocol(pid);
      panicked := false;
    }

    method SetCallbacks(supported: bool, unsupported: bool)
      modifies this`supportedCallback, this`unsupportedCallback
      ensures supportedCallback == supported && unsupportedCallback == unsupported
    {
      supportedCallback, unsupportedCallback := supported, unsupported;
    }
  }
}
