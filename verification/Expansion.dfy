// How far one expand signal takes the pool: expandCheck, expandStream and
// expandLoop of components/send_stream_pool.go, with nobody borrowing and every
// open succeeding.
module Expansion {
  import opened SendStreamPool

  ghost predicate Running(w: World) {
    Conserved(w) && w.pool.looping && !w.pool.closed
  }

  /** One turn of the loop: take the signal, check, and expand if the check says so. */
  function Taken(w: World): World {
    w.(pool := w.pool.(signal := false))
  }

  function Round(w: World): World
    requires w.pool.looping && ExpandSize(w.pool) >= 0
  {
    Apply(w, Expand(ExpandSize(w.pool), Expanded(true)))
  }

  lemma RoundGrows(w: World)
    requires Running(w) && NeedsExpand(w.pool)
    ensures Running(Round(w)) && Round(w).lent == w.lent
    ensures Round(w).pool == w.pool.(queue := Round(w).pool.queue, signal := true,
                                     idle := w.pool.idle + ExpandSize(w.pool), current := w.pool.current + ExpandSize(w.pool))
    ensures 1 <= ExpandSize(w.pool) <= ExpandStep(w.pool.initSize)
  {
    StepConserves(w, Expand(ExpandSize(w.pool), Expanded(true)));
    OpenedNConserves(w, ExpandSize(w.pool));
  }

  /** The pool after the loop has run dry. */
  ghost function Settled(w: World): World
    requires Running(w)
    decreases w.pool.maxSize - w.pool.current
  {
    if NeedsExpand(w.pool) then
      RoundGrows(Taken(w));
      Settled(Round(Taken(w)))
    else Taken(w)
  }

  ghost function Rounds(w: World): nat
    requires Running(w)
    decreases w.pool.maxSize - w.pool.current
  {
    if NeedsExpand(w.pool) then
      RoundGrows(Taken(w));
      1 + Rounds(Round(Taken(w)))
    else 0
  }

  /**
   * One signal is enough. After at most maxSize - currentSize rounds more than a
   * fifth of the streams is idle or the pool is full, and if it grew at all it grew
   * past the threshold by no more than one step. Lent streams are not touched.
   */
  lemma {:induction false} ExpansionConverges(w: World)
    requires Running(w)
    ensures var v := Settled(w);
            && Running(v) && !v.pool.signal && !NeedsExpand(v.pool)
            && (v.pool.current > 0 ==> v.pool.idle > (v.pool.current + 2) / 5 || v.pool.current == v.pool.maxSize)
            && (v.pool.current > w.pool.current ==>
                  v.pool.idle - (v.pool.current + 2) / 5 <= ExpandStep(w.pool.initSize))
            && v.pool.current - v.pool.idle == w.pool.current - w.pool.idle && v.lent == w.lent
            && v.pool.current >= w.pool.current
            && v.pool.initSize == w.pool.initSize && v.pool.maxSize == w.pool.maxSize
    ensures Rounds(w) <= w.pool.maxSize - w.pool.current
    decreases w.pool.maxSize - w.pool.current
  {
    ThresholdInIntegers(w.pool.current);
    if NeedsExpand(w.pool) {
      var u := Round(Taken(w));
      RoundGrows(Taken(w));
      ThresholdInIntegers(u.pool.current);
      ExpansionConverges(u);
      assert Settled(w) == Settled(u);
    }
  }

  /** The turns of the loop are steps of the pool's machine: takes of the signal and expansions. */
  lemma {:induction false} SettlingIsARun(w: World) returns (run: seq<Action>)
    requires Running(w) && w.pool.signal
    ensures Possible(w, run) && After(w, run) == Settled(w)
    ensures forall i :: 0 <= i < |run| ==> run[i].TakeSignal? || run[i].Expand?
    decreases w.pool.maxSize - w.pool.current
  {
    var v := Apply(w, TakeSignal);
    assert v == Taken(w);
    var rest: seq<Action> := [];
    if NeedsExpand(w.pool) {
      RoundGrows(v);
      var expand := Expand(ExpandSize(v.pool), Expanded(true));
      var more := SettlingIsARun(Apply(v, expand));
      rest := [expand] + more;
      assert rest[1..] == more;
      assert Possible(v, rest) && After(v, rest) == Settled(w);
    } else {
      assert Possible(v, rest) && After(v, rest) == Settled(w);
    }
    run := [TakeSignal] + rest;
    assert run[1..] == rest;
  }

  method RunExpandLoop(pool: SendStreamPool)
    requires Running(pool.View()) && pool.conn.reliable && pool.nilGuard && pool.expandingSignalC
    modifies pool, pool.conn
    ensures pool.View() == Settled(old(pool.View()))
  {
    ghost var w := pool.View();
    while pool.expandingSignalC
      invariant Running(pool.View()) && pool.maxSize == w.pool.maxSize
      invariant pool.expandingSignalC ==> Settled(pool.View()) == Settled(w)
      invariant !pool.expandingSignalC ==> pool.View() == Settled(w)
      decreases pool.maxSize - pool.currentSize, pool.expandingSignalC
    {
      ghost var v := pool.View();
      pool.expandingSignalC := false;
      var expand := pool.ExpandCheck();
      if expand {
        RoundGrows(Taken(v));
        var _, end := pool.ExpandStream();
        assert end == Expanded(true);
      }
    }
  }

  // ---------------------------------------------------------------- the loop as the code stands

  /** The one round the unguarded loop survives: its first successful open is its last. */
  function OneShot(w: World): World
    requires w.pool.looping && ExpandSize(w.pool) >= 1
  {
    Apply(w, Expand(1, Crashed))
  }

  /** Without the guard on nil errors a signal reaches the goal only when a single stream was missing. */
  lemma UnguardedSettlesIff(w: World)
    requires Running(w) && NeedsExpand(w.pool)
    ensures ExpandSize(w.pool) >= 1
    ensures !NeedsExpand(OneShot(w).pool) <==>
            || w.pool.current + 1 == w.pool.maxSize
            || (w.pool.idle == (w.pool.current + 2) / 5 && w.pool.current % 5 != 2)
    ensures !OneShot(w).pool.looping
  {
    assert OpenedN(w, 1) == Opened(w) by {
      assert OpenedN(w, 0) == w;
    }
    ThresholdInIntegers(w.pool.current);
    ThresholdInIntegers(w.pool.current + 1);
  }

  /** Once the loop is gone, no run makes the pool grow again. */
  lemma {:induction false} DeadLoopNeverGrows(w: World, run: seq<Action>)
    requires Conserved(w) && w.pool.initialised && !w.pool.looping && Possible(w, run)
    ensures var v := After(w, run); v.pool.current <= w.pool.current && v.next == w.next && !v.pool.looping
    decreases |run|
  {
    if run != [] {
      StepConserves(w, run[0]);
      var v := Apply(w, run[0]);
      assert v.pool.initialised && !v.pool.looping && v.pool.current <= w.pool.current by {
        if run[0].Drop? {
          DropNeverClamps(w, run[0].s);
        }
      }
      DeadLoopNeverGrows(v, run[1..]);
    }
  }

  /** For instance a pool of ten, all lent out, with room for twenty. */
  lemma UnguardedPoolStarves()
    ensures var w := World(Pool(10, 20, 0, 10, [], false, true, true, true), {0, 1, 2, 3, 4, 5, 6, 7, 8, 9}, {}, 10);
            && Running(w) && NeedsExpand(w.pool)
            && ExpandSize(w.pool) == 5
            && NeedsExpand(OneShot(w).pool) && OneShot(w).pool.idle == 1
  {
    var lent := {0, 1, 2, 3, 4, 5, 6, 7, 8, 9};
    assert |lent| == 10;
    var w := World(Pool(10, 20, 0, 10, [], false, true, true, true), lent, {}, 10);
    ThresholdInIntegers(10);
    UnguardedSettlesIff(w);
    assert OpenedN(w, 1) == Opened(w) by {
      assert OpenedN(w, 0) == w;
    }
  }

  /** And the code does just that: the goroutine is dead after one stream, wherever the pool stood. */
  method RunUnguardedLoop(pool: SendStreamPool)
    requires Running(pool.View()) && pool.conn.reliable && !pool.nilGuard
    requires pool.expandingSignalC && NeedsExpand(pool.View().pool)
    modifies pool, pool.conn
    ensures ExpandSize(old(pool.View()).pool) >= 1
    ensures pool.View() == OneShot(Taken(old(pool.View())))
  {
    RoundGrows(Taken(pool.View()));
    pool.expandingSignalC := false;
    var expand := pool.ExpandCheck();
    if expand {
      var _, _ := pool.ExpandStream();
    }
  }
}
