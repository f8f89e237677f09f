/** Properties of the gateway over sequences of events: the backoff schedule
    of consecutive closes, the subscription set surviving reconnects, the
    replay sending each symbol once, listener removal, and what the copy
    without the news side-channel can and cannot do. */
module GatewayTraces {
  import opened Wrappers
  import opened Frames
  import opened StreamGateway

  /** The state after a run of events, and the effects of each event. */
  datatype Trace = Trace(final: Gateway, fxs: seq<Effects>)

  predicate AllWellFormed(evs: seq<Event>) {
    forall i :: 0 <= i < |evs| ==> WellFormedEvent(evs[i])
  }

  /** Feeds the events to the gateway one after the other. Along the way the
      state invariant holds and no symbol ever leaves the active set. */
  function Run(g: Gateway, evs: seq<Event>): (r: Trace)
    requires AllWellFormed(evs)
    ensures |r.fxs| == |evs|
    ensures Valid(g) ==> Valid(r.final)
    ensures r.final.flavor == g.flavor
    ensures Elems(g.active) <= Elems(r.final.active)
    decreases |evs|
  {
    if evs == [] then Trace(g, [])
    else
      var t := Step(g, evs[0]);
      var rest := Run(t.next, evs[1..]);
      Trace(rest.final, [t.fx] + rest.fxs)
  }

  /** One step of a run: the first event, then the run of the rest. */
  lemma RunCons(g: Gateway, evs: seq<Event>)
    requires AllWellFormed(evs) && evs != []
    ensures WellFormedEvent(evs[0]) && AllWellFormed(evs[1..])
    ensures Run(g, evs).final == Run(Step(g, evs[0]).next, evs[1..]).final
    ensures Run(g, evs).fxs == [Step(g, evs[0]).fx] + Run(Step(g, evs[0]).next, evs[1..]).fxs
  {
    assert forall i :: 0 <= i < |evs[1..]| ==> evs[1..][i] == evs[i + 1];
  }

  /** Every symbol subscribed during a run, by `subscribeTicker` or as the
      fixed symbol of `subscribeForex`, is still subscribed at its end,
      whatever reconnects, closes and unsubscribes come after. */
  lemma {:induction false} SubscriptionsSurvive(g: Gateway, evs: seq<Event>)
    requires AllWellFormed(evs)
    ensures forall i :: 0 <= i < |evs| && evs[i].CallSubscribeTicker? ==>
      evs[i].symbol in Run(g, evs).final.active
    ensures forall i :: 0 <= i < |evs| && evs[i].CallSubscribeForex? ==>
      ForexSymbol in Run(g, evs).final.active
    decreases |evs|
  {
    if evs != [] {
      var t := Step(g, evs[0]);
      var tail := evs[1..];
      RunCons(g, evs);
      SubscriptionsSurvive(t.next, tail);
      var last := Run(g, evs).final.active;
      assert Elems(t.next.active) <= Elems(last);
      if evs[0].CallSubscribeTicker? {
        assert evs[0].symbol in Elems(t.next.active);
      }
      if evs[0].CallSubscribeForex? {
        assert ForexSymbol in Elems(t.next.active);
      }
      forall i | 0 < i < |evs|
        ensures evs[i] == tail[i - 1]
      {
      }
    }
  }

  /** The number of close events in a run of events. */
  function Closes(evs: seq<Event>): nat {
    if evs == [] then 0 else (if evs[0].SocketClose? then 1 else 0) + Closes(evs[1..])
  }

  lemma {:induction false} ClosesAppend(a: seq<Event>, b: seq<Event>)
    ensures Closes(a + b) == Closes(a) + Closes(b)
  {
    if a != [] {
      assert (a + b)[1..] == a[1..] + b;
      ClosesAppend(a[1..], b);
    } else {
      assert a + b == b;
    }
  }

  lemma ClosesPrefixMonotone(evs: seq<Event>, i: nat, j: nat)
    requires i <= j <= |evs|
    ensures Closes(evs[..i]) <= Closes(evs[..j])
  {
    assert evs[..j] == evs[..i] + evs[i..j];
    ClosesAppend(evs[..i], evs[i..j]);
  }

  /** Counting the closes before position `i` of a run: the first event,
      then the closes before position `i - 1` of the rest. */
  lemma ClosesBefore(evs: seq<Event>, i: nat)
    requires 0 < i <= |evs|
    ensures Closes(evs[..i]) == (if evs[0].SocketClose? then 1 else 0) + Closes(evs[1..][..i - 1])
  {
    assert evs[..i] == [evs[0]] + evs[1..][..i - 1];
    ClosesAppend([evs[0]], evs[1..][..i - 1]);
  }

  predicate NoOpens(evs: seq<Event>) {
    forall i :: 0 <= i < |evs| ==> !evs[i].SocketOpen?
  }

  // ---------------------------------------------------------------------
  // Backoff over runs: the attempt counter and the scheduled retries depend
  // on the open and close events only, so they are stated first as a pure
  // schedule over the events and then tied to `Run`.

  /** The attempt counter after one event: an open resets it, a close adds
      one, nothing else touches it. */
  function NextAttempts(a: nat, ev: Event): nat {
    if ev.SocketOpen? then 0 else if ev.SocketClose? then a + 1 else a
  }

  /** The retry one event schedules: only a close does, after the delay for
      the incremented counter. */
  function RetryFor(a: nat, ev: Event): Option<nat> {
    if ev.SocketClose? then Some(RetryDelay(a + 1)) else None
  }

  function AttemptsAfter(a: nat, evs: seq<Event>): nat
    decreases |evs|
  {
    if evs == [] then a else AttemptsAfter(NextAttempts(a, evs[0]), evs[1..])
  }

  /** The retries a run of events schedules, one entry per event. */
  function Retries(a: nat, evs: seq<Event>): (r: seq<Option<nat>>)
    ensures |r| == |evs|
    decreases |evs|
  {
    if evs == [] then [] else [RetryFor(a, evs[0])] + Retries(NextAttempts(a, evs[0]), evs[1..])
  }

  /** Every event moves the counter and schedules retries as the pure
      schedule says. */
  lemma StepRetry(g: Gateway, ev: Event)
    requires WellFormedEvent(ev)
    ensures Step(g, ev).next.reconnectAttempts == NextAttempts(g.reconnectAttempts, ev)
    ensures Step(g, ev).fx.retryIn == RetryFor(g.reconnectAttempts, ev)
  {
  }

  /** The gateway follows the pure schedule over any run. */
  lemma {:induction false} RetriesMatch(g: Gateway, evs: seq<Event>)
    requires AllWellFormed(evs)
    ensures Run(g, evs).final.reconnectAttempts == AttemptsAfter(g.reconnectAttempts, evs)
    ensures forall i {:trigger Run(g, evs).fxs[i]} :: 0 <= i < |evs| ==>
      Run(g, evs).fxs[i].retryIn == Retries(g.reconnectAttempts, evs)[i]
    decreases |evs|
  {
    if evs != [] {
      var t := Step(g, evs[0]);
      RunCons(g, evs);
      StepRetry(g, evs[0]);
      RetriesMatch(t.next, evs[1..]);
      var fxs := Run(g, evs).fxs;
      var later := Run(t.next, evs[1..]).fxs;
      var sched := Retries(g.reconnectAttempts, evs);
      var laterSched := Retries(t.next.reconnectAttempts, evs[1..]);
      assert sched == [RetryFor(g.reconnectAttempts, evs[0])] + laterSched;
      forall i | 0 < i < |evs| ensures fxs[i].retryIn == sched[i] {
        assert fxs[i] == later[i - 1] && sched[i] == laterSched[i - 1];
      }
    }
  }

  /** The retry event `i` of a run without opens schedules when the counter
      started at `a`: a close waits the delay for `a` plus the closes before
      it plus one, any other event schedules nothing. */
  function CloseRetry(a: nat, evs: seq<Event>, i: nat): Option<nat>
    requires i < |evs|
  {
    if evs[i].SocketClose? then Some(RetryDelay(a + Closes(evs[..i]) + 1)) else None
  }

  /** Without opens, the counter grows by the number of closes and each close
      waits the delay for the closes so far plus one. */
  lemma {:induction false} RetriesWithoutOpen(a: nat, evs: seq<Event>)
    requires NoOpens(evs)
    ensures AttemptsAfter(a, evs) == a + Closes(evs)
    ensures forall i {:trigger Retries(a, evs)[i]} :: 0 <= i < |evs| ==>
      Retries(a, evs)[i] == CloseRetry(a, evs, i)
    decreases |evs|
  {
    if evs != [] {
      var tail := evs[1..];
      var a' := NextAttempts(a, evs[0]);
      assert NoOpens(tail) by {
        assert forall i :: 0 <= i < |tail| ==> tail[i] == evs[i + 1];
      }
      RetriesWithoutOpen(a', tail);
      forall i | 0 < i < |evs|
        ensures Retries(a, evs)[i] ==
          (if evs[i].SocketClose? then Some(RetryDelay(a + Closes(evs[..i]) + 1)) else None)
      {
        assert Retries(a, evs)[i] == Retries(a', tail)[i - 1];
        assert evs[i] == tail[i - 1];
        ClosesBefore(evs, i);
      }
    }
  }

  /** In a run without opens (calls, frames, timers, CLOSING and closes of any
      socket, in any order) the counter grows by the number of closes, each
      close schedules its retry after the delay for the count so far plus one,
      and no other event schedules anything. */
  lemma AttemptsCountCloses(g: Gateway, evs: seq<Event>)
    requires AllWellFormed(evs) && NoOpens(evs)
    ensures Run(g, evs).final.reconnectAttempts == g.reconnectAttempts + Closes(evs)
    ensures forall i {:trigger Run(g, evs).fxs[i]} :: 0 <= i < |evs| ==>
      Run(g, evs).fxs[i].retryIn == CloseRetry(g.reconnectAttempts, evs, i)
  {
    RetriesMatch(g, evs);
    RetriesWithoutOpen(g.reconnectAttempts, evs);
    var fxs := Run(g, evs).fxs;
    var sched := Retries(g.reconnectAttempts, evs);
    forall i | 0 <= i < |evs| ensures fxs[i].retryIn == CloseRetry(g.reconnectAttempts, evs, i) {
      assert fxs[i].retryIn == sched[i];
    }
  }

  predicate OpenThenNoOpens(evs: seq<Event>) {
    |evs| >= 1 && evs[0].SocketOpen? && NoOpens(evs[1..])
  }

  /** The pure schedule after an open: the k-th close waits the delay for k
      and nothing else schedules a retry. */
  lemma ScheduleAfterOpen(a: nat, evs: seq<Event>)
    requires OpenThenNoOpens(evs)
    ensures forall n :: 1 <= n < |evs| ==>
      Retries(a, evs)[n] == (if evs[n].SocketClose? then Some(RetryDelay(Closes(evs[1..n]) + 1)) else None)
  {
    var tail := evs[1..];
    RetriesWithoutOpen(0, tail);
    assert Retries(a, evs) == [None] + Retries(0, tail);
    forall n | 1 <= n < |evs|
      ensures Retries(a, evs)[n] ==
        (if evs[n].SocketClose? then Some(RetryDelay(Closes(evs[1..n]) + 1)) else None)
    {
      assert Retries(a, evs)[n] == Retries(0, tail)[n - 1];
      assert evs[n] == tail[n - 1] && evs[1..n] == tail[..n - 1];
    }
  }

  /** A later close has seen at least as many closes, so it never waits
      less. */
  lemma DelayGrowsWithCloses(evs: seq<Event>, n: nat, m: nat)
    requires 1 <= n <= m <= |evs|
    ensures RetryDelay(Closes(evs[1..n]) + 1) <= RetryDelay(Closes(evs[1..m]) + 1)
  {
    ClosesPrefixMonotone(evs[1..], n - 1, m - 1);
    assert evs[1..n] == evs[1..][..n - 1] && evs[1..m] == evs[1..][..m - 1];
    RetryDelayMonotone(Closes(evs[1..n]) + 1, Closes(evs[1..m]) + 1);
  }

  /** Once an open has reset the counter, the k-th close after it waits
      min(1000 * 2^k, 30000) ms, whatever calls, frames or timers come in
      between (in particular the `connect` of each retry): 2 s for the first
      close, never less than an earlier close, never more than 30 s. */
  lemma BackoffAfterOpen(g: Gateway, evs: seq<Event>)
    requires AllWellFormed(evs) && OpenThenNoOpens(evs)
    ensures forall n :: 1 <= n < |evs| && evs[n].SocketClose? ==>
      Run(g, evs).fxs[n].retryIn == Some(RetryDelay(Closes(evs[1..n]) + 1))
    ensures forall n :: 1 <= n < |evs| && !evs[n].SocketClose? ==> Run(g, evs).fxs[n].retryIn.None?
    ensures forall n :: 1 <= n < |evs| && evs[n].SocketClose? && Closes(evs[1..n]) == 0 ==>
      Run(g, evs).fxs[n].retryIn == Some(2000)
    ensures forall n, m :: 1 <= n <= m < |evs| && evs[n].SocketClose? && evs[m].SocketClose? ==>
      Run(g, evs).fxs[n].retryIn.value <= Run(g, evs).fxs[m].retryIn.value <= MaxDelayMs
  {
    RetriesMatch(g, evs);
    ScheduleAfterOpen(g.reconnectAttempts, evs);
    RetryDelayTable();
    forall n, m | 1 <= n <= m < |evs|
      ensures RetryDelay(Closes(evs[1..n]) + 1) <= RetryDelay(Closes(evs[1..m]) + 1)
    {
      DelayGrowsWithCloses(evs, n, m);
    }
  }

  /** The reconnection cycle as it happens: open, then close, retry
      `connect`, close, retry `connect`, close. The three closes wait 2 s,
      4 s and 8 s. */
  lemma RetryCycleScenario(g: Gateway, s0: nat, s1: nat, s2: nat, s3: nat)
    ensures AllWellFormed([SocketOpen(s0), SocketClose(s0), CallConnect, SocketClose(s1),
                           CallConnect, SocketClose(s2)])
    ensures var r := Run(g, [SocketOpen(s0), SocketClose(s0), CallConnect, SocketClose(s1),
                             CallConnect, SocketClose(s2)]);
      && r.fxs[1].retryIn == Some(2000) && r.fxs[2].retryIn.None?
      && r.fxs[3].retryIn == Some(4000) && r.fxs[5].retryIn == Some(8000)
  {
    var evs := [SocketOpen(s0), SocketClose(s0), CallConnect, SocketClose(s1), CallConnect, SocketClose(s2)];
    assert AllWellFormed(evs);
    BackoffAfterOpen(g, evs);
    var one := [CallConnect];
    assert Closes(one) == 0 by { assert one[1..] == []; }
    var two := [SocketClose(s1)] + one;
    assert Closes(two) == 1 by { assert two[1..] == one; }
    var three := [CallConnect] + two;
    assert Closes(three) == 1 by { assert three[1..] == two; }
    var four := [SocketClose(s0)] + three;
    assert Closes(four) == 2 by { assert four[1..] == three; }
    assert Closes([SocketClose(s0)] + one) == 1 by {
      assert ([SocketClose(s0)] + one)[1..] == one;
    }
    assert evs[1..1] == [];
    assert evs[1..3] == [SocketClose(s0)] + one;
    assert evs[1..5] == four;
    RetryDelayTable();
  }

  /** While the current socket is CLOSING, `subscribeTicker` only records the
      symbol and sends nothing. */
  lemma ClosingSocketTakesNoFrames(g: Gateway, sock: nat, s: Symbol)
    requires IsCurrent(g, sock)
    ensures var t := SubscribeTicker(OnClosing(g, sock).next, s);
      t.fx.sent == [] && s in t.next.active
  {
  }

  /** While the current socket is CLOSING, `connect` does not wait for it but
      creates a new socket at once. */
  lemma ConnectReplacesClosingSocket(g: Gateway, sock: nat)
    requires IsCurrent(g, sock)
    ensures Connect(OnClosing(g, sock).next).next.socket == Some(Socket(g.created, Connecting))
  {
  }

  /** Subscribing a symbol any number of times before an open still replays
      it exactly once on that open. */
  lemma SubscribeTwiceReplayOnce(g: Gateway, s: Symbol, sock: nat)
    requires Valid(g) && IsCurrent(g, sock)
    ensures
      var g2 := SubscribeTicker(SubscribeTicker(g, s).next, s).next;
      multiset(OnOpen(g2, sock).fx.sent)[SubscribeFrame(s)] == 1
  {
    var g2 := SubscribeTicker(SubscribeTicker(g, s).next, s).next;
    ReplayOncePerSymbol(g2.active, s);
  }

  /** An open of the current socket sends one subscribe frame per active
      symbol, none for any other symbol, and leaves the set as it was. */
  lemma OpenReplaysEachSymbolOnce(g: Gateway, sock: nat, x: Symbol)
    requires Valid(g) && IsCurrent(g, sock)
    ensures OnOpen(g, sock).next.active == g.active
    ensures multiset(OnOpen(g, sock).fx.sent)[SubscribeFrame(x)] == if x in g.active then 1 else 0
  {
    ReplayOncePerSymbol(g.active, x);
  }

  /** Calling the unsubscribe handle a second time changes nothing. */
  lemma UnsubscribeIdempotent(g: Gateway, id: ListenerId)
    ensures Unsubscribe(Unsubscribe(g, id).next, id) == Unsubscribe(g, id)
  {
    WithoutAbsent(Without(g.listeners, id), id);
  }

  /** Unsubscribing one callback leaves the later deliveries to the others in
      registration order: removing `id` from a registry made of two parts
      removes it from each part. */
  lemma UnsubscribeKeepsOrder(a: seq<ListenerId>, b: seq<ListenerId>, id: ListenerId, g: Gateway)
    requires g.listeners == a + [id] + b
    requires id !in a && id !in b
    ensures Unsubscribe(g, id).next.listeners == a + b
  {
    WithoutDistributes(a + [id], b, id);
    WithoutDistributes(a, [id], id);
    WithoutAbsent(a, id);
    WithoutAbsent(b, id);
    assert Without([id], id) == [];
  }

  /** A frame that fails to parse neither changes the state nor reaches a
      listener, so whatever comes next behaves as if it had never arrived. */
  lemma MalformedFrameInvisible(g: Gateway, sock: nat, now: int, ev: Event)
    requires WellFormedEvent(ev)
    ensures Run(g, [SocketMessage(sock, now, Malformed), ev]).final == Step(g, ev).next
    ensures Run(g, [SocketMessage(sock, now, Malformed), ev]).fxs == [NoEffects, Step(g, ev).fx]
  {
    var evs := [SocketMessage(sock, now, Malformed), ev];
    assert Step(g, evs[0]) == Transition(g, NoEffects);
    assert evs[1..] == [ev];
    var t := Step(g, ev);
    assert [ev][1..] == [];
    assert Run(t.next, []) == Trace(t.next, []);
    assert Run(g, [ev]) == Trace(t.next, [t.fx]);
    assert Run(g, evs) == Trace(t.next, [NoEffects, t.fx]);
  }

  /** In the copy without a news side-channel, listeners are only ever called
      in response to a socket frame: no public call, open, close or timer
      reaches them. */
  lemma RealtimeDeliversOnlyFrames(g: Gateway, ev: Event)
    requires Valid(g) && g.flavor == Realtime && WellFormedEvent(ev)
    ensures Step(g, ev).fx.delivered != [] ==> ev.SocketMessage? && !ev.frame.Malformed?
  {
  }

  /** In the copy without a news side-channel an open does exactly two things
      to the gateway: it resets the attempt counter and replays the active
      set (and marks the current socket open). */
  lemma RealtimeOpenOnlyResetsAndReplays(g: Gateway, sock: nat)
    requires Valid(g) && g.flavor == Realtime && IsCurrent(g, sock)
    ensures OnOpen(g, sock).next == g.(socket := Some(Socket(sock, Open)), reconnectAttempts := 0)
    ensures OnOpen(g, sock).fx == Effects(Replay(g.active), [], None)
  {
  }

  /** In the copy without a news side-channel a close only marks the current
      socket closed, bumps the attempt counter and schedules the retry. */
  lemma RealtimeCloseOnlyBacksOff(g: Gateway, sock: nat)
    requires Valid(g) && g.flavor == Realtime && IsCurrent(g, sock)
    ensures OnClose(g, sock).next
      == g.(socket := Some(Socket(sock, Closed)), reconnectAttempts := g.reconnectAttempts + 1)
    ensures OnClose(g, sock).fx == Effects([], [], Some(RetryDelay(g.reconnectAttempts + 1)))
  {
  }

  /** News interval life cycle of the market-stream copy: at most one interval
      (the flag), started by an open, stopped by a close, restarted by the
      next open. */
  lemma NewsIntervalLifecycle(g: Gateway, s1: nat, s2: nat, s3: nat)
    requires g.flavor == MarketStream
    ensures OnOpen(g, s1).next.newsInterval
    ensures OnOpen(OnOpen(g, s1).next, s2).next.newsInterval
    ensures !OnClose(OnOpen(g, s1).next, s2).next.newsInterval
    ensures OnOpen(OnClose(OnOpen(g, s1).next, s2).next, s3).next.newsInterval
  {
  }

  /** Two trade frames 100 ms apart: the second is dropped; a third 1100 ms
      after the first is delivered. A news item 10 ms after a delivered trade
      is still delivered. */
  lemma ThrottleScenario(g: Gateway, t0: int, sock: nat, tr: seq<Tick>, item: NewsPayload)
    requires t0 - g.lastUpdate >= ThrottleMs && g.listeners != []
    ensures
      var a := OnMessage(g, sock, t0, Trade(tr));
      var b := OnMessage(a.next, sock, t0 + 100, Trade(tr));
      var c := OnMessage(b.next, sock, t0 + 1100, Trade(tr));
      var n := OnMessage(a.next, sock, t0 + 10, News(item));
      && a.fx.delivered != [] && b.fx.delivered == [] && c.fx.delivered != []
      && n.fx.delivered != []
  {
  }
}
