/**
 The relay between a run and the consumer of its event stream, as a process over three channels:
 the run sends into a bounded buffer, the relay moves events into a queue of its own and offers
 the first of them to the consumer, and the consumer may stop delivery at any time.
 */
module StreamRelay {
  const StreamBuffer: nat := 64

  /**
   The channels and the relay's variables. `discarded` is the consumer's signal, `discarding` the
   relay's own flag; `receiving` says that `pending` has not been set to nil.
   */
  datatype State<T> = State(
    sent: seq<T>, buffer: seq<T>, closed: bool,
    discarded: bool,
    queue: seq<T>, receiving: bool, discarding: bool,
    delivered: seq<T>, eventsClosed: nat, done: bool)

  datatype Event<T> =
    | Send(item: T) | CloseSender | Discard
    | TakeDiscard | Receive | Deliver | Drain | Exit

  function Init<T>(): State<T> {
    State([], [], false, false, [], true, false, [], 0, false)
  }

  predicate Looping<T(==)>(s: State<T>) {
    !s.done && (s.receiving || (!s.discarding && s.queue != []))
  }

  /** A receive from `pending` returns at once: with an event, or because the channel is closed. */
  predicate CanReceive<T(==)>(s: State<T>) {
    s.receiving && (s.buffer != [] || s.closed)
  }

  predicate Enabled<T(==)>(s: State<T>, e: Event<T>) {
    match e
    case Send(_) => !s.closed && |s.buffer| < StreamBuffer
    case CloseSender => !s.closed
    case Discard => true
    case TakeDiscard => Looping(s) && !s.discarding && s.discarded
    case Receive => Looping(s) && !s.discarding && CanReceive(s)
    case Deliver => Looping(s) && !s.discarding && s.queue != []
    case Drain => Looping(s) && s.discarding && CanReceive(s)
    case Exit => !s.done && !Looping(s)
  }

  function Apply<T(==)>(s: State<T>, e: Event<T>): State<T>
    requires Enabled(s, e)
  {
    match e
    case Send(item) => s.(sent := s.sent + [item], buffer := s.buffer + [item])
    case CloseSender => s.(closed := true)
    case Discard => s.(discarded := true)
    case TakeDiscard => s.(queue := [], discarding := true, eventsClosed := s.eventsClosed + 1)
    case Receive =>
      if s.buffer == [] then s.(receiving := false)
      else s.(queue := s.queue + [s.buffer[0]], buffer := s.buffer[1..])
    case Deliver => s.(delivered := s.delivered + [s.queue[0]], queue := s.queue[1..])
    case Drain => if s.buffer == [] then s.(receiving := false) else s.(buffer := s.buffer[1..])
    case Exit => s.(done := true, eventsClosed := if s.discarding then s.eventsClosed else s.eventsClosed + 1)
  }

  /** A run of the system; an event that is not enabled does not happen. */
  function Exec<T(==)>(s: State<T>, es: seq<Event<T>>): State<T>
    decreases es
  {
    if es == [] then s
    else Exec(if Enabled(s, es[0]) then Apply(s, es[0]) else s, es[1..])
  }

  lemma {:induction false} ExecConcat<T>(s: State<T>, xs: seq<Event<T>>, ys: seq<Event<T>>)
    ensures Exec(s, xs + ys) == Exec(Exec(s, xs), ys)
    decreases xs
  {
    if xs == [] {
      assert xs + ys == ys;
    } else {
      assert (xs + ys)[0] == xs[0] && (xs + ys)[1..] == xs[1..] + ys;
      ExecConcat(if Enabled(s, xs[0]) then Apply(s, xs[0]) else s, xs[1..], ys);
    }
  }

  predicate Prefix<T(==)>(xs: seq<T>, ys: seq<T>) {
    |xs| <= |ys| && xs == ys[..|xs|]
  }

  /** What holds in every reachable state. */
  predicate Inv<T(==)>(s: State<T>) {
    && (!s.discarding ==> s.sent == s.delivered + s.queue + s.buffer)
    && (s.discarding ==> s.queue == [] && s.discarded)
    && Prefix(s.delivered, s.sent)
    && (!s.receiving ==> s.closed && s.buffer == [])
    && s.eventsClosed == (if s.discarding || s.done then 1 else 0)
    && (s.done ==> !s.receiving && s.queue == [])
  }

  lemma InvStep<T>(s: State<T>, e: Event<T>)
    requires Inv(s) && Enabled(s, e)
    ensures Inv(Apply(s, e))
  {
    match e
    case Send(item) => SendKeeps(s.delivered, s.queue, s.buffer, s.sent, item);
    case Receive =>
      if s.buffer != [] {
        MoveFirst(s.delivered + s.queue, s.buffer);
        assert s.delivered + (s.queue + [s.buffer[0]]) == (s.delivered + s.queue) + [s.buffer[0]];
      }
    case Deliver => DeliverKeeps(s.delivered, s.queue, s.buffer);
    case _ =>
  }

  lemma SendKeeps<T>(delivered: seq<T>, queue: seq<T>, buffer: seq<T>, sent: seq<T>, item: T)
    ensures delivered + queue + (buffer + [item]) == (delivered + queue + buffer) + [item]
    ensures Prefix(delivered, sent) ==> Prefix(delivered, sent + [item])
  {
    assert |delivered| <= |sent| ==> (sent + [item])[..|delivered|] == sent[..|delivered|];
  }

  lemma MoveFirst<T>(xs: seq<T>, ys: seq<T>)
    requires ys != []
    ensures (xs + [ys[0]]) + ys[1..] == xs + ys
  {
  }

  lemma DeliverKeeps<T>(delivered: seq<T>, queue: seq<T>, buffer: seq<T>)
    requires queue != []
    ensures (delivered + [queue[0]]) + queue[1..] + buffer == delivered + queue + buffer
    ensures Prefix(delivered + [queue[0]], delivered + queue + buffer)
  {
    MoveFirst(delivered, queue);
    assert (delivered + queue + buffer)[..|delivered| + 1] == delivered + [queue[0]];
  }

  lemma {:induction false} InvExec<T>(s: State<T>, es: seq<Event<T>>)
    requires Inv(s)
    ensures Inv(Exec(s, es))
    decreases es
  {
    if es != [] {
      if Enabled(s, es[0]) {
        InvStep(s, es[0]);
        InvExec(Apply(s, es[0]), es[1..]);
      } else {
        InvExec(s, es[1..]);
      }
    }
  }

  /**
   In every run: what the consumer got is a prefix of what was sent, in order, and the public channel is closed at
   most once.
   */
  lemma DeliversPrefix<T>(es: seq<Event<T>>)
    ensures var s := Exec(Init(), es); Prefix(s.delivered, s.sent) && s.eventsClosed <= 1
  {
    InvExec(Init(), es);
  }

  /**
   A relay that ends without a discard has delivered everything; however it ends, the channel was closed exactly once.
   */
  lemma DeliversAll<T>(es: seq<Event<T>>)
    ensures var s := Exec(Init(), es);
            s.done ==> s.eventsClosed == 1 && s.closed && (!s.discarding ==> s.delivered == s.sent)
  {
    InvExec(Init(), es);
  }

  /** A discard is taken only if the consumer asked for it. */
  lemma {:induction false} NeverDiscardsUnasked<T>(s: State<T>, es: seq<Event<T>>)
    requires !s.discarded && !s.discarding && Discard !in es
    ensures !Exec(s, es).discarding
    decreases es
  {
    if es != [] {
      assert es[0] in es;
      NeverDiscardsUnasked(if Enabled(s, es[0]) then Apply(s, es[0]) else s, es[1..]);
    }
  }

  /** Everything sent is delivered in a run in which the consumer never discards and the relay ends. */
  lemma DeliversAllUnlessDiscarded<T>(es: seq<Event<T>>)
    requires Discard !in es && Exec(Init(), es).done
    ensures Exec(Init(), es).delivered == Exec(Init(), es).sent
  {
    NeverDiscardsUnasked(Init(), es);
    DeliversAll(es);
  }

  /** Nothing is delivered once the relay has taken the discard, and the channel is not closed again. */
  lemma {:induction false} NothingAfterDiscard<T>(s: State<T>, es: seq<Event<T>>)
    requires Inv(s) && s.discarding
    ensures var t := Exec(s, es); t.discarding && t.delivered == s.delivered && t.eventsClosed == 1
    decreases es
  {
    if es != [] {
      if Enabled(s, es[0]) {
        InvStep(s, es[0]);
        NothingAfterDiscard(Apply(s, es[0]), es[1..]);
      } else {
        NothingAfterDiscard(s, es[1..]);
      }
    }
  }

  /**
   While the sender is open the relay can always take what is in the buffer, so a sender never waits for the consumer.
   */
  lemma AlwaysReceives<T>(es: seq<Event<T>>)
    ensures var s := Exec(Init(), es);
            !s.closed ==> && !s.done && s.receiving
                          && (s.buffer != [] ==> Enabled(s, if s.discarding then Drain else Receive))
                          && (|s.buffer| == StreamBuffer ==>
                                Enabled(Apply(s, if s.discarding then Drain else Receive), Send(s.buffer[0])))
  {
    InvExec(Init(), es);
  }

  predicate RelayStep<T(==)>(e: Event<T>) {
    e.TakeDiscard? || e.Receive? || e.Deliver? || e.Drain? || e.Exit?
  }

  function Work<T>(s: State<T>): nat {
    3 * |s.buffer| + 2 * |s.queue|
    + (if s.receiving then 1 else 0) + (if s.discarding then 0 else 1) + (if s.done then 0 else 1)
  }

  /** Once the sender has closed, every step of the relay brings its end nearer. */
  lemma RelayEnds<T>(s: State<T>, e: Event<T>)
    requires Inv(s) && s.closed && RelayStep(e) && Enabled(s, e)
    ensures Work(Apply(s, e)) < Work(s) && Apply(s, e).closed
  {
  }

  /** A relay that has not ended waits for nobody but a sender that is still open or a consumer that is not reading. */
  lemma RelayMoves<T>(s: State<T>)
    requires Inv(s) && !s.done && (s.closed || s.buffer != [])
    ensures exists e :: RelayStep(e) && Enabled(s, e)
  {
    assert RelayStep<T>(Deliver) && RelayStep<T>(Receive) && RelayStep<T>(Drain) && RelayStep<T>(Exit);
    if !Looping(s) {
      assert Enabled(s, Exit);
    } else if s.discarding {
      assert Enabled(s, Drain);
    } else if s.receiving {
      assert Enabled(s, Receive);
    } else {
      assert Enabled(s, Deliver);
    }
  }

  /** The relay's loop, with everything the sender and the consumer may do between its steps. */
  class Relay<T(==)> {
    var state: State<T>
    ghost var start: State<T>
    ghost var trace: seq<Event<T>>

    ghost predicate Valid()
      reads this
    {
      Inv(state) && state == Exec(start, trace)
    }

    constructor ()
      ensures Valid() && state == start == Init() && trace == []
    {
      state := Init();
      start, trace := Init(), [];
    }

    /** One event of the system. */
    method Happen(e: Event<T>)
      requires Valid() && Enabled(state, e)
      modifies this`state, this`trace
      ensures Valid() && state == Apply(old(state), e) && trace == old(trace) + [e]
    {
      InvStep(state, e);
      ExecConcat(start, trace, [e]);
      state := Apply(state, e);
      trace := trace + [e];
    }

    /** One turn of relayRunStreamEvents' loop: a plain receive while discarding, else whichever channel is ready. */
    method Turn()
      requires Valid() && Looping(state)
      modifies this`state, this`trace
      ensures Valid() && state.sent == old(state.sent) && state.closed == old(state.closed)
      ensures state.discarded == old(state.discarded)
      ensures !state.done && (old(state.discarding) ==> state.discarding && state.delivered == old(state.delivered))
      ensures Prefix(old(state.delivered), state.delivered) && |state.delivered| <= |old(state.delivered)| + 1
      ensures state != old(state) ==> Work(state) < Work(old(state))
      ensures state == old(state) ==> !CanReceive(state)
    {
      if state.discarding {
        if CanReceive(state) {
          Happen(Drain);
        }
      } else {
        var reading: bool := *;
        if {
          case state.discarded => Happen(TakeDiscard);
          case CanReceive(state) => Happen(Receive);
          case state.queue != [] && reading => Happen(Deliver);
          case !state.discarded && !CanReceive(state) && (state.queue == [] || !reading) =>
        }
      }
    }

    /** relayRunStreamEvents over any schedule of its environment, for as many turns as it is given. */
    method Run(turns: nat)
      requires Valid() && !state.done
      modifies this`state, this`trace
      ensures Valid() && Prefix(state.delivered, state.sent)
      ensures state.done ==> state.eventsClosed == 1 && (!state.discarding ==> state.delivered == state.sent)
      ensures old(state.discarding) ==> state.delivered == old(state.delivered)
    {
      for turn := 0 to turns
        invariant Valid() && !state.done
        invariant old(state.discarding) ==> state.discarding && state.delivered == old(state.delivered)
      {
        Interfere();
        if !Looping(state) {
          Happen(Exit);
          return;
        }
        Turn();
      }
    }

    /** Anything the sender and the consumer may do. */
    method Interfere()
      requires Valid() && !state.done
      modifies this`state, this`trace
      ensures Valid() && !state.done && state.discarding == old(state.discarding)
      ensures state.delivered == old(state.delivered)
    {
      var es: seq<Event<T>> := *;
      for i := 0 to |es|
        invariant Valid() && !state.done && state.discarding == old(state.discarding)
        invariant state.delivered == old(state.delivered)
      {
        var e := es[i];
        if (e.Send? || e.CloseSender? || e.Discard?) && Enabled(state, e) {
          Happen(e);
        }
      }
    }
  }
}
