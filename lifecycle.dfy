/** The observer's lifecycle as a pure two-state machine (Open, Disposed).
    Each event is one call on the facade; the machine records every handler
    invocation in its log. The class in module Observers is proved to follow
    `Step`, so the lemmas below about runs of events hold of it. */
module Lifecycle {
  import opened Tokens

  /** The three handler slots, all bound. */
  datatype Handlers = Handlers(next: Handler, err: Handler, done: Handler)

  /** What can be observed of one observer: its handlers, whether its
      disposal channel is closed, and every handler call it has made. */
  datatype Machine = Machine(handlers: Handlers, disposed: bool, log: seq<Call>)

  /** What an `On*` call returns: nil, or a `*ClosedObserverError`.
      Dispose and Handle return nothing; they are given `Nil`. */
  datatype Reply = Nil | ClosedObserverError

  /** One call on the facade of an observer. */
  datatype Event =
    | OnNext(item: Item)
    | OnError(err: Error)
    | OnDone
    | Dispose
    | Handle(item: Item)
  {
    /** The calls that check the disposal state before doing anything. */
    predicate IsAccept() { OnNext? || OnError? || OnDone? }

    /** The calls that end the stream. */
    predicate IsTerminal() { OnError? || OnDone? }
  }

  datatype Outcome = Outcome(machine: Machine, reply: Reply)

  datatype Trace = Trace(machine: Machine, replies: seq<Reply>)

  /** Number of terminal-handler invocations in a log. */
  function TerminalCount(log: seq<Call>): nat
  {
    if log == [] then 0
    else TerminalCount(log[..|log| - 1]) + (if log[|log| - 1].IsTerminal() then 1 else 0)
  }

  lemma TerminalCountAppend(log: seq<Call>, c: Call)
    ensures TerminalCount(log + [c]) == TerminalCount(log) + (if c.IsTerminal() then 1 else 0)
  {
  }

  /** Handle's classification: an item whose dynamic type is `error` goes to
      the error handler, every other item to the next handler. */
  function Route(h: Handlers, item: Item): (c: Call)
    ensures c.ErrCall? <==> item.ErrorValue?
    ensures c.ErrCall? ==> c.handler == h.err && c.err == item.err
    ensures c.NextCall? ==> c.handler == h.next && c.item == item
    ensures !c.DoneCall?
  {
    match item
    case ErrorValue(e) => ErrCall(h.err, e)
    case Value(_) => NextCall(h.next, item)
  }

  /** One facade call. OnNext, OnError and OnDone check the disposal state
      first and are rejected once it is closed; OnError and OnDone run their
      handler and then dispose; Dispose closes the signal and is a no-op when
      it is already closed (see DisposeAsWritten for the source's behaviour);
      Handle dispatches without looking at the disposal state. */
  function Step(m: Machine, e: Event): (r: Outcome)
    ensures r.machine.handlers == m.handlers
    ensures m.disposed ==> r.machine.disposed
    ensures |m.log| <= |r.machine.log| <= |m.log| + 1 && r.machine.log[..|m.log|] == m.log
  {
    match e
    case OnNext(item) =>
      if !m.disposed then Outcome(m.(log := m.log + [NextCall(m.handlers.next, item)]), Nil)
      else Outcome(m, ClosedObserverError)
    case OnError(err) =>
      if !m.disposed then Outcome(m.(log := m.log + [ErrCall(m.handlers.err, err)], disposed := true), Nil)
      else Outcome(m, ClosedObserverError)
    case OnDone =>
      if !m.disposed then Outcome(m.(log := m.log + [DoneCall(m.handlers.done)], disposed := true), Nil)
      else Outcome(m, ClosedObserverError)
    case Dispose =>
      Outcome(m.(disposed := true), Nil)
    case Handle(item) =>
      Outcome(m.(log := m.log + [Route(m.handlers, item)]), Nil)
  }

  /** A sequence of facade calls made one after another. */
  function Run(m: Machine, es: seq<Event>): (t: Trace)
    decreases |es|
    ensures |t.replies| == |es|
    ensures t.machine.handlers == m.handlers
    ensures m.disposed ==> t.machine.disposed
  {
    if es == [] then Trace(m, [])
    else
      var o := Step(m, es[0]);
      var rest := Run(o.machine, es[1..]);
      Trace(rest.machine, [o.reply] + rest.replies)
  }

  /** The object invariant: at most one terminal handler has run, and only
      on an observer that is now disposed. */
  predicate Inv(m: Machine)
  {
    TerminalCount(m.log) <= 1 && (TerminalCount(m.log) == 1 ==> m.disposed)
  }

  predicate NoHandle(es: seq<Event>)
  {
    forall j :: 0 <= j < |es| ==> !es[j].Handle?
  }

  lemma StepPreservesInv(m: Machine, e: Event)
    requires Inv(m) && !e.Handle?
    ensures Inv(Step(m, e).machine)
  {
  }

  lemma {:induction false} RunPreservesInv(m: Machine, es: seq<Event>)
    decreases |es|
    requires Inv(m) && NoHandle(es)
    ensures Inv(Run(m, es).machine)
  {
    if es != [] {
      StepPreservesInv(m, es[0]);
      assert NoHandle(es[1..]) by {
        forall j | 0 <= j < |es| - 1 ensures !es[1..][j].Handle? {
          assert es[1..][j] == es[j + 1];
        }
      }
      RunPreservesInv(Step(m, es[0]).machine, es[1..]);
    }
  }

  /** Starting from a fresh observer, no sequence of OnNext, OnError, OnDone
      and Dispose calls invokes more than one terminal handler. */
  lemma AtMostOneTerminal(h: Handlers, es: seq<Event>)
    requires NoHandle(es)
    ensures TerminalCount(Run(Machine(h, false, []), es).machine.log) <= 1
  {
    RunPreservesInv(Machine(h, false, []), es);
  }

  /** Once disposed, every OnNext, OnError and OnDone is rejected with
      ClosedObserverError, and without Handle no handler is invoked. */
  lemma {:induction false} RejectedOnceDisposed(m: Machine, es: seq<Event>)
    decreases |es|
    requires m.disposed
    ensures forall j :: 0 <= j < |es| && es[j].IsAccept() ==> Run(m, es).replies[j] == ClosedObserverError
    ensures NoHandle(es) ==> Run(m, es).machine.log == m.log
  {
    if es != [] {
      var o := Step(m, es[0]);
      RejectedOnceDisposed(o.machine, es[1..]);
      var t := Run(m, es);
      assert t.replies == [o.reply] + Run(o.machine, es[1..]).replies;
      forall j | 0 <= j < |es| && es[j].IsAccept()
        ensures t.replies[j] == ClosedObserverError
      {
        if j > 0 {
          assert es[1..][j - 1] == es[j];
        }
      }
      if NoHandle(es) {
        assert NoHandle(es[1..]) by {
          forall j | 0 <= j < |es| - 1 ensures !es[1..][j].Handle? {
            assert es[1..][j] == es[j + 1];
          }
        }
      }
    }
  }

  /** The disposal state is monotonic over any run, Handle included. */
  lemma {:induction false} DisposedStaysDisposed(m: Machine, es: seq<Event>, k: nat)
    decreases |es|
    requires k <= |es| && Run(m, es[..k]).machine.disposed
    ensures Run(m, es).machine.disposed
  {
    if k > 0 {
      var o := Step(m, es[0]);
      assert es[..k][0] == es[0];
      assert es[..k][1..] == es[1..][..k - 1];
      DisposedStaysDisposed(o.machine, es[1..], k - 1);
    } else {
      assert es[..k] == [];
    }
  }

  /** After the first OnError or OnDone that succeeds, every later OnNext,
      OnError and OnDone returns ClosedObserverError. */
  lemma {:induction false} ClosedAfterTerminal(m: Machine, es: seq<Event>, i: nat)
    decreases |es|
    requires i < |es| && es[i].IsTerminal() && Run(m, es).replies[i] == Nil
    ensures forall j :: i < j < |es| && es[j].IsAccept() ==> Run(m, es).replies[j] == ClosedObserverError
  {
    var o := Step(m, es[0]);
    var rest := Run(o.machine, es[1..]);
    assert Run(m, es).replies == [o.reply] + rest.replies;
    if i == 0 {
      assert o.machine.disposed;
      RejectedOnceDisposed(o.machine, es[1..]);
    } else {
      assert es[1..][i - 1] == es[i];
      ClosedAfterTerminal(o.machine, es[1..], i - 1);
    }
    forall j | i < j < |es| && es[j].IsAccept()
      ensures Run(m, es).replies[j] == ClosedObserverError
    {
      assert es[1..][j - 1] == es[j];
    }
  }

  /** Handle dispatches whatever the disposal state and never changes it.
      For an error item on an open observer it makes the same handler call
      as OnError, but leaves the observer open. */
  lemma HandleIgnoresDisposal(m: Machine, item: Item)
    ensures Step(m, Handle(item)).machine.disposed == m.disposed
    ensures |Step(m, Handle(item)).machine.log| == |m.log| + 1
    ensures Step(m, Handle(item)).reply == Nil
    ensures item.ErrorValue? && !m.disposed ==>
              Step(m, Handle(item)).machine.log == Step(m, OnError(item.err)).machine.log
  {
  }

  /** Why the terminal bound excludes Handle: done, then an error item
      through Handle, runs two terminal handlers. */
  lemma HandleAfterDoneRunsSecondTerminal(h: Handlers, e: Error)
    ensures Run(Machine(h, false, []), [OnDone, Handle(ErrorValue(e))]).machine.log
            == [DoneCall(h.done), ErrCall(h.err, e)]
    ensures TerminalCount(Run(Machine(h, false, []), [OnDone, Handle(ErrorValue(e))]).machine.log) == 2
  {
    var es := [OnDone, Handle(ErrorValue(e))];
    var m1 := Step(Machine(h, false, []), OnDone).machine;
    var m2 := Step(m1, Handle(ErrorValue(e))).machine;
    assert es[1..] == [Handle(ErrorValue(e))] && es[1..][1..] == [];
    assert Run(m2, []).machine == m2;
    assert Run(m1, es[1..]).machine == m2;
    assert Run(Machine(h, false, []), es).machine == m2;
    assert m2.log == [DoneCall(h.done)] + [ErrCall(h.err, e)];
    TerminalCountAppend([], DoneCall(h.done));
    assert [] + [DoneCall(h.done)] == [DoneCall(h.done)];
    TerminalCountAppend([DoneCall(h.done)], ErrCall(h.err, e));
  }

  /** Dispose as the source writes it, `close(o.disposedChannel)`: closing
      an already closed channel is a Go runtime panic, shown here as None. */
  function DisposeAsWritten(m: Machine): (r: Option<Machine>)
    ensures r.Some? <==> !m.disposed
    ensures r.Some? ==> r.value.disposed && r.value.log == m.log && r.value.handlers == m.handlers
  {
    if m.disposed then None else Some(m.(disposed := true))
  }

  /** A second Dispose, or a Dispose after OnError or OnDone, panics. */
  lemma DisposeAfterDisposalPanics(m: Machine, e: Event)
    requires e.IsTerminal() || e.Dispose?
    requires !m.disposed
    ensures DisposeAsWritten(Step(m, e).machine) == None
  {
  }

  /** The corrected Dispose is idempotent: a second call changes nothing,
      and on an open observer it agrees with the source's. */
  lemma DisposeIdempotent(m: Machine)
    ensures Step(Step(m, Dispose).machine, Dispose) == Step(m, Dispose)
    ensures Step(m, Dispose).machine.disposed && Step(m, Dispose).machine.log == m.log
    ensures !m.disposed ==> DisposeAsWritten(m) == Some(Step(m, Dispose).machine)
  {
  }
}
