/** The observer of observer.go: its disposal channel, the object with its
    facade (OnNext, OnError, OnDone, Dispose, IsDisposed, Handle), and the
    NewObserver builder that merges handler descriptors. */
module Observers {
  import opened Tokens
  import Lifecycle

  /** The `disposedChannel` of an observer: a channel that is only ever
      closed. Several observers can hold the same one, since adopting a
      template copies the reference. */
  class DisposalSignal {
    var closed: bool

    /** `make(chan struct{})` */
    constructor ()
      ensures !closed
    {
      closed := false;
    }

    /** `close(ch)`: Go panics when the channel is already closed, so a
        caller may only close an open one. */
    method Close()
      requires !closed
      modifies this
      ensures closed
    {
      closed := true;
    }
  }

  /** The three handler kinds NewObserver recognises. */
  datatype Kind = NextKind | ErrKind | DoneKind

  /** The in-progress `ob` struct of NewObserver, a Go value whose handler
      fields may still be nil. */
  datatype Fields = Fields(
    itemChannel: Option<ItemChannel>,
    next: Option<Handler>,
    err: Option<Handler>,
    done: Option<Handler>,
    signal: DisposalSignal)

  class Observer {
    var itemChannel: Option<ItemChannel>
    const nextHandler: Handler
    const errHandler: Handler
    const doneHandler: Handler
    const signal: DisposalSignal
    /** Every handler invocation made through this observer, in order. */
    ghost var log: seq<Call>

    constructor (ch: Option<ItemChannel>, next: Handler, err: Handler, done: Handler, s: DisposalSignal)
      ensures itemChannel == ch && nextHandler == next && errHandler == err && doneHandler == done
      ensures signal == s && log == []
    {
      itemChannel := ch;
      nextHandler := next;
      errHandler := err;
      doneHandler := done;
      signal := s;
      log := [];
    }

    function HandlerSet(): Lifecycle.Handlers
    {
      Lifecycle.Handlers(nextHandler, errHandler, doneHandler)
    }

    /** `*o`: the struct behind the pointer, copied. Every handler field of
        the copy is set, so the nil checks after NewObserver's loop leave
        them as they are. */
    function Snapshot(): (f: Fields)
      reads this
      ensures f.next.Some? && f.err.Some? && f.done.Some?
      ensures WithDefaults(SlotsOf(f)) == HandlerSet()
      ensures f.signal == signal && f.itemChannel == itemChannel
    {
      Fields(itemChannel, Some(nextHandler), Some(errHandler), Some(doneHandler), signal)
    }

    /** The state the lifecycle machine describes. */
    ghost function Abs(): Lifecycle.Machine
      reads this, signal
    {
      Lifecycle.Machine(HandlerSet(), signal.closed, log)
    }

    ghost predicate Valid()
      reads this, signal
    {
      Lifecycle.Inv(Abs())
    }

    /** A non-blocking receive on the disposal channel: true once it is
        closed, by this observer or by any other that shares the channel. */
    predicate IsDisposed()
      reads signal
      ensures IsDisposed() == Abs().disposed
    {
      signal.closed
    }

    method SetItemChannel(ch: Option<ItemChannel>)
      modifies this`itemChannel
      ensures GetItemChannel() == ch
    {
      itemChannel := ch;
    }

    /** The item channel, which a template copy carries along. */
    function GetItemChannel(): (ch: Option<ItemChannel>)
      reads this
      ensures ch == Snapshot().itemChannel
    {
      itemChannel
    }

    method OnNext(item: Item) returns (reply: Lifecycle.Reply)
      modifies this`log
      ensures !old(IsDisposed()) ==> reply == Lifecycle.Nil && log == old(log) + [NextCall(nextHandler, item)]
      ensures old(IsDisposed()) ==> reply == Lifecycle.ClosedObserverError && log == old(log)
      ensures IsDisposed() == old(IsDisposed())
      ensures Abs() == Lifecycle.Step(old(Abs()), Lifecycle.OnNext(item)).machine
      ensures reply == Lifecycle.Step(old(Abs()), Lifecycle.OnNext(item)).reply
      ensures old(Valid()) ==> Valid()
    {
      ghost var before := Abs();
      if !IsDisposed() {
        log := log + [NextCall(nextHandler, item)];
        reply := Lifecycle.Nil;
      } else {
        reply := Lifecycle.ClosedObserverError;
      }
      if Lifecycle.Inv(before) {
        Lifecycle.StepPreservesInv(before, Lifecycle.OnNext(item));
      }
    }

    method OnError(e: Error) returns (reply: Lifecycle.Reply)
      modifies this`log, signal
      ensures !old(IsDisposed()) ==> reply == Lifecycle.Nil && log == old(log) + [ErrCall(errHandler, e)]
      ensures old(IsDisposed()) ==> reply == Lifecycle.ClosedObserverError && log == old(log)
      ensures IsDisposed()
      ensures Abs() == Lifecycle.Step(old(Abs()), Lifecycle.OnError(e)).machine
      ensures reply == Lifecycle.Step(old(Abs()), Lifecycle.OnError(e)).reply
      ensures old(Valid()) ==> Valid()
    {
      ghost var before := Abs();
      if !IsDisposed() {
        log := log + [ErrCall(errHandler, e)];
        Dispose();
        reply := Lifecycle.Nil;
      } else {
        reply := Lifecycle.ClosedObserverError;
      }
      if Lifecycle.Inv(before) {
        Lifecycle.StepPreservesInv(before, Lifecycle.OnError(e));
      }
    }

    method OnDone() returns (reply: Lifecycle.Reply)
      modifies this`log, signal
      ensures !old(IsDisposed()) ==> reply == Lifecycle.Nil && log == old(log) + [DoneCall(doneHandler)]
      ensures old(IsDisposed()) ==> reply == Lifecycle.ClosedObserverError && log == old(log)
      ensures IsDisposed()
      ensures Abs() == Lifecycle.Step(old(Abs()), Lifecycle.OnDone).machine
      ensures reply == Lifecycle.Step(old(Abs()), Lifecycle.OnDone).reply
      ensures old(Valid()) ==> Valid()
    {
      ghost var before := Abs();
      if !IsDisposed() {
        log := log + [DoneCall(doneHandler)];
        Dispose();
        reply := Lifecycle.Nil;
      } else {
        reply := Lifecycle.ClosedObserverError;
      }
      if Lifecycle.Inv(before) {
        Lifecycle.StepPreservesInv(before, Lifecycle.OnDone);
      }
    }

    /** Closes the disposal channel; unlike `close`, a second call is a
        no-op (see Lifecycle.DisposeAsWritten for the source's behaviour). */
    method Dispose()
      modifies signal
      ensures IsDisposed()
      ensures Abs() == Lifecycle.Step(old(Abs()), Lifecycle.Dispose).machine
      ensures old(Valid()) ==> Valid()
    {
      ghost var before := Abs();
      if !signal.closed {
        signal.Close();
      }
      if Lifecycle.Inv(before) {
        Lifecycle.StepPreservesInv(before, Lifecycle.Dispose);
      }
    }

    /** Dispatches by the item's dynamic type, whatever the disposal state. */
    method Handle(item: Item)
      modifies this`log
      ensures item.ErrorValue? ==> log == old(log) + [ErrCall(errHandler, item.err)]
      ensures item.Value? ==> log == old(log) + [NextCall(nextHandler, item)]
      ensures IsDisposed() == old(IsDisposed())
      ensures Abs() == Lifecycle.Step(old(Abs()), Lifecycle.Handle(item)).machine
    {
      match item
      case ErrorValue(e) =>
        log := log + [ErrCall(errHandler, e)];
      case Value(_) =>
        log := log + [NextCall(nextHandler, item)];
    }
  }

  /** The EventHandler arguments NewObserver's type switch tells apart: a
      NextFunc, ErrFunc or DoneFunc, a `*observer` template, or anything
      else, which the switch ignores. */
  datatype Descriptor =
    | NextFunc(next: nat)
    | ErrFunc(err: nat)
    | DoneFunc(done: nat)
    | Template(obs: Observer)
    | Unrecognized

  /** The handler slots of a Fields value. */
  datatype Slots = Slots(next: Option<Handler>, err: Option<Handler>, done: Option<Handler>)

  function SlotsOf(f: Fields): Slots
  {
    Slots(f.next, f.err, f.done)
  }

  function Slot(s: Slots, k: Kind): Option<Handler>
  {
    match k
    case NextKind => s.next
    case ErrKind => s.err
    case DoneKind => s.done
  }

  /** The handler a descriptor puts into slot k, if any. A template fills
      every slot. */
  function Provides(d: Descriptor, k: Kind): Option<Handler>
  {
    match d
    case NextFunc(id) => if k == NextKind then Some(Func(id)) else None
    case ErrFunc(id) => if k == ErrKind then Some(Func(id)) else None
    case DoneFunc(id) => if k == DoneKind then Some(Func(id)) else None
    case Template(t) => Some(HandlerAt(t.HandlerSet(), k))
    case Unrecognized => None
  }

  /** One iteration of NewObserver's loop, on the handler slots: a slot
      changes exactly when the descriptor provides it. */
  function Apply(s: Slots, d: Descriptor): (r: Slots)
    ensures forall k :: Slot(r, k) == if Provides(d, k).Some? then Provides(d, k) else Slot(s, k)
  {
    match d
    case NextFunc(id) => s.(next := Some(Func(id)))
    case ErrFunc(id) => s.(err := Some(Func(id)))
    case DoneFunc(id) => s.(done := Some(Func(id)))
    case Template(t) => Slots(Some(t.nextHandler), Some(t.errHandler), Some(t.doneHandler))
    case Unrecognized => s
  }

  /** The handler slots after the loop has run over all of descs: a slot is
      set exactly when some descriptor provides it. */
  function Merge(descs: seq<Descriptor>): (r: Slots)
    ensures forall k :: Slot(r, k).Some? <==> exists j :: 0 <= j < |descs| && Provides(descs[j], k).Some?
  {
    if descs == [] then Slots(None, None, None)
    else Apply(Merge(descs[..|descs| - 1]), descs[|descs| - 1])
  }

  /** The nil checks after the loop: an empty slot gets its no-op default. */
  function WithDefaults(s: Slots): (h: Lifecycle.Handlers)
    ensures forall k :: Slot(s, k).Some? ==> HandlerAt(h, k) == Slot(s, k).value
    ensures forall k :: Slot(s, k).None? ==> HandlerAt(h, k) == NoOp
  {
    Lifecycle.Handlers(
      if s.next.Some? then s.next.value else NoOp,
      if s.err.Some? then s.err.value else NoOp,
      if s.done.Some? then s.done.value else NoOp)
  }

  function HandlerAt(h: Lifecycle.Handlers, k: Kind): Handler
  {
    match k
    case NextKind => h.next
    case ErrKind => h.err
    case DoneKind => h.done
  }

  /** The last template among descs, if there is one. */
  function LastTemplate(descs: seq<Descriptor>): (r: Option<Observer>)
    ensures r.Some? <==> exists j :: 0 <= j < |descs| && descs[j].Template?
    ensures r.Some? ==> exists j :: 0 <= j < |descs| && descs[j].Template? && descs[j].obs == r.value
  {
    if descs == [] then None
    else if descs[|descs| - 1].Template? then Some(descs[|descs| - 1].obs)
    else LastTemplate(descs[..|descs| - 1])
  }

  /** Last wins per kind: the last descriptor that provides slot k, a
      handler of that kind or a template, decides it. */
  lemma {:induction false} LastWins(descs: seq<Descriptor>, k: Kind, i: nat)
    requires i < |descs| && Provides(descs[i], k).Some?
    requires forall j :: i < j < |descs| ==> Provides(descs[j], k).None?
    ensures Slot(Merge(descs), k) == Provides(descs[i], k)
    ensures HandlerAt(WithDefaults(Merge(descs)), k) == Provides(descs[i], k).value
  {
    var n := |descs| - 1;
    if i < n {
      LastWins(descs[..n], k, i);
    }
  }

  /** A slot that no descriptor provides gets its no-op default. */
  lemma UnsetGetsDefault(descs: seq<Descriptor>, k: Kind)
    requires forall j :: 0 <= j < |descs| ==> Provides(descs[j], k).None?
    ensures Slot(Merge(descs), k) == None
    ensures HandlerAt(WithDefaults(Merge(descs)), k) == NoOp
  {
  }

  /** The last template is the one adopted. */
  lemma {:induction false} TemplateAdopted(descs: seq<Descriptor>, i: nat)
    requires i < |descs| && descs[i].Template?
    requires forall j :: i < j < |descs| ==> !descs[j].Template?
    ensures LastTemplate(descs) == Some(descs[i].obs)
  {
    var n := |descs| - 1;
    if i < n {
      TemplateAdopted(descs[..n], i);
    }
  }

  lemma NoTemplateAdopted(descs: seq<Descriptor>)
    requires forall j :: 0 <= j < |descs| ==> !descs[j].Template?
    ensures LastTemplate(descs) == None
  {
  }

  /** Merge order: next f1, error e1, next f2 gives next f2, error e1 and
      the default done handler. */
  lemma MergeOrderExample()
    ensures WithDefaults(Merge([NextFunc(1), ErrFunc(2), NextFunc(3)]))
            == Lifecycle.Handlers(Func(3), Func(2), NoOp)
  {
    var descs := [NextFunc(1), ErrFunc(2), NextFunc(3)];
    assert descs[..2] == [NextFunc(1), ErrFunc(2)];
    assert descs[..2][..1] == [NextFunc(1)];
    assert descs[..2][..1][..0] == [];
    assert Merge([NextFunc(1)]) == Slots(Some(Func(1)), None, None);
    assert Merge(descs[..2]) == Slots(Some(Func(1)), Some(Func(2)), None);
  }

  /** NewObserver: fold the descriptors into a fresh struct, a template
      replacing the whole struct, then give each empty slot its default. */
  method NewObserver(descs: seq<Descriptor>) returns (o: Observer)
    ensures fresh(o)
    ensures o.HandlerSet() == WithDefaults(Merge(descs))
    ensures o.log == [] && o.Valid()
    ensures LastTemplate(descs).None? ==> fresh(o.signal) && !o.IsDisposed() && o.itemChannel == None
    ensures LastTemplate(descs).Some? ==>
              o.signal == LastTemplate(descs).value.signal
              && o.itemChannel == LastTemplate(descs).value.itemChannel
  {
    var s := new DisposalSignal();
    var ob := Fields(None, None, None, None, s);
    for i := 0 to |descs|
      invariant SlotsOf(ob) == Merge(descs[..i])
      invariant LastTemplate(descs[..i]).None? ==> ob.signal == s && ob.itemChannel == None
      invariant LastTemplate(descs[..i]).Some? ==>
                  ob.signal == LastTemplate(descs[..i]).value.signal
                  && ob.itemChannel == LastTemplate(descs[..i]).value.itemChannel
    {
      assert descs[..i + 1][..i] == descs[..i];
      match descs[i]
      case NextFunc(id) =>
        ob := ob.(next := Some(Func(id)));
      case ErrFunc(id) =>
        ob := ob.(err := Some(Func(id)));
      case DoneFunc(id) =>
        ob := ob.(done := Some(Func(id)));
      case Template(t) =>
        ob := t.Snapshot();
      case Unrecognized =>
    }
    assert descs[..|descs|] == descs;
    if ob.next.None? {
      ob := ob.(next := Some(NoOp));
    }
    if ob.err.None? {
      ob := ob.(err := Some(NoOp));
    }
    if ob.done.None? {
      ob := ob.(done := Some(NoOp));
    }
    ghost var adopted := LastTemplate(descs);
    o := new Observer(ob.itemChannel, ob.next.value, ob.err.value, ob.done.value, ob.signal);
    assert adopted.Some? ==> adopted.value.itemChannel == old(adopted.value.itemChannel);
  }

  /** An observer with only a next handler passes 42 to it once. */
  method NextOnlyScenario()
  {
    var o := NewObserver([NextFunc(7)]);
    assert [NextFunc(7)][..0] == [];
    var r := o.OnNext(Value(42));
    assert r == Lifecycle.Nil && o.log == [NextCall(Func(7), Value(42))];
  }

  /** After OnError, OnNext is rejected and calls nothing. */
  method RejectAfterErrorScenario()
  {
    var o := NewObserver([]);
    var r1 := o.OnError(Error(1));
    var r2 := o.OnNext(Value(1));
    assert r1 == Lifecycle.Nil && r2 == Lifecycle.ClosedObserverError;
    assert o.log == [ErrCall(NoOp, Error(1))];
  }

  /** An observer built from a template shares its disposal channel:
      completing one closes the other. */
  method SharedDisposalScenario()
  {
    var t := NewObserver([DoneFunc(3)]);
    var descs := [Template(t), NextFunc(5)];
    assert descs[..1] == [Template(t)] && descs[..1][..0] == [];
    var o := NewObserver(descs);
    assert o.signal == t.signal;
    var r1 := o.OnDone();
    var r2 := t.OnError(Error(9));
    assert r1 == Lifecycle.Nil && r2 == Lifecycle.ClosedObserverError;
    assert o.log == [DoneCall(Func(3))] && t.log == [];
  }
}
