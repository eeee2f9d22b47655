# RxGo observer: a Dafny model

This project models the `Observer` of RxGo's `observer.go`: the terminal consumer of a stream. The model has two parts:

- **The builder `NewObserver`.** It folds a list of event-handler descriptors into one observer. Each of the next, error and done slots takes the last handler given for it. A `*observer` template replaces the whole struct under construction. Empty slots then get the package's no-op defaults.
- **The facade.** This is a two-state lifecycle, Open and Disposed, held in ordinary fields:
  - `OnNext` runs the next handler only while Open.
  - `OnError` and `OnDone` run their handler and then close the disposal channel.
  - Every `On*` call after that returns `ClosedObserverError` and calls no handler.
  - `Dispose` closes the channel.
  - `IsDisposed` reads it without blocking.
  - `Handle` routes an item by its dynamic type and ignores the lifecycle.

Files:

- `tokens.dfy` (module `Tokens`) holds the values the observer does not look inside: items, errors, handler closures (`NoOp` for a package default, `Func(id)` for a caller's), item channels, and the `Call` records kept in the ghost log.
- `lifecycle.dfy` (module `Lifecycle`) is the lifecycle written as a pure machine. `Step` performs one facade call and `Run` performs a sequence of them. The lemmas about runs are here: the observer invariant is preserved, at most one terminal handler runs, every call after disposal is rejected, and disposal is monotonic.
- `observer.dfy` (module `Observers`) has three parts:
  - `DisposalSignal` is the `disposedChannel`, a class of its own. A template's channel is shared by reference, as observer.go:62 copies it.
  - The `Observer` class has the handler slots as constants, `itemChannel` as a variable, and a ghost `log` of every handler invocation. Each facade method is proved to move `Abs()` exactly as `Lifecycle.Step` does.
  - `NewObserver` is a loop over the descriptors. It is proved equal to the pure fold `Merge`, and the builder lemmas are stated about `Merge`.

Handlers are opaque tokens, so "invokes the next handler once with the item" means "appends `NextCall(nextHandler, item)` to the log". Go's runtime type switches become tagged datatypes:

- `Descriptor` is `NextFunc | ErrFunc | DoneFunc | Template | Unrecognized`. The type switch has no default branch, so an `Unrecognized` descriptor is ignored.
- `Item` is `Value | ErrorValue`. An error-valued item is one whose dynamic type implements `error`.

`IsDisposed` is a predicate on the shared signal. `GetItemChannel` is a plain read of the field.

Clocks, I/O and randomness do not occur in this core.

Choices the model makes about the code:

- **Two states.** The observer has exactly two states, Open and Disposed, because its disposal channel is either open or closed.
- **A second `Dispose`.** A second `Dispose` closes a closed channel, and that panics. The class's `Dispose` is the idempotent variant; see Findings. The code itself shows that this is the intended behaviour: `OnError` and `OnDone` check `IsDisposed` before they call `Dispose` (observer.go:119-121, observer.go:130-132).
- **`Handle` versus `OnError`.** `Handle` of an error item calls the error handler but, unlike `OnError`, neither checks nor changes the disposal state.
  - `Lifecycle.HandleIgnoresDisposal` states this.
  - `Lifecycle.HandleAfterDoneRunsSecondTerminal` shows that `OnDone` followed by `Handle` of an error item runs two terminal handlers. For that reason the at-most-one-terminal lemmas are stated for runs without `Handle`.

## Model

| member | source | states |
|---|---|---|
| `Observers.DisposalSignal.constructor` | observer.go:48-50 | a freshly made disposal channel is open |
| `Observers.DisposalSignal.Close` | observer.go:91 | closing requires an open channel (Go panics on a second close) and leaves it closed |
| `Observers.Observer.constructor` | observer.go:20-31 | an observer holds the given item channel, three handlers and disposal channel, and has invoked no handler |
| `Observers.Observer.SetItemChannel` | observer.go:37-39 | the item channel is replaced (GetItemChannel then returns it) and no other field changes |
| `Observers.Observer.GetItemChannel` | observer.go:41-43 | returns the item channel, the one a template copy of this observer carries |
| `Observers.Observer.IsDisposed` | observer.go:98-105 | true exactly when the disposal channel, possibly shared with other observers, is closed, i.e. when the lifecycle machine is disposed |
| `Observers.Observer.Snapshot` | observer.go:62 | the copy `*handler` has every handler slot set, so filling defaults leaves this observer's handlers unchanged; it carries this observer's disposal and item channels |
| `Observers.Observer.OnNext` | observer.go:108-115 | open: the next handler is invoked exactly once with the item, nil is returned, disposal state unchanged; disposed: ClosedObserverError and nothing invoked; follows `Step` and preserves the invariant |
| `Observers.Observer.OnError` | observer.go:118-126 | open: exactly the error handler is invoked once with err, then the observer is disposed and nil returned; disposed: ClosedObserverError and nothing invoked; follows `Step`, preserves the invariant |
| `Observers.Observer.OnDone` | observer.go:129-137 | open: exactly the done handler is invoked once, then the observer is disposed and nil returned; disposed: ClosedObserverError and nothing invoked; follows `Step`, preserves the invariant |
| `Observers.Observer.Dispose` | observer.go:90-92 | afterwards the observer is disposed, no handler was invoked, and a call on a disposed observer changes nothing |
| `Observers.Observer.Handle` | observer.go:81-88 | an error-valued item goes to the error handler, any other item to the next handler, once; the disposal state is neither checked nor changed |
| `Observers.NewObserver` | observer.go:47-78 | the result is a new observer whose handlers are the merged descriptors with defaults filled in and which has invoked nothing; without a template its disposal channel is fresh and open and it has no item channel; with one, it shares the last template's disposal channel and item channel |
| `Observers.Apply` | observer.go:54-63 | one loop iteration changes a slot exactly when the descriptor provides it (a handler of that kind or a template), to the handler provided; an unrecognised descriptor changes nothing |
| `Observers.Merge` | observer.go:53-64 | after the loop a slot is set exactly when some descriptor in the list provides it |
| `Observers.WithDefaults` | observer.go:67-75 | a set slot keeps its handler and an empty slot gets the no-op default |
| `Observers.LastTemplate` | observer.go:61-62 | there is an adopted template exactly when the list holds a template, and it is one of the list's templates |
| `Observers.LastWins` | observer.go:53-62 | for each kind the last descriptor providing that slot (a handler of that kind, or a template) determines it, also after defaults; earlier duplicates are overridden without error |
| `Observers.UnsetGetsDefault` | observer.go:67-75 | a slot that no descriptor provides is empty after the loop and gets the no-op default |
| `Observers.TemplateAdopted` | observer.go:61-62 | the last template in the list is the one whose disposal and item channels are adopted |
| `Observers.NoTemplateAdopted` | observer.go:48-62 | without a template nothing is adopted, so the observer keeps the channel made at observer.go:49 |
| `Observers.MergeOrderExample` | observer.go:53-75 | next f1, error e1, next f2 yields next f2, error e1 and the default done handler |
| `Lifecycle.Route` | observer.go:82-87 | an item goes to the error handler exactly when it is error-valued, carrying that error; every other item goes to the next handler unchanged; the done handler is never chosen |
| `Lifecycle.Step` | observer.go:90-137 | no call changes the handlers; disposal is never undone; each call appends at most one handler invocation to the log and never rewrites it |
| `Lifecycle.Run` | observer.go:90-137 | a sequence of calls yields one reply per call, keeps the handlers, and keeps a disposed observer disposed |
| `Lifecycle.StepPreservesInv` | observer.go:98-137 | every call but Handle preserves "at most one terminal handler has run, and only if disposed" |
| `Lifecycle.RunPreservesInv` | observer.go:98-137 | any sequence of OnNext, OnError, OnDone and Dispose calls preserves that invariant |
| `Lifecycle.AtMostOneTerminal` | observer.go:118-137 | from a fresh observer, any such sequence invokes at most one terminal (error or done) handler |
| `Lifecycle.RejectedOnceDisposed` | observer.go:108-137 | once disposed, every later OnNext, OnError and OnDone returns ClosedObserverError, and without Handle no handler is invoked |
| `Lifecycle.DisposedStaysDisposed` | observer.go:90-105 | if the observer is disposed after some prefix of a run, it is disposed at the end (IsDisposed is monotonic) |
| `Lifecycle.ClosedAfterTerminal` | observer.go:118-137 | after the first OnError or OnDone that returns nil, every later On* call returns ClosedObserverError |
| `Lifecycle.HandleIgnoresDisposal` | observer.go:81-88 | Handle invokes one handler whatever the disposal state and never changes it; for an error item on an open observer it makes the same call as OnError but does not dispose |
| `Lifecycle.HandleAfterDoneRunsSecondTerminal` | observer.go:81-88 | OnDone followed by Handle of an error item invokes the done handler and then the error handler |
| `Lifecycle.DisposeAsWritten` | observer.go:90-92 | the source's Dispose succeeds exactly on an open observer, disposing it without any handler call; on a disposed one it panics |
| `Lifecycle.DisposeAfterDisposalPanics` | observer.go:90-92 | Dispose as written, after OnError, OnDone or Dispose has succeeded, panics |
| `Lifecycle.DisposeIdempotent` | observer.go:90-92 | the corrected Dispose disposes without a handler call, a second call changes nothing, and on an open observer it agrees with the source |

## Left out

- `Block` (observer.go:140-145): it suspends the calling goroutine until the channel closes. That is thread suspension and cannot be stated in this sequential model.
- `ClosedObserverError.Error()` (observer.go:33-35): returns the constant text "closed observer". The model keeps the error as the `Lifecycle.ClosedObserverError` reply, not its text.
- `Notify` (observer.go:94-96): a single send on a channel the caller supplies. It has no state of its own.
- Concurrency: the model is sequential. The race between the `IsDisposed` check and `Dispose` in `OnError` and `OnDone` is not modelled, because it only exists between concurrent calls; a test-and-set would close it. The at-most-one-terminal property is proved for sequential runs only.
- Handler bodies: handlers are opaque tokens that do not call back into the observer. In the source, an error handler that disposes its own observer would make `OnError`'s own `Dispose` a second close.
- Nil handlers and nil templates: a nil `NextFunc`, `ErrFunc` or `DoneFunc` passed to `NewObserver`, and a nil `*observer`, are not modelled.
- Templates built outside `NewObserver`: every template is an `Observer` of the model, so all its slots are set. A template struct with nil slots built elsewhere in the package is not modelled.
- The `Observer`, `EventHandler` and `Disposable` interfaces and the `NextFunc`, `ErrFunc` and `DoneFunc` types: these are defined in files that are not part of this model. They appear only as the `Descriptor` and `Handler` tokens.
- `Lifecycle.AtMostOneTerminal`: holds only for runs without `Handle`. `Handle` calls the error handler for error items even after disposal, as `Lifecycle.HandleAfterDoneRunsSecondTerminal` shows.
- `Lifecycle.RunPreservesInv`: holds only for runs without `Handle`, for the same reason.

## Findings

| source | as written | input that shows it | evidently intended | confidence | as-written member | corrected member |
|---|---|---|---|---|---|---|
| observer.go:90-92 | `Dispose` closes `disposedChannel` unconditionally, so a second close is a Go runtime panic | `NewObserver()`, then `OnDone()`, then `Dispose()`; or `Dispose()` twice | a `Dispose` on a disposed observer is a no-op | medium, not executed | `Lifecycle.DisposeAsWritten` | `Observers.Observer.Dispose` |

`Lifecycle.DisposeAfterDisposalPanics` shows the as-written behaviour on these inputs. `Lifecycle.DisposeIdempotent` proves the corrected behaviour. The class's `Dispose`, and the `Dispose` event of `Lifecycle.Step`, are the corrected definition, which `OnError` and `OnDone` use. On an open observer the two definitions agree. So `OnError` and `OnDone` behave exactly as in the source, because each disposes only after checking that the observer is open.
