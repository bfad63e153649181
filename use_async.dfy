/**
 * The asynchronous-operation hook `useAsync` (src/hooks/useAsync.ts): three
 * state cells (status, result, error), a trigger that refuses or goes
 * PENDING, and the two ways a started call settles.
 *
 * The pure part is a transition function `Step` over the three cells and its
 * fold `Run` over a trace of events; the lemmas about `Run` state what any
 * sequence of triggers, settlements and result writes leaves in the cells.
 * The class `AsyncHook` holds the cells as fields and keeps them equal to
 * `Run` of its own (ghost) trace.
 */
module UseAsync {
  import opened Wrappers
  import Config

  datatype Status = Idle | Pending | Fulfilled | Rejected

  /** A JavaScript `Error` instance (of any subclass), by its name and message. */
  datatype JsError = JsError(name: string, message: string)

  /** What the unit of work threw: a string, an `Error` instance, or anything else. */
  datatype Thrown = Str(s: string) | Err(e: JsError) | Other

  /** `new Error(message)`. */
  function NewError(message: string): JsError {
    JsError("Error", message)
  }

  const GenericRejectionMessage := "UseAsync Caller Promise Rejected"
  const PendingGuardMessage := "Cannot invoke function while status is PENDING"

  /** The caller's normalisation of a thrown value into an `Error`. */
  function Normalise(thrown: Thrown): (error: JsError)
    ensures thrown.Str? ==> error == NewError(thrown.s)
    ensures thrown.Err? ==> error == thrown.e
    ensures thrown.Other? ==> error == NewError(GenericRejectionMessage)
  {
    match thrown
    case Str(s) => NewError(s)
    case Err(e) => e
    case Other => NewError(GenericRejectionMessage)
  }

  // ---------------------------------------------------------------------
  // The transition function and its fold over traces
  // ---------------------------------------------------------------------

  /** The hook's three state cells. */
  datatype HookState<T> = HookState(status: Status, result: T, error: Option<JsError>)

  /** A fresh hook: IDLE, the caller's initial value, no error. */
  function Initial<T>(initial: T): HookState<T> {
    HookState(Idle, initial, None)
  }

  /** What can happen to a hook: the trigger is invoked, a started call settles, or the result is written directly. */
  datatype Event<T> = Triggered | SettledOk(value: T) | SettledErr(thrown: Thrown) | ResultSet(value: T)

  /** The reject-while-pending guard. */
  predicate Refuses(status: Status, rejectWhilePending: bool) {
    status == Pending && rejectWhilePending
  }

  /**
   * The cells after one event. Every trigger or settlement leaves the status it
   * names (a refused trigger finds PENDING and keeps it, changing nothing);
   * only a success or a direct write changes the result; only a rejection
   * changes the error.
   */
  function Step<T>(s: HookState<T>, event: Event<T>, rejectWhilePending: bool): (next: HookState<T>)
    ensures !event.ResultSet? ==> next.status == StatusWritten(event)
    ensures event.ResultSet? ==> next.status == s.status
    ensures next.result == if event.SettledOk? || event.ResultSet? then event.value else s.result
    ensures next.error == if event.SettledErr? then Some(Normalise(event.thrown)) else s.error
    ensures event.Triggered? && Refuses(s.status, rejectWhilePending) ==> next == s
  {
    match event
    case Triggered => if Refuses(s.status, rejectWhilePending) then s else s.(status := Pending)
    case SettledOk(v) => s.(result := v, status := Fulfilled)
    case SettledErr(t) => s.(status := Rejected, error := Some(Normalise(t)))
    case ResultSet(v) => s.(result := v)
  }

  /**
   * The cells after a whole trace of events, oldest first. Once set, the error
   * cell stays set; and no event leads back to IDLE.
   */
  function Run<T>(s: HookState<T>, events: seq<Event<T>>, rejectWhilePending: bool): (r: HookState<T>)
    ensures s.error.Some? ==> r.error.Some?
    ensures r.status == Idle ==> s.status == Idle
    decreases |events|
  {
    if events == [] then s
    else Step(Run(s, events[..|events| - 1], rejectWhilePending), events[|events| - 1], rejectWhilePending)
  }

  /** Running one more event is one more step. */
  lemma RunSnoc<T>(s: HookState<T>, events: seq<Event<T>>, event: Event<T>, rejectWhilePending: bool)
    ensures Run(s, events + [event], rejectWhilePending) == Step(Run(s, events, rejectWhilePending), event, rejectWhilePending)
  {
  }

  /** The status an event writes; a direct result write writes none. */
  function StatusWritten<T>(event: Event<T>): Status
    requires !event.ResultSet?
  {
    match event
    case Triggered => Pending
    case SettledOk(_) => Fulfilled
    case SettledErr(_) => Rejected
  }

  /** `i` is the last event of the trace that writes the status. */
  ghost predicate LastStatusWrite<T>(events: seq<Event<T>>, i: int) {
    0 <= i < |events| && !events[i].ResultSet? && forall j :: i < j < |events| ==> events[j].ResultSet?
  }

  /** `i` is the last rejection of the trace. */
  ghost predicate LastRejection<T>(events: seq<Event<T>>, i: int) {
    0 <= i < |events| && events[i].SettledErr? && forall j :: i < j < |events| ==> !events[j].SettledErr?
  }

  /** `i` is the last event of the trace that writes the result. */
  ghost predicate LastResultWrite<T>(events: seq<Event<T>>, i: int) {
    0 <= i < |events| && (events[i].SettledOk? || events[i].ResultSet?)
    && forall j :: i < j < |events| ==> !(events[j].SettledOk? || events[j].ResultSet?)
  }

  /**
   * The status is the one written by the last trigger or settlement, whatever
   * the guard decided: a refused trigger finds the status PENDING and leaves it
   * so. Without such an event the status is the starting one.
   */
  lemma {:induction false} StatusIsLastTransition<T>(s: HookState<T>, events: seq<Event<T>>, rejectWhilePending: bool)
    ensures (forall j :: 0 <= j < |events| ==> events[j].ResultSet?) ==> Run(s, events, rejectWhilePending).status == s.status
    ensures forall i :: LastStatusWrite(events, i) ==> Run(s, events, rejectWhilePending).status == StatusWritten(events[i])
    decreases |events|
  {
    if events != [] {
      var n := |events| - 1;
      var prefix := events[..n];
      var before := Run(s, prefix, rejectWhilePending);
      assert Run(s, events, rejectWhilePending) == Step(before, events[n], rejectWhilePending);
      if events[n].ResultSet? {
        StatusIsLastTransition(s, prefix, rejectWhilePending);
        forall i | LastStatusWrite(events, i)
          ensures Run(s, events, rejectWhilePending).status == StatusWritten(events[i])
        {
          assert LastStatusWrite(prefix, i);
        }
      } else {
        assert Run(s, events, rejectWhilePending).status == StatusWritten(events[n]);
        forall i | LastStatusWrite(events, i) ensures i == n { }
      }
    }
  }

  /**
   * The error cell holds the normalised form of the last rejection; without a
   * rejection it keeps its starting value. Nothing else writes it, so it is
   * never cleared.
   */
  lemma {:induction false} ErrorIsLastRejection<T>(s: HookState<T>, events: seq<Event<T>>, rejectWhilePending: bool)
    ensures (forall j :: 0 <= j < |events| ==> !events[j].SettledErr?) ==> Run(s, events, rejectWhilePending).error == s.error
    ensures forall i :: LastRejection(events, i) ==> Run(s, events, rejectWhilePending).error == Some(Normalise(events[i].thrown))
    decreases |events|
  {
    if events != [] {
      var n := |events| - 1;
      var prefix := events[..n];
      var before := Run(s, prefix, rejectWhilePending);
      assert Run(s, events, rejectWhilePending) == Step(before, events[n], rejectWhilePending);
      if events[n].SettledErr? {
        assert Run(s, events, rejectWhilePending).error == Some(Normalise(events[n].thrown));
        forall i | LastRejection(events, i) ensures i == n { }
      } else {
        ErrorIsLastRejection(s, prefix, rejectWhilePending);
        forall i | LastRejection(events, i)
          ensures Run(s, events, rejectWhilePending).error == Some(Normalise(events[i].thrown))
        {
          assert LastRejection(prefix, i);
        }
      }
    }
  }

  /**
   * The result cell holds the value of the last successful settlement or
   * direct write; a rejection or a trigger never touches it.
   */
  lemma {:induction false} ResultIsLastWrite<T>(s: HookState<T>, events: seq<Event<T>>, rejectWhilePending: bool)
    ensures (forall j :: 0 <= j < |events| ==> !(events[j].SettledOk? || events[j].ResultSet?)) ==>
      Run(s, events, rejectWhilePending).result == s.result
    ensures forall i :: LastResultWrite(events, i) ==> Run(s, events, rejectWhilePending).result == events[i].value
    decreases |events|
  {
    if events != [] {
      var n := |events| - 1;
      var prefix := events[..n];
      ResultIsLastWrite(s, prefix, rejectWhilePending);
      if !(events[n].SettledOk? || events[n].ResultSet?) {
        forall i | LastResultWrite(events, i) ensures LastResultWrite(prefix, i) { }
      }
    }
  }

  /**
   * A hook stays IDLE exactly as long as nothing but direct result writes has
   * happened to it.
   */
  lemma {:induction false} IdleUntilTriggered<T>(initial: T, events: seq<Event<T>>, rejectWhilePending: bool)
    ensures Run(Initial(initial), events, rejectWhilePending).status == Idle <==>
      forall j :: 0 <= j < |events| ==> events[j].ResultSet?
  {
    StatusIsLastTransition(Initial(initial), events, rejectWhilePending);
    if exists k :: 0 <= k < |events| && !events[k].ResultSet? {
      var k :| 0 <= k < |events| && !events[k].ResultSet?;
      LastStatusWriteExists(events, k);
    }
  }

  /** A trace with a status write at `k` has a last status write. */
  lemma {:induction false} LastStatusWriteExists<T>(events: seq<Event<T>>, k: int)
    requires 0 <= k < |events| && !events[k].ResultSet?
    ensures exists i :: LastStatusWrite(events, i)
    decreases |events| - k
  {
    if !LastStatusWrite(events, k) {
      var j :| k < j < |events| && !events[j].ResultSet?;
      LastStatusWriteExists(events, j);
    }
  }

  /**
   * The declared result type (one variant per status, `error` undefined unless
   * REJECTED, `result` of the initial type when REJECTED) is not what the cells
   * hold: after a success, a rejection and a new trigger the hook is PENDING,
   * still carries the old error, and the result is the earlier success value.
   */
  lemma StaleErrorWhilePending<T>(initial: T, value: T, rejectWhilePending: bool)
    ensures var s := Run(Initial(initial), [Triggered, SettledOk(value), Triggered, SettledErr(Other), Triggered], rejectWhilePending);
      s.status == Pending && s.error == Some(NewError(GenericRejectionMessage)) && s.result == value
  {
    var events := [Triggered, SettledOk(value), Triggered, SettledErr(Other), Triggered];
    assert events[..4] == [Triggered, SettledOk(value), Triggered, SettledErr(Other)];
    assert events[..4][..3] == [Triggered, SettledOk(value), Triggered];
    assert events[..4][..3][..2] == [Triggered, SettledOk(value)];
    assert events[..4][..3][..2][..1] == [Triggered];
    assert events[..4][..3][..2][..1][..0] == [];
    ResultIsLastWrite(Initial(initial), events, rejectWhilePending);
    assert LastResultWrite(events, 1);
  }

  // ---------------------------------------------------------------------
  // The hook instance
  // ---------------------------------------------------------------------

  /** How a failed settlement ends the caller's promise. */
  datatype FailureOutcome =
    | ResolvesWith(error: JsError)  // `return error`
    | RejectsWithTypeError          // the `onError` read or call threw inside the catch block

  /**
   * One `useAsync(initial, asyncFn, {init, rejectWhilePending})` instance.
   * Each React state setter is an immediate field write. The unit of work is
   * outside the model: `workCalls` logs the arguments it is called with and
   * `inFlight` counts calls not yet settled; `handlerCalls` logs every call of
   * the configured `onError`.
   */
  class AsyncHook<T, A> {
    var status: Status
    var result: T
    var error: Option<JsError>
    var mounted: bool
    const rejectWhilePending: bool
    const init: bool
    ghost const initial: T
    ghost var trace: seq<Event<T>>
    ghost var inFlight: nat
    ghost var workCalls: seq<seq<A>>
    ghost var handlerCalls: seq<(nat, JsError)>

    /** The three cells as one value. */
    ghost function State(): HookState<T>
      reads this
    {
      HookState(status, result, error)
    }

    /** The cells are what the trace made of the initial state; PENDING means a call is still out. */
    ghost predicate Valid()
      reads this
    {
      && State() == Run(Initial(initial), trace, rejectWhilePending)
      && (status == Pending ==> inFlight > 0)
    }

    /** useAsync's first render: IDLE, `initial`, no error, not yet mounted. */
    constructor (initial: T, init: bool, rejectWhilePending: bool)
      ensures Valid()
      ensures status == Idle && result == initial && error == None
      ensures this.initial == initial && this.init == init && this.rejectWhilePending == rejectWhilePending
      ensures !mounted && trace == [] && inFlight == 0 && workCalls == [] && handlerCalls == []
    {
      status := Idle;
      result := initial;
      error := None;
      mounted := false;
      this.initial := initial;
      this.init := init;
      this.rejectWhilePending := rejectWhilePending;
      trace := [];
      inFlight := 0;
      workCalls := [];
      handlerCalls := [];
    }

    /**
     * The synchronous part of `caller(...args)`, up to the `await`: refuse
     * while PENDING when `rejectWhilePending` is set, otherwise go PENDING and
     * start the unit of work with `args`.
     */
    method Trigger(args: seq<A>) returns (refusal: Option<JsError>)
      requires Valid()
      modifies this
      ensures Valid()
      ensures trace == old(trace) + [Triggered]
      ensures State() == Step(old(State()), Triggered, rejectWhilePending)
      ensures Refuses(old(status), rejectWhilePending) ==>
        && refusal == Some(NewError(PendingGuardMessage))
        && status == old(status) && result == old(result) && error == old(error)
        && workCalls == old(workCalls) && inFlight == old(inFlight)
      ensures !Refuses(old(status), rejectWhilePending) ==>
        && refusal == None
        && status == Pending && result == old(result) && error == old(error)
        && workCalls == old(workCalls) + [args] && inFlight == old(inFlight) + 1
      ensures mounted == old(mounted) && handlerCalls == old(handlerCalls)
    {
      RunSnoc(Initial(initial), trace, Triggered, rejectWhilePending);
      trace := trace + [Triggered];
      if status == Pending && rejectWhilePending {
        refusal := Some(NewError(PendingGuardMessage));
        return;
      }
      status := Pending;
      workCalls := workCalls + [args];
      inFlight := inFlight + 1;
      refusal := None;
    }

    /** A started call resolved with `value`: store it, go FULFILLED, return it. */
    method SettleSuccess(value: T) returns (returned: T)
      requires Valid() && inFlight > 0
      modifies this
      ensures Valid()
      ensures trace == old(trace) + [SettledOk(value)]
      ensures State() == Step(old(State()), SettledOk(value), rejectWhilePending)
      ensures returned == value
      ensures result == value && status == Fulfilled && error == old(error)
      ensures inFlight == old(inFlight) - 1
      ensures mounted == old(mounted) && workCalls == old(workCalls) && handlerCalls == old(handlerCalls)
    {
      RunSnoc(Initial(initial), trace, SettledOk(value), rejectWhilePending);
      trace := trace + [SettledOk(value)];
      inFlight := inFlight - 1;
      result := value;
      status := Fulfilled;
      returned := value;
    }

    /**
     * A started call threw `thrown`: go REJECTED, store the normalised error,
     * hand it to the `onError` the store holds now, and return it.
     */
    method SettleFailure(thrown: Thrown, store: Config.ConfigStore) returns (outcome: FailureOutcome)
      requires Valid() && inFlight > 0
      modifies this
      ensures Valid()
      ensures trace == old(trace) + [SettledErr(thrown)]
      ensures State() == Step(old(State()), SettledErr(thrown), rejectWhilePending)
      ensures status == Rejected && error == Some(Normalise(thrown)) && result == old(result)
      ensures inFlight == old(inFlight) - 1
      ensures match Config.OnErrorHandler(store.tree)
        case NoHandler => handlerCalls == old(handlerCalls) && outcome == ResolvesWith(Normalise(thrown))
        case Call(id) => handlerCalls == old(handlerCalls) + [(id, Normalise(thrown))] && outcome == ResolvesWith(Normalise(thrown))
        case Throws => handlerCalls == old(handlerCalls) && outcome == RejectsWithTypeError
      ensures mounted == old(mounted) && workCalls == old(workCalls)
    {
      RunSnoc(Initial(initial), trace, SettledErr(thrown), rejectWhilePending);
      trace := trace + [SettledErr(thrown)];
      inFlight := inFlight - 1;
      var e := Normalise(thrown);
      status := Rejected;
      error := Some(e);
      match Config.OnErrorHandler(store.tree)
      case NoHandler =>
        outcome := ResolvesWith(e);
      case Call(id) =>
        handlerCalls := handlerCalls + [(id, e)];
        outcome := ResolvesWith(e);
      case Throws =>
        outcome := RejectsWithTypeError;
    }

    /** The `setResult` the hook hands out, with a plain value. */
    method SetResult(value: T)
      requires Valid()
      modifies this
      ensures Valid()
      ensures trace == old(trace) + [ResultSet(value)]
      ensures result == value && status == old(status) && error == old(error)
      ensures mounted == old(mounted) && inFlight == old(inFlight)
      ensures workCalls == old(workCalls) && handlerCalls == old(handlerCalls)
    {
      RunSnoc(Initial(initial), trace, ResultSet(value), rejectWhilePending);
      trace := trace + [ResultSet(value)];
      result := value;
    }

    /** The `setResult` the hook hands out, with an updater applied to the current result. */
    method UpdateResult(update: T -> T)
      requires Valid()
      modifies this
      ensures Valid()
      ensures trace == old(trace) + [ResultSet(update(old(result)))]
      ensures result == update(old(result)) && status == old(status) && error == old(error)
      ensures mounted == old(mounted) && inFlight == old(inFlight)
      ensures workCalls == old(workCalls) && handlerCalls == old(handlerCalls)
    {
      SetResult(update(result));
    }

    /**
     * The mount effect (dependency list `[]`, so it runs on the first commit
     * only): with `init`, invoke the trigger once with no arguments.
     */
    method Mount()
      requires Valid()
      modifies this
      ensures Valid() && mounted
      ensures !old(mounted) && init ==>
        && trace == old(trace) + [Triggered]
        && State() == Step(old(State()), Triggered, rejectWhilePending)
        && (if Refuses(old(status), rejectWhilePending)
            then workCalls == old(workCalls) && inFlight == old(inFlight)
            else workCalls == old(workCalls) + [[]] && inFlight == old(inFlight) + 1)
      ensures old(mounted) || !init ==>
        && trace == old(trace) && State() == old(State())
        && workCalls == old(workCalls) && inFlight == old(inFlight)
      ensures handlerCalls == old(handlerCalls)
    {
      if !mounted {
        mounted := true;
        if init {
          var _ := Trigger([]);
        }
      }
    }
  }

  /**
   * The demo application's first hook: with `{init: true}` it starts at mount,
   * with no arguments, and its success is stored; a hook without `init` stays
   * IDLE.
   */
  method DemoInitHook()
  {
    var first := new AsyncHook<Option<string>, int>(None, true, false);
    var second := new AsyncHook<Option<string>, int>(None, false, false);
    first.Mount();
    second.Mount();
    assert first.status == Pending && first.workCalls == [[]];
    assert second.status == Idle && second.workCalls == [];
    var value := first.SettleSuccess(Some("Hello World"));
    assert value == first.result == Some("Hello World") && first.status == Fulfilled;
  }

  /**
   * The demo application's second hook: after `onError` is configured, its
   * rejection is stored and reaches that `onError` exactly once.
   */
  method DemoRejectionReachesOnError()
  {
    var store := new Config.ConfigStore();
    var appHandler: nat := 1;
    var _ := store.Set(Config.OnErrorUpdate(appHandler));
    Config.OnErrorUpdateKeepsFuseConfig(Config.Default(), appHandler);
    assert Config.OnErrorHandler(store.tree) == Config.Call(appHandler);

    var hook := new AsyncHook<Option<string>, int>(None, false, false);
    var refusal := hook.Trigger([]);
    assert refusal == None && hook.status == Pending;
    var outcome := hook.SettleFailure(Err(NewError("Hello World")), store);
    assert hook.status == Rejected && hook.error == Some(NewError("Hello World")) && hook.result == None;
    assert hook.handlerCalls == [(appHandler, NewError("Hello World"))];
    assert outcome == ResolvesWith(NewError("Hello World"));
  }
}
