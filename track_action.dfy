/**
 * Time-triggered actions of Player/TrackAction.swift and their per-tick
 * processing. Each callback is an identifier; invoking it is recorded as an
 * `Invocation`. `Time` is a Swift `Double` that may be not-a-number.
 */
module TrackActions {
  import opened Wrappers
  import opened Guards

  /** A playback time as the player reports it: a number or NaN. */
  datatype Time = NaN | Finite(value: real)

  /** Identifies one callback closure. */
  type CallbackId = int

  /**
   * A window width. Swift builds the range `when...when + precision`, which
   * traps when the upper bound is below the lower one, so only non-negative
   * widths are processed without a crash.
   */
  type Precision = r: real | r >= 0.0 witness 0.0

  datatype TrackAction =
    | Once(when: real, action: CallbackId)
    | OncePrecise(when: real, precision: Precision, action: CallbackId)
    | Any(action: CallbackId)

  /** One call of a callback: `action()`, or `action(time)` for `any`. */
  datatype Invocation = Call(action: CallbackId) | CallAt(action: CallbackId, time: real)

  /** What `TrackAction.process(time:)` does: keep the entry or not, and the call it makes. */
  datatype Outcome = Outcome(keep: bool, call: Option<Invocation>)

  /** The firing condition of an entry at time `t`. */
  predicate Due(a: TrackAction, t: real)
  {
    match a
    case Once(when, _) => when <= t
    case OncePrecise(when, precision, _) => when <= t <= when + precision
    case Any(_) => true
  }

  /** `TrackAction.process(time:)`: fire if due; drop a fired one-shot entry. */
  function ProcessAction(a: TrackAction, t: real): (r: Outcome)
    ensures a.Once? ==> (r.keep <==> t < a.when) && (r.call.Some? <==> a.when <= t)
    ensures a.OncePrecise? ==> (r.keep <==> t < a.when || a.when + a.precision < t)
    ensures a.Any? ==> r.keep && r.call == Some(CallAt(a.action, t))
    ensures !a.Any? ==> (r.call.Some? <==> !r.keep) && (r.call.Some? ==> r.call.value == Call(a.action))
    ensures r.call.Some? <==> Due(a, t)
  {
    match a
    case Once(when, action) =>
      if when <= t then Outcome(false, Some(Call(action))) else Outcome(true, None)
    case OncePrecise(when, precision, action) =>
      if when <= t <= when + precision then Outcome(false, Some(Call(action))) else Outcome(true, None)
    case Any(action) =>
      Outcome(true, Some(CallAt(action, t)))
  }

  /** The calls one entry makes, as a sequence. */
  function CallsOf(o: Outcome): seq<Invocation>
  {
    if o.call.Some? then [o.call.value] else []
  }

  /** The list `filter { $0.process(time: t) }` returns. */
  function Kept(xs: seq<TrackAction>, t: real): (r: seq<TrackAction>)
    ensures |r| <= |xs|
  {
    if xs == [] then []
    else (if ProcessAction(xs[0], t).keep then [xs[0]] else []) + Kept(xs[1..], t)
  }

  /** The calls `filter` makes while it walks the list, in list order. */
  function Calls(xs: seq<TrackAction>, t: real): (r: seq<Invocation>)
    ensures |r| <= |xs|
  {
    if xs == [] then []
    else CallsOf(ProcessAction(xs[0], t)) + Calls(xs[1..], t)
  }

  /** The calls the `any` entries of a list make at time `t`, in list order. */
  function AnyCalls(xs: seq<TrackAction>, t: real): seq<Invocation>
  {
    if xs == [] then []
    else (if xs[0].Any? then [CallAt(xs[0].action, t)] else []) + AnyCalls(xs[1..], t)
  }

  /** `s` is `xs` with some entries left out, the rest in their original order. */
  predicate IsSubsequence<T(==)>(s: seq<T>, xs: seq<T>)
    decreases |xs|
  {
    if s == [] then true
    else if xs == [] then false
    else (s[0] == xs[0] && IsSubsequence(s[1..], xs[1..])) || IsSubsequence(s, xs[1..])
  }

  /** Processing a concatenation keeps the entries of each part, in order. */
  lemma {:induction false} KeptAppend(a: seq<TrackAction>, b: seq<TrackAction>, t: real)
    ensures Kept(a + b, t) == Kept(a, t) + Kept(b, t)
  {
    if a == [] {
      assert a + b == b;
    } else {
      var head := if ProcessAction(a[0], t).keep then [a[0]] else [];
      assert (a + b)[0] == a[0];
      assert (a + b)[1..] == a[1..] + b;
      KeptAppend(a[1..], b, t);
      assert Kept(a + b, t) == head + (Kept(a[1..], t) + Kept(b, t));
    }
  }

  /** Processing a concatenation makes the calls of the first part, then those of the second. */
  lemma {:induction false} CallsAppend(a: seq<TrackAction>, b: seq<TrackAction>, t: real)
    ensures Calls(a + b, t) == Calls(a, t) + Calls(b, t)
  {
    if a == [] {
      assert a + b == b;
    } else {
      var head := CallsOf(ProcessAction(a[0], t));
      assert (a + b)[0] == a[0];
      assert (a + b)[1..] == a[1..] + b;
      CallsAppend(a[1..], b, t);
      assert Calls(a + b, t) == head + (Calls(a[1..], t) + Calls(b, t));
    }
  }

  /** The kept list is a subsequence of the original list. */
  lemma {:induction false} KeptIsSubsequence(xs: seq<TrackAction>, t: real)
    ensures IsSubsequence(Kept(xs, t), xs)
  {
    if xs != [] {
      KeptIsSubsequence(xs[1..], t);
      if ProcessAction(xs[0], t).keep {
        assert Kept(xs, t)[1..] == Kept(xs[1..], t);
      } else {
        assert Kept(xs, t) == Kept(xs[1..], t);
      }
    }
  }

  /** An entry survives the tick if and only if it is in the list and was not consumed. */
  lemma {:induction false} KeptMembership(xs: seq<TrackAction>, t: real, a: TrackAction)
    ensures a in Kept(xs, t) <==> a in xs && ProcessAction(a, t).keep
  {
    if xs != [] {
      KeptMembership(xs[1..], t, a);
      assert xs == [xs[0]] + xs[1..];
    }
  }

  /** After a tick at `t`, no remaining one-shot entry is due at `t`. */
  lemma NothingDueRemains(xs: seq<TrackAction>, t: real, a: TrackAction)
    requires a in Kept(xs, t)
    ensures a.Once? ==> t < a.when
    ensures a.OncePrecise? ==> t < a.when || a.when + a.precision < t
  {
    KeptMembership(xs, t, a);
  }

  /** A second tick at the same time drops nothing and fires only the `any` entries. */
  lemma {:induction false} SecondTickFiresOnlyAny(xs: seq<TrackAction>, t: real)
    ensures Kept(Kept(xs, t), t) == Kept(xs, t)
    ensures Calls(Kept(xs, t), t) == AnyCalls(xs, t)
  {
    if xs != [] {
      SecondTickFiresOnlyAny(xs[1..], t);
      var head := if ProcessAction(xs[0], t).keep then [xs[0]] else [];
      KeptAppend(head, Kept(xs[1..], t), t);
      CallsAppend(head, Kept(xs[1..], t), t);
    }
  }

  /** Every `any` entry survives, so the `any` entries are the same after the tick. */
  lemma {:induction false} AnyEntriesPersist(xs: seq<TrackAction>, t: real, u: real)
    ensures AnyCalls(Kept(xs, t), u) == AnyCalls(xs, u)
  {
    if xs != [] {
      AnyEntriesPersist(xs[1..], t, u);
      var rest := Kept(xs[1..], t);
      if ProcessAction(xs[0], t).keep {
        assert Kept(xs, t) == [xs[0]] + rest;
        assert ([xs[0]] + rest)[0] == xs[0];
        assert ([xs[0]] + rest)[1..] == rest;
        assert AnyCalls([xs[0]] + rest, u) == (if xs[0].Any? then [CallAt(xs[0].action, u)] else []) + AnyCalls(rest, u);
      } else {
        assert !xs[0].Any?;
        assert Kept(xs, t) == rest;
      }
    }
  }

  /** The effect of `Array<TrackAction>.process(time:)`. */
  datatype ListResult = ListResult(actions: seq<TrackAction>, locks: set<int>, calls: seq<Invocation>)

  /**
   * `Array<TrackAction>.process(time:)`: skipped for NaN, skipped when the
   * list's tag is held, otherwise filter under the guard and release it.
   */
  function ProcessList(xs: seq<TrackAction>, locks: set<int>, tag: int, time: Time): (r: ListResult)
    ensures r.locks == locks
    ensures time.NaN? ==> r == ListResult(xs, locks, [])
    ensures tag in locks ==> r == ListResult(xs, locks, [])
    ensures time.Finite? && tag !in locks ==>
      r.actions == Kept(xs, time.value) && r.calls == Calls(xs, time.value)
  {
    if time.NaN? then ListResult(xs, locks, [])
    else
      var acquired := TryAcquire(locks, tag);
      match acquired.unlock
      case None => ListResult(xs, acquired.locks, [])
      case Some(unlock) =>
        LockThenUnlockRestores(locks, tag);
        ListResult(Kept(xs, time.value), Released(acquired.locks, unlock), Calls(xs, time.value))
  }

  /** A sequence of ticks, one `process(time:)` call each, with no other holder of the tag. */
  function Ticks(xs: seq<TrackAction>, tag: int, times: seq<Time>): (r: ListResult)
    decreases |times|
  {
    if times == [] then ListResult(xs, {}, [])
    else
      var first := ProcessList(xs, {}, tag, times[0]);
      var rest := Ticks(first.actions, tag, times[1..]);
      ListResult(rest.actions, rest.locks, first.calls + rest.calls)
  }

  /** `once(when: 10)` ticked at 5, 9, 10, 15 fires once, at 10, and is gone afterwards. */
  lemma OnceFiresOnceAtTen()
    ensures var r := Ticks([Once(10.0, 1)], 0, [Finite(5.0), Finite(9.0), Finite(10.0), Finite(15.0)]);
      r.calls == [Call(1)] && r.actions == []
    ensures Ticks([Once(10.0, 1)], 0, [Finite(5.0), Finite(9.0), Finite(10.0)]).calls == [Call(1)]
    ensures Ticks([Once(10.0, 1)], 0, [Finite(5.0), Finite(9.0)]).calls == []
  {
  }

  /** `oncePrecise(when: 10, precision: 2)` ticked at 5, 13, 20 never fires: the jump skips its window. */
  lemma SkippedWindowNeverFires()
    ensures var r := Ticks([OncePrecise(10.0, 2.0, 1)], 0, [Finite(5.0), Finite(13.0), Finite(20.0)]);
      r.calls == [] && r.actions == [OncePrecise(10.0, 2.0, 1)]
  {
  }

  /** An `any` entry ticked at 1, 2, 3 is called with exactly those times and stays. */
  lemma AnyFiresEveryTick()
    ensures var r := Ticks([Any(7)], 0, [Finite(1.0), NaN, Finite(2.0), Finite(3.0)]);
      r.calls == [CallAt(7, 1.0), CallAt(7, 2.0), CallAt(7, 3.0)] && r.actions == [Any(7)]
  {
  }

  /**
   * The list of track actions the player owns (`pointsHandlers`), with the
   * identity Swift derives from the array value for the guard.
   */
  class TrackList {
    var actions: seq<TrackAction>
    const tag: int

    constructor (tag: int)
      ensures actions == [] && this.tag == tag
    {
      actions := [];
      this.tag := tag;
    }

    /** Appending to the public `pointsHandlers` array. */
    method Add(a: TrackAction)
      modifies this
      ensures actions == old(actions) + [a]
    {
      actions := actions + [a];
    }

    /** `Array<TrackAction>.process(time:)`: the filter walk runs under the guard. */
    method Process(time: Time, g: Guard) returns (calls: seq<Invocation>)
      modifies this, g
      ensures ListResult(actions, g.locks, calls) == ProcessList(old(actions), old(g.locks), tag, time)
    {
      if time.NaN? {
        return [];
      }
      var unlock := g.Lock(tag);
      if unlock.None? {
        return [];
      }
      assert unlock.value == Unlocker(tag) && tag !in old(g.locks);
      ghost var held := g.locks;
      assert held == old(g.locks) + {tag};
      var t := time.value;
      var xs := actions;
      var kept: seq<TrackAction> := [];
      calls := [];
      var i := 0;
      while i < |xs|
        invariant 0 <= i <= |xs|
        invariant kept == Kept(xs[..i], t)
        invariant calls == Calls(xs[..i], t)
        invariant g.locks == held
      {
        var outcome := ProcessAction(xs[i], t);
        if outcome.keep {
          kept := kept + [xs[i]];
        }
        if outcome.call.Some? {
          calls := calls + [outcome.call.value];
        }
        KeptAppend(xs[..i], [xs[i]], t);
        CallsAppend(xs[..i], [xs[i]], t);
        assert xs[..i + 1] == xs[..i] + [xs[i]];
        i := i + 1;
      }
      assert xs[..i] == xs;
      actions := kept;
      g.Unlock(unlock.value);
      LockThenUnlockRestores(old(g.locks), tag);
    }
  }
}
