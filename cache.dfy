/** A single-slot cache with a time-to-live: one stored value, the time it was
    last written and a fixed TTL. Expiry is lazy: nothing is ever evicted, a
    read simply reports the slot stale once the TTL has run out.

    Time is an integer count of nanoseconds (the unit of Go's time.Duration),
    read from a monotonic clock and passed in by the caller. */
module TtlCache {
  import opened Wrappers

  /** The abstract state of a cache: the stored value and the time of the last
      write, None until the first write (the zero time.Time of the source). */
  datatype Slot<T> = Slot(data: T, written: Option<int>)

  /** The validity test of Get: written at least once, and less than `ttl`
      has elapsed since that write. */
  predicate Fresh<T>(s: Slot<T>, ttl: int, now: int) {
    s.written.Some? && now - s.written.value < ttl
  }

  /** What Get returns on slot `s` at time `now`: the stored value and true
      while fresh, otherwise the zero value and false. */
  function Lookup<T>(s: Slot<T>, ttl: int, now: int, zero: T): (T, bool) {
    if Fresh(s, ttl, now) then (s.data, true) else (zero, false)
  }

  /** The Go struct Cache[T]. `zero` stands for Go's zero value of T, which
      Dafny cannot name for an arbitrary type parameter: it is the initial
      content of `data` and what Get returns on a miss. */
  class Cache<T> {
    var data: T
    var timestamp: Option<int>
    const ttl: int
    const zero: T

    function State(): Slot<T>
      reads this
    {
      Slot(data, timestamp)
    }

    /** True when Get at time `now` reports a hit. */
    predicate Valid(now: int)
      reads this
    {
      Fresh(State(), ttl, now)
    }

    /** NewCache: an empty slot that no Get reports valid until the first Set. */
    constructor (ttl: int, zero: T)
      ensures this.ttl == ttl && this.zero == zero
      ensures State() == Slot(zero, None)
      ensures forall now :: !Valid(now)
    {
      data := zero;
      timestamp := None;
      this.ttl := ttl;
      this.zero := zero;
    }

    /** Get reads the slot and changes nothing (it has no modifies clause). */
    method Get(now: int) returns (value: T, ok: bool)
      ensures ok <==> timestamp.Some? && now - timestamp.value < ttl
      ensures ok ==> value == data
      ensures !ok ==> value == zero
      ensures (value, ok) == Lookup(State(), ttl, now, zero)
    {
      if timestamp.Some? && now - timestamp.value < ttl {
        return data, true;
      }
      return zero, false;
    }

    /** Set replaces the value wholesale and restarts the expiry window at
        `now`; the TTL and the zero value are untouched. */
    method Set(v: T, now: int)
      modifies this`data, this`timestamp
      ensures State() == Slot(v, Some(now))
      ensures forall later :: Valid(later) <==> later - now < ttl
    {
      data := v;
      timestamp := Some(now);
    }
  }

  // ---------------------------------------------------------------------
  // A cache over its whole life: a sequence of Get and Set calls, each made
  // at its own clock reading, replayed on the abstract slot.

  datatype Call<T> = GetAt(now: int) | SetAt(v: T, now: int)

  function Step<T>(s: Slot<T>, c: Call<T>): Slot<T> {
    match c
    case GetAt(_) => s
    case SetAt(v, t) => Slot(v, Some(t))
  }

  /** The slot after the calls, in order. */
  function After<T>(s: Slot<T>, calls: seq<Call<T>>): Slot<T>
    decreases |calls|
  {
    if calls == [] then s else After(Step(s, calls[0]), calls[1..])
  }

  /** What each call returns: Some((value, ok)) for a Get, None for a Set. */
  function Responses<T>(s: Slot<T>, ttl: int, zero: T, calls: seq<Call<T>>): (rs: seq<Option<(T, bool)>>)
    ensures |rs| == |calls|
    decreases |calls|
  {
    if calls == [] then []
    else
      var r := if calls[0].GetAt? then Some(Lookup(s, ttl, calls[0].now, zero)) else None;
      [r] + Responses(Step(s, calls[0]), ttl, zero, calls[1..])
  }

  /** The position of the last Set among the calls, if there is one. */
  function LastSet<T>(calls: seq<Call<T>>): (k: Option<nat>)
    ensures k.Some? ==> k.value < |calls| && calls[k.value].SetAt?
    ensures k.Some? ==> forall j :: k.value < j < |calls| ==> calls[j].GetAt?
    ensures k.None? ==> forall j :: 0 <= j < |calls| ==> calls[j].GetAt?
  {
    if calls == [] then None
    else if calls[|calls| - 1].SetAt? then Some(|calls| - 1)
    else LastSet(calls[..|calls| - 1])
  }

  /** The clock never goes backwards across the calls. */
  predicate ClockNonDecreasing<T>(calls: seq<Call<T>>) {
    forall i, j :: 0 <= i < j < |calls| ==> calls[i].now <= calls[j].now
  }

  lemma {:induction false} AfterAppend<T>(s: Slot<T>, a: seq<Call<T>>, b: seq<Call<T>>)
    ensures After(s, a + b) == After(After(s, a), b)
    decreases |a|
  {
    if a == [] {
      assert a + b == b;
    } else {
      assert (a + b)[0] == a[0];
      assert (a + b)[1..] == a[1..] + b;
      AfterAppend(Step(s, a[0]), a[1..], b);
    }
  }

  /** The slot holds exactly what the last Set wrote, stamped with that Set's
      time; with no Set at all, the slot is as it started (Get is read-only). */
  lemma {:induction false} AfterIsLastSet<T>(s: Slot<T>, calls: seq<Call<T>>)
    ensures After(s, calls) ==
      match LastSet(calls)
      case None => s
      case Some(k) => Slot(calls[k].v, Some(calls[k].now))
    decreases |calls|
  {
    if calls != [] {
      var init, last := calls[..|calls| - 1], calls[|calls| - 1];
      assert calls == init + [last];
      AfterAppend(s, init, [last]);
      assert After(After(s, init), [last]) == Step(After(s, init), last);
      AfterIsLastSet(s, init);
    }
  }

  /** The i-th call, a Get, answers from the slot that the calls before it left. */
  lemma {:induction false} ResponseAt<T>(s: Slot<T>, ttl: int, zero: T, calls: seq<Call<T>>, i: nat)
    requires i < |calls| && calls[i].GetAt?
    ensures Responses(s, ttl, zero, calls)[i] == Some(Lookup(After(s, calls[..i]), ttl, calls[i].now, zero))
    decreases i
  {
    if i > 0 {
      ResponseAt(Step(s, calls[0]), ttl, zero, calls[1..], i - 1);
      assert calls[1..][..i - 1] == calls[..i][1..];
    }
  }

  /** Every Get returns the value of the most recent Set before it, if less
      than `ttl` has elapsed since that Set, and the zero value otherwise; a
      Get preceded by no Set answers from the starting slot. Earlier values
      are never returned once overwritten. */
  lemma GetAnswersLatestWrite<T>(s: Slot<T>, ttl: int, zero: T, calls: seq<Call<T>>, i: nat)
    requires i < |calls| && calls[i].GetAt?
    ensures Responses(s, ttl, zero, calls)[i] ==
      match LastSet(calls[..i])
      case None => Some(Lookup(s, ttl, calls[i].now, zero))
      case Some(k) =>
        if calls[i].now - calls[k].now < ttl then Some((calls[k].v, true)) else Some((zero, false))
  {
    ResponseAt(s, ttl, zero, calls, i);
    AfterIsLastSet(s, calls[..i]);
  }

  /** A cache that was never written reports a miss, with the zero value, on
      every Get, whatever the clock says. */
  lemma NeverSetNeverHits<T>(ttl: int, zero: T, calls: seq<Call<T>>)
    requires forall j :: 0 <= j < |calls| ==> calls[j].GetAt?
    ensures forall i :: 0 <= i < |calls| ==> Responses(Slot(zero, None), ttl, zero, calls)[i] == Some((zero, false))
  {
    forall i | 0 <= i < |calls|
      ensures Responses(Slot(zero, None), ttl, zero, calls)[i] == Some((zero, false))
    {
      GetAnswersLatestWrite(Slot(zero, None), ttl, zero, calls, i);
    }
  }

  /** With a TTL of zero or less and a clock that never runs backwards, no Get
      ever reports a hit. */
  lemma NonPositiveTtlNeverHits<T>(s: Slot<T>, ttl: int, zero: T, calls: seq<Call<T>>)
    requires ttl <= 0
    requires ClockNonDecreasing(calls)
    requires s.written.Some? ==> forall j :: 0 <= j < |calls| ==> s.written.value <= calls[j].now
    ensures forall i :: 0 <= i < |calls| && calls[i].GetAt? ==> Responses(s, ttl, zero, calls)[i] == Some((zero, false))
  {
    forall i | 0 <= i < |calls| && calls[i].GetAt?
      ensures Responses(s, ttl, zero, calls)[i] == Some((zero, false))
    {
      GetAnswersLatestWrite(s, ttl, zero, calls, i);
    }
  }
}
