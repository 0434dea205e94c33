/** The free-list policy of TexturePool, as a pure function of the
    free-list and the disposed flag. The TexturePool methods are specified
    against `Step`, and the lemmas here state what every sequence of
    Rent/Return/Dispose calls does to the free-list. */
module PoolPolicy {

  /** Return releases a texture instead of keeping it once the free-list
      holds MORE than this many entries (the check is a strict `>`). */
  const HighWater: nat := 16

  /** Because of the strict check the free-list can reach one entry more. */
  const MaxFree: nat := HighWater + 1

  /** The observable state of a pool: the free-list (top of the stack is
      the last element) and the disposed flag. */
  datatype PoolView<T> = PoolView(free: seq<T>, disposed: bool)

  /** A call on the pool. */
  datatype Event<T> = Rented | Returned(item: T) | Disposed

  /** Whether Return pushes the texture rather than releasing it. */
  predicate KeepsReturn(count: nat, disposed: bool)
  {
    !disposed && !(count > HighWater)
  }

  /** The pool after one call. Rent pops the top entry if there is one
      (and allocates otherwise, which leaves the free-list empty); Return
      pushes or releases; the first Dispose empties the free-list. */
  function Step<T>(s: PoolView<T>, e: Event<T>): (r: PoolView<T>)
    ensures r.disposed <==> s.disposed || e.Disposed?
    ensures |r.free| <= |s.free| + 1
    ensures |r.free| > |s.free| ==> e.Returned? && |r.free| <= MaxFree
    ensures e.Rented? && s.free != [] ==> r.free + [s.free[|s.free| - 1]] == s.free
  {
    match e
    case Rented =>
      if |s.free| > 0 then s.(free := s.free[..|s.free| - 1]) else s
    case Returned(t) =>
      if KeepsReturn(|s.free|, s.disposed) then s.(free := s.free + [t]) else s
    case Disposed =>
      if s.disposed then s else PoolView([], true)
  }

  /** The pool after a sequence of calls. */
  function Run<T>(s: PoolView<T>, events: seq<Event<T>>): PoolView<T>
    decreases |events|
  {
    if events == [] then s else Run(Step(s, events[0]), events[1..])
  }

  /** Whatever sequence of calls is made, the free-list never holds more
      than MaxFree (17) entries. */
  lemma {:induction false} RunStaysBounded<T>(s: PoolView<T>, events: seq<Event<T>>)
    requires |s.free| <= MaxFree
    ensures |Run(s, events).free| <= MaxFree
    decreases |events|
  {
    if events != [] {
      RunStaysBounded(Step(s, events[0]), events[1..]);
    }
  }

  /** Once disposed, a pool stays disposed and its free-list stays empty
      whatever is rented or returned afterwards: Rent still works (it
      allocates) but Return always releases. */
  lemma {:induction false} DisposedStaysEmpty<T>(s: PoolView<T>, events: seq<Event<T>>)
    requires s.disposed && s.free == []
    ensures Run(s, events) == s
    decreases |events|
  {
    if events != [] {
      DisposedStaysEmpty(Step(s, events[0]), events[1..]);
    }
  }

  /** LIFO: renting right after a kept Return gives back exactly the
      returned texture and restores the free-list. */
  lemma ReturnThenRent<T>(s: PoolView<T>, t: T)
    requires KeepsReturn(|s.free|, s.disposed)
    ensures var kept := Step(s, Returned(t));
      kept.free[|kept.free| - 1] == t && Step(kept, Rented) == s
  {
    var kept := Step(s, Returned(t));
    assert kept.free[..|kept.free| - 1] == s.free;
  }

  /** A second Dispose changes nothing. */
  lemma DisposeIdempotent<T>(s: PoolView<T>)
    ensures Step(Step(s, Disposed), Disposed) == Step(s, Disposed)
  {
  }

  /** Renting does not look at the disposed flag: from a disposed pool it
      pops exactly as from a live one. */
  lemma RentIgnoresDisposed<T>(free: seq<T>)
    ensures Step(PoolView(free, true), Rented).free == Step(PoolView(free, false), Rented).free
  {
  }
}
