/**
 Chained native iterators (`iterator.cpp`) over the C encoding of a stream item (`error.rs`, `iterator.rs`): a
 pointer that is null both at the end and on an error, told apart by a thread-local error flag.
 */
module NativeIterators {
  import opened Protocol
  import opened Sequences

  type Concept = int
  type NativeError = int

  datatype Item = Ok(concept: Concept) | Err(error: NativeError)

  /**
   `live` holds what each native iterator still has to give, in vector order; iterator number i is `live[i]`.
   `flag` is `LAST_ERROR`; `dropped` are the numbers of the iterators freed so far, in order.
   */
  datatype Chain = Chain(live: seq<seq<Item>>, flag: Option<NativeError>, dropped: seq<nat>)

  datatype Result = Yield(concept: Concept) | End | Throw(error: NativeError)

  /** `concept_iterator_next` on the last iterator: a null pointer for the end and for an error alike. */
  function TryNext(c: Chain): (Option<Concept>, Chain)
    requires c.live != []
  {
    var items := Last(c.live);
    if items == [] then (None, c) else
    var advanced := c.(live := Front(c.live) + [items[1..]]);
    match items[0]
    case Ok(v) => (Some(v), advanced)
    case Err(e) => (None, advanced.(flag := Some(e)))
  }

  function Drop(c: Chain): Chain
    requires c.live != []
  {
    c.(live := Front(c.live), dropped := c.dropped + [|c.live| - 1])
  }

  /** `ConceptIteratorWrapperChained::next`; a set flag is taken and thrown. */
  function Next(c: Chain): (Result, Chain)
    decreases |c.live|
  {
    if c.live == [] then
      if c.flag.Some? then (Throw(c.flag.value), c.(flag := None)) else (End, c)
    else
      var (p, c1) := TryNext(c);
      if c1.flag.Some? then (Throw(c1.flag.value), c1.(flag := None))
      else if p.Some? then (Yield(p.value), c1)
      else Next(Drop(c1))
  }

  /** What `next` does with a pointer that is not null. */
  function Given(v: Concept, c: Chain): (Result, Chain) {
    if c.flag.Some? then (Throw(c.flag.value), c.(flag := None)) else (Yield(v), c)
  }

  /** All items the chain still has to give: the last iterator first. */
  function Flat(live: seq<seq<Item>>): seq<Item> {
    if live == [] then [] else Last(live) + Flat(Front(live))
  }

  /** The numbers from `n - 1` down to `k`. */
  function Countdown(n: nat, k: nat): seq<nat>
    requires k <= n
    decreases n - k
  {
    if k == n then [] else Countdown(n, k + 1) + [k]
  }

  /** Each of those numbers occurs in it exactly once, and no other. */
  lemma {:induction false} CountdownOnce(n: nat, k: nat, i: nat)
    requires k <= n
    ensures multiset(Countdown(n, k))[i] == if k <= i < n then 1 else 0
    decreases n - k
  {
    if k < n { CountdownOnce(n, k + 1, i); }
  }

  /** Of `n` iterators, exactly those behind the live ones have been dropped, each once, last first. */
  ghost predicate DroppedOnce(c: Chain, n: nat) {
    |c.live| <= n && c.dropped == Countdown(n, |c.live|)
  }

  lemma AdvanceFlat(live: seq<seq<Item>>)
    requires live != [] && Last(live) != []
    ensures var live' := Front(live) + [Last(live)[1..]];
            |live'| == |live| && Flat(live) == [Last(live)[0]] + Flat(live')
  {
    var first, tail, others := Last(live)[0], Last(live)[1..], Flat(Front(live));
    var live' := Front(live) + [tail];
    assert Front(live') == Front(live) && Last(live') == tail;
    Reassociate(Last(live), others);
  }

  lemma Reassociate(items: seq<Item>, others: seq<Item>)
    requires items != []
    ensures items + others == [items[0]] + (items[1..] + others)
  {
  }

  /**
   From a clear flag, `next` gives the next item of the whole chain: a value is returned, an error is thrown with
   the flag left clear, and the end is reported only when nothing is left.
   */
  lemma {:induction false} NextTakesOne(c: Chain, n: nat)
    requires c.flag == None && DroppedOnce(c, n)
    ensures var (r, c') := Next(c);
            var items := Flat(c.live);
            && c'.flag == None && DroppedOnce(c', n)
            && if items == [] then r == End && c'.live == []
               else r == (match items[0] case Ok(v) => Yield(v) case Err(e) => Throw(e)) && Flat(c'.live) == items[1..]
    decreases |c.live|
  {
    if c.live != [] {
      if Last(c.live) == [] {
        assert Flat(c.live) == Flat(Front(c.live));
        NextTakesOne(Drop(c), n);
      } else {
        AdvanceFlat(c.live);
      }
    }
  }

  /** A flag left set by someone else is thrown instead, at the cost of whatever item was taken. */
  lemma StaleFlagCostsAnItem(c: Chain)
    requires c.flag.Some?
    ensures var (r, c') := Next(c);
            && r.Throw? && c'.flag == None && |c'.live| == |c.live| && c'.dropped == c.dropped
            && (c.live == [] || Last(c.live) == [] || Last(c.live)[0].Ok? ==> r == Throw(c.flag.value))
            && (c.live != [] && Last(c.live) != [] ==> Flat(c'.live) == Flat(c.live)[1..])
  {
    if c.live != [] && Last(c.live) != [] { AdvanceFlat(c.live); }
  }

  // --- Draining ----------------------------------------------------------------------------

  /** The values before the first error. */
  function Values(items: seq<Item>): seq<Concept> {
    if items == [] || items[0].Err? then [] else [items[0].concept] + Values(items[1..])
  }

  /** How such a list ends: at its first error, if it has one. */
  function Ending(items: seq<Item>): Result {
    if items == [] then End else if items[0].Err? then Throw(items[0].error) else Ending(items[1..])
  }

  class ChainedWrapper {
    var live: seq<seq<Item>>
    var flag: Option<NativeError>
    ghost var dropped: seq<nat>

    ghost function View(): Chain
      reads this
    {
      Chain(live, flag, dropped)
    }

    constructor (iterators: seq<seq<Item>>)
      ensures View() == Chain(iterators, None, [])
    {
      live, flag, dropped := iterators, None, [];
    }

    method TryNextNative() returns (p: Option<Concept>)
      requires live != []
      modifies this
      ensures (p, View()) == TryNext(old(View()))
    {
      p := None;
      var items := live[|live| - 1];
      if |items| > 0 {
        live := live[..|live| - 1] + [items[1..]];
        match items[0] {
          case Ok(v) => p := Some(v);
          case Err(e) => flag := Some(e);
        }
      }
    }

    /** `check_and_throw`: `Some` stands for the exception it throws. */
    method CheckAndThrow() returns (e: Option<NativeError>)
      modifies this`flag
      ensures e == old(flag) && flag == None
    {
      e := flag;
      flag := None;
    }

    method DropLast()
      requires live != []
      modifies this
      ensures View() == Drop(old(View()))
    {
      dropped := dropped + [|live| - 1];
      live := live[..|live| - 1];
    }

    /** `next`. */
    method NextConcept() returns (r: Result)
      modifies this
      ensures (r, View()) == Next(old(View()))
    {
      var p: Option<Concept> := None;
      var done := false;
      while !done && |live| > 0
        invariant !done ==> p == None && Next(View()) == Next(old(View()))
        invariant done ==> p.Some? && Next(old(View())) == Given(p.value, View())
        decreases |live|, !done
      {
        p := TryNextNative();
        if p.Some? {
          done := true;
        } else {
          var e := CheckAndThrow();
          if e.Some? { return Throw(e.value); }
          DropLast();
        }
      }
      var e := CheckAndThrow();
      if e.Some? { return Throw(e.value); }
      r := if p.Some? then Yield(p.value) else End;
    }

    /** Iterating to the end or to the first exception, as a caller's loop does. */
    method Drain(ghost n: nat) returns (values: seq<Concept>, ending: Result)
      requires flag == None && DroppedOnce(View(), n)
      modifies this
      ensures values == Values(old(Flat(live))) && ending == Ending(old(Flat(live)))
      ensures flag == None && DroppedOnce(View(), n)
    {
      values := [];
      while true
        invariant flag == None && DroppedOnce(View(), n)
        invariant values + Values(Flat(live)) == Values(old(Flat(live)))
        invariant Ending(Flat(live)) == Ending(old(Flat(live)))
        decreases |Flat(live)|
      {
        NextTakesOne(View(), n);
        var r := NextConcept();
        if !r.Yield? { return values, r; }
        values := values + [r.concept];
      }
    }

    /** The destructor: wherever iteration stopped, every native iterator has then been dropped exactly once. */
    method Destroy(ghost n: nat)
      requires DroppedOnce(View(), n)
      modifies this
      ensures live == [] && dropped == Countdown(n, 0)
      ensures forall i: nat :: multiset(dropped)[i] == if i < n then 1 else 0
    {
      while |live| > 0
        invariant DroppedOnce(View(), n)
        decreases |live|
      {
        DropLast();
      }
      forall i: nat ensures multiset(dropped)[i] == if i < n then 1 else 0 { CountdownOnce(n, 0, i); }
    }
  }

  /** The state after any number of calls of `next`. */
  function Nexts(c: Chain, calls: nat): Chain {
    if calls == 0 then c else Next(Nexts(c, calls - 1)).1
  }

  /** However often `next` was called, the chain has given that many items and dropped each finished iterator once. */
  lemma {:induction false} NextsTakeInOrder(iterators: seq<seq<Item>>, calls: nat)
    ensures var c := Nexts(Chain(iterators, None, []), calls);
            var items := Flat(iterators);
            && c.flag == None && DroppedOnce(c, |iterators|)
            && Flat(c.live) == if calls <= |items| then items[calls..] else []
  {
    var c0 := Chain(iterators, None, []);
    if calls > 0 {
      NextsTakeInOrder(iterators, calls - 1);
      NextTakesOne(Nexts(c0, calls - 1), |iterators|);
    }
  }
}
