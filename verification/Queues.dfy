/**
 The per-request response queues (`BlockingQueue.ts`, `ResponseCollector.ts`).

 A queue is known by two things only: what was added to it, in order, and how many elements were
 asked for. The n-th `take` is answered by the n-th `add`, whichever comes first.
 */
module Queues {
  import opened Protocol

  datatype Fifo<+T> = Fifo(added: seq<T>, taken: nat)

  /** An element of a response queue: a response, or the mark left by closing. */
  datatype Element<+T> = Value(value: T) | Done(error: Option<CloseError>)

  function Add<T>(q: Fifo<T>, t: T): Fifo<T> {
    q.(added := q.added + [t])
  }

  function Take<T>(q: Fifo<T>): Fifo<T> {
    q.(taken := q.taken + 1)
  }

  /** `ResponseQueue.take` on a closing mark. */
  function ErrorOf(error: Option<CloseError>): DriverError {
    if error.Some? then StreamFailed(error.value) else TransactionClosed
  }

  /**
   A promise is a handle; `settled` says which promises were resolved, and with what. `promises` are the
   ones no `take` has claimed yet, `resolvers` the ones no `add` has settled yet, a resolver being known by
   the promise it settles. Promise number n is the one the n-th `add` and the n-th `take` share.
   */
  class BlockingQueue<T> {
    var promises: seq<nat>
    var resolvers: seq<nat>
    var settled: map<nat, T>
    var made: nat
    ghost var added: seq<T>
    ghost var taken: nat

    ghost predicate Valid()
      reads this
    {
      && made == (if taken <= |added| then |added| else taken)
      && promises == Range(taken, made)
      && resolvers == Range(|added|, made)
      && (forall n: nat :: n in settled <==> n < |added|)
      && (forall n: nat :: n in settled ==> settled[n] == added[n])
    }

    ghost function View(): Fifo<T>
      reads this
    {
      Fifo(added, taken)
    }

    /** Promise number `p` is settled exactly when there is an element of that number, and with it. */
    ghost predicate Holds(p: nat)
      reads this
    {
      (p in settled <==> p < |added|) && (p in settled ==> settled[p] == added[p])
    }

    constructor ()
      ensures Valid() && View() == Fifo([], 0)
    {
      promises, resolvers, settled, made, added, taken := [], [], map[], 0, [], 0;
    }

    method AddPromise()
      requires taken <= made && promises == Range(taken, made)
      requires |added| <= made && resolvers == Range(|added|, made)
      modifies this`promises, this`resolvers, this`made
      ensures made == old(made) + 1
      ensures promises == Range(taken, made) && resolvers == Range(|added|, made)
    {
      promises, resolvers, made := promises + [made], resolvers + [made], made + 1;
    }

    /** `add`: settles the oldest unsettled promise, which is the one of the matching `take`. */
    method Put(t: T)
      requires Valid()
      modifies this
      ensures Valid() && View() == Add(old(View()), t)
    {
      if |resolvers| == 0 { AddPromise(); }
      var resolve := resolvers[0];
      resolvers := resolvers[1..];
      settled := settled[resolve := t];
      added := added + [t];
    }

    /** `take`: a promise that holds, now or later, the element added with the same number. */
    method Claim() returns (p: nat)
      requires Valid()
      modifies this
      ensures Valid() && View() == Take(old(View()))
      ensures p == old(taken) && Holds(p)
    {
      if |promises| == 0 { AddPromise(); }
      p := promises[0];
      promises := promises[1..];
      taken := taken + 1;
    }
  }

  function Range(lo: nat, hi: nat): (r: seq<nat>)
    requires lo <= hi
    ensures |r| == hi - lo && forall i :: 0 <= i < |r| ==> r[i] == lo + i
  {
    seq(hi - lo, i requires 0 <= i => lo + i)
  }

  type Views<T> = map<RequestId, Fifo<Element<T>>>

  function Register<T>(v: Views<T>, id: RequestId): Views<T> {
    v[id := Fifo([], 0)]
  }

  function AddTo<T>(v: Views<T>, id: RequestId, e: Element<T>): Views<T>
    requires id in v
  {
    v[id := Add(v[id], e)]
  }

  function TakeFrom<T>(v: Views<T>, id: RequestId): Views<T>
    requires id in v
  {
    v[id := Take(v[id])]
  }

  /** Every registered queue receives one closing mark. */
  function Poison<T>(v: Views<T>, error: Option<CloseError>): Views<T> {
    map id | id in v :: Add(v[id], Done(error))
  }

  /** The same for the queues of these ids only. */
  function Marked<T>(v: Views<T>, ids: set<RequestId>, error: Option<CloseError>): Views<T> {
    map id | id in v :: if id in ids then Add(v[id], Done(error)) else v[id]
  }

  lemma MarkedAll<T>(v: Views<T>, error: Option<CloseError>)
    ensures Marked(v, {}, error) == v && Marked(v, v.Keys, error) == Poison(v, error)
  {
  }

  lemma MarkedFirst<T>(v: Views<T>, todo: set<RequestId>, id: RequestId, error: Option<CloseError>)
    requires id in v && id in todo
    ensures Marked(AddTo(v, id, Done(error)), todo - {id}, error) == Marked(v, todo, error)
  {
  }

  /** The dictionary of queues, each an object of its own that the taker of its id shares; `view` is what they hold. */
  class ResponseCollector<T> {
    var queues: map<RequestId, BlockingQueue<Element<T>>>
    ghost var view: Views<T>
    ghost var Repr: set<object>

    ghost predicate Valid()
      reads this, Repr
    {
      && this in Repr && view.Keys == queues.Keys
      && (forall id :: id in queues ==> queues[id] in Repr && queues[id].Valid() && queues[id].View() == view[id])
      && (forall a, b :: a in queues && b in queues && a != b ==> queues[a] != queues[b])
    }

    constructor ()
      ensures Valid() && view == map[] && fresh(Repr)
    {
      queues, view, Repr := map[], map[], {this};
    }

    /** `queue`: a new, empty queue object under this id. */
    method Queue(id: RequestId) returns (q: BlockingQueue<Element<T>>)
      requires Valid()
      modifies this
      ensures Valid() && view == Register(old(view), id)
      ensures fresh(q) && queues == old(queues)[id := q] && Repr == old(Repr) + {q}
    {
      q := new BlockingQueue<Element<T>>();
      queues, view, Repr := queues[id := q], Register(view, id), Repr + {q};
    }

    method AddIn(id: RequestId, e: Element<T>)
      requires Valid() && id in queues
      modifies this`view, queues[id]
      ensures Valid() && view == AddTo(old(view), id, e)
    {
      queues[id].Put(e);
      view := AddTo(view, id, e);
    }

    /** `get` and `put`: one queue object changes, the others stay as they are; an unknown id changes nothing. */
    method PutIn(id: RequestId, value: T) returns (known: bool)
      requires Valid()
      modifies this`view, Repr - {this}
      ensures Valid() && known == (id in queues)
      ensures view == if known then AddTo(old(view), id, Value(value)) else old(view)
    {
      known := id in queues;
      if known { AddIn(id, Value(value)); }
    }

    /** `take` on the queue of this id: the n-th taker gets promise n, which holds the n-th element in the end. */
    method TakeIn(id: RequestId) returns (p: nat)
      requires Valid() && id in queues
      modifies this`view, Repr - {this}
      ensures Valid() && view == TakeFrom(old(view), id)
      ensures p == old(view[id].taken) && queues[id].Holds(p)
    {
      p := queues[id].Claim();
      view := TakeFrom(view, id);
    }

    /** `close`: leaves one mark in every queue, whether or not anyone is waiting on it. */
    method Close(error: Option<CloseError>)
      requires Valid()
      modifies this`view, Repr - {this}
      ensures Valid() && view == Poison(old(view), error)
    {
      var todo := queues.Keys;
      ghost var goal := Poison(view, error);
      MarkedAll(view, error);
      while todo != {}
        invariant todo <= queues.Keys && Valid() && Marked(view, todo, error) == goal
        decreases |todo|
      {
        var id :| id in todo;
        MarkedFirst(view, todo, id, error);
        AddIn(id, Done(error));
        todo := todo - {id};
      }
      MarkedAll(view, error);
    }
  }
}
