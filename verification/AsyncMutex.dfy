/**
 The asynchronous mutex (`async_mutex`): a flag and a queue of waiting requests.
 A waiting request that is cancelled leaves a hole in the queue. For any
 interleaving of lock, unlock, cancel-one and cancel-all, requests that are not
 cancelled are granted in the order in which they were made, one at a time, and
 every request completes exactly once.
 */
module AsyncMutex {
  /** A place in the queue; a cancelled request leaves a hole. */
  datatype Slot = Hole | Waiting(id: nat)

  /** The requests still waiting, oldest first. */
  function Live(s: seq<Slot>): seq<nat> {
    if s == [] then []
    else if s[0].Hole? then Live(s[1..])
    else [s[0].id] + Live(s[1..])
  }

  /** The members of a sequence outside a set, in order. */
  function Except(s: seq<nat>, out: set<nat>): seq<nat> {
    if s == [] then []
    else if s[0] in out then Except(s[1..], out)
    else [s[0]] + Except(s[1..], out)
  }

  predicate Distinct(s: seq<nat>) {
    forall i, j :: 0 <= i < j < |s| ==> s[i] != s[j]
  }

  lemma {:induction false} LiveConcat(a: seq<Slot>, b: seq<Slot>)
    ensures Live(a + b) == Live(a) + Live(b)
  {
    if a == [] {
      assert a + b == b;
    } else {
      assert (a + b)[1..] == a[1..] + b;
      LiveConcat(a[1..], b);
    }
  }

  lemma {:induction false} ExceptConcat(a: seq<nat>, b: seq<nat>, out: set<nat>)
    ensures Except(a + b, out) == Except(a, out) + Except(b, out)
  {
    if a == [] {
      assert a + b == b;
    } else {
      assert (a + b)[1..] == a[1..] + b;
      ExceptConcat(a[1..], b, out);
    }
  }

  lemma {:induction false} ExceptTwice(s: seq<nat>, out: set<nat>, x: nat)
    ensures Except(Except(s, out), {x}) == Except(s, out + {x})
  {
    if s != [] {
      ExceptTwice(s[1..], out, x);
      if s[0] !in out {
        var rest := Except(s[1..], out);
        assert ([s[0]] + rest)[1..] == rest;
      }
    }
  }

  lemma {:induction false} ExceptAbsent(s: seq<nat>, x: nat)
    requires x !in s
    ensures Except(s, {x}) == s
  {
    if s != [] {
      ExceptAbsent(s[1..], x);
    }
  }

  lemma {:induction false} ExceptMembers(s: seq<nat>, out: set<nat>)
    ensures forall x :: x in Except(s, out) <==> x in s && x !in out
  {
    if s != [] {
      ExceptMembers(s[1..], out);
      assert s == [s[0]] + s[1..];
    }
  }

  lemma {:induction false} ExceptDistinct(s: seq<nat>, out: set<nat>)
    requires Distinct(s)
    ensures Distinct(Except(s, out))
  {
    if s != [] {
      ExceptDistinct(s[1..], out);
      ExceptMembers(s[1..], out);
    }
  }

  lemma {:induction false} LiveMembers(s: seq<Slot>)
    ensures forall x :: x in Live(s) <==> Waiting(x) in s
  {
    if s != [] {
      LiveMembers(s[1..]);
      assert s == [s[0]] + s[1..];
    }
  }

  /** Taking one waiting request out, whichever it is. */
  lemma {:induction false} LiveWithout(s: seq<Slot>, k: nat)
    requires k < |s| && s[k].Waiting? && Distinct(Live(s))
    ensures Live(s[k := Hole]) == Except(Live(s), {s[k].id})
  {
    var x := s[k].id;
    var a, b := s[..k], s[k + 1..];
    assert s == a + ([s[k]] + b) && s[k := Hole] == a + ([Hole] + b);
    LiveConcat(a, [s[k]] + b);
    LiveConcat(a, [Hole] + b);
    assert ([s[k]] + b)[1..] == b && ([Hole] + b)[1..] == b;
    assert Live(s) == Live(a) + ([x] + Live(b));
    ExceptMiddle(Live(a), x, Live(b));
  }

  lemma ExceptMiddle(a: seq<nat>, x: nat, b: seq<nat>)
    requires Distinct(a + ([x] + b))
    ensures Except(a + ([x] + b), {x}) == a + b
  {
    var s := a + ([x] + b);
    assert s[|a|] == x;
    assert forall i :: 0 <= i < |a| ==> s[i] == a[i];
    assert forall i :: 0 <= i < |b| ==> s[|a| + 1 + i] == b[i];
    ExceptConcat(a, [x] + b, {x});
    assert ([x] + b)[1..] == b;
    ExceptAbsent(a, x);
    ExceptAbsent(b, x);
  }

  class AsyncMutex {
    var locked: bool
    var waiting: seq<Slot>

    /** Every request ever made, in order; those granted, in order; those told
        that they were aborted; and how many grants have been given back. */
    ghost var requested: seq<nat>
    ghost var granted: seq<nat>
    ghost var aborted: set<nat>
    ghost var released: nat

    /** Mutual exclusion, and waiting only while somebody holds the mutex. */
    ghost predicate Exclusive()
      reads this
    {
      && |granted| == released + (if locked then 1 else 0)
      && (Live(waiting) != [] ==> locked)
    }

    /** First come, first served: without the aborted requests, the requests in
        order are those granted and then those waiting. */
    ghost predicate Fair()
      reads this
    {
      && Distinct(requested) && aborted <= (set x | x in requested)
      && Except(requested, aborted) == granted + Live(waiting)
    }

    ghost predicate Valid()
      reads this
    {
      Exclusive() && Fair()
    }

    constructor ()
      ensures Valid() && !locked && requested == [] && granted == [] && aborted == {} && waiting == []
    {
      locked, waiting, requested, granted, aborted, released := false, [], [], [], {}, 0;
    }

    /** `execute_or_queue` */
    method Lock(id: nat)
      requires Valid() && id !in requested
      modifies this
      ensures Valid() && locked && requested == old(requested) + [id] && aborted == old(aborted)
      ensures granted == if old(locked) then old(granted) else old(granted) + [id]
      ensures released == old(released)
    {
      ExceptConcat(requested, [id], aborted);
      LiveConcat(waiting, [Waiting(id)]);
      assert Except([id], aborted) == [id] && Live([Waiting(id)]) == [id];
      requested := requested + [id];
      if locked {
        waiting := waiting + [Waiting(id)];
      } else {
        locked := true;
        granted := granted + [id];
        assert Live(waiting) == [];
      }
    }

    /** `unlock`: the oldest request that is still there gets the mutex; the
        result is that request, or a hole if nobody waits. */
    method Unlock() returns (next: Slot)
      requires Valid() && locked
      modifies this
      ensures Valid() && released == old(released) + 1 && requested == old(requested) && aborted == old(aborted)
      ensures var live := old(Live(waiting));
        if live == [] then !locked && granted == old(granted) && next == Hole
        else locked && granted == old(granted) + [live[0]] && next == Waiting(live[0])
    {
      released := released + 1;
      while waiting != []
        invariant Live(waiting) == old(Live(waiting)) && locked
        invariant granted == old(granted) && requested == old(requested) && aborted == old(aborted)
        invariant released == old(released) + 1
        decreases |waiting|
      {
        var op := waiting[0];
        waiting := waiting[1..];
        if op.Waiting? {
          granted := granted + [op.id];
          assert old(granted) + ([op.id] + Live(waiting)) == granted + Live(waiting);
          return op;
        }
      }
      locked := false;
      next := Hole;
    }

    /** `cancel_waiting_op`, on the place of a waiting request; once the request
        is gone there is nothing to cancel. */
    method CancelOne(k: nat)
      requires Valid() && k < |waiting|
      modifies this
      ensures Valid() && locked == old(locked) && requested == old(requested) && granted == old(granted)
      ensures released == old(released)
      ensures aborted == if old(waiting[k]).Waiting? then old(aborted) + {old(waiting[k]).id} else old(aborted)
    {
      if waiting[k].Waiting? {
        var x := waiting[k].id;
        FairLive();
        LiveMembers(waiting);
        LiveWithout(waiting, k);
        AbortOne(requested, aborted, granted, Live(waiting), x);
        waiting := waiting[k := Hole];
        aborted := aborted + {x};
      }
    }

    /** What fairness says about a request that waits. */
    lemma FairLive()
      requires Valid()
      ensures Distinct(Live(waiting))
      ensures forall x :: x in Live(waiting) ==> x in requested && x !in granted && x !in aborted
    {
      ExceptDistinct(requested, aborted);
      ExceptMembers(requested, aborted);
      var s := granted + Live(waiting);
      assert forall i :: 0 <= i < |Live(waiting)| ==> s[|granted| + i] == Live(waiting)[i];
      assert forall i :: 0 <= i < |granted| ==> s[i] == granted[i];
      forall x | x in Live(waiting) ensures x in requested && x !in granted && x !in aborted {
        assert x in s;
      }
    }

    /** `cancel`: everybody who waits is told. */
    method CancelAll()
      requires Valid()
      modifies this
      ensures Valid() && waiting == [] && locked == old(locked)
      ensures requested == old(requested) && granted == old(granted) && released == old(released)
      ensures aborted == old(aborted) + set x | x in old(Live(waiting))
    {
      ghost var live := Live(waiting);
      while waiting != []
        invariant Valid() && locked == old(locked) && requested == old(requested)
        invariant granted == old(granted) && released == old(released)
        invariant aborted + (set x | x in Live(waiting)) == old(aborted) + set x | x in old(Live(waiting))
        decreases |waiting|
      {
        var op := waiting[0];
        if op.Waiting? {
          FairLive();
          AbortFirst();
        }
        waiting := waiting[1..];
      }
    }

    /** The request at the head of the queue is aborted and leaves it. */
    ghost method AbortFirst()
      requires Valid() && waiting != [] && waiting[0].Waiting? && Distinct(Live(waiting))
      modifies this`aborted
      ensures aborted == old(aborted) + {waiting[0].id}
      ensures Except(requested, aborted) == granted + Live(waiting[1..])
      ensures aborted <= set x | x in requested
    {
      var x := waiting[0].id;
      LiveMembers(waiting);
      FairLive();
      AbortOne(requested, aborted, granted, Live(waiting), x);
      ExceptMiddle([], x, Live(waiting[1..]));
      assert [] + ([x] + Live(waiting[1..])) == Live(waiting);
      aborted := aborted + {x};
    }
  }

  lemma AbortOne(requested: seq<nat>, aborted: set<nat>, granted: seq<nat>, live: seq<nat>, x: nat)
    requires Except(requested, aborted) == granted + live && x !in granted
    ensures Except(requested, aborted + {x}) == granted + Except(live, {x})
  {
    ExceptTwice(requested, aborted, x);
    ExceptConcat(granted, live, {x});
    ExceptAbsent(granted, x);
  }

  /** Every request is granted once, aborted once, or still waiting: the three
      do not overlap and leave nothing out. */
  lemma CompletesExactlyOnce(m: AsyncMutex, x: nat)
    requires m.Valid() && x in m.requested
    ensures (x in m.granted || x in m.aborted || x in Live(m.waiting))
    ensures !(x in m.granted && x in m.aborted) && !(x in m.granted && x in Live(m.waiting))
    ensures !(x in m.aborted && x in Live(m.waiting))
    ensures Distinct(m.granted)
  {
    m.FairLive();
    ExceptMembers(m.requested, m.aborted);
    ExceptDistinct(m.requested, m.aborted);
    var s := m.granted + Live(m.waiting);
    assert forall y :: y in s <==> y in m.granted || y in Live(m.waiting);
    assert forall i :: 0 <= i < |m.granted| ==> s[i] == m.granted[i];
  }
}
