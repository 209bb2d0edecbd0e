/**
 The packet identifier allocator (`packet_id_allocator`): the free identifiers
 as a list of half-open intervals, largest first, edited in place. It refines a
 set of identifiers, and the list is canonical: it is determined by the set.
 */
module PacketIds {
  import opened Requests

  /** The identifiers `end + 1 .. start`. */
  datatype Interval = Interval(start: nat, end: nat)

  ghost predicate Covers(s: seq<Interval>, x: nat) {
    exists i :: 0 <= i < |s| && s[i].end < x <= s[i].start
  }

  /** The identifiers that are not free. */
  ghost function Outside(s: seq<Interval>): set<nat> {
    set x: nat | 1 <= x <= 65535 && !Covers(s, x)
  }

  /** Descending, disjoint, and never adjacent. */
  ghost predicate WellFormed(s: seq<Interval>) {
    && (forall i :: 0 <= i < |s| ==> s[i].end < s[i].start <= MAX_PACKET_ID)
    && (forall i, j :: 0 <= i < j < |s| ==> s[j].start < s[i].end)
  }

  /** The least identifier of 1..65535 outside `taken`, or 0 if there is none. */
  ghost predicate IsLeastFree(taken: set<nat>, x: nat) {
    if x == 0 then forall y :: 1 <= y <= 65535 ==> y in taken
    else 1 <= x <= 65535 && x !in taken && forall y :: 1 <= y < x ==> y in taken
  }

  class PacketIdAllocator {
    var freeIds: seq<Interval>

    /** The identifiers in use. */
    ghost var taken: set<nat>

    ghost predicate Valid()
      reads this
    {
      WellFormed(freeIds) && taken == Outside(freeIds)
    }

    constructor ()
      ensures Valid() && taken == {}
    {
      freeIds := [Interval(MAX_PACKET_ID, 0)];
      taken := {};
      new;
      forall x: nat | 1 <= x <= MAX_PACKET_ID ensures Covers(freeIds, x) {
        assert freeIds[0].end < x <= freeIds[0].start;
      }
    }

    method Allocate() returns (pid: nat)
      requires Valid()
      modifies this
      ensures Valid()
      ensures IsLeastFree(old(taken), pid)
      ensures taken == if pid == 0 then old(taken) else old(taken) + {pid}
    {
      if freeIds == [] {
        return 0;
      }
      var n := |freeIds| - 1;
      var last := freeIds[n];
      pid := last.end + 1;
      ghost var was := freeIds;
      if last.start == pid {
        freeIds := freeIds[..n];
      } else {
        freeIds := freeIds[n := Interval(last.start, pid)];
      }
      ShrunkLast(was, freeIds, pid);
      taken := taken + {pid};
    }

    /** The identifier must be in use: it was returned by `Allocate` and not freed since. */
    method Free(pid: nat)
      requires Valid()
      requires pid in taken
      modifies this
      ensures Valid()
      ensures taken == old(taken) - {pid}
    {
      var it := UpperBound(freeIds, pid);
      ghost var was := freeIds;
      Merge(pid, it);
      Grown(was, freeIds, pid, it);
      taken := taken - {pid};
    }

    /** The four cases: `pid` touches the interval on its left, on its right,
        both, or none. */
    method Merge(pid: nat, it: nat)
      requires pid > 0 && it <= |freeIds|
      modifies this`freeIds
      ensures var (lo, hi, m) := Merged(old(freeIds), pid, it);
              lo <= hi <= |old(freeIds)| && freeIds == old(freeIds)[..lo] + [m] + old(freeIds)[hi..]
    {
      var mergesLeft := it > 0 && freeIds[it - 1].end == pid;
      if it < |freeIds| && pid - 1 == freeIds[it].start {
        if !mergesLeft {
          freeIds := freeIds[it := freeIds[it].(start := pid)];
        } else {
          freeIds := freeIds[it - 1 := freeIds[it - 1].(end := freeIds[it].end)];
          freeIds := freeIds[..it] + freeIds[it + 1..];
        }
      } else if !mergesLeft {
        freeIds := freeIds[..it] + [Interval(pid, pid - 1)] + freeIds[it..];
      } else {
        freeIds := freeIds[it - 1 := freeIds[it - 1].(end := pid - 1)];
      }
    }
  }

  /** The interval that takes the place of `s[lo..hi]` when `pid` is given back at `it`. */
  function Merged(s: seq<Interval>, pid: nat, it: nat): (r: (nat, nat, Interval))
    requires pid > 0 && it <= |s|
  {
    var left := it > 0 && s[it - 1].end == pid;
    var right := it < |s| && pid - 1 == s[it].start;
    (if left then it - 1 else it, if right then it + 1 else it,
     Interval(if left then s[it - 1].start else pid, if right then s[it].end else pid - 1))
  }

  /** A position between the larger and the smaller intervals. */
  ghost predicate FitsAt(s: seq<Interval>, pid: nat, it: nat) {
    && WellFormed(s) && 1 <= pid <= MAX_PACKET_ID && !Covers(s, pid) && it <= |s|
    && (forall i :: 0 <= i < it ==> pid <= s[i].start)
    && (forall i :: it <= i < |s| ==> s[i].start < pid)
  }

  lemma Grown(s: seq<Interval>, t: seq<Interval>, pid: nat, it: nat)
    requires FitsAt(s, pid, it)
    requires var (lo, hi, m) := Merged(s, pid, it); t == s[..lo] + [m] + s[hi..]
    ensures AddsOnly(s, t, pid)
  {
    var (lo, hi, m) := Merged(s, pid, it);
    MergedBounds(s, pid, it);
    forall x: nat ensures Covers([m], x) <==> Covers(s[lo..hi], x) || x == pid {
      MergedCovers(s, pid, it, x);
    }
    Grows(s, t, lo, hi, m, pid);
  }

  lemma Grows(s: seq<Interval>, t: seq<Interval>, lo: nat, hi: nat, m: Interval, pid: nat)
    requires WellFormed(s) && lo <= hi <= |s| && m.end < m.start <= MAX_PACKET_ID
    requires forall i :: 0 <= i < lo ==> m.start < s[i].end
    requires forall i :: hi <= i < |s| ==> s[i].start < m.end
    requires forall x: nat :: Covers([m], x) <==> Covers(s[lo..hi], x) || x == pid
    requires t == s[..lo] + [m] + s[hi..]
    ensures AddsOnly(s, t, pid)
  {
    Apart(s, lo, hi, m);
    Replace(s[..lo], s[lo..hi], m, s[hi..], pid);
    assert s == s[..lo] + s[lo..hi] + s[hi..];
  }

  lemma MergedBounds(s: seq<Interval>, pid: nat, it: nat)
    requires FitsAt(s, pid, it)
    ensures var (lo, hi, m) := Merged(s, pid, it);
      && lo <= hi <= |s| && m.end < m.start <= MAX_PACKET_ID
      && (forall i :: 0 <= i < lo ==> m.start < s[i].end)
      && (forall i :: hi <= i < |s| ==> s[i].start < m.end)
  {
    Neighbours(s, pid, it);
  }

  lemma MergedCovers(s: seq<Interval>, pid: nat, it: nat, x: nat)
    requires FitsAt(s, pid, it)
    ensures var (lo, hi, m) := Merged(s, pid, it);
            lo <= hi <= |s| && (Covers([m], x) <==> Covers(s[lo..hi], x) || x == pid)
  {
    var (lo, hi, m) := Merged(s, pid, it);
    CoversOne(m, x);
    MidCovers(s, lo, hi, x);
  }

  /** The binary search of `std::upper_bound` with the comparison `pid > start`. */
  method UpperBound(s: seq<Interval>, pid: nat) returns (it: nat)
    requires WellFormed(s)
    ensures it <= |s|
    ensures forall i :: 0 <= i < it ==> pid <= s[i].start
    ensures forall i :: it <= i < |s| ==> s[i].start < pid
  {
    var lo, hi := 0, |s|;
    while lo < hi
      invariant 0 <= lo <= hi <= |s|
      invariant forall i :: 0 <= i < lo ==> pid <= s[i].start
      invariant forall i :: hi <= i < |s| ==> s[i].start < pid
    {
      var mid := (lo + hi) / 2;
      if pid > s[mid].start {
        hi := mid;
      } else {
        lo := mid + 1;
      }
    }
    it := lo;
  }

  lemma ShrunkLast(s: seq<Interval>, t: seq<Interval>, pid: nat)
    requires WellFormed(s) && s != [] && pid == s[|s| - 1].end + 1
    requires t == if s[|s| - 1].start == pid then s[..|s| - 1]
                  else s[|s| - 1 := Interval(s[|s| - 1].start, pid)]
    ensures WellFormed(t)
    ensures forall x: nat :: Covers(t, x) <==> Covers(s, x) && x != pid
    ensures Covers(s, pid) && forall y :: 1 <= y < pid ==> !Covers(s, y)
  {
    var n := |s| - 1;
    forall x: nat ensures Covers(t, x) <==> Covers(s, x) && x != pid {
      if Covers(t, x) {
        var i :| 0 <= i < |t| && t[i].end < x <= t[i].start;
        assert s[i].end < x <= s[i].start;
      }
      if Covers(s, x) && x != pid {
        var i :| 0 <= i < |s| && s[i].end < x <= s[i].start;
        assert i < |t| && t[i].end < x <= t[i].start;
      }
    }
  }

  lemma CoversConcat(a: seq<Interval>, b: seq<Interval>, x: nat)
    ensures Covers(a + b, x) <==> Covers(a, x) || Covers(b, x)
  {
    if Covers(a, x) {
      var i :| 0 <= i < |a| && a[i].end < x <= a[i].start;
      assert (a + b)[i] == a[i];
    }
    if Covers(b, x) {
      var i :| 0 <= i < |b| && b[i].end < x <= b[i].start;
      assert (a + b)[|a| + i] == b[i];
    }
    if Covers(a + b, x) {
      var i :| 0 <= i < |a + b| && (a + b)[i].end < x <= (a + b)[i].start;
      assert (a + b)[i] == if i < |a| then a[i] else b[i - |a|];
    }
  }

  lemma WellFormedConcat(a: seq<Interval>, b: seq<Interval>)
    requires WellFormed(a) && WellFormed(b)
    requires forall x, y :: x in a && y in b ==> y.start < x.end
    ensures WellFormed(a + b)
  {
  }

  /** `t` stands for the identifiers of `s` and `pid`. */
  ghost predicate AddsOnly(s: seq<Interval>, t: seq<Interval>, pid: nat) {
    WellFormed(t) && forall x: nat :: Covers(t, x) <==> Covers(s, x) || x == pid
  }

  /** Giving an identifier back replaces the intervals it touches (none, one on
      either side, or two) by one; in all four cases exactly it is added. */
  lemma Replace(a: seq<Interval>, mid: seq<Interval>, m: Interval, b: seq<Interval>, pid: nat)
    requires WellFormed(a) && WellFormed(b) && m.end < m.start <= MAX_PACKET_ID
    requires forall x :: x in a ==> m.start < x.end
    requires forall y :: y in b ==> y.start < m.end
    requires forall x, y :: x in a && y in b ==> y.start < x.end
    requires forall x: nat :: Covers([m], x) <==> Covers(mid, x) || x == pid
    ensures AddsOnly(a + mid + b, a + [m] + b, pid)
  {
    WellFormedConcat(a, [m]);
    WellFormedConcat(a + [m], b);
    forall x: nat ensures Covers(a + [m] + b, x) <==> Covers(a + mid + b, x) || x == pid {
      CoversConcat(a, [m], x);
      CoversConcat(a + [m], b, x);
      CoversConcat(a, mid, x);
      CoversConcat(a + mid, b, x);
    }
  }

  lemma MidCovers(s: seq<Interval>, lo: nat, hi: nat, x: nat)
    requires lo <= hi <= |s| && hi <= lo + 2
    ensures Covers(s[lo..hi], x) <==>
            || (lo < hi && s[lo].end < x <= s[lo].start)
            || (lo + 1 < hi && s[lo + 1].end < x <= s[lo + 1].start)
  {
    var mid := s[lo..hi];
    assert lo < hi ==> mid[0] == s[lo];
    assert lo + 1 < hi ==> mid[1] == s[lo + 1];
  }

  lemma Apart(s: seq<Interval>, lo: nat, hi: nat, m: Interval)
    requires WellFormed(s) && lo <= hi <= |s|
    requires forall i :: 0 <= i < lo ==> m.start < s[i].end
    requires forall i :: hi <= i < |s| ==> s[i].start < m.end
    ensures WellFormed(s[..lo]) && WellFormed(s[hi..])
    ensures forall x :: x in s[..lo] ==> m.start < x.end
    ensures forall y :: y in s[hi..] ==> y.start < m.end
    ensures forall x, y :: x in s[..lo] && y in s[hi..] ==> y.start < x.end
  {
  }

  lemma CoversOne(m: Interval, x: nat)
    ensures Covers([m], x) <==> m.end < x <= m.start
  {
    assert [m][0] == m;
  }

  /** The intervals left and right of the position `it` found by the search. */
  lemma Neighbours(s: seq<Interval>, pid: nat, it: nat)
    requires FitsAt(s, pid, it)
    ensures forall i :: 0 <= i < it ==> pid <= s[i].end
    ensures it > 0 && s[it - 1].end != pid ==> forall i :: 0 <= i < it ==> pid < s[i].end
    ensures it < |s| && s[it].start != pid - 1 ==> forall i :: it <= i < |s| ==> s[i].start < pid - 1
  {
    assert forall i :: 0 <= i < it ==> !(s[i].end < pid <= s[i].start);
  }

  /** The list is determined by the set it stands for, so giving an identifier
      back restores the list from before it was taken. */
  lemma {:induction false} Canonical(s: seq<Interval>, t: seq<Interval>)
    requires WellFormed(s) && WellFormed(t)
    requires forall x: nat :: Covers(s, x) <==> Covers(t, x)
    ensures s == t
  {
    if s == [] {
      if t != [] {
        assert t[0].end < t[0].start <= t[0].start;
        assert Covers(t, t[0].start);
      }
    } else {
      HeadsAgree(s, t);
      HeadsAgree(t, s);
      TailsAgree(s, t);
      Canonical(s[1..], t[1..]);
      assert s == [s[0]] + s[1..] && t == [t[0]] + t[1..];
    }
  }

  lemma TailsAgree(s: seq<Interval>, t: seq<Interval>)
    requires WellFormed(s) && WellFormed(t) && s != [] && t != [] && s[0] == t[0]
    requires forall x: nat :: Covers(s, x) <==> Covers(t, x)
    ensures forall x: nat :: Covers(s[1..], x) <==> Covers(t[1..], x)
  {
    forall x: nat ensures Covers(s[1..], x) <==> Covers(t[1..], x) {
      TailCovers(s, x);
      TailCovers(t, x);
    }
  }

  /** The first interval ends where covering first stops below its start. */
  lemma HeadsAgree(s: seq<Interval>, t: seq<Interval>)
    requires WellFormed(s) && WellFormed(t) && s != []
    requires forall x: nat :: Covers(s, x) <==> Covers(t, x)
    ensures t != [] && s[0].start <= t[0].start
    ensures s[0].start == t[0].start ==> t[0].end <= s[0].end
  {
    assert s[0].end < s[0].start <= s[0].start;
    assert Covers(t, s[0].start);
    var x: nat := t[0].end;
    assert !Covers(t, x);
    assert s[0].end < x <= s[0].start ==> Covers(s, x);
  }

  lemma TailCovers(s: seq<Interval>, x: nat)
    requires WellFormed(s) && s != []
    ensures Covers(s[1..], x) <==> Covers(s, x) && x <= s[0].end
  {
    if Covers(s[1..], x) {
      var i :| 0 <= i < |s[1..]| && s[1..][i].end < x <= s[1..][i].start;
      assert s[i + 1].end < x <= s[i + 1].start;
    }
    if Covers(s, x) && x <= s[0].end {
      var i :| 0 <= i < |s| && s[i].end < x <= s[i].start;
      assert s[1..][i - 1] == s[i];
    }
  }
}
