/**
 The order in which a write queue is rebuilt after a reconnect
 (`write_req::operator<` and the `std::stable_sort` that uses it).

 Serial numbers are 32 bits wide and wrap. The comparison is not transitive on
 all of them, but on any set of serials inside one window of 2^31 consecutive
 values it is the order of their distance from the window's base. There the
 stable sort is determined: sorted by (priority, age), a permutation, and
 keeping the order of equivalent requests.
 */
module SerialOrder {
  import opened Requests

  predicate Less(a: Request, b: Request) {
    if a.prioritized != b.prioritized then a.prioritized
    else if a.serial < b.serial then b.serial - a.serial < HALF_WINDOW
    else a.serial - b.serial >= HALF_WINDOW
  }

  /** Distance of a serial from the base of the window, around the wrap. */
  function Age(serial: nat, base: nat): nat {
    (serial - base) % 0x1_0000_0000
  }

  predicate InWindow(r: Request, base: nat) {
    r.serial < 0x1_0000_0000 && Age(r.serial, base) < 0x8000_0000
  }

  ghost predicate Window(s: seq<Request>, base: nat) {
    forall r :: r in s ==> InWindow(r, base)
  }

  /** Position of a request in the order: prioritized ones first, then by age. */
  function Key(r: Request, base: nat): nat {
    (if r.prioritized then 0 else 0x8000_0000) + Age(r.serial, base)
  }

  /** Inside a window the comparison is a strict weak order: it compares keys. */
  lemma {:induction false} LessIsKeyOrder(a: Request, b: Request, base: nat)
    requires InWindow(a, base) && InWindow(b, base)
    ensures Less(a, b) <==> Key(a, base) < Key(b, base)
  {
    var x, y := Age(a.serial, base), Age(b.serial, base);
    AgeDifference(a.serial, b.serial, base);
    assert (x - y) % SERIAL_MODULUS == (a.serial - b.serial) % SERIAL_MODULUS;
  }

  /** Outside a window it is not an order at all: three serials can chase each other. */
  lemma LessMayCycle(item: Item) returns (a: Request, b: Request, c: Request)
    ensures Less(a, b) && Less(b, c) && Less(c, a)
    ensures a.serial < 0x1_0000_0000 && b.serial < 0x1_0000_0000 && c.serial < 0x1_0000_0000
  {
    a := Request(item, 0, true, false, false);
    b := a.(serial := 0x8000_0000 - 1);
    c := a.(serial := 0x1_0000_0000 - 2);
  }

  lemma AgeDifference(s: nat, t: nat, base: nat)
    ensures (Age(s, base) - Age(t, base)) % SERIAL_MODULUS == (s - t) % SERIAL_MODULUS
  {
    var p, q := (s - base) / SERIAL_MODULUS, (t - base) / SERIAL_MODULUS;
    assert Age(s, base) - Age(t, base) == (s - t) - SERIAL_MODULUS * (p - q);
    ModShift(s - t, q - p);
  }

  lemma {:induction false} ModShift(x: int, k: int)
    ensures (x + SERIAL_MODULUS * k) % SERIAL_MODULUS == x % SERIAL_MODULUS
    decreases if k < 0 then -k else k
  {
    if k > 0 {
      ModShift(x, k - 1);
      assert x + SERIAL_MODULUS * k == x + SERIAL_MODULUS * (k - 1) + SERIAL_MODULUS;
    } else if k < 0 {
      ModShift(x, k + 1);
      assert x + SERIAL_MODULUS * k == x + SERIAL_MODULUS * (k + 1) - SERIAL_MODULUS;
    }
  }

  /** Wrapped serials of calls less than 2^31 apart age in the order of the calls. */
  lemma AgeOfCall(call: nat, base: nat)
    requires base <= call < base + 0x8000_0000
    ensures Age(call % 0x1_0000_0000, base) == call - base
  {
    var k := call / SERIAL_MODULUS;
    assert call % SERIAL_MODULUS - base == (call - base) + SERIAL_MODULUS * (-k);
    ModShift(call - base, -k);
  }

  // ----- stable sort

  /** Insertion from the back, past the requests that must come after `x`. */
  function Insert(s: seq<Request>, x: Request): (r: seq<Request>)
    ensures |r| == |s| + 1
  {
    if s == [] || !Less(x, s[|s| - 1]) then s + [x]
    else Insert(s[..|s| - 1], x) + [s[|s| - 1]]
  }

  function StableSort(s: seq<Request>): (r: seq<Request>)
    ensures |r| == |s|
  {
    if s == [] then [] else Insert(StableSort(s[..|s| - 1]), s[|s| - 1])
  }

  ghost predicate SortedByKey(s: seq<Request>, base: nat) {
    forall i, j :: 0 <= i < j < |s| ==> Key(s[i], base) <= Key(s[j], base)
  }

  /** The requests with one key, in their order in the sequence. */
  function Class(s: seq<Request>, base: nat, k: nat): seq<Request> {
    if s == [] then []
    else if Key(s[|s| - 1], base) == k then Class(s[..|s| - 1], base, k) + [s[|s| - 1]]
    else Class(s[..|s| - 1], base, k)
  }

  lemma {:induction false} InsertKeeps(s: seq<Request>, x: Request)
    ensures multiset(Insert(s, x)) == multiset(s) + multiset{x}
  {
    if s != [] && Less(x, s[|s| - 1]) {
      InsertKeeps(s[..|s| - 1], x);
      assert s == s[..|s| - 1] + [s[|s| - 1]];
    }
  }

  lemma {:induction false} SortKeeps(s: seq<Request>)
    ensures multiset(StableSort(s)) == multiset(s)
  {
    if s != [] {
      SortKeeps(s[..|s| - 1]);
      InsertKeeps(StableSort(s[..|s| - 1]), s[|s| - 1]);
      assert s == s[..|s| - 1] + [s[|s| - 1]];
    }
  }

  lemma SortMembers(s: seq<Request>)
    ensures forall r :: r in StableSort(s) <==> r in s
  {
    SortKeeps(s);
    forall r ensures r in StableSort(s) <==> r in s {
      assert r in s <==> r in multiset(s);
      assert r in StableSort(s) <==> r in multiset(StableSort(s));
    }
  }

  lemma InsertMembers(s: seq<Request>, x: Request)
    ensures forall r :: r in Insert(s, x) <==> r in s || r == x
  {
    InsertKeeps(s, x);
    forall r ensures r in Insert(s, x) <==> r in s || r == x {
      assert r in Insert(s, x) <==> r in multiset(Insert(s, x));
      assert r in s <==> r in multiset(s);
    }
  }

  lemma {:induction false} InsertSorts(s: seq<Request>, x: Request, base: nat)
    requires Window(s, base) && InWindow(x, base) && SortedByKey(s, base)
    ensures SortedByKey(Insert(s, x), base)
  {
    if s != [] {
      var front, last := s[..|s| - 1], s[|s| - 1];
      LessIsKeyOrder(x, last, base);
      if Less(x, last) {
        InsertSorts(front, x, base);
        InsertMembers(front, x);
        assert forall r :: r in Insert(front, x) ==> Key(r, base) <= Key(last, base);
      }
    }
  }

  lemma {:induction false} SortSorts(s: seq<Request>, base: nat)
    requires Window(s, base)
    ensures SortedByKey(StableSort(s), base)
  {
    if s != [] {
      SortSorts(s[..|s| - 1], base);
      SortMembers(s[..|s| - 1]);
      InsertSorts(StableSort(s[..|s| - 1]), s[|s| - 1], base);
    }
  }

  lemma ClassAppend(s: seq<Request>, x: Request, base: nat, k: nat)
    ensures Class(s + [x], base, k)
         == if Key(x, base) == k then Class(s, base, k) + [x] else Class(s, base, k)
  {
    assert (s + [x])[..|s|] == s;
  }

  lemma {:induction false} InsertClass(s: seq<Request>, x: Request, base: nat, k: nat)
    requires Window(s, base) && InWindow(x, base)
    ensures Class(Insert(s, x), base, k) == Class(s + [x], base, k)
  {
    if s != [] && Less(x, s[|s| - 1]) {
      var front, last := s[..|s| - 1], s[|s| - 1];
      LessIsKeyOrder(x, last, base);
      InsertClass(front, x, base, k);
      ClassAppend(Insert(front, x), last, base, k);
      ClassAppend(front, x, base, k);
      ClassAppend(s, x, base, k);
    }
  }

  /** Stability: requests the comparison cannot tell apart keep their order. */
  lemma {:induction false} SortIsStable(s: seq<Request>, base: nat, k: nat)
    requires Window(s, base)
    ensures Class(StableSort(s), base, k) == Class(s, base, k)
  {
    if s != [] {
      var front, last := s[..|s| - 1], s[|s| - 1];
      SortIsStable(front, base, k);
      SortMembers(front);
      InsertClass(StableSort(front), last, base, k);
      ClassAppend(StableSort(front), last, base, k);
      ClassAppend(front, last, base, k);
      assert s == front + [last];
    }
  }

  lemma {:induction false} ClassHolds(s: seq<Request>, base: nat, k: nat)
    ensures forall r :: r in Class(s, base, k) <==> r in s && Key(r, base) == k
  {
    if s != [] {
      ClassHolds(s[..|s| - 1], base, k);
      assert s == s[..|s| - 1] + [s[|s| - 1]];
    }
  }

  /** The last request of a sorted sequence has the largest key. */
  lemma LastIsLargest(s: seq<Request>, base: nat, r: Request)
    requires SortedByKey(s, base) && r in s
    ensures Key(r, base) <= Key(s[|s| - 1], base)
  {
  }

  lemma LastKeysAgree(s: seq<Request>, t: seq<Request>, base: nat)
    requires SortedByKey(s, base) && SortedByKey(t, base)
    requires forall k: nat :: Class(s, base, k) == Class(t, base, k)
    requires s != []
    ensures t != [] && Key(s[|s| - 1], base) <= Key(t[|t| - 1], base)
  {
    var k := Key(s[|s| - 1], base);
    ClassHolds(s, base, k);
    ClassHolds(t, base, k);
    assert s[|s| - 1] in Class(t, base, k);
    LastIsLargest(t, base, s[|s| - 1]);
  }

  /** Being sorted and stable leaves no freedom, so whatever algorithm the
      standard library uses for its stable sort, the result is `StableSort`. */
  lemma {:induction false} StableSortIsUnique(s: seq<Request>, t: seq<Request>, base: nat)
    requires SortedByKey(s, base) && SortedByKey(t, base)
    requires forall k: nat :: Class(s, base, k) == Class(t, base, k)
    ensures s == t
  {
    if s == [] {
      if t != [] {
        LastKeysAgree(t, s, base);
      }
    } else {
      LastKeysAgree(s, t, base);
      LastKeysAgree(t, s, base);
      var u, v := s[..|s| - 1], t[..|t| - 1];
      var k := Key(s[|s| - 1], base);
      assert Class(s, base, k) == Class(u, base, k) + [s[|s| - 1]];
      assert Class(t, base, k) == Class(v, base, k) + [t[|t| - 1]];
      assert s[|s| - 1] == Class(s, base, k)[|Class(s, base, k)| - 1] == t[|t| - 1];
      forall j: nat ensures Class(u, base, j) == Class(v, base, j) {
        FrontClass(s, base, j);
        FrontClass(t, base, j);
      }
      StableSortIsUnique(u, v, base);
      assert s == u + [s[|s| - 1]] && t == v + [t[|t| - 1]];
    }
  }

  lemma FrontClass(s: seq<Request>, base: nat, j: nat)
    requires s != []
    ensures var c, f := Class(s, base, j), Class(s[..|s| - 1], base, j);
            if Key(s[|s| - 1], base) == j then c != [] && f == c[..|c| - 1] else f == c
  {
  }
}
