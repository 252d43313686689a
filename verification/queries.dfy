/**
 * The order in which the database hands rows back. Where a query has no `order`, the program
 * leaves the order to the database and the model fixes it to ascending primary key;
 * `order: [['date', 'ASC'], ['time', 'ASC']]` returns appointments by date, then time, then
 * (where SQL leaves the order open) by ascending id.
 */
module Queries {
  import opened Records

  /** Strictly ascending, hence without repetitions. */
  predicate Increasing(s: seq<int>) {
    forall i, j :: 0 <= i < j < |s| ==> s[i] < s[j]
  }

  /** The keys of `keys` in `[lo, hi)`, smallest first. */
  function IdsIn(keys: set<int>, lo: int, hi: int): (r: seq<int>)
    ensures Increasing(r)
    ensures forall k :: k in r <==> k in keys && lo <= k < hi
    decreases hi - lo
  {
    if lo >= hi then []
    else
      var rest := IdsIn(keys, lo + 1, hi);
      assert forall j :: 0 <= j < |rest| ==> rest[j] in rest;
      (if lo in keys then [lo] else []) + rest
  }

  /**
   * Lexicographic order on strings, character by character. On the canonical 'YYYY-MM-DD' and 'HH:MM:SS' forms of the
   * `date` and `time` columns it is the chronological order the database sorts by.
   */
  predicate StrLess(a: string, b: string) {
    if a == [] then b != []
    else b != [] && (a[0] < b[0] || (a[0] == b[0] && StrLess(a[1..], b[1..])))
  }

  lemma {:induction false} StrLessIrreflexive(a: string)
    ensures !StrLess(a, a)
  {
    if a != [] {
      StrLessIrreflexive(a[1..]);
    }
  }

  lemma {:induction false} StrLessTransitive(a: string, b: string, c: string)
    requires StrLess(a, b) && StrLess(b, c)
    ensures StrLess(a, c)
  {
    if a != [] && a[0] == b[0] && b[0] == c[0] {
      StrLessTransitive(a[1..], b[1..], c[1..]);
    }
  }

  lemma {:induction false} StrLessTotal(a: string, b: string)
    ensures a == b || StrLess(a, b) || StrLess(b, a)
  {
    if a != [] && b != [] && a[0] == b[0] {
      StrLessTotal(a[1..], b[1..]);
      if a[1..] == b[1..] {
        assert a == [a[0]] + a[1..] && b == [b[0]] + b[1..];
      }
    }
  }

  /** What an appointment is sorted by. */
  datatype Key = Key(date: string, time: string, id: int)

  function KeyOf(t: map<int, Appointment>, id: int): (r: Key)
    requires id in t
  {
    Key(t[id].date, t[id].time, id)
  }

  predicate KeyLess(x: Key, y: Key) {
    StrLess(x.date, y.date)
    || (x.date == y.date && (StrLess(x.time, y.time) || (x.time == y.time && x.id < y.id)))
  }

  lemma KeyLessIrreflexive(x: Key)
    ensures !KeyLess(x, x)
  {
    StrLessIrreflexive(x.date);
    StrLessIrreflexive(x.time);
  }

  lemma KeyLessTransitive(x: Key, y: Key, z: Key)
    requires KeyLess(x, y) && KeyLess(y, z)
    ensures KeyLess(x, z)
  {
    if StrLess(x.date, y.date) && StrLess(y.date, z.date) {
      StrLessTransitive(x.date, y.date, z.date);
    }
    if x.date == y.date == z.date && StrLess(x.time, y.time) && StrLess(y.time, z.time) {
      StrLessTransitive(x.time, y.time, z.time);
    }
  }

  lemma KeyLessTotal(x: Key, y: Key)
    requires x.id != y.id
    ensures KeyLess(x, y) || KeyLess(y, x)
  {
    StrLessTotal(x.date, y.date);
    StrLessTotal(x.time, y.time);
  }

  lemma KeyLessAsymmetric(x: Key, y: Key)
    requires KeyLess(x, y)
    ensures !KeyLess(y, x)
  {
    if KeyLess(y, x) {
      KeyLessTransitive(x, y, x);
      KeyLessIrreflexive(x);
    }
  }

  predicate InTable(t: map<int, Appointment>, s: seq<int>) {
    forall i :: 0 <= i < |s| ==> s[i] in t
  }

  /** Strictly ordered by date, time and id. */
  predicate Chronological(t: map<int, Appointment>, s: seq<int>)
    requires InTable(t, s)
  {
    forall i, j :: 0 <= i < j < |s| ==> KeyLess(KeyOf(t, s[i]), KeyOf(t, s[j]))
  }

  function Insert(t: map<int, Appointment>, x: int, s: seq<int>): (r: seq<int>)
    requires x in t && InTable(t, s)
    ensures multiset(r) == multiset(s) + multiset{x}
    ensures InTable(t, r)
  {
    if s == [] then [x]
    else if KeyLess(KeyOf(t, x), KeyOf(t, s[0])) then [x] + s
    else
      assert s == [s[0]] + s[1..];
      [s[0]] + Insert(t, x, s[1..])
  }

  function Sort(t: map<int, Appointment>, s: seq<int>): (r: seq<int>)
    requires InTable(t, s)
    ensures multiset(r) == multiset(s)
    ensures InTable(t, r)
  {
    if s == [] then []
    else
      assert s == [s[0]] + s[1..];
      Insert(t, s[0], Sort(t, s[1..]))
  }

  lemma {:induction false} InsertKeepsOrder(t: map<int, Appointment>, x: int, s: seq<int>)
    requires x in t && InTable(t, s) && Chronological(t, s) && x !in s
    ensures Chronological(t, Insert(t, x, s))
  {
    if s == [] {
    } else if KeyLess(KeyOf(t, x), KeyOf(t, s[0])) {
      var r := [x] + s;
      forall i, j | 0 <= i < j < |r| ensures KeyLess(KeyOf(t, r[i]), KeyOf(t, r[j])) {
        if i == 0 && j > 1 {
          KeyLessTransitive(KeyOf(t, x), KeyOf(t, s[0]), KeyOf(t, s[j - 1]));
        }
      }
    } else {
      KeyLessTotal(KeyOf(t, x), KeyOf(t, s[0]));
      var tail := Insert(t, x, s[1..]);
      InsertKeepsOrder(t, x, s[1..]);
      var r := [s[0]] + tail;
      forall j | 0 <= j < |tail| ensures KeyLess(KeyOf(t, s[0]), KeyOf(t, tail[j])) {
        assert tail[j] in multiset(tail);
        if tail[j] != x {
          assert tail[j] in multiset(s[1..]);
          var k :| 0 <= k < |s[1..]| && s[1..][k] == tail[j];
          assert s[k + 1] == tail[j];
        }
      }
      assert forall i, j :: 0 <= i < j < |r| ==> KeyLess(KeyOf(t, r[i]), KeyOf(t, r[j]));
    }
  }

  lemma {:induction false} SortOrders(t: map<int, Appointment>, s: seq<int>)
    requires InTable(t, s) && Increasing(s)
    ensures Chronological(t, Sort(t, s))
  {
    if s != [] {
      SortOrders(t, s[1..]);
      assert s[0] !in multiset(s[1..]);
      InsertKeepsOrder(t, s[0], Sort(t, s[1..]));
    }
  }

  /**
   * The appointments whose ids are `ids`, in the order the database returns them for
   * `order: [['date', 'ASC'], ['time', 'ASC']]`; `hi` bounds the ids in use.
   */
  function ByDateTime(t: map<int, Appointment>, ids: set<int>, hi: int): (r: seq<int>)
    requires forall k :: k in ids ==> k in t && 1 <= k < hi
    ensures InTable(t, r) && Chronological(t, r)
    ensures forall k :: k in r <==> k in ids
  {
    var ascending := IdsIn(ids, 1, hi);
    SortOrders(t, ascending);
    var r := Sort(t, ascending);
    assert forall k :: k in r <==> k in multiset(ascending);
    r
  }

  /** A chronological listing of a given set of rows is unique: the order is fully determined. */
  lemma {:induction false} ChronologicalUnique(t: map<int, Appointment>, a: seq<int>, b: seq<int>)
    requires InTable(t, a) && InTable(t, b) && Chronological(t, a) && Chronological(t, b)
    requires forall k :: k in a <==> k in b
    ensures a == b
    decreases |a|
  {
    if a != [] {
      assert a[0] in a;
    }
    if b != [] {
      assert b[0] in b;
    }
    if a != [] {
      if a[0] != b[0] {
        var i :| 0 <= i < |a| && a[i] == b[0];
        var j :| 0 <= j < |b| && b[j] == a[0];
        KeyLessAsymmetric(KeyOf(t, a[0]), KeyOf(t, a[i]));
      }
      forall k ensures k in a[1..] <==> k in b[1..] {
        if k in a[1..] {
          var i :| 1 <= i < |a| && a[i] == k;
          KeyLessIrreflexive(KeyOf(t, a[0]));
          assert k in b && k != b[0];
          var j :| 0 <= j < |b| && b[j] == k;
          assert b[1..][j - 1] == k;
        }
        if k in b[1..] {
          var j :| 1 <= j < |b| && b[j] == k;
          KeyLessIrreflexive(KeyOf(t, b[0]));
          assert k in a && k != a[0];
          var i :| 0 <= i < |a| && a[i] == k;
          assert a[1..][i - 1] == k;
        }
      }
      ChronologicalUnique(t, a[1..], b[1..]);
      assert a == [a[0]] + a[1..] && b == [b[0]] + b[1..];
    }
  }

  /** The ids of a reply's entries, in reply order; `id` reads the id of one entry. */
  function Project<T>(xs: seq<T>, id: T -> int): (r: seq<int>)
    ensures |r| == |xs| && forall i :: 0 <= i < |r| ==> r[i] == id(xs[i])
  {
    seq(|xs|, i requires 0 <= i < |xs| => id(xs[i]))
  }

  function RefId(x: Ref): (r: int) { x.id }
  function ViewId(x: DoctorView): (r: int) { x.id }
  function ResponseId(x: AppointmentResponse): (r: int) { x.id }
  function DetailId(x: AppointmentDetail): (r: int) { x.id }
  function RowId(x: AppointmentWithDoctor): (r: int) { x.id }

  function RefIds(refs: seq<Ref>): (r: seq<int>) { Project(refs, RefId) }
  function ViewIds(views: seq<DoctorView>): (r: seq<int>) { Project(views, ViewId) }
  function ResponseIds(rs: seq<AppointmentResponse>): (r: seq<int>) { Project(rs, ResponseId) }
  function DetailIds(ds: seq<AppointmentDetail>): (r: seq<int>) { Project(ds, DetailId) }
  function RowIds(rows: seq<AppointmentWithDoctor>): (r: seq<int>) { Project(rows, RowId) }
}
