/**
 * The booking table the chat route reads and writes through its ORM client,
 * modelled as a sequence of records in insertion order and the next id to
 * hand out. Only the queries the route issues are modelled: the start-time
 * range query ordered by start, the overlap (conflict) query, and create,
 * update and delete by id.
 */
module BookingStore {
  import opened Wrappers
  import opened Calendar

  /** One row of the booking table. */
  datatype Booking = Booking(
    id: nat,
    title: string,
    description: string,
    category: string,
    startTime: Instant,
    endTime: Instant,
    clientName: Option<string>)

  /**
   * The conflict condition `startTime < end AND endTime > start`: the
   * half-open intervals [startTime, endTime) and [start, end) share an instant.
   */
  predicate Overlaps(b: Booking, start: Instant, end: Instant)
  {
    b.startTime < end && b.endTime > start
  }

  /**
   * For proper intervals, overlap is symmetric and means that the later
   * start comes before the earlier end; intervals that only touch do not overlap.
   */
  lemma OverlapsSymmetric(a: Booking, b: Booking)
    requires a.startTime < a.endTime && b.startTime < b.endTime
    ensures Overlaps(a, b.startTime, b.endTime) <==> Overlaps(b, a.startTime, a.endTime)
    ensures Overlaps(a, b.startTime, b.endTime) <==>
      (if a.startTime < b.startTime then b.startTime else a.startTime)
        < (if a.endTime < b.endTime then a.endTime else b.endTime)
    ensures a.endTime == b.startTime ==> !Overlaps(a, b.startTime, b.endTime)
  {
  }

  /** Some record other than `exclude` overlaps [start, end). */
  predicate HasConflict(records: seq<Booking>, start: Instant, end: Instant, exclude: Option<nat>)
  {
    exists k :: 0 <= k < |records| && (exclude.None? || records[k].id != exclude.value)
      && Overlaps(records[k], start, end)
  }

  /**
   * Leaving out the record's own id (the update's `id: { not: … }`) can only
   * drop conflicts, and drops none when no record has that id.
   */
  lemma ExcludingOwnIdOnlyDropsIt(records: seq<Booking>, start: Instant, end: Instant, id: nat)
    ensures HasConflict(records, start, end, Some(id)) ==> HasConflict(records, start, end, None)
    ensures (forall b :: b in records ==> b.id != id) ==>
      (HasConflict(records, start, end, Some(id)) <==> HasConflict(records, start, end, None))
    ensures HasConflict(records, start, end, None) && !HasConflict(records, start, end, Some(id)) ==>
      exists b :: b in records && b.id == id && Overlaps(b, start, end)
  {
    if HasConflict(records, start, end, None) && !HasConflict(records, start, end, Some(id)) {
      var k :| 0 <= k < |records| && Overlaps(records[k], start, end);
      assert records[k] in records;
    }
    if forall b :: b in records ==> b.id != id {
      if HasConflict(records, start, end, None) {
        var k :| 0 <= k < |records| && Overlaps(records[k], start, end);
        assert records[k] in records;
      }
    }
  }

  /** No two records' intervals overlap. */
  predicate Disjoint(records: seq<Booking>)
  {
    forall i, j :: 0 <= i < |records| && 0 <= j < |records| && i != j ==>
      !Overlaps(records[i], records[j].startTime, records[j].endTime)
  }

  /** No two records share an id. */
  predicate DistinctIds(records: seq<Booking>)
  {
    forall i, j :: 0 <= i < j < |records| ==> records[i].id != records[j].id
  }

  /** The ids of the records. */
  function Ids(records: seq<Booking>): set<nat>
  {
    set b | b in records :: b.id
  }

  lemma IdsAppend(records: seq<Booking>, b: Booking)
    ensures Ids(records + [b]) == Ids(records) + {b.id}
  {
    assert forall c :: c in records + [b] <==> c in records || c == b;
  }

  /** The record with id `id`, which the ids being distinct make unique. */
  lemma IdIdentifiesRecord(records: seq<Booking>, a: Booking, b: Booking)
    requires DistinctIds(records) && a in records && b in records && a.id == b.id
    ensures a == b
  {
    var i :| 0 <= i < |records| && records[i] == a;
    var j :| 0 <= j < |records| && records[j] == b;
    assert i == j;
  }

  /** Records are in ascending start order. */
  predicate SortedByStart(records: seq<Booking>)
  {
    forall i, j :: 0 <= i < j < |records| ==> records[i].startTime <= records[j].startTime
  }

  /** Inserts `x` after every record that does not start later than it. */
  function Insert(x: Booking, s: seq<Booking>): (r: seq<Booking>)
    requires SortedByStart(s)
    ensures SortedByStart(r)
    ensures forall b :: b in r <==> b == x || b in s
    ensures multiset(r) == multiset(s) + multiset{x}
  {
    if s == [] then [x]
    else if x.startTime < s[0].startTime then [x] + s
    else
      var rest := Insert(x, s[1..]);
      InsertBehindHead(x, s, rest);
      [s[0]] + rest
  }

  /** The step of `Insert` that keeps the head of `s` in front of the insertion into the rest. */
  lemma InsertBehindHead(x: Booking, s: seq<Booking>, rest: seq<Booking>)
    requires s != [] && SortedByStart(s) && s[0].startTime <= x.startTime
    requires SortedByStart(rest)
    requires forall b :: b in rest <==> b == x || b in s[1..]
    requires multiset(rest) == multiset(s[1..]) + multiset{x}
    ensures SortedByStart([s[0]] + rest)
    ensures forall b :: b in [s[0]] + rest <==> b == x || b in s
    ensures multiset([s[0]] + rest) == multiset(s) + multiset{x}
  {
    assert s == [s[0]] + s[1..];
    forall k | 0 <= k < |rest| ensures s[0].startTime <= rest[k].startTime {
      assert rest[k] in rest;
    }
    assert multiset([s[0]] + rest) == multiset([s[0]]) + multiset(rest);
  }

  /** Stable sort by start: records with equal starts keep their table order. */
  function SortByStart(s: seq<Booking>): (r: seq<Booking>)
    ensures SortedByStart(r)
    ensures forall b :: b in r <==> b in s
    ensures multiset(r) == multiset(s)
  {
    if s == [] then []
    else
      assert s == s[..|s| - 1] + [s[|s| - 1]];
      Insert(s[|s| - 1], SortByStart(s[..|s| - 1]))
  }

  /** A record whose id the rest does not have can be put in front of it. */
  lemma ConsKeepsDistinctIds(h: Booking, rest: seq<Booking>)
    requires DistinctIds(rest) && forall b :: b in rest ==> b.id != h.id
    ensures DistinctIds([h] + rest)
  {
    var r := [h] + rest;
    forall i, j | 0 <= i < j < |r| ensures r[i].id != r[j].id {
      if i == 0 {
        assert r[j] == rest[j - 1] && rest[j - 1] in rest;
      } else {
        assert r[i] == rest[i - 1] && r[j] == rest[j - 1];
      }
    }
  }

  lemma {:induction false} InsertKeepsDistinctIds(x: Booking, s: seq<Booking>)
    requires SortedByStart(s) && DistinctIds(s) && x.id !in Ids(s)
    ensures DistinctIds(Insert(x, s))
  {
    if s == [] {
    } else if x.startTime < s[0].startTime {
      ConsKeepsDistinctIds(x, s);
    } else {
      assert s == [s[0]] + s[1..];
      assert x.id !in Ids(s[1..]);
      InsertKeepsDistinctIds(x, s[1..]);
      var rest := Insert(x, s[1..]);
      forall b | b in rest ensures b.id != s[0].id {
        if b != x {
          var m :| 0 <= m < |s[1..]| && s[1..][m] == b;
          assert s[m + 1] == b;
        }
      }
      ConsKeepsDistinctIds(s[0], rest);
    }
  }

  /** Sorting keeps the ids distinct. */
  lemma {:induction false} SortKeepsDistinctIds(s: seq<Booking>)
    requires DistinctIds(s)
    ensures DistinctIds(SortByStart(s))
    decreases |s|
  {
    if s != [] {
      var init := s[..|s| - 1];
      var last := s[|s| - 1];
      SortKeepsDistinctIds(init);
      var sortedInit := SortByStart(init);
      forall b | b in sortedInit ensures b.id != last.id {
        var k :| 0 <= k < |init| && init[k] == b;
        assert s[k] == b;
      }
      InsertKeepsDistinctIds(last, sortedInit);
    }
  }

  /** The records, in table order, whose start lies in [lo, hi]. */
  function StartingIn(records: seq<Booking>, lo: Instant, hi: Instant): (r: seq<Booking>)
    ensures forall b :: b in r <==> b in records && lo <= b.startTime <= hi
  {
    if records == [] then []
    else
      var init := records[..|records| - 1];
      var last := records[|records| - 1];
      assert records == init + [last];
      var r := StartingIn(init, lo, hi);
      if lo <= last.startTime <= hi then r + [last] else r
  }

  /** Selecting by start keeps ids distinct. */
  lemma {:induction false} StartingInKeepsDistinctIds(records: seq<Booking>, lo: Instant, hi: Instant)
    ensures DistinctIds(records) ==> DistinctIds(StartingIn(records, lo, hi))
    decreases |records|
  {
    if records != [] && DistinctIds(records) {
      var init, last := records[..|records| - 1], records[|records| - 1];
      assert records == init + [last];
      InitKeepsDistinctIds(init, last);
      StartingInKeepsDistinctIds(init, lo, hi);
      if lo <= last.startTime <= hi {
        SnocKeepsDistinctIds(init, last, StartingIn(init, lo, hi));
      }
    }
  }

  /** Dropping the last record keeps ids distinct. */
  lemma InitKeepsDistinctIds(init: seq<Booking>, last: Booking)
    requires DistinctIds(init + [last])
    ensures DistinctIds(init)
  {
    var s := init + [last];
    forall i, j | 0 <= i < j < |init| ensures init[i].id != init[j].id {
      assert s[i] == init[i] && s[j] == init[j];
    }
  }

  /** A selection from the front of a list, followed by its last record, keeps ids distinct. */
  lemma SnocKeepsDistinctIds(init: seq<Booking>, last: Booking, r: seq<Booking>)
    requires DistinctIds(init + [last]) && DistinctIds(r)
    requires forall b :: b in r ==> b in init
    ensures DistinctIds(r + [last])
  {
    var s := init + [last];
    assert s[|init|] == last;
    forall b | b in r ensures b.id != last.id {
      var i :| 0 <= i < |init| && init[i] == b;
      assert s[i] == b;
    }
    var t := r + [last];
    forall i, j | 0 <= i < j < |t| ensures t[i].id != t[j].id {
      assert t[i] == r[i];
      if j < |r| {
        assert t[j] == r[j];
      } else {
        assert t[j] == last && r[i] in r;
      }
    }
  }
  lemma InitKeepsSorted(init: seq<Booking>, last: Booking)
    requires SortedByStart(init + [last])
    ensures SortedByStart(init)
    ensures forall b :: b in init ==> b.startTime <= last.startTime
  {
    var s := init + [last];
    assert s[|init|] == last;
    forall i, j | 0 <= i < j < |init| ensures init[i].startTime <= init[j].startTime {
      assert s[i] == init[i] && s[j] == init[j];
    }
    forall b | b in init ensures b.startTime <= last.startTime {
      var k :| 0 <= k < |init| && init[k] == b;
      assert s[k] == b;
    }
  }

  lemma SnocKeepsSorted(init: seq<Booking>, last: Booking, r: seq<Booking>)
    requires SortedByStart(init + [last]) && SortedByStart(r)
    requires forall b :: b in r ==> b in init
    ensures SortedByStart(r + [last])
  {
    InitKeepsSorted(init, last);
    var s := r + [last];
    forall i, j | 0 <= i < j < |s| ensures s[i].startTime <= s[j].startTime {
      assert s[i] == r[i];
      if j < |r| {
        assert s[j] == r[j];
      } else {
        assert r[i] in r;
      }
    }
  }


  /**
   * `findMany({ where: { startTime: { gte: lo, lte: hi } }, orderBy: { startTime: 'asc' } })`:
   * the records starting in [lo, hi], ascending by start.
   */
  function FindByStartRange(records: seq<Booking>, lo: Instant, hi: Instant): (r: seq<Booking>)
    ensures SortedByStart(r)
    ensures forall b :: b in r <==> b in records && lo <= b.startTime <= hi
    ensures multiset(r) == multiset(StartingIn(records, lo, hi))
  {
    SortByStart(StartingIn(records, lo, hi))
  }

  /** A range query returns each record at most once: ids stay distinct. */
  lemma RangeQueryKeepsDistinctIds(records: seq<Booking>, lo: Instant, hi: Instant)
    ensures DistinctIds(records) ==> DistinctIds(FindByStartRange(records, lo, hi))
  {
    StartingInKeepsDistinctIds(records, lo, hi);
    if DistinctIds(records) {
      SortKeepsDistinctIds(StartingIn(records, lo, hi));
    }
  }

  /** The first record of a range query starts no later than any record in the range. */
  lemma FirstIsEarliest(records: seq<Booking>, lo: Instant, hi: Instant, b: Booking)
    requires b in records && lo <= b.startTime <= hi
    ensures |FindByStartRange(records, lo, hi)| > 0
    ensures FindByStartRange(records, lo, hi)[0].startTime <= b.startTime
  {
    var r := FindByStartRange(records, lo, hi);
    var k :| 0 <= k < |r| && r[k] == b;
  }

  /** The records, in order, whose id is not in `ids`. */
  function Without(records: seq<Booking>, ids: set<nat>): (r: seq<Booking>)
    ensures forall b :: b in r <==> b in records && b.id !in ids
    ensures |r| <= |records|
    ensures DistinctIds(records) ==> DistinctIds(r)
  {
    if records == [] then []
    else
      var init := records[..|records| - 1];
      var last := records[|records| - 1];
      assert records == init + [last];
      var r := Without(init, ids);
      if last.id in ids then r else r + [last]
  }

  lemma {:induction false} WithoutTwice(records: seq<Booking>, a: set<nat>, b: set<nat>)
    ensures Without(Without(records, a), b) == Without(records, a + b)
    decreases |records|
  {
    if records != [] {
      var init, last := records[..|records| - 1], records[|records| - 1];
      assert records == init + [last];
      WithoutTwice(init, a, b);
      WithoutSnoc(init, last, a);
      WithoutSnoc(init, last, a + b);
      if last.id !in a {
        WithoutSnoc(Without(init, a), last, b);
      }
    }
  }

  /** Removing from a list that ends in `last` removes from the rest and then keeps or drops `last`. */
  lemma WithoutSnoc(init: seq<Booking>, last: Booking, ids: set<nat>)
    ensures Without(init + [last], ids) == if last.id in ids then Without(init, ids) else Without(init, ids) + [last]
  {
    var s := init + [last];
    assert s[..|s| - 1] == init;
    assert s[|s| - 1] == last;
  }

  /** Deleting keeps order: deleting from a concatenation deletes from each part in turn. */
  lemma {:induction false} WithoutDistributes(a: seq<Booking>, b: seq<Booking>, ids: set<nat>)
    ensures Without(a + b, ids) == Without(a, ids) + Without(b, ids)
    decreases |b|
  {
    if b == [] {
      assert a + b == a;
      WithoutNothingLeft(ids);
    } else {
      var init, last := b[..|b| - 1], b[|b| - 1];
      assert b == init + [last];
      assert a + b == (a + init) + [last];
      WithoutDistributes(a, init, ids);
      WithoutSnoc(a + init, last, ids);
      WithoutSnoc(init, last, ids);
      AppendAssociates(Without(a, ids), Without(init, ids), [last]);
    }
  }

  lemma AppendAssociates(x: seq<Booking>, y: seq<Booking>, z: seq<Booking>)
    ensures (x + y) + z == x + (y + z)
  {
  }

  /** Nothing is left of the empty table. */
  lemma WithoutNothingLeft(ids: set<nat>)
    ensures Without([], ids) == []
  {
  }


  /** `records` with the record whose id is `b.id` replaced by `b`. */
  function Replace(records: seq<Booking>, b: Booking): (r: seq<Booking>)
    ensures |r| == |records|
    ensures forall k :: 0 <= k < |records| ==> r[k] == if records[k].id == b.id then b else records[k]
  {
    if records == [] then [] else [if records[0].id == b.id then b else records[0]] + Replace(records[1..], b)
  }

  lemma ReplaceMembers(records: seq<Booking>, b: Booking)
    ensures forall x :: x in Replace(records, b) <==>
      (x in records && x.id != b.id) || (x == b && b.id in Ids(records))
  {
    var r := Replace(records, b);
    forall x | x in r ensures (x in records && x.id != b.id) || (x == b && b.id in Ids(records)) {
      var k :| 0 <= k < |r| && r[k] == x;
      assert records[k] in records;
    }
    forall x | (x in records && x.id != b.id) || (x == b && b.id in Ids(records)) ensures x in r {
      if x in records && x.id != b.id {
        var k :| 0 <= k < |records| && records[k] == x;
        assert r[k] == x;
      } else {
        var y :| y in records && y.id == b.id;
        var k :| 0 <= k < |records| && records[k] == y;
        assert r[k] == b;
      }
    }
  }

  /** Two tables with the same id at every position have the same ids, distinct in both or neither. */
  lemma SameIdsPointwise(a: seq<Booking>, c: seq<Booking>)
    requires |a| == |c| && forall k :: 0 <= k < |a| ==> a[k].id == c[k].id
    ensures Ids(a) == Ids(c)
    ensures DistinctIds(a) ==> DistinctIds(c)
  {
    forall id | id in Ids(a) ensures id in Ids(c) {
      var x :| x in a && x.id == id;
      var k :| 0 <= k < |a| && a[k] == x;
      assert c[k] in c;
    }
    forall id | id in Ids(c) ensures id in Ids(a) {
      var x :| x in c && x.id == id;
      var k :| 0 <= k < |c| && c[k] == x;
      assert a[k] in a;
    }
  }

  /** The table: its rows and the next id the database will assign. */
  class Store {
    var records: seq<Booking>
    var nextId: nat

    /** Ids are distinct and all below the next id to be handed out. */
    ghost predicate Valid()
      reads this
    {
      DistinctIds(records) && forall b :: b in records ==> b.id < nextId
    }

    constructor ()
      ensures Valid() && records == [] && nextId == 1
    {
      records := [];
      nextId := 1;
    }

    /** `booking.create`: appends a record with a fresh id. */
    method Create(title: string, description: string, category: string,
                  startTime: Instant, endTime: Instant, clientName: Option<string>)
      returns (b: Booking)
      requires Valid()
      modifies this
      ensures Valid()
      ensures b == Booking(old(nextId), title, description, category, startTime, endTime, clientName)
      ensures b.id !in Ids(old(records))
      ensures records == old(records) + [b] && nextId == old(nextId) + 1
    {
      b := Booking(nextId, title, description, category, startTime, endTime, clientName);
      records := records + [b];
      nextId := nextId + 1;
    }

    /** `booking.update({ where: { id } })`: replaces every field but the id of the record with that id. */
    method Update(b: Booking)
      requires Valid() && b.id in Ids(records)
      modifies this
      ensures Valid()
      ensures records == Replace(old(records), b) && nextId == old(nextId)
      ensures b in records
    {
      var r := Replace(records, b);
      var k :| 0 <= k < |records| && records[k].id == b.id;
      assert r[k] == b;
      records := r;
    }

    /**
     * `booking.delete({ where: { id } })`; `found` is false when no record has
     * that id, where the ORM throws.
     */
    method Delete(id: nat) returns (found: bool)
      requires Valid()
      modifies this
      ensures Valid()
      ensures found <==> id in Ids(old(records))
      ensures records == Without(old(records), {id}) && nextId == old(nextId)
    {
      found := id in Ids(records);
      records := Without(records, {id});
    }
  }
}
