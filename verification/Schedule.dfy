/**
 EIT schedule coverage of one service (internal/isdb/schedule.go), with sets of section
 numbers in place of bitmaps.  A group is eight tables; a table (row) remembers which of
 its 256 sections arrived and which ones are waived.
 */
module Schedule {
  import opened Basics
  import opened SectionBits

  const TABLES: nat := 8

  datatype System = TS | MMT

  /** The ready group of a table: its base, the index in it, and whether it is basic. */
  datatype Place = Place(base: Byte, index: nat, basic: bool)

  function PlaceOf(system: System, table: Byte): Option<Place> {
    match system
    case MMT =>
      if 0x8C <= table <= 0x93 then Some(Place(0x8C, table - 0x8C, true))
      else if 0x94 <= table <= 0x9B then Some(Place(0x94, table - 0x94, false))
      else None
    case TS =>
      if 0x50 <= table <= 0x57 then Some(Place(0x50, table - 0x50, true))
      else if 0x58 <= table <= 0x5F then Some(Place(0x58, table - 0x58, false))
      else if 0x60 <= table <= 0x67 then Some(Place(0x60, table - 0x60, true))
      else if 0x68 <= table <= 0x6F then Some(Place(0x68, table - 0x68, false))
      else None
  }

  datatype Header = Header(version: Byte, section: Byte, lastSection: Byte, lastTable: Byte, segmentLast: Byte)

  /** The index of a header's last table; one outside the group counts by its low bits. */
  function LastIndex(system: System, base: Byte, lastTable: Byte): nat {
    match PlaceOf(system, lastTable)
    case Some(p) => if p.base == base then p.index else lastTable % 8
    case None => lastTable % 8
  }

  /** The three-hour slot of the day in Japan, from Unix milliseconds; the division truncates. */
  function CurrentSegment(now: int): nat {
    var t := now + 9 * 3600000;
    var slots := if t >= 0 then t / 10800000 else -(-t / 10800000);
    slots % 8
  }

  /** What one section header tells its group. */
  datatype Obs = Obs(index: nat, last: nat, version: Byte, section: Byte, lastSection: Byte, segmentLast: Byte,
      current: nat)

  ghost predicate ValidObs(o: Obs) { o.index < TABLES && o.last < TABLES && o.current < TABLES }

  function ObsOf(system: System, place: Place, h: Header, now: int): Obs {
    Obs(place.index, LastIndex(system, place.base, h.lastTable), h.version, h.section, h.lastSection, h.segmentLast,
        CurrentSegment(now))
  }

  // --------------------------------------------------------------- rows and groups

  datatype Row = Row(observed: bool, version: Byte, got: set<nat>, waived: set<nat>)

  datatype Group = Group(last: int, rows: seq<Row>)

  ghost predicate ValidGroup(g: Group) { |g.rows| == TABLES && -1 <= g.last < TABLES }

  ghost function BlankRow(required: bool): Row { Row(false, 0, {}, if required then {} else Everything()) }

  ghost function BlankGroup(): Group { Group(-1, seq(TABLES, i => BlankRow(false))) }

  /** Rows past either the old or the new last table start over when the last table moves. */
  predicate Restarts(oldLast: int, newLast: nat, i: nat) {
    oldLast != newLast && (i > newLast || i > oldLast)
  }

  ghost function AfterLast(g: Group, last: nat, i: nat): Row
    requires i < |g.rows|
  {
    if Restarts(g.last, last, i) then BlankRow(i <= last) else g.rows[i]
  }

  /** Sections a header excuses: elapsed slots of the first table, segments past the last
      section, and positions past the last of the header's own segment. */
  predicate Excused(o: Obs, n: nat) {
    || (o.index == 0 && n / 8 < o.current)
    || n / 8 > o.lastSection / 8
    || (n / 8 == o.section / 8 && n % 8 > o.segmentLast % 8)
  }

  ghost function Waivers(o: Obs): set<nat> { set n: nat | n < 256 && Excused(o, n) }

  ghost function Marked(r: Row, o: Obs): Row {
    var base := if r.observed && r.version != o.version then BlankRow(true) else r;
    Row(true, o.version, base.got + {o.section as nat}, base.waived + Waivers(o))
  }

  ghost function Observed(g: Group, o: Obs): Group
    requires ValidGroup(g) && ValidObs(o)
  {
    Group(o.last, seq(TABLES, i requires 0 <= i < TABLES =>
      if i == o.index then Marked(AfterLast(g, o.last, i), o) else AfterLast(g, o.last, i)))
  }

  ghost predicate RowReady(r: Row) { Everything() <= r.got + r.waived }

  ghost predicate Ready(g: Group) { forall i | 0 <= i < |g.rows| :: RowReady(g.rows[i]) }

  /** The group after a history of observations. */
  ghost function After(t: seq<Obs>): Group
    requires forall k | 0 <= k < |t| :: ValidObs(t[k])
    ensures ValidGroup(After(t))
  {
    if t == [] then BlankGroup() else Observed(After(t[..|t| - 1]), t[|t| - 1])
  }

  ghost predicate ValidTrace(t: seq<Obs>) { forall k | 0 <= k < |t| :: ValidObs(t[k]) }

  // ------------------------------------- what a received bit means, over every history

  function LastAfter(t: seq<Obs>): int { if t == [] then -1 else t[|t| - 1].last }

  /** The version row i holds after a history: that of its newest header, until a restart. */
  function VersionAfter(t: seq<Obs>, i: nat): Option<Byte>
    decreases |t|
  {
    if t == [] then None else
      var o := t[|t| - 1];
      if o.index == i then Some(o.version)
      else if Restarts(LastAfter(t[..|t| - 1]), o.last, i) then None
      else VersionAfter(t[..|t| - 1], i)
  }

  /** Observation k empties row i: the last table moved past it, or its version changed. */
  predicate Resets(t: seq<Obs>, k: nat, i: nat)
    requires k < |t|
  {
    || Restarts(LastAfter(t[..k]), t[k].last, i)
    || (t[k].index == i && VersionAfter(t[..k], i).Some? && VersionAfter(t[..k], i).value != t[k].version)
  }

  /** Section n of row i arrived, and nothing emptied the row since. */
  ghost predicate ArrivedSince(t: seq<Obs>, i: nat, n: nat, k: nat)
    requires k < |t|
  {
    t[k].index == i && t[k].section == n && forall m: nat | k < m < |t| :: !Resets(t, m, i)
  }

  lemma ResetsPrefix(t: seq<Obs>, k: nat, i: nat)
    requires k < |t| - 1
    ensures Resets(t, k, i) == Resets(t[..|t| - 1], k, i)
  {
    assert t[..|t| - 1][..k] == t[..k];
  }

  lemma {:induction false} RowVersion(t: seq<Obs>, i: nat)
    requires ValidTrace(t) && i < TABLES
    ensures After(t).last == LastAfter(t)
    ensures After(t).rows[i].observed == VersionAfter(t, i).Some?
    ensures VersionAfter(t, i).Some? ==> After(t).rows[i].version == VersionAfter(t, i).value
    decreases |t|
  {
    if t != [] { RowVersion(t[..|t| - 1], i); }
  }

  /** A received bit is set exactly when that section arrived since the row was last emptied,
      and it then arrived with the version the row now holds. */
  lemma {:induction false} ReceivedMeansArrived(t: seq<Obs>, i: nat, n: nat)
    requires ValidTrace(t) && i < TABLES
    ensures n in After(t).rows[i].got <==> exists k: nat | k < |t| :: ArrivedSince(t, i, n, k)
    ensures forall k: nat | k < |t| && ArrivedSince(t, i, n, k) :: VersionAfter(t, i) == Some(t[k].version)
    decreases |t|
  {
    if t != [] {
      var p := t[..|t| - 1];
      var last := |t| - 1;
      ReceivedMeansArrived(p, i, n);
      RowVersion(p, i);
      forall k: nat | k < last ensures Resets(t, k, i) == Resets(p, k, i) { ResetsPrefix(t, k, i); }
      forall k: nat | k < last ensures ArrivedSince(t, i, n, k) == (ArrivedSince(p, i, n, k) && !Resets(t, last, i)) {
        assert forall m: nat | k < m < last :: Resets(t, m, i) == Resets(p, m, i);
      }
      assert t[..last] == p;
      assert ArrivedSince(t, i, n, last) == (t[last].index == i && t[last].section == n);
    }
  }

  /** Section n of row i came with observation k, and since then every header of the row had its version and the
      last table moved only among tables not before it. */
  ghost predicate HeldSince(t: seq<Obs>, i: nat, n: nat, k: nat) {
    && k < |t| && t[k].index == i && t[k].section == n
    && forall m: nat | k < m < |t| ::
         && (t[m].last == t[m - 1].last || (i <= t[m].last && i <= t[m - 1].last))
         && (t[m].index == i ==> t[m].version == t[k].version)
  }

  /** While that is so the row keeps the version. */
  lemma {:induction false} VersionHeld(t: seq<Obs>, i: nat, k: nat, m: nat)
    requires k < m <= |t| && t[k].index == i
    requires (forall j: nat | k < j < m :: !Resets(t, j, i))
             || forall j: nat | k < j < m ::
                  && (t[j].last == t[j - 1].last || (i <= t[j].last && i <= t[j - 1].last))
                  && (t[j].index == i ==> t[j].version == t[k].version)
    ensures VersionAfter(t[..m], i) == Some(t[k].version)
  {
    var u := t[..m];
    assert u[..m - 1] == t[..m - 1];
    if m > k + 1 {
      VersionHeld(t, i, k, m - 1);
      LastBefore(t, m - 1);
      if forall j: nat | k < j < m :: !Resets(t, j, i) { assert !Resets(t, m - 1, i); }
    }
  }

  lemma LastBefore(t: seq<Obs>, m: nat)
    requires 0 < m < |t|
    ensures LastAfter(t[..m]) == t[m - 1].last
  {}

  lemma HeldIsArrived(t: seq<Obs>, i: nat, n: nat, k: nat)
    requires k < |t|
    ensures HeldSince(t, i, n, k) <==> ArrivedSince(t, i, n, k)
  {
    if HeldSince(t, i, n, k) {
      forall m: nat | k < m < |t| ensures !Resets(t, m, i) {
        VersionHeld(t, i, k, m);
        LastBefore(t, m);
      }
    }
    if ArrivedSince(t, i, n, k) {
      forall m: nat | k < m < |t|
        ensures (t[m].last == t[m - 1].last || (i <= t[m].last && i <= t[m - 1].last))
                && (t[m].index == i ==> t[m].version == t[k].version)
      {
        assert !Resets(t, m, i);
        VersionHeld(t, i, k, m);
        LastBefore(t, m);
      }
    }
  }

  /** In every reachable state a section is marked exactly if it came and has been held since: told from the headers
      alone. */
  lemma MarkedExactly(t: seq<Obs>, i: nat, n: nat)
    requires ValidTrace(t) && i < TABLES
    ensures n in After(t).rows[i].got <==> exists k: nat :: HeldSince(t, i, n, k)
  {
    ReceivedMeansArrived(t, i, n);
    forall k: nat | k < |t| ensures HeldSince(t, i, n, k) <==> ArrivedSince(t, i, n, k) { HeldIsArrived(t, i, n, k); }
  }

  /** Section n of row i was excused by a header, and nothing emptied the row since. */
  ghost predicate ExcusedSince(t: seq<Obs>, i: nat, n: nat, k: nat)
    requires k < |t|
  {
    t[k].index == i && Excused(t[k], n) && forall m: nat | k < m < |t| :: !Resets(t, m, i)
  }

  /** Observation k empties row i because its version changed. */
  predicate Renewed(t: seq<Obs>, k: nat, i: nat)
    requires k < |t|
  {
    && !Restarts(LastAfter(t[..k]), t[k].last, i) && t[k].index == i
    && VersionAfter(t[..k], i).Some? && VersionAfter(t[..k], i).value != t[k].version
  }

  /** How many times the newest observation discards coverage: by moving the last table, and by renewing its row. */
  function Discards(t: seq<Obs>): nat
    requires t != []
  {
    (if |t| > 1 && LastAfter(t[..|t| - 1]) != t[|t| - 1].last then 1 else 0)
    + if Renewed(t, |t| - 1, t[|t| - 1].index) then 1 else 0
  }

  /** Row i has been without obligations since it last started over. */
  predicate Spare(t: seq<Obs>, i: nat)
    decreases |t|
  {
    if t == [] then true
    else if Restarts(LastAfter(t[..|t| - 1]), t[|t| - 1].last, i) then i > t[|t| - 1].last
    else !Renewed(t, |t| - 1, i) && Spare(t[..|t| - 1], i)
  }

  /** A section is waived exactly when its row is spare or a header excused it since the row was last emptied. */
  lemma {:induction false} WaivedMeansExcused(t: seq<Obs>, i: nat, n: nat)
    requires ValidTrace(t) && i < TABLES && n < 256
    ensures n in After(t).rows[i].waived <==> Spare(t, i) || exists k: nat | k < |t| :: ExcusedSince(t, i, n, k)
    decreases |t|
  {
    assert n in Everything() by { assert Within(n, 0, SEGMENTS); }
    if t != [] {
      var p := t[..|t| - 1];
      var last := |t| - 1;
      WaivedMeansExcused(p, i, n);
      RowVersion(p, i);
      forall k: nat | k < last ensures Resets(t, k, i) == Resets(p, k, i) { ResetsPrefix(t, k, i); }
      forall k: nat | k < last ensures ExcusedSince(t, i, n, k) == (ExcusedSince(p, i, n, k) && !Resets(t, last, i)) {
        assert forall m: nat | k < m < last :: Resets(t, m, i) == Resets(p, m, i);
      }
      assert t[..last] == p;
      assert ExcusedSince(t, i, n, last) == (t[last].index == i && Excused(t[last], n));
    }
  }

  /** Row i was emptied by a new version, and the last table has not moved past it since. */
  ghost predicate Emptied(t: seq<Obs>, i: nat) { exists k: nat | k < |t| :: EmptiedAt(t, i, k) }

  ghost predicate EmptiedAt(t: seq<Obs>, i: nat, k: nat)
    requires k < |t|
  {
    Renewed(t, k, i) && forall m: nat | k < m < |t| :: !Restarts(LastAfter(t[..m]), t[m].last, i)
  }

  lemma EmptiedPrefix(t: seq<Obs>, i: nat, k: nat)
    requires k < |t| - 1
    ensures EmptiedAt(t, i, k) == (EmptiedAt(t[..|t| - 1], i, k)
            && !Restarts(LastAfter(t[..|t| - 1]), t[|t| - 1].last, i))
  {
    var p := t[..|t| - 1];
    forall m: nat | m < |p| ensures p[..m] == t[..m] {}
    assert Renewed(t, k, i) == Renewed(p, k, i);
  }

  /** The spare rows are those past the last table that no new version has emptied. */
  lemma {:induction false} SpareIs(t: seq<Obs>, i: nat)
    requires ValidTrace(t) && i < TABLES
    ensures Spare(t, i) <==> i > LastAfter(t) && !Emptied(t, i)
    decreases |t|
  {
    if t != [] {
      var p := t[..|t| - 1];
      SpareIs(p, i);
      forall k: nat | k < |p|
        ensures EmptiedAt(t, i, k) == (EmptiedAt(p, i, k) && !Restarts(LastAfter(p), t[|p|].last, i))
      {
        EmptiedPrefix(t, i, k);
      }
      assert EmptiedAt(t, i, |p|) == Renewed(t, |p|, i);
    }
  }

  /** Since row i was last emptied, section n arrived or was excused. */
  ghost predicate Covered(t: seq<Obs>, i: nat, n: nat) {
    exists k: nat | k < |t| :: ArrivedSince(t, i, n, k) || ExcusedSince(t, i, n, k)
  }

  ghost predicate AllCovered(t: seq<Obs>, i: nat) { forall n: nat | n < 256 :: Covered(t, i, n) }

  /** A row is ready exactly when it is past the last table and no new version emptied it, or all of it is covered. */
  lemma RowReadyMeans(t: seq<Obs>, i: nat)
    requires ValidTrace(t) && i < TABLES
    ensures RowReady(After(t).rows[i]) <==> (i > LastAfter(t) && !Emptied(t, i)) || AllCovered(t, i)
  {
    var r := After(t).rows[i];
    SpareIs(t, i);
    forall n: nat | n < 256 ensures n in Everything() && (n in r.got + r.waived <==> Spare(t, i) || Covered(t, i, n)) {
      assert Within(n, 0, SEGMENTS);
      ReceivedMeansArrived(t, i, n);
      WaivedMeansExcused(t, i, n);
      CoveredIs(t, i, n);
    }
    if AllCovered(t, i) || Spare(t, i) {
      forall n | n in Everything() ensures n in r.got + r.waived { assert n < 256; }
    }
    if RowReady(r) && !Spare(t, i) {
      forall n: nat | n < 256 ensures Covered(t, i, n) { assert n in Everything(); }
    }
  }

  lemma CoveredIs(t: seq<Obs>, i: nat, n: nat)
    ensures Covered(t, i, n)
            <==> (exists k: nat | k < |t| :: ArrivedSince(t, i, n, k)) || exists k: nat | k < |t| ::
                  ExcusedSince(t, i, n, k)
  {}

  // ------------------------------------------------- a fixed announced layout

  /** What a broadcaster announces of one group: its last table, and per table the version,
      the last section and the last section of every segment. */
  datatype Layout = Layout(last: nat, version: nat -> Byte, lastSection: nat -> Byte, segmentLast: (nat, nat) -> Byte)

  /** A header agrees with the layout. */
  ghost predicate ObsFollows(o: Obs, l: Layout, current: nat) {
    && o.index <= l.last < TABLES && o.last == l.last && o.current == current < TABLES
    && o.version == l.version(o.index) && o.lastSection == l.lastSection(o.index)
    && o.segmentLast == l.segmentLast(o.index, o.section / 8)
  }

  /** Every header agrees with the layout, and all were seen within one three-hour slot. */
  ghost predicate Follows(t: seq<Obs>, l: Layout, current: nat) {
    forall k | 0 <= k < |t| :: ObsFollows(t[k], l, current)
  }

  predicate Announced(l: Layout, i: nat, n: nat) {
    n < 256 && n / 8 <= l.lastSection(i) / 8 && n % 8 <= l.segmentLast(i, n / 8) % 8
  }

  ghost predicate Seen(t: seq<Obs>, i: nat) { exists k | 0 <= k < |t| :: t[k].index == i }

  ghost predicate Arrived(t: seq<Obs>, i: nat, n: nat) {
    exists k | 0 <= k < |t| :: t[k].index == i && t[k].section == n
  }

  ghost predicate Touched(t: seq<Obs>, i: nat, segment: nat) {
    exists k | 0 <= k < |t| :: t[k].index == i && t[k].section / 8 == segment
  }

  /** Under a fixed layout, section n of row i is waived for exactly these reasons. */
  ghost predicate WaivedUnder(t: seq<Obs>, l: Layout, current: nat, i: nat, n: nat) {
    || i > l.last
    || (Seen(t, i) && (|| (i == 0 && n / 8 < current)
                       || n / 8 > l.lastSection(i) / 8
                       || (Touched(t, i, n / 8) && n % 8 > l.segmentLast(i, n / 8) % 8)))
  }

  /** What FixedLayoutRow proves of row i and section n. */
  ghost predicate RowUnder(r: Row, t: seq<Obs>, l: Layout, current: nat, i: nat, n: nat) {
    && r.observed == Seen(t, i)
    && (Seen(t, i) ==> r.version == l.version(i))
    && (n in r.got <==> Arrived(t, i, n))
    && (n in r.waived <==> WaivedUnder(t, l, current, i, n))
  }

  lemma SeenExtended(p: seq<Obs>, o: Obs, i: nat, n: nat)
    ensures Seen(p + [o], i) == (Seen(p, i) || o.index == i)
    ensures Arrived(p + [o], i, n) == (Arrived(p, i, n) || (o.index == i && o.section == n))
    ensures Touched(p + [o], i, n / 8) == (Touched(p, i, n / 8) || (o.index == i && o.section / 8 == n / 8))
  {
    var t := p + [o];
    assert t[|p|] == o;
    forall k | 0 <= k < |p| ensures t[k] == p[k] {}
  }

  lemma MarkedUnder(r: Row, p: seq<Obs>, o: Obs, l: Layout, current: nat, i: nat, n: nat)
    requires RowUnder(r, p, l, current, i, n) && ObsFollows(o, l, current) && n < 256
    ensures RowUnder(if i == o.index then Marked(r, o) else r, p + [o], l, current, i, n)
  {
    SeenExtended(p, o, i, n);
    if i == o.index {
      assert n in Waivers(o) <==> Excused(o, n);
      assert Marked(r, o) == Row(true, o.version, r.got + {o.section as nat}, r.waived + Waivers(o));
    }
  }

  lemma {:induction false} FixedLayoutRow(t: seq<Obs>, l: Layout, current: nat, i: nat, n: nat)
    requires t != [] && Follows(t, l, current) && i < TABLES && n < 256
    ensures ValidTrace(t)
    ensures After(t).last == l.last && RowUnder(After(t).rows[i], t, l, current, i, n)
    decreases |t|
  {
    var p := t[..|t| - 1];
    var o := t[|t| - 1];
    assert t == p + [o] && ObsFollows(o, l, current);
    assert ValidTrace(t);
    if p == [] {
      assert After(p) == BlankGroup();
      assert AfterLast(After(p), o.last, i) == BlankRow(i <= o.last);
      assert n in Everything() by { assert Within(n, 0, SEGMENTS); }
    } else {
      FixedLayoutRow(p, l, current, i, n);
      assert AfterLast(After(p), o.last, i) == After(p).rows[i];
    }
    MarkedUnder(AfterLast(After(p), o.last, i), p, o, l, current, i, n);
  }

  /** Table i owes nothing more: it was seen, and all it announced arrived. */
  ghost predicate Received(t: seq<Obs>, l: Layout, current: nat, i: nat) {
    Seen(t, i) && forall n: nat | Announced(l, i, n) && !(i == 0 && n / 8 < current) :: Arrived(t, i, n)
  }

  /** A group is ready exactly when every table up to the last has been seen and every announced
      section has arrived, except elapsed segments of the first table. */
  lemma ReadyExactlyWhenReceived(t: seq<Obs>, l: Layout, current: nat)
    requires t != [] && Follows(t, l, current)
    ensures ValidTrace(t)
    ensures Ready(After(t)) <==> forall i: nat | i <= l.last :: Received(t, l, current, i)
  {
    FixedLayoutRow(t, l, current, 0, 0);
    forall i: nat | i < TABLES ensures RowReady(After(t).rows[i]) <==> i > l.last || Received(t, l, current, i) {
      RowExactlyWhenReceived(t, l, current, i);
    }
  }

  lemma RowExactlyWhenReceived(t: seq<Obs>, l: Layout, current: nat, i: nat)
    requires t != [] && Follows(t, l, current) && i < TABLES && ValidTrace(t)
    ensures RowReady(After(t).rows[i]) <==> i > l.last || Received(t, l, current, i)
  {
    var r := After(t).rows[i];
    forall n: nat | n < 256
      ensures (n in r.got + r.waived) == (Arrived(t, i, n) || WaivedUnder(t, l, current, i, n)) && n in Everything()
    {
      FixedLayoutRow(t, l, current, i, n);
    }
    if RowReady(r) && i <= l.last {
      assert 0 in Everything();
      assert Seen(t, i);
      forall n: nat | Announced(l, i, n) && !(i == 0 && n / 8 < current) ensures Arrived(t, i, n) {
        assert n in Everything();
      }
    }
    if Received(t, l, current, i) {
      forall n | n in Everything() ensures n in r.got + r.waived {
        SegmentHeadTouches(t, l, current, i, n);
      }
    }
  }

  /** The first section of a segment is always announced, so a segment that is owed is touched. */
  lemma SegmentHeadTouches(t: seq<Obs>, l: Layout, current: nat, i: nat, n: nat)
    requires n < 256 && Received(t, l, current, i)
    ensures Arrived(t, i, n) || WaivedUnder(t, l, current, i, n)
  {
    var head := n / 8 * 8;
    assert head / 8 == n / 8 && head % 8 == 0;
    if n / 8 <= l.lastSection(i) / 8 && !(i == 0 && n / 8 < current) {
      assert Announced(l, i, head);
      assert Touched(t, i, n / 8);
      if n % 8 <= l.segmentLast(i, n / 8) % 8 { assert Announced(l, i, n); }
    }
  }

  // ---------------------------------------------------------------- any headers

  /** An unseen row up to the last table owes everything. */
  lemma {:induction false} UnseenRow(t: seq<Obs>, i: nat)
    requires t != [] && ValidTrace(t) && i < TABLES && !Seen(t, i)
    ensures After(t).last >= 0
    ensures i <= After(t).last ==> After(t).rows[i] == BlankRow(true)
    decreases |t|
  {
    var p := t[..|t| - 1];
    var o := t[|t| - 1];
    assert t == p + [o];
    SeenExtended(p, o, i, 0);
    if p == [] {
      assert After(p) == BlankGroup();
    } else {
      UnseenRow(p, i);
    }
  }

  /** Every table up to the last one has been seen and is covered. */
  ghost predicate NothingOwed(t: seq<Obs>) {
    ValidTrace(t) && forall i: nat | i <= After(t).last :: Seen(t, i) && RowReady(After(t).rows[i])
  }

  /** A new version emptied row i, past the last table, and not all of it has been covered again. */
  ghost predicate Stranded(t: seq<Obs>, i: nat) { LastAfter(t) < i < TABLES && Emptied(t, i) && !AllCovered(t, i) }

  /** A group is ready exactly when nothing is owed and no row past the last table is stranded. */
  lemma ReadyByTables(t: seq<Obs>)
    requires t != [] && ValidTrace(t)
    ensures Ready(After(t)) <==> NothingOwed(t) && forall i: nat :: !Stranded(t, i)
  {
    RowVersion(t, 0);
    assert 0 in Everything() by { assert Within(0, 0, SEGMENTS); }
    forall i: nat | i < TABLES
      ensures i > After(t).last ==> (RowReady(After(t).rows[i]) <==> !Stranded(t, i))
      ensures i <= After(t).last && !Seen(t, i) ==> !RowReady(After(t).rows[i])
    {
      RowReadyMeans(t, i);
      if !Seen(t, i) { UnseenRow(t, i); }
    }
    if Ready(After(t)) {
      forall i: nat ensures !Stranded(t, i) {
        if LastAfter(t) < i < TABLES { assert RowReady(After(t).rows[i]); }
      }
    }
  }

  /** The last table is in the group and not before the header's own table. */
  ghost predicate WellFormed(t: seq<Obs>) { forall k | 0 <= k < |t| :: ValidObs(t[k]) && t[k].index <= t[k].last }

  /** Under such headers no row is ever stranded. */
  lemma {:induction false} NeverStranded(t: seq<Obs>, i: nat)
    requires WellFormed(t) && i < TABLES
    ensures i > LastAfter(t) ==> Spare(t, i)
    ensures !Stranded(t, i)
    decreases |t|
  {
    SpareIs(t, i);
    if t != [] { NeverStranded(t[..|t| - 1], i); }
  }

  /** The condition is needed: two versions of a table past the announced last one leave the group
      unready although nothing is owed. */
  lemma MisleadingHeader()
    ensures exists t :: t != [] && ValidTrace(t) && !Ready(After(t)) && NothingOwed(t)
  {
    var a := Obs(0, 0, 1, 0, 0, 0, 0);
    var b := Obs(1, 0, 1, 0, 0, 1, 0);
    var c := Obs(1, 0, 2, 0, 0, 1, 0);
    var t := [a, b, c];
    assert t[..2] == [a, b] && [a, b][..1] == [a] && [a][..0] == [];
    assert After([]) == BlankGroup();
    var r0 := After([a]).rows[0];
    assert r0 == Marked(BlankRow(true), a);
    assert After([a, b]).rows[0] == r0 && After(t).rows[0] == r0;
    forall n | n in Everything() ensures n in r0.got + r0.waived {
      assert n == 0 || Excused(a, n);
    }
    assert After([a, b]).rows[1] == Marked(BlankRow(false), b);
    var r1 := After(t).rows[1];
    assert r1 == Marked(After([a, b]).rows[1], c);
    assert 1 in Everything() by { assert Within(1, 0, SEGMENTS); }
    assert 1 !in r1.got + r1.waived by { assert !Excused(c, 1); }
    assert t[0].index == 0;
    assert Seen(t, 0);
  }
}
