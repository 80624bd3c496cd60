/**
 The schedule tracker as internal/isdb/schedule.go keeps it: bitmaps updated section by
 section.  Every update is proved against the set model in Schedule, and the tracker's
 invariant ties its state to the history of sections it has observed.
 */
module ScheduleTracker {
  import opened Basics
  import opened SectionBits
  import opened Schedule
  import opened ScheduleHeaders

  datatype ReadyRow = ReadyRow(observed: bool, version: Byte, flag: Bitmap, ignore: Bitmap)

  datatype ReadyGroup = ReadyGroup(last: int, basic: bool, rows: seq<ReadyRow>)

  ghost predicate ValidReady(g: ReadyGroup) { |g.rows| == TABLES && -1 <= g.last < TABLES }

  ghost function RowSets(r: ReadyRow): Row { Row(r.observed, r.version, Members(r.flag), Members(r.ignore)) }

  ghost function GroupSets(g: ReadyGroup): Group {
    Group(g.last, seq(|g.rows|, i requires 0 <= i < |g.rows| => RowSets(g.rows[i])))
  }

  function ResetRow(required: bool): ReadyRow { ReadyRow(false, 0, Uniform(0), Uniform(if required then 0 else ALL)) }

  lemma ResetRowSets(required: bool)
    ensures RowSets(ResetRow(required)) == BlankRow(required)
  {}

  function NewGroup(basic: bool): ReadyGroup { ReadyGroup(-1, basic, seq(TABLES, i => ResetRow(false))) }

  lemma NewGroupSets(basic: bool)
    ensures ValidReady(NewGroup(basic)) && GroupSets(NewGroup(basic)) == BlankGroup()
  {
    ResetRowSets(false);
  }

  /** Waives whole segments, telling whether any bit changed. */
  method WaiveSegments(b: Bitmap, lo: nat, hi: nat) returns (b': Bitmap, changed: bool)
    requires lo <= hi <= SEGMENTS
    ensures Members(b') == Members(b) + Segments(lo, hi)
    ensures changed == (b' != b)
  {
    b', changed := b, false;
    for i := lo to hi
      invariant Members(b') == Members(b) + Segments(lo, i)
      invariant forall j | i <= j < SEGMENTS :: b'[j] == b[j]
      invariant changed == (b' != b)
    {
      WithSegmentMembers(b', i);
      SegmentsExtended(lo, i);
      if b'[i] != ALL {
        b' := b'[i := ALL];
        changed := true;
        assert b'[i] != b[i];
      } else {
        assert b'[i := ALL] == b';
      }
    }
  }

  lemma SegmentsExtended(lo: nat, i: nat)
    requires lo <= i
    ensures Segments(lo, i + 1) == Segments(lo, i) + Segments(i, i + 1)
  {}

  predicate PastLast(n: nat, segment: nat, from: nat, to: nat) { n / 8 == segment && from <= n % 8 < to }

  ghost function Positions(segment: nat, from: nat, to: nat): set<nat> {
    set n: nat | n < 256 && PastLast(n, segment, from, to)
  }

  /** Waives the positions of one segment from `from` on. */
  method WaivePositions(b: Bitmap, segment: nat, from: nat) returns (b': Bitmap, changed: bool)
    requires segment < SEGMENTS && from <= 8
    ensures Members(b') == Members(b) + Positions(segment, from, 8)
    ensures changed == (b' != b)
  {
    b', changed := b, false;
    for i := from to 8
      invariant Members(b') == Members(b) + Positions(segment, from, i)
      invariant Members(b) <= Members(b')
      invariant changed == (b' != b)
    {
      var n := SectionAt(segment, i);
      assert n / 8 == segment && n % 8 == i;
      PositionsExtended(segment, from, i);
      WithSectionMembers(b', n);
      if !Bit(b'[segment], i) {
        b' := WithSection(b', n);
        changed := true;
        assert n !in Members(b) && n in Members(b');
      } else {
        assert Has(b', n);
      }
    }
  }

  lemma PositionsExtended(segment: nat, from: nat, i: nat)
    requires from <= i < 8 && segment < SEGMENTS
    ensures Positions(segment, from, i + 1) == Positions(segment, from, i) + {SectionAt(segment, i)}
  {}

  lemma WaiversSplit(o: Obs)
    requires ValidObs(o)
    ensures Waivers(o) == (if o.index == 0 then Segments(0, o.current) else {})
                          + Segments(o.lastSection / 8 + 1, SEGMENTS)
                          + Positions(o.section / 8, o.segmentLast % 8 + 1, 8)
  {}

  /** Waives what one header excuses. */
  method Waive(before: Bitmap, o: Obs) returns (ignore: Bitmap, changed: bool)
    requires ValidObs(o)
    ensures Members(ignore) == Members(before) + Waivers(o) && changed == (ignore != before)
  {
    var c1, c2, c3 := false, false, false;
    ignore := before;
    if o.index == 0 { ignore, c1 := WaiveSegments(ignore, 0, o.current); }
    ghost var ignore1 := ignore;
    ignore, c2 := WaiveSegments(ignore, o.lastSection / 8 + 1, SEGMENTS);
    ghost var ignore2 := ignore;
    ignore, c3 := WaivePositions(ignore, o.section / 8, o.segmentLast % 8 + 1);
    changed := c1 || c2 || c3;
    WaiversSplit(o);
    GrowingMaps(before, ignore1, ignore2, ignore);
  }

  /** One header marks its own row. */
  method MarkRow(r: ReadyRow, o: Obs) returns (r': ReadyRow, changed: bool, reset: bool)
    requires ValidObs(o)
    ensures RowSets(r') == Marked(RowSets(r), o)
    ensures changed == (r' != r)
    ensures reset == (r.observed && r.version != o.version)
  {
    reset := r.observed && r.version != o.version;
    var base := if reset then ResetRow(true) else r;
    changed := reset;
    if !base.observed || base.version != o.version { changed := true; }
    var ignore, waived := Waive(base.ignore, o);
    var flag := WithSection(base.flag, o.section);
    r' := ReadyRow(true, o.version, flag, ignore);
    changed := changed || waived || flag != base.flag;
    ResetRowSets(true);
    WithSectionMembers(base.flag, o.section);
  }

  /** Bitmaps that only gain members return to where they started only by never moving. */
  lemma GrowingMaps(a: Bitmap, b: Bitmap, c: Bitmap, d: Bitmap)
    requires Members(a) <= Members(b) <= Members(c) <= Members(d)
    ensures a == d ==> a == b == c
  {
    if a == d {
      SameMembers(a, b);
      SameMembers(a, c);
    }
  }

  lemma SameMembers(a: Bitmap, b: Bitmap)
    requires Members(a) == Members(b)
    ensures a == b
  {
    forall i | 0 <= i < SEGMENTS ensures a[i] == b[i] {
      forall j | 0 <= j < 8 ensures Bit(a[i], j) == Bit(b[i], j) {
        var n := SectionAt(i, j);
        assert n / 8 == i && n % 8 == j;
        assert Has(a, n) <==> n in Members(a);
        assert Has(b, n) <==> n in Members(b);
      }
      SameByte(a[i], b[i]);
    }
  }

  lemma SameByte(x: bv8, y: bv8)
    requires forall j | 0 <= j < 8 :: Bit(x, j) == Bit(y, j)
    ensures x == y
  {
    assert Bit(x, 0) == Bit(y, 0) && Bit(x, 1) == Bit(y, 1) && Bit(x, 2) == Bit(y, 2) && Bit(x, 3) == Bit(y, 3);
    assert Bit(x, 4) == Bit(y, 4) && Bit(x, 5) == Bit(y, 5) && Bit(x, 6) == Bit(y, 6) && Bit(x, 7) == Bit(y, 7);
  }

  /** Rows past the old or the new last table start over when the last table moves. */
  method MoveLast(g: ReadyGroup, last: nat) returns (rows: seq<ReadyRow>)
    requires ValidReady(g) && last < TABLES
    ensures |rows| == TABLES
    ensures forall i | 0 <= i < TABLES :: RowSets(rows[i]) == AfterLast(GroupSets(g), last, i)
    ensures g.last == last ==> rows == g.rows
  {
    rows := g.rows;
    if g.last != last {
      for i := 0 to TABLES
        invariant |rows| == TABLES
        invariant forall j | 0 <= j < i :: RowSets(rows[j]) == AfterLast(GroupSets(g), last, j)
        invariant forall j | i <= j < TABLES :: rows[j] == g.rows[j]
      {
        ResetRowSets(i <= last);
        if i > last || i > g.last { rows := rows[i := ResetRow(i <= last)]; }
      }
    }
  }

  /** One header observed by its group; `resets` counts the coverage it discarded. */
  method ObserveReady(g: ReadyGroup, o: Obs, ghost past: seq<Obs>) returns (g': ReadyGroup, changed: bool, resets: nat)
    requires ValidReady(g) && ValidObs(o) && ValidTrace(past) && GroupSets(g) == After(past)
    ensures ValidReady(g') && g'.basic == g.basic && GroupSets(g') == After(past + [o])
    ensures changed == (g' != g)
    ensures resets == Discards(past + [o])
  {
    assert (past + [o])[..|past|] == past;
    RowVersion(past, o.index);
    resets := if g.last != o.last && g.last >= 0 then 1 else 0;
    var rows := MoveLast(g, o.last);
    var row, rowChanged, rowReset := MarkRow(rows[o.index], o);
    if rowReset { resets := resets + 1; }
    g' := ReadyGroup(o.last, g.basic, rows[o.index := row]);
    changed := g.last != o.last || rowChanged;
    assert GroupSets(g').rows == Observed(GroupSets(g), o).rows;
    assert rows[o.index].observed == AfterLast(GroupSets(g), o.last, o.index).observed;
    assert g.last == o.last && !rowChanged ==> g'.rows == g.rows;
    assert g'.rows[o.index] == row;
  }

  method GroupReady(g: ReadyGroup) returns (ready: bool)
    requires ValidReady(g)
    ensures ready == Ready(GroupSets(g))
  {
    for i := 0 to TABLES
      invariant forall j | 0 <= j < i :: RowReady(RowSets(g.rows[j]))
    {
      var ok := RowFull(g.rows[i]);
      if !ok {
        assert !RowReady(GroupSets(g).rows[i]);
        return false;
      }
    }
    return true;
  }

  method RowFull(r: ReadyRow) returns (full: bool)
    ensures full == RowReady(RowSets(r))
  {
    for j := 0 to SEGMENTS
      invariant Segments(0, j) <= Members(r.flag) + Members(r.ignore)
    {
      SegmentCovered(r.flag, r.ignore, j);
      SegmentsExtended(0, j);
      if r.flag[j] | r.ignore[j] != ALL {
        ghost var n :| n in Segments(j, j + 1) && n !in Members(r.flag) + Members(r.ignore);
        assert Within(n, 0, SEGMENTS);
        return false;
      }
    }
    return true;
  }

  lemma EverythingIs()
    ensures forall n: nat :: n in Everything() <==> n < 256
  {}

  method IsMissing(r: ReadyRow, n: nat) returns (missing: bool)
    requires n < 256
    ensures missing <==> n !in Members(r.flag) && n !in Members(r.ignore)
  {
    var needed := !(r.flag[n / 8] | r.ignore[n / 8]);
    BitNot(r.flag[n / 8] | r.ignore[n / 8], n % 8);
    BitOr(r.flag[n / 8], r.ignore[n / 8], n % 8);
    assert Has(r.flag, n) <==> n in Members(r.flag);
    assert Has(r.ignore, n) <==> n in Members(r.ignore);
    missing := Bit(needed, n % 8);
  }

  /** The sections a row still owes, in increasing order. */
  method MissingSections(r: ReadyRow) returns (missing: seq<nat>)
    ensures forall n: nat :: n in missing <==> n in Everything() && n !in Members(r.flag) && n !in Members(r.ignore)
    ensures forall i, j | 0 <= i < j < |missing| :: missing[i] < missing[j]
    ensures missing == [] <==> RowReady(RowSets(r))
  {
    missing := [];
    for n := 0 to 256
      invariant forall m: nat :: m in missing <==> m < n && m !in Members(r.flag) && m !in Members(r.ignore)
      invariant forall i, j | 0 <= i < j < |missing| :: missing[i] < missing[j]
    {
      var needed := IsMissing(r, n);
      if needed {
        assert forall i | 0 <= i < |missing| :: missing[i] in missing;
        missing := missing + [n];
      }
    }
    EverythingIs();
    if !(Everything() <= Members(r.flag) + Members(r.ignore)) {
      ghost var m :| m in Everything() && m !in Members(r.flag) + Members(r.ignore);
      assert m in missing;
    }
    if missing != [] { assert missing[0] in missing; }
  }

  datatype Table<P> = Table(versions: map<Byte, Byte>, payloads: map<Byte, P>)

  function TableOf<P>(tables: map<Byte, Table<P>>, table: Byte): Table<P> {
    if table in tables then tables[table] else Table(map[], map[])
  }

  /** The section's version is noted, and its payload kept if it is new; other sections and tables stay as they are. */
  function Stored<P>(tables: map<Byte, Table<P>>, table: Byte, h: Header, payload: P,
                     isNew: bool): map<Byte, Table<P>>
  {
    var t := TableOf(tables, table);
    var payloads := if isNew then t.payloads[h.section := payload] else t.payloads;
    tables[table := Table(t.versions[h.section := h.version], payloads)]
  }

  /** A section as it came. */
  datatype Heard<P> = Heard(table: Byte, header: Header, payload: P)

  predicate IsNew<P>(tables: map<Byte, Table<P>>, table: Byte, h: Header) {
    !(table in tables && h.section in tables[table].versions && tables[table].versions[h.section] == h.version)
  }

  function StoredAll<P>(heard: seq<Heard<P>>): map<Byte, Table<P>> {
    if heard == [] then map[]
    else
      var before, x := StoredAll(heard[..|heard| - 1]), heard[|heard| - 1];
      Stored(before, x.table, x.header, x.payload, IsNew(before, x.table, x.header))
  }

  lemma StoredMore<P>(heard: seq<Heard<P>>, x: Heard<P>)
    ensures var tables := StoredAll(heard);
            && StoredAll(heard + [x]) == Stored(tables, x.table, x.header, x.payload, IsNew(tables, x.table, x.header))
            && StoredAll(heard + [x]).Keys == tables.Keys + {x.table}
  {
    assert (heard + [x])[..|heard|] == heard;
  }

  predicate About<P>(x: Heard<P>, table: Byte, n: Byte) { x.table == table && x.header.section == n }

  /** With section `k` the version that a section of a table still has came up. */
  ghost predicate CameUp<P>(heard: seq<Heard<P>>, table: Byte, n: Byte, k: int) {
    && 0 <= k < |heard| && About(heard[k], table, n)
    && (forall j | k < j < |heard| && About(heard[j], table, n) :: heard[j].header.version == heard[k].header.version)
    && (forall j | 0 <= j < k && About(heard[j], table, n) && heard[j].header.version == heard[k].header.version ::
          exists i :: j < i < k && About(heard[i], table, n) && heard[i].header.version != heard[k].header.version)
  }

  ghost predicate Keeps<P>(tables: map<Byte, Table<P>>, heard: seq<Heard<P>>, table: Byte, n: Byte, k: int) {
    && CameUp(heard, table, n, k) && table in tables
    && n in tables[table].versions && tables[table].versions[n] == heard[k].header.version
    && n in tables[table].payloads && tables[table].payloads[n] == heard[k].payload
  }

  lemma CameUpStays<P>(heard: seq<Heard<P>>, x: Heard<P>, table: Byte, n: Byte, k: int)
    requires CameUp(heard, table, n, k) && (About(x, table, n) ==> x.header.version == heard[k].header.version)
    ensures CameUp(heard + [x], table, n, k)
  {
    var all := heard + [x];
    forall j | 0 <= j < k && About(all[j], table, n) && all[j].header.version == all[k].header.version
      ensures exists i :: j < i < k && About(all[i], table, n) && all[i].header.version != all[k].header.version
    {
      var i :| j < i < k && About(heard[i], table, n) && heard[i].header.version != heard[k].header.version;
      assert all[i] == heard[i];
    }
  }

  lemma CameUpNow<P>(heard: seq<Heard<P>>, x: Heard<P>, table: Byte, n: Byte, k: int)
    requires About(x, table, n)
    requires if exists j :: 0 <= j < |heard| && About(heard[j], table, n)
             then CameUp(heard, table, n, k) && heard[k].header.version != x.header.version else true
    ensures CameUp(heard + [x], table, n, |heard|)
  {
    var all, m := heard + [x], |heard|;
    forall j | 0 <= j < m && About(all[j], table, n) && all[j].header.version == all[m].header.version
      ensures exists i :: j < i < m && About(all[i], table, n) && all[i].header.version != all[m].header.version
    {
      assert About(heard[j], table, n) && all[k] == heard[k];
      assert j < k;
    }
  }

  /** Of every section that came, the payload kept is the first of the version it has now; of no other is any. */
  lemma {:induction false} KeptIsFirstOfVersion<P>(heard: seq<Heard<P>>, table: Byte, n: Byte)
    ensures if exists j :: 0 <= j < |heard| && About(heard[j], table, n)
            then exists k :: Keeps(StoredAll(heard), heard, table, n, k)
            else table in StoredAll(heard) ==> n !in StoredAll(heard)[table].versions
                                               && n !in StoredAll(heard)[table].payloads
  {
    if heard != [] {
      var m := |heard| - 1;
      var before, x := heard[..m], heard[m];
      KeptIsFirstOfVersion(before, table, n);
      assert heard == before + [x];
      if exists j :: 0 <= j < |before| && About(before[j], table, n) {
        var k :| Keeps(StoredAll(before), before, table, n, k);
        if About(x, table, n) && IsNew(StoredAll(before), table, x.header) {
          CameUpNow(before, x, table, n, k);
          assert Keeps(StoredAll(heard), heard, table, n, m);
        } else {
          CameUpStays(before, x, table, n, k);
          assert Keeps(StoredAll(heard), heard, table, n, k);
        }
      } else if About(x, table, n) {
        CameUpNow(before, x, table, n, -1);
        assert Keeps(StoredAll(heard), heard, table, n, m);
      }
    }
  }

  datatype Missing = WholeTable(table: int) | OneSection(table: int, section: nat)

  /** What the diagnosis lists of one group. */
  ghost predicate Owes(tables: set<Byte>, base: Byte, g: ReadyGroup, m: Missing)
    requires ValidReady(g)
  {
    var i := m.table - base;
    && 0 <= i <= g.last
    && match m
       case WholeTable(t) => t !in tables
       case OneSection(t, n) =>
         t in tables && n in Everything() && n !in Members(g.rows[i].flag) && n !in Members(g.rows[i].ignore)
  }

  ghost predicate SeenIn(system: System, history: map<Byte, seq<Obs>>, t: Byte) {
    match PlaceOf(system, t)
    case None => false
    case Some(p) => p.base in history && Seen(history[p.base], p.index)
  }

  /** The tables with state are those of which a header was observed. */
  ghost predicate TablesKnown(system: System, tables: set<Byte>, history: map<Byte, seq<Obs>>) {
    forall t: Byte :: t in tables <==> SeenIn(system, history, t)
  }

  lemma ObsIsValid(system: System, t: Byte, h: Header, now: int)
    requires PlaceOf(system, t).Some?
    ensures var p := PlaceOf(system, t).value;
            ValidObs(ObsOf(system, p, h, now)) && PlaceOf(system, p.base) == Some(Place(p.base, 0, p.basic))
  {}

  lemma PlaceUnique(system: System, t: Byte, u: Byte)
    requires PlaceOf(system, t).Some? && PlaceOf(system, u).Some?
    requires PlaceOf(system, t).value.base == PlaceOf(system, u).value.base
    requires PlaceOf(system, t).value.index == PlaceOf(system, u).value.index
    ensures t == u
  {
  }

  lemma TablesKnownAfter(system: System, tables: set<Byte>, history: map<Byte, seq<Obs>>, table: Byte, o: Obs)
    requires TablesKnown(system, tables, history)
    requires PlaceOf(system, table).Some? && PlaceOf(system, table).value.index == o.index
    ensures var base := PlaceOf(system, table).value.base;
            TablesKnown(system, tables + {table},
                        history[base := (if base in history then history[base] else []) + [o]])
  {
    var p := PlaceOf(system, table).value;
    var past := if p.base in history then history[p.base] else [];
    var history' := history[p.base := past + [o]];
    forall t: Byte ensures t in tables + {table} <==> SeenIn(system, history', t) {
      var place := PlaceOf(system, t);
      if place.Some? {
        SeenExtended(past, o, place.value.index, 0);
        if place.value.base == p.base && place.value.index == o.index { PlaceUnique(system, t, table); }
      }
      assert t in tables <==> SeenIn(system, history, t);
    }
  }

  /** The place of table base + i. */
  lemma PlaceAt(system: System, b: Byte, i: nat)
    requires PlaceOf(system, b).Some? && PlaceOf(system, b).value.base == b && i < TABLES
    ensures b + i < 256
    ensures PlaceOf(system, b + i) == Some(Place(b, i, PlaceOf(system, b).value.basic))
  {
  }

  ghost predicate TablesSeen(tables: set<Byte>, b: Byte, t: seq<Obs>) {
    forall i: nat | i < TABLES :: (b + i in tables) == Seen(t, i)
  }

  lemma TablesSeenAt(system: System, tables: set<Byte>, history: map<Byte, seq<Obs>>, b: Byte)
    requires TablesKnown(system, tables, history) && b in history
    requires PlaceOf(system, b).Some? && PlaceOf(system, b).value.base == b
    ensures TablesSeen(tables, b, history[b])
  {
    forall i: nat | i < TABLES ensures (b + i in tables) == Seen(history[b], i) {
      PlaceAt(system, b, i);
      assert b + i in tables <==> SeenIn(system, history, b + i);
    }
  }

  /** Nothing of a group is listed as missing exactly when every table up to the last is seen and covered. */
  lemma NothingListed(tables: set<Byte>, b: Byte, g: ReadyGroup, t: seq<Obs>)
    requires ValidReady(g) && TablesSeen(tables, b, t) && ValidTrace(t) && GroupSets(g) == After(t)
    ensures (forall m :: !Owes(tables, b, g, m)) <==> NothingOwed(t)
  {
    if !NothingOwed(t) {
      var i: nat :| i <= g.last && !(Seen(t, i) && RowReady(After(t).rows[i]));
      SomethingOwed(tables, b, g, t, i);
    } else {
      forall m: Missing | 0 <= m.table - b <= g.last ensures !Owes(tables, b, g, m) {
        var i := m.table - b;
        assert Seen(t, i) && RowReady(After(t).rows[i]) && After(t).rows[i] == RowSets(g.rows[i]);
      }
    }
  }

  lemma SomethingOwed(tables: set<Byte>, b: Byte, g: ReadyGroup, t: seq<Obs>, i: nat)
    requires ValidReady(g) && TablesSeen(tables, b, t) && ValidTrace(t) && GroupSets(g) == After(t)
    requires i <= g.last && !(Seen(t, i) && RowReady(After(t).rows[i]))
    ensures exists m :: Owes(tables, b, g, m)
  {
    assert After(t).rows[i] == RowSets(g.rows[i]);
    if Seen(t, i) {
      var n :| n in Everything() && n !in Members(g.rows[i].flag) + Members(g.rows[i].ignore);
      assert Owes(tables, b, g, OneSection(b + i, n));
    } else {
      assert Owes(tables, b, g, WholeTable(b + i));
    }
  }

  /** The group's bitmaps are what its history of headers makes them. */
  ghost predicate Tracks(system: System, groups: map<Byte, ReadyGroup>, history: map<Byte, seq<Obs>>, b: Byte) {
    && b in groups && b in history && ValidReady(groups[b])
    && PlaceOf(system, b) == Some(Place(b, 0, groups[b].basic))
    && history[b] != [] && ValidTrace(history[b]) && GroupSets(groups[b]) == After(history[b])
  }

  ghost predicate OwedBy(tables: set<Byte>, groups: map<Byte, ReadyGroup>, b: Byte, m: Missing) {
    b in groups && ValidReady(groups[b]) && Owes(tables, b, groups[b], m)
  }

  /** `missing` is exactly what the given groups owe. */
  ghost predicate Lists(tables: set<Byte>, groups: map<Byte, ReadyGroup>, bases: set<Byte>, missing: set<Missing>) {
    forall m :: m in missing <==> exists b | b in bases :: OwedBy(tables, groups, b, m)
  }

  lemma ListsExtended(tables: set<Byte>, groups: map<Byte, ReadyGroup>, bases: set<Byte>, missing: set<Missing>,
                      b: Byte, more: set<Missing>)
    requires Lists(tables, groups, bases, missing) && b in groups && ValidReady(groups[b])
    requires forall m :: m in more <==> Owes(tables, b, groups[b], m)
    ensures Lists(tables, groups, bases + {b}, missing + more)
  {}

  /** A group of which some row past the last table is stranded. */
  ghost predicate SomeStranded(history: map<Byte, seq<Obs>>) {
    exists b, i: nat | b in history :: Stranded(history[b], i)
  }

  lemma CompleteWhenNothingOwed(system: System, tables: set<Byte>, groups: map<Byte, ReadyGroup>,
                                history: map<Byte, seq<Obs>>, missing: set<Missing>)
    requires groups.Keys == history.Keys && TablesKnown(system, tables, history)
    requires forall b | b in groups :: Tracks(system, groups, history, b)
    requires Lists(tables, groups, groups.Keys, missing)
    ensures missing == {} <==> forall b | b in groups :: NothingOwed(history[b])
  {
    forall b | b in groups ensures NothingOwed(history[b]) <==> forall m :: !OwedBy(tables, groups, b, m) {
      assert Tracks(system, groups, history, b);
      TablesSeenAt(system, tables, history, b);
      NothingListed(tables, b, groups[b], history[b]);
      forall m ensures OwedBy(tables, groups, b, m) == Owes(tables, b, groups[b], m) {}
    }
    if missing != {} {
      var m :| m in missing;
      var b :| b in groups.Keys && OwedBy(tables, groups, b, m);
      assert !NothingOwed(history[b]);
    } else {
      forall b | b in groups ensures NothingOwed(history[b]) {
        forall m ensures !OwedBy(tables, groups, b, m) { assert m !in missing; }
      }
    }
  }

  /** Whatever the headers: every group is ready exactly when the diagnosis is "complete" and no row is stranded.
      Without stranded rows, as under sensible headers, "complete" and "ready" are the same. */
  lemma CompleteExactlyWhenReady(system: System, tables: set<Byte>, groups: map<Byte, ReadyGroup>,
                                 history: map<Byte, seq<Obs>>, missing: set<Missing>)
    requires groups.Keys == history.Keys && TablesKnown(system, tables, history)
    requires forall b | b in groups :: Tracks(system, groups, history, b)
    requires Lists(tables, groups, groups.Keys, missing)
    ensures (forall b | b in groups :: Ready(GroupSets(groups[b]))) <==> missing == {} && !SomeStranded(history)
    ensures (forall b | b in groups :: WellFormed(history[b])) ==> !SomeStranded(history)
  {
    CompleteWhenNothingOwed(system, tables, groups, history, missing);
    forall b | b in groups
      ensures Ready(GroupSets(groups[b])) <==> NothingOwed(history[b]) && forall i: nat :: !Stranded(history[b], i)
    {
      assert Tracks(system, groups, history, b);
      ReadyByTables(history[b]);
    }
    forall b, i: nat | b in groups && WellFormed(history[b]) ensures !Stranded(history[b], i) {
      if i < TABLES { NeverStranded(history[b], i); }
    }
  }

  // ------------------------------------------------------------- in terms of headers

  /** The histories are what the received headers tell the groups. */
  ghost predicate Traces(system: System, history: map<Byte, seq<Obs>>, rs: seq<Receipt>) {
    forall b: Byte :: TracesAt(system, history, rs, b)
  }

  ghost predicate TracesAt(system: System, history: map<Byte, seq<Obs>>, rs: seq<Receipt>, b: Byte) {
    (if b in history then history[b] else []) == Trace(system, b, rs) && (b in history ==> history[b] != [])
  }

  /** One more header, in its own group's history if it has one. */
  lemma TracesNext(system: System, history: map<Byte, seq<Obs>>, rs: seq<Receipt>, r: Receipt)
    requires Traces(system, history, rs)
    ensures PlaceOf(system, r.table).None? ==> Traces(system, history, rs + [r])
    ensures PlaceOf(system, r.table).Some? ==>
              var p := PlaceOf(system, r.table).value;
              var past := if p.base in history then history[p.base] else [];
              Traces(system, history[p.base := past + [ObsOf(system, p, r.header, r.now)]], rs + [r])
  {
    assert (rs + [r])[..|rs|] == rs;
    var place := PlaceOf(system, r.table);
    if place.None? {
      forall b: Byte ensures TracesAt(system, history, rs + [r], b) { assert TracesAt(system, history, rs, b); }
    } else {
      var p := place.value;
      var past := if p.base in history then history[p.base] else [];
      var history' := history[p.base := past + [ObsOf(system, p, r.header, r.now)]];
      forall b: Byte ensures TracesAt(system, history', rs + [r], b) { assert TracesAt(system, history, rs, b); }
    }
  }

  /** Headers of these groups all agree with the plan. */
  ghost predicate GroupsAgree(system: System, rs: seq<Receipt>, plan: Plan, slot: nat, basic: bool) {
    forall g: Byte | g in Firsts(system) && (g in BasicFirsts(system)) == basic :: AllAgree(system, rs, plan, g, slot)
  }

  /** Of these groups everything announced and not over has been received, as far as a group has come at all. */
  ghost predicate GroupsReceived(system: System, rs: seq<Receipt>, plan: Plan, slot: nat, basic: bool) {
    forall g: Byte | g in Firsts(system) && (g in BasicFirsts(system)) == basic && CameGroup(system, rs, g) ::
      GroupReceived(rs, plan, g, slot)
  }

  lemma {:induction false} TraceCame(system: System, g: Byte, rs: seq<Receipt>)
    ensures Trace(system, g, rs) != [] <==> CameGroup(system, rs, g)
  {
    if rs != [] {
      var before, r := rs[..|rs| - 1], rs[|rs| - 1];
      TraceCame(system, g, before);
      PlaceIs(system, r.table, g);
      assert InGroup(system, g, r.table) ==> InGroup(system, g, rs[|rs| - 1].table);
    }
  }

  /** A tracked group is one of which a header came. */
  lemma TrackedIsCame(system: System, groups: map<Byte, ReadyGroup>, history: map<Byte, seq<Obs>>, rs: seq<Receipt>,
                      b: Byte)
    requires groups.Keys == history.Keys && Traces(system, history, rs)
    requires forall x | x in groups :: Tracks(system, groups, history, x)
    ensures b in groups <==> CameGroup(system, rs, b)
    ensures b in groups ==> b in Firsts(system) && groups[b].basic == (b in BasicFirsts(system))
    ensures b in groups ==> ValidTrace(Trace(system, b, rs)) && GroupSets(groups[b]) == After(Trace(system, b, rs))
  {
    assert TracesAt(system, history, rs, b);
    TraceCame(system, b, rs);
    if b in groups {
      assert Tracks(system, groups, history, b);
      PlaceIs(system, b, b);
    }
  }

  /** Under headers that agree with a plan, within one slot of the day, the groups of a kind are ready exactly when all
      they
      announce has been received. */
  lemma ReadyExactlyWhenAllCame(system: System, groups: map<Byte, ReadyGroup>, history: map<Byte, seq<Obs>>,
                                rs: seq<Receipt>,
                                plan: Plan, slot: nat, basic: bool)
    requires groups.Keys == history.Keys && Traces(system, history, rs) && GroupsAgree(system, rs, plan, slot, basic)
    requires forall x | x in groups :: Tracks(system, groups, history, x)
    ensures (forall b | b in groups && groups[b].basic == basic :: Ready(GroupSets(groups[b])))
            <==> GroupsReceived(system, rs, plan, slot, basic)
    ensures (exists b | b in groups :: groups[b].basic == basic)
            <==> exists g: Byte :: g in Firsts(system) && (g in BasicFirsts(system)) == basic && CameGroup(system, rs,
                g)
  {
    forall b: Byte ensures b in groups <==> CameGroup(system, rs, b) {
      TrackedIsCame(system, groups, history, rs, b);
    }
    forall b | b in groups
      ensures b in Firsts(system) && groups[b].basic == (b in BasicFirsts(system))
      ensures groups[b].basic == basic ==> (Ready(GroupSets(groups[b])) <==> GroupReceived(rs, plan, b, slot))
    {
      TrackedIsCame(system, groups, history, rs, b);
      if groups[b].basic == basic { ReadyExactlyWhenCame(system, b, rs, plan, slot); }
    }
  }

  /** The history with one more header in a group's. */
  ghost function Logged(history: map<Byte, seq<Obs>>, base: Byte, o: Obs): map<Byte, seq<Obs>> {
    history[base := PastOf(history, base) + [o]]
  }

  ghost predicate AllTrack(system: System, groups: map<Byte, ReadyGroup>, history: map<Byte, seq<Obs>>) {
    groups.Keys == history.Keys && forall b | b in groups :: Tracks(system, groups, history, b)
  }

  function GroupOf(groups: map<Byte, ReadyGroup>, base: Byte, basic: bool): ReadyGroup {
    if base in groups then groups[base] else NewGroup(basic)
  }

  ghost function PastOf(history: map<Byte, seq<Obs>>, base: Byte): seq<Obs> {
    if base in history then history[base] else []
  }

  lemma GroupIs(system: System, groups: map<Byte, ReadyGroup>, history: map<Byte, seq<Obs>>, p: Place)
    requires AllTrack(system, groups, history) && PlaceOf(system, p.base) == Some(Place(p.base, 0, p.basic))
    ensures var g := GroupOf(groups, p.base, p.basic);
            && ValidReady(g) && g.basic == p.basic && ValidTrace(PastOf(history, p.base))
            && GroupSets(g) == After(PastOf(history, p.base))
  {
    if p.base in groups { assert Tracks(system, groups, history, p.base); } else { NewGroupSets(p.basic); }
  }

  lemma TracksNext(system: System, groups: map<Byte, ReadyGroup>, history: map<Byte, seq<Obs>>, base: Byte, o: Obs,
                   g: ReadyGroup, next: map<Byte, ReadyGroup>)
    requires AllTrack(system, groups, history) && next == groups[base := g]
    requires PlaceOf(system, base) == Some(Place(base, 0, g.basic)) && ValidReady(g)
    requires ValidTrace(PastOf(history, base) + [o]) && GroupSets(g) == After(PastOf(history, base) + [o])
    ensures AllTrack(system, next, Logged(history, base, o))
  {
    forall b | b in next ensures Tracks(system, next, Logged(history, base, o), b) {
      if b != base { assert Tracks(system, groups, history, b); }
    }
  }

  lemma HeaderLogged(system: System, tables: set<Byte>, history: map<Byte, seq<Obs>>, rs: seq<Receipt>, r: Receipt)
    requires TablesKnown(system, tables, history) && Traces(system, history, rs)
    ensures var place := PlaceOf(system, r.table);
            if place.None? then Traces(system, history, rs + [r])
            else
              var p, o := place.value, ObsOf(system, place.value, r.header, r.now);
              && ValidObs(o) && o.index == p.index && PlaceOf(system, p.base) == Some(Place(p.base, 0, p.basic))
              && TablesKnown(system, tables + {r.table}, Logged(history, p.base, o))
              && Traces(system, Logged(history, p.base, o), rs + [r])
  {
    TracesNext(system, history, rs, r);
    if PlaceOf(system, r.table).Some? {
      var p := PlaceOf(system, r.table).value;
      ObsIsValid(system, r.table, r.header, r.now);
      TablesKnownAfter(system, tables, history, r.table, ObsOf(system, p, r.header, r.now));
    }
  }

  class Tracker<P> {
    const system: System
    var tables: map<Byte, Table<P>>
    var groups: map<Byte, ReadyGroup>
    var latest: Option<int>
    var resets: nat
    /** Every header observed so far, by group. */
    ghost var history: map<Byte, seq<Obs>>
    /** Every section header received so far, and every schedule section with its payload. */
    ghost var receipts: seq<Receipt>
    ghost var heard: seq<Heard<P>>

    ghost predicate Valid()
      reads this
    {
      && AllTrack(system, groups, history)
      && TablesKnown(system, tables.Keys, history) && Traces(system, history, receipts)
      && tables == StoredAll(heard)
    }

    constructor (system: System)
      ensures Valid() && this.system == system && history == map[] && receipts == [] && heard == []
    {
      this.system := system;
      tables, groups, latest, resets, history, receipts, heard := map[], map[], None, 0, map[], [], [];
    }

    /** Records one section. It makes progress when its payload is new or its group's coverage moved. */
    method ObserveLazy(table: Byte, h: Header, payload: P, now: int) returns (progress: bool)
      requires Valid()
      modifies this
      ensures Valid() && receipts == old(receipts) + [Receipt(table, h, now)]
      ensures PlaceOf(system, table).None? ==>
                !progress && tables == old(tables) && groups == old(groups) && history == old(history)
                && latest == old(latest) && resets == old(resets) && heard == old(heard)
      ensures PlaceOf(system, table).Some? ==>
                var p := PlaceOf(system, table).value;
                var isNew := IsNew(old(tables), table, h);
                && heard == old(heard) + [Heard(table, h, payload)]
                && history == Logged(old(history), p.base, ObsOf(system, p, h, now))
                && progress == (isNew || p.base !in old(groups) || groups[p.base] != old(groups)[p.base])
                && tables == Stored(old(tables), table, h, payload, isNew)
                && resets == old(resets) + Discards(history[p.base])
                && latest == if progress then Some(now) else old(latest)
    {
      var place := PlaceOf(system, table);
      HeaderLogged(system, tables.Keys, history, receipts, Receipt(table, h, now));
      if place.None? {
        receipts := receipts + [Receipt(table, h, now)];
        return false;
      }
      var o := ObsOf(system, place.value, h, now);
      StoredMore(heard, Heard(table, h, payload));
      progress := Take(table, h, payload, now, place.value, o);
      receipts := receipts + [Receipt(table, h, now)];
    }

    /** The section is stored and its group moves on. */
    method Take(table: Byte, h: Header, payload: P, now: int, p: Place, o: Obs) returns (progress: bool)
      requires AllTrack(system, groups, history)
      requires PlaceOf(system, p.base) == Some(Place(p.base, 0, p.basic)) && ValidObs(o) && o.index == p.index
      requires tables == StoredAll(heard)
      modifies this`tables, this`heard, this`groups, this`resets, this`history, this`latest
      ensures AllTrack(system, groups, history)
      ensures tables == StoredAll(heard) && heard == old(heard) + [Heard(table, h, payload)]
      ensures history == Logged(old(history), p.base, o)
      ensures progress == (IsNew(old(tables), table, h) || p.base !in old(groups)
                           || groups[p.base] != old(groups)[p.base])
      ensures resets == old(resets) + Discards(history[p.base])
      ensures latest == if progress then Some(now) else old(latest)
    {
      var isNew := Store(table, h, payload);
      var readyChanged := Advance(p, o);
      progress := isNew || readyChanged;
      latest := if progress then Some(now) else latest;
    }

    /** Keeps the payload of a section that is new or whose version changed. */
    method Store(table: Byte, h: Header, payload: P) returns (isNew: bool)
      requires tables == StoredAll(heard)
      modifies this`tables, this`heard
      ensures isNew == IsNew(old(tables), table, h)
      ensures tables == StoredAll(heard) && heard == old(heard) + [Heard(table, h, payload)]
      ensures tables == Stored(old(tables), table, h, payload, isNew)
    {
      var previous := if table in tables then tables[table] else Table(map[], map[]);
      isNew := !(h.section in previous.versions && previous.versions[h.section] == h.version);
      var payloads := if isNew then previous.payloads[h.section := payload] else previous.payloads;
      tables := tables[table := Table(previous.versions[h.section := h.version], payloads)];
      heard := heard + [Heard(table, h, payload)];
      assert heard[..|heard| - 1] == old(heard);
    }

    method Advance(p: Place, o: Obs) returns (changed: bool)
      requires AllTrack(system, groups, history)
      requires PlaceOf(system, p.base) == Some(Place(p.base, 0, p.basic)) && ValidObs(o) && o.index == p.index
      modifies this`groups, this`resets, this`history
      ensures AllTrack(system, groups, history)
      ensures history == Logged(old(history), p.base, o)
      ensures changed == (p.base !in old(groups) || groups[p.base] != old(groups)[p.base])
      ensures resets == old(resets) + Discards(history[p.base])
    {
      GroupIs(system, groups, history, p);
      ghost var past := PastOf(history, p.base);
      var g, moved, n := ObserveReady(GroupOf(groups, p.base, p.basic), o, past);
      changed := moved;
      resets := resets + n;
      TracksNext(system, groups, history, p.base, o, g, groups[p.base := g]);
      groups := groups[p.base := g];
      history := Logged(history, p.base, o);
    }

    /** Every observed basic group is covered, and there is one. */
    method BasicComplete() returns (complete: bool)
      requires Valid()
      ensures complete <==> (exists b | b in groups :: groups[b].basic)
                            && forall b | b in groups && groups[b].basic :: Ready(GroupSets(groups[b]))
    {
      var hasBasic := false;
      var todo := groups.Keys;
      while todo != {}
        invariant todo <= groups.Keys
        invariant hasBasic == exists b | b in groups && b !in todo :: groups[b].basic
        invariant forall b | b in groups && b !in todo && groups[b].basic :: Ready(GroupSets(groups[b]))
        decreases todo
      {
        var b :| b in todo;
        assert Tracks(system, groups, history, b);
        if groups[b].basic {
          hasBasic := true;
          var ready := GroupReady(groups[b]);
          if !ready { return false; }
        }
        todo := todo - {b};
      }
      return hasBasic;
    }

    /** Every observed extended group is covered. */
    method ExtendedComplete() returns (complete: bool)
      requires Valid()
      ensures complete <==> forall b | b in groups && !groups[b].basic :: Ready(GroupSets(groups[b]))
    {
      var todo := groups.Keys;
      while todo != {}
        invariant todo <= groups.Keys
        invariant forall b | b in groups && b !in todo && !groups[b].basic :: Ready(GroupSets(groups[b]))
        decreases todo
      {
        var b :| b in todo;
        assert Tracks(system, groups, history, b);
        if !groups[b].basic {
          var ready := GroupReady(groups[b]);
          if !ready { return false; }
        }
        todo := todo - {b};
      }
      return true;
    }

    /** What the tables named by the latest headers still owe. */
    method Diagnosis() returns (missing: set<Missing>)
      requires Valid()
      ensures Lists(tables.Keys, groups, groups.Keys, missing)
      ensures (forall b | b in groups :: Ready(GroupSets(groups[b]))) <==> missing == {} && !SomeStranded(history)
      ensures (forall b | b in groups :: WellFormed(history[b])) ==> !SomeStranded(history)
    {
      missing := AllMissing();
      CompleteExactlyWhenReady(system, tables.Keys, groups, history, missing);
    }

    method AllMissing() returns (missing: set<Missing>)
      requires AllTrack(system, groups, history)
      ensures Lists(tables.Keys, groups, groups.Keys, missing)
    {
      missing := {};
      var todo := groups.Keys;
      while todo != {}
        invariant todo <= groups.Keys
        invariant Lists(tables.Keys, groups, groups.Keys - todo, missing)
        decreases todo
      {
        var b :| b in todo;
        assert Tracks(system, groups, history, b);
        var more := GroupDiagnosis(b, groups[b]);
        ListsExtended(tables.Keys, groups, groups.Keys - todo, missing, b, more);
        missing := missing + more;
        todo := todo - {b};
        assert groups.Keys - todo == groups.Keys - (todo + {b}) + {b};
      }
    }

    method GroupDiagnosis(base: Byte, g: ReadyGroup) returns (missing: set<Missing>)
      requires ValidReady(g)
      ensures forall m :: m in missing <==> Owes(tables.Keys, base, g, m)
    {
      missing := {};
      for i := 0 to g.last + 1
        invariant forall m :: m in missing <==> m.table < base + i && Owes(tables.Keys, base, g, m)
      {
        if base + i !in tables {
          missing := missing + {WholeTable(base + i)};
        } else {
          var sections := MissingSections(g.rows[i]);
          missing := missing + set n | n in sections :: OneSection(base + i, n);
        }
      }
    }
  }
}
