/**
 Coverage of a schedule in the terms of its section headers: table ids, section numbers and the time of day in Japan,
 as ARIB TR-B15 and TR-B39 announce them.
 */
module ScheduleHeaders {
  import opened Basics
  import opened Schedule

  /** One section header, the table it came in, and when, in Unix milliseconds. */
  datatype Receipt = Receipt(table: Byte, header: Header, now: int)

  // --------------------------------------------------------------------- Japan time

  const HOUR: int := 3600000

  /** It is the slot's three hours of some day in Japan, nine hours ahead. */
  ghost predicate InSlot(now: int, slot: nat) {
    exists day: int :: DaySlot(now, day, slot)
  }

  predicate DaySlot(now: int, day: int, slot: nat) {
    slot < 8 && 24 * HOUR * day + 3 * HOUR * slot <= now + 9 * HOUR < 24 * HOUR * day + 3 * HOUR * (slot + 1)
  }

  /** From 1970 on, in Japan, the current segment is the slot of the day; before that, division towards zero makes it
      the
      next one, except on the hour. */
  lemma SegmentIsSlotExactly(now: int, slot: nat)
    requires InSlot(now, slot)
    ensures CurrentSegment(now) == slot <==> now + 9 * HOUR >= 0 || (now + 9 * HOUR) % (3 * HOUR) == 0
  {
    var day: int :| DaySlot(now, day, slot);
    var t, q := now + 9 * HOUR, 8 * day + slot;
    assert t / (3 * HOUR) == q by { QuotientIs(t, q); }
    assert q % 8 == slot;
    if t < 0 {
      if t % (3 * HOUR) == 0 {
        assert t == 3 * HOUR * q;
        assert -t / (3 * HOUR) == -q by { QuotientIs(-t, -q); }
      } else {
        assert -t / (3 * HOUR) == -q - 1 by { QuotientIs(-t, -q - 1); }
        assert (q + 1) % 8 != slot;
      }
    }
  }

  lemma QuotientIs(t: int, q: int)
    requires 3 * HOUR * q <= t < 3 * HOUR * (q + 1)
    ensures t / (3 * HOUR) == q
  {}

  // ------------------------------------------------------------------------- groups

  /** The first table ids of the groups of eight. */
  function Firsts(system: System): set<Byte> { if system == MMT then {0x8C, 0x94} else {0x50, 0x58, 0x60, 0x68} }

  /** The groups of short descriptors; the others carry extended ones. */
  function BasicFirsts(system: System): set<Byte> { if system == MMT then {0x8C} else {0x50, 0x60} }

  predicate InGroup(system: System, g: Byte, table: int) { g in Firsts(system) && g <= table < g + 8 }

  lemma PlaceIs(system: System, table: Byte, g: Byte)
    ensures InGroup(system, g, table)
            <==> PlaceOf(system, table).Some? && PlaceOf(system, table).value.base == g
    ensures InGroup(system, g, table) ==> PlaceOf(system, table) == Some(Place(g, table - g, g in BasicFirsts(system)))
  {}

  // ------------------------------------------------------------------ what was received

  /** What a group has been told. */
  function Trace(system: System, g: Byte, rs: seq<Receipt>): seq<Obs> {
    if rs == [] then []
    else
      var before, r := Trace(system, g, rs[..|rs| - 1]), rs[|rs| - 1];
      var place := PlaceOf(system, r.table);
      if place.Some? && place.value.base == g then before + [ObsOf(system, place.value, r.header, r.now)] else before
  }

  ghost predicate CameTable(rs: seq<Receipt>, table: int) { exists i | 0 <= i < |rs| :: rs[i].table == table }

  ghost predicate CameSection(rs: seq<Receipt>, table: int, n: nat) {
    exists i | 0 <= i < |rs| :: rs[i].table == table && rs[i].header.section == n
  }

  ghost predicate CameGroup(system: System, rs: seq<Receipt>, g: Byte) {
    exists i | 0 <= i < |rs| :: InGroup(system, g, rs[i].table)
  }

  // ------------------------------------------------------------------ what is announced

  /** A broadcaster's plan: each group's last_table_id, and each table's version, last_section_number and
      segment_last_section_number of every segment. */
  datatype Plan = Plan(lastTable: Byte -> Byte, version: int -> Byte, lastSection: int -> Byte,
      segmentLast: (int, nat) -> Byte)

  /** A header of group `g` says what the plan says, and came in this slot of the day, from 1970 on. */
  ghost predicate Agrees(r: Receipt, plan: Plan, g: Byte, slot: nat) {
    && r.table <= plan.lastTable(g) < g + 8 && r.header.lastTable == plan.lastTable(g)
    && r.header.version == plan.version(r.table) && r.header.lastSection == plan.lastSection(r.table)
    && r.header.segmentLast == plan.segmentLast(r.table, r.header.section as int / 8)
    && InSlot(r.now, slot) && r.now + 9 * HOUR >= 0
  }

  ghost predicate AllAgree(system: System, rs: seq<Receipt>, plan: Plan, g: Byte, slot: nat) {
    forall i | 0 <= i < |rs| && InGroup(system, g, rs[i].table) :: Agrees(rs[i], plan, g, slot)
  }

  /** Section `n` is announced in the table: its segment is not past the last section's, and it is not past the last one
      of
      its segment, of which the low three bits count. */
  predicate Planned(plan: Plan, table: int, n: nat) {
    n < 256 && n / 8 <= plan.lastSection(table) as int / 8 && n % 8 <= plan.segmentLast(table, n / 8) as int % 8
  }

  /** The table came, and so did every section announced in it, except in a group's first table those of slots that are
      over. */
  ghost predicate TableReceived(rs: seq<Receipt>, plan: Plan, g: Byte, slot: nat, t: int) {
    && CameTable(rs, t)
    && forall n: nat | Planned(plan, t, n) && !(t == g && n / 8 < slot) :: CameSection(rs, t, n)
  }

  /** So has every table of the group up to the last. */
  ghost predicate GroupReceived(rs: seq<Receipt>, plan: Plan, g: Byte, slot: nat) {
    forall t: int | g <= t <= plan.lastTable(g) :: TableReceived(rs, plan, g, slot, t)
  }

  // --------------------------------------------------------------------- the connection

  ghost function LayoutOf(plan: Plan, g: Byte): Layout
    requires g <= plan.lastTable(g)
  {
    Layout(plan.lastTable(g) - g, (i: nat) => plan.version(g + i), (i: nat) => plan.lastSection(g + i),
           (i: nat, s: nat) => plan.segmentLast(g + i, s))
  }

  lemma TraceNext(system: System, g: Byte, rs: seq<Receipt>, r: Receipt)
    requires g in Firsts(system)
    ensures Trace(system, g, rs + [r])
         == Trace(system, g, rs)
            + if InGroup(system, g, r.table) then [ObsOf(system, Place(g, r.table - g, g in BasicFirsts(system)),
                r.header, r.now)]
              else []
  {
    assert (rs + [r])[..|rs|] == rs;
    PlaceIs(system, r.table, g);
  }

  /** A header that agrees tells the group what the layout says. */
  lemma ObsAgrees(system: System, g: Byte, r: Receipt, plan: Plan, slot: nat)
    requires InGroup(system, g, r.table) && Agrees(r, plan, g, slot)
    ensures ObsFollows(ObsOf(system, Place(g, r.table - g, g in BasicFirsts(system)), r.header, r.now),
            LayoutOf(plan, g), slot)
  {
    PlaceIs(system, plan.lastTable(g), g);
    SegmentIsSlotExactly(r.now, slot);
  }

  /** What the group has been told is what came. */
  ghost predicate Told(rs: seq<Receipt>, g: Byte, t: seq<Obs>, i: nat, n: nat) {
    && (Seen(t, i) <==> CameTable(rs, g + i)) && (Arrived(t, i, n) <==> CameSection(rs, g + i, n))
  }

  lemma CameNext(rs: seq<Receipt>, r: Receipt, table: int, n: nat)
    ensures CameTable(rs + [r], table) <==> CameTable(rs, table) || r.table == table
    ensures CameSection(rs + [r], table, n)
            <==> CameSection(rs, table, n) || (r.table == table && r.header.section == n)
  {
    var all := rs + [r];
    assert all[|rs|] == r;
    forall i | 0 <= i < |rs| ensures all[i] == rs[i] {}
  }

  lemma {:induction false} TraceTold(system: System, g: Byte, rs: seq<Receipt>, plan: Plan, slot: nat, i: nat, n: nat)
    requires g in Firsts(system) && AllAgree(system, rs, plan, g, slot) && i < 8 && g <= plan.lastTable(g)
    ensures Follows(Trace(system, g, rs), LayoutOf(plan, g), slot) && Told(rs, g, Trace(system, g, rs), i, n)
    ensures Trace(system, g, rs) != [] <==> CameGroup(system, rs, g)
  {
    if rs != [] {
      var before, r := rs[..|rs| - 1], rs[|rs| - 1];
      assert rs == before + [r];
      TraceTold(system, g, before, plan, slot, i, n);
      TraceNext(system, g, before, r);
      CameNext(before, r, g + i, n);
      if InGroup(system, g, r.table) {
        ObsAgrees(system, g, r, plan, slot);
        var o := ObsOf(system, Place(g, r.table - g, g in BasicFirsts(system)), r.header, r.now);
        SeenExtended(Trace(system, g, before), o, i, n);
      }
    }
  }

  lemma PlannedIs(plan: Plan, g: Byte, i: nat, n: nat)
    requires g <= plan.lastTable(g)
    ensures Announced(LayoutOf(plan, g), i, n) <==> Planned(plan, g + i, n)
  {}

  lemma ReceivedFromTold(rs: seq<Receipt>, plan: Plan, g: Byte, slot: nat, i: nat, t: seq<Obs>)
    requires g <= plan.lastTable(g) && forall n: nat :: Told(rs, g, t, i, n)
    ensures Received(t, LayoutOf(plan, g), slot, i) <==> TableReceived(rs, plan, g, slot, g + i)
  {
    var l := LayoutOf(plan, g);
    assert Told(rs, g, t, i, 0);
    if Received(t, l, slot, i) {
      forall n: nat | Planned(plan, g + i, n) && !(g + i == g && n / 8 < slot) ensures CameSection(rs, g + i, n) {
        PlannedIs(plan, g, i, n);
        assert Told(rs, g, t, i, n) && Arrived(t, i, n);
      }
    }
    if TableReceived(rs, plan, g, slot, g + i) {
      forall n: nat | Announced(l, i, n) && !(i == 0 && n / 8 < slot) ensures Arrived(t, i, n) {
        PlannedIs(plan, g, i, n);
        assert Told(rs, g, t, i, n) && CameSection(rs, g + i, n);
      }
    }
  }

  lemma TableReceivedIs(system: System, g: Byte, rs: seq<Receipt>, plan: Plan, slot: nat, i: nat)
    requires g in Firsts(system) && AllAgree(system, rs, plan, g, slot) && i < 8 && g <= plan.lastTable(g)
    ensures Received(Trace(system, g, rs), LayoutOf(plan, g), slot, i) <==> TableReceived(rs, plan, g, slot, g + i)
  {
    var t := Trace(system, g, rs);
    forall n: nat ensures Told(rs, g, t, i, n) { TraceTold(system, g, rs, plan, slot, i, n); }
    ReceivedFromTold(rs, plan, g, slot, i, t);
  }

  /** Within one slot of the day, and with headers that agree with the plan, a group is ready exactly when all of it
      that is
      announced and not over has been received. */
  lemma ReadyExactlyWhenCame(system: System, g: Byte, rs: seq<Receipt>, plan: Plan, slot: nat)
    requires g in Firsts(system) && AllAgree(system, rs, plan, g, slot) && CameGroup(system, rs, g)
    ensures ValidTrace(Trace(system, g, rs))
    ensures Ready(After(Trace(system, g, rs))) <==> GroupReceived(rs, plan, g, slot)
  {
    var t, l := Trace(system, g, rs), LayoutOf(plan, g);
    TraceTold(system, g, rs, plan, slot, 0, 0);
    ReadyExactlyWhenReceived(t, l, slot);
    forall i: nat | i <= l.last ensures Received(t, l, slot, i) <==> TableReceived(rs, plan, g, slot, g + i) {
      TableReceivedIs(system, g, rs, plan, slot, i);
    }
    if forall i: nat | i <= l.last :: Received(t, l, slot, i) {
      forall x: int | g <= x <= plan.lastTable(g) ensures TableReceived(rs, plan, g, slot, x) {
        assert Received(t, l, slot, x - g);
      }
    }
  }
}
