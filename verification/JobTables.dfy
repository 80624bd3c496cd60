/** The key tables and counters of the job scheduler, kept equal to the running set. */
module JobTables {
  import opened JobModel

  type Holder = map<string, nat>
  type Shares = map<string, nat>
  type Groups = map<string, int>

  /** Exclusive keys have one holder, readers never meet a writer, and the shared and group
      counts and limits are those of the running set. */
  ghost predicate TablesOk(c: Config, defs: Defs, active: set<nat>, holder: Holder, shared: Shares, groups: Groups) {
    && (forall k :: HolderOk(holder, defs, active, k))
    && (forall id, k :: HeldOk(holder, defs, active, id, k))
    && (forall id, k :: ReaderOk(holder, defs, active, id, k))
    && (forall k :: SharedOk(shared, defs, active, k))
    && (forall g :: GroupOk(c, groups, defs, active, g))
    && |Counted(c, defs, active)| <= c.maxConcurrent
  }

  /** No two running jobs share an exclusive key, and none reads what another writes. */
  lemma NoConflicts(c: Config, defs: Defs, active: set<nat>, holder: Holder, shared: Shares, groups: Groups,
                    a: nat, b: nat, k: string)
    requires TablesOk(c, defs, active, holder, shared, groups)
    requires a in active && b in active && a in defs && b in defs && a != b && k in defs[a].exclusive
    ensures k !in defs[b].exclusive && k !in defs[b].shared
  {
    assert HeldOk(holder, defs, active, a, k) && HeldOk(holder, defs, active, b, k)
           && ReaderOk(holder, defs, active, b, k);
  }

  // -------------------------------------------------------------- counting shares

  function Num(m: Shares, k: string): nat { if k in m then m[k] else 0 }

  function Bump(m: Shares, k: string): Shares { m[k := Num(m, k) + 1] }

  function Drop(m: Shares, k: string): Shares { if Num(m, k) <= 1 then m - {k} else m[k := Num(m, k) - 1] }

  function AddAll(m: Shares, keys: seq<string>): Shares {
    if keys == [] then m else Bump(AddAll(m, keys[..|keys| - 1]), keys[|keys| - 1])
  }

  function DropAll(m: Shares, keys: seq<string>): Shares {
    if keys == [] then m else Drop(DropAll(m, keys[..|keys| - 1]), keys[|keys| - 1])
  }

  function Occurs(keys: seq<string>, k: string): nat {
    if keys == [] then 0 else Occurs(keys[..|keys| - 1], k) + (if keys[|keys| - 1] == k then 1 else 0)
  }

  lemma {:induction false} AddAllCounts(m: Shares, keys: seq<string>, k: string)
    ensures Num(AddAll(m, keys), k) == Num(m, k) + Occurs(keys, k)
    ensures (k in m ==> m[k] > 0) ==> (k in AddAll(m, keys) ==> AddAll(m, keys)[k] > 0)
  {
    if keys != [] { AddAllCounts(m, keys[..|keys| - 1], k); }
  }

  lemma {:induction false} DropAllCounts(m: Shares, keys: seq<string>, k: string)
    requires Num(m, k) >= Occurs(keys, k) && (k in m ==> m[k] > 0)
    ensures Num(DropAll(m, keys), k) == Num(m, k) - Occurs(keys, k)
    ensures k in DropAll(m, keys) ==> DropAll(m, keys)[k] > 0
  {
    if keys != [] { DropAllCounts(m, keys[..|keys| - 1], k); }
  }

  /** The slots of one job for one key. */
  ghost function Slots(id: nat, keys: seq<string>, k: string): set<(nat, nat)> {
    set i: nat | i < |keys| && keys[i] == k :: (id, i)
  }

  lemma {:induction false} SlotsCount(id: nat, keys: seq<string>, k: string)
    ensures |Slots(id, keys, k)| == Occurs(keys, k)
  {
    if keys != [] {
      var p := keys[..|keys| - 1];
      SlotsCount(id, p, k);
      assert Slots(id, keys, k) == Slots(id, p, k) + (if keys[|keys| - 1] == k then {(id, |p|)} else {});
    }
  }

  lemma SlotsSplit(defs: Defs, active: set<nat>, id: nat, k: string)
    requires id in defs && id !in active
    ensures |SharedSlots(defs, active + {id}, k)| == |SharedSlots(defs, active, k)| + Occurs(defs[id].shared, k)
  {
    var old_ := SharedSlots(defs, active, k);
    var mine := Slots(id, defs[id].shared, k);
    SlotsCount(id, defs[id].shared, k);
    assert SharedSlots(defs, active + {id}, k) == old_ + mine by {
      forall x: nat, i: nat ensures SlotOf(defs, active + {id}, k, x, i)
          <==> SlotOf(defs, active, k, x, i) || (x, i) in mine {}
    }
    assert old_ !! mine;
  }

  /** A key that some running job shares is in the table. */
  lemma SharedKeyListed(shared: Shares, defs: Defs, active: set<nat>, id: nat, k: string)
    requires SharedOk(shared, defs, active, k) && id in active && id in defs && k in defs[id].shared
    ensures k in shared
  {
    var i: nat :| i < |defs[id].shared| && defs[id].shared[i] == k;
    assert SlotOf(defs, active, k, id, i);
    assert (id, i) in SharedSlots(defs, active, k);
  }

  // ---------------------------------------------------------- starting a job

  ghost function Hold(holder: Holder, keys: seq<string>, id: nat): Holder { holder + (map k | k in keys :: id) }

  lemma AcquireKeys(c: Config, defs: Defs, active: set<nat>, holder: Holder, shared: Shares, groups: Groups, id: nat)
    requires TablesOk(c, defs, active, holder, shared, groups) && id in defs && id !in active
    requires KeysFree(holder.Keys, shared, defs[id])
    ensures forall k :: HolderOk(Hold(holder, defs[id].exclusive, id), defs, active + {id}, k)
    ensures forall x, k :: HeldOk(Hold(holder, defs[id].exclusive, id), defs, active + {id}, x, k)
    ensures forall x, k :: ReaderOk(Hold(holder, defs[id].exclusive, id), defs, active + {id}, x, k)
    ensures forall k :: SharedOk(AddAll(shared, defs[id].shared), defs, active + {id}, k)
  {
    var holder' := Hold(holder, defs[id].exclusive, id);
    var active' := active + {id};
    var shared' := AddAll(shared, defs[id].shared);
    forall k ensures HolderOk(holder', defs, active', k) { assert HolderOk(holder, defs, active, k); }
    forall x, k ensures HeldOk(holder', defs, active', x, k) { assert HeldOk(holder, defs, active, x, k); }
    forall x, k ensures ReaderOk(holder', defs, active', x, k) {
      assert ReaderOk(holder, defs, active, x, k) && SharedOk(shared, defs, active, k);
      if x in active && x in defs && k in defs[x].shared { SharedKeyListed(shared, defs, active, x, k); }
    }
    forall k ensures SharedOk(shared', defs, active', k) {
      assert SharedOk(shared, defs, active, k);
      SlotsSplit(defs, active, id, k);
      AddAllCounts(shared, defs[id].shared, k);
    }
  }

  function Adjust(groups: Groups, g: string, n: int): Groups { groups[g := Count(groups, g) + n] }

  /** One more running job is one more in its own group, and in the shared count unless independent. */
  lemma CountsSplit(c: Config, defs: Defs, active: set<nat>, id: nat, x: string)
    requires id in defs && id !in active
    ensures |InGroup(defs, active + {id}, x)| == |InGroup(defs, active, x)| + (if x == defs[id].group then 1 else 0)
    ensures |Counted(c, defs, active + {id})|
            == |Counted(c, defs, active)| + (if defs[id].group in c.independent then 0 else 1)
  {
    if x == defs[id].group {
      assert InGroup(defs, active + {id}, x) == InGroup(defs, active, x) + {id};
    } else {
      assert InGroup(defs, active + {id}, x) == InGroup(defs, active, x);
    }
    if defs[id].group in c.independent {
      assert Counted(c, defs, active + {id}) == Counted(c, defs, active);
    } else {
      assert Counted(c, defs, active + {id}) == Counted(c, defs, active) + {id};
    }
  }

  lemma AcquireRoom(c: Config, defs: Defs, active: set<nat>, groups: Groups, id: nat)
    requires forall g :: GroupOk(c, groups, defs, active, g)
    requires |Counted(c, defs, active)| <= c.maxConcurrent
    requires id in defs && id !in active && HasRoom(c, defs, active, defs[id])
    ensures forall x :: GroupOk(c, Adjust(groups, defs[id].group, 1), defs, active + {id}, x)
    ensures |Counted(c, defs, active + {id})| <= c.maxConcurrent
  {
    var groups' := Adjust(groups, defs[id].group, 1);
    var active' := active + {id};
    forall x ensures GroupOk(c, groups', defs, active', x) {
      assert GroupOk(c, groups, defs, active, x);
      CountsSplit(c, defs, active, id, x);
    }
    CountsSplit(c, defs, active, id, "");
  }

  // ---------------------------------------------------------- ending a job

  ghost function Release(holder: Holder, keys: seq<string>): Holder { map k | k in holder && k !in keys :: holder[k] }

  lemma ReleaseKeys(c: Config, defs: Defs, active: set<nat>, holder: Holder, shared: Shares, groups: Groups, id: nat)
    requires TablesOk(c, defs, active, holder, shared, groups) && id in defs && id in active
    ensures forall k :: HolderOk(Release(holder, defs[id].exclusive), defs, active - {id}, k)
    ensures forall x, k :: HeldOk(Release(holder, defs[id].exclusive), defs, active - {id}, x, k)
    ensures forall x, k :: ReaderOk(Release(holder, defs[id].exclusive), defs, active - {id}, x, k)
    ensures forall k :: SharedOk(DropAll(shared, defs[id].shared), defs, active - {id}, k)
  {
    var holder' := Release(holder, defs[id].exclusive);
    var active' := active - {id};
    var shared' := DropAll(shared, defs[id].shared);
    forall k ensures HolderOk(holder', defs, active', k) { assert HolderOk(holder, defs, active, k); }
    forall x, k ensures HeldOk(holder', defs, active', x, k) {
      assert HeldOk(holder, defs, active, x, k) && HeldOk(holder, defs, active, id, k);
    }
    forall x, k ensures ReaderOk(holder', defs, active', x, k) { assert ReaderOk(holder, defs, active, x, k); }
    forall k ensures SharedOk(shared', defs, active', k) {
      assert SharedOk(shared, defs, active, k);
      assert active' + {id} == active;
      SlotsSplit(defs, active', id, k);
      DropAllCounts(shared, defs[id].shared, k);
    }
  }

  lemma ReleaseRoom(c: Config, defs: Defs, active: set<nat>, groups: Groups, id: nat)
    requires forall g :: GroupOk(c, groups, defs, active, g)
    requires |Counted(c, defs, active)| <= c.maxConcurrent
    requires id in defs && id in active
    ensures forall x :: GroupOk(c, Adjust(groups, defs[id].group, -1), defs, active - {id}, x)
    ensures |Counted(c, defs, active - {id})| <= c.maxConcurrent
  {
    var groups' := Adjust(groups, defs[id].group, -1);
    var active' := active - {id};
    assert active' + {id} == active;
    forall x ensures GroupOk(c, groups', defs, active', x) {
      assert GroupOk(c, groups, defs, active, x);
      CountsSplit(c, defs, active', id, x);
    }
    CountsSplit(c, defs, active', id, "");
  }
}
