/**
 Filling what an event lacks from the events it is shared with
 (internal/epggather/program_merge.go).  The caller's event slices are one array here.
 */
module PeerFill {
  import opened Basics
  import opened PeerForest

  const SHARED: nat := 1

  datatype Related = Related(groupType: nat, network: nat, service: nat, event: nat)

  /** The event's key and references, and the fields that peers may fill. The details of
      genres, components and descriptions stay opaque. */
  datatype Event = Event(
    key: Key,
    related: seq<Related>,
    name: string,
    description: string,
    genres: seq<string>,
    videos: seq<string>,
    audios: seq<string>,
    extended: seq<string>,
    series: Option<string>)

  predicate Refers(r: Related) { r.groupType == SHARED && r.service != 0 && r.event != 0 }

  function Target(e: Event, r: Related): Key {
    Key(if r.network != 0 then r.network else e.key.network, r.service, r.event)
  }

  ghost function EventEdges(e: Event, n: nat): Edges
    requires n <= |e.related|
  {
    set j | 0 <= j < n && Refers(e.related[j]) :: (e.key, Target(e, e.related[j]))
  }

  ghost function PrefixEdges(evs: seq<Event>, n: nat): Edges
    requires n <= |evs|
  {
    if n == 0 then {} else PrefixEdges(evs, n - 1) + EventEdges(evs[n - 1], |evs[n - 1].related|)
  }

  /** Every shared-event reference among the given events. */
  ghost function EdgesOf(evs: seq<Event>): Edges { PrefixEdges(evs, |evs|) }

  // --------------------------------------------------------------------- filling

  /** The first value that is not the empty one. */
  function First<T(==)>(vals: seq<T>, none: T): T {
    if vals == [] then none else if vals[0] != none then vals[0] else First(vals[1..], none)
  }

  lemma {:induction false} FirstIsFirst<T>(vals: seq<T>, none: T, k: nat)
    requires k < |vals| && vals[k] != none && forall j | 0 <= j < k :: vals[j] == none
    ensures First(vals, none) == vals[k]
  {
    if k > 0 { FirstIsFirst(vals[1..], none, k - 1); }
  }

  lemma {:induction false} FirstOfNone<T>(vals: seq<T>, none: T)
    requires forall j | 0 <= j < |vals| :: vals[j] == none
    ensures First(vals, none) == none
  {
    if vals != [] { FirstOfNone(vals[1..], none); }
  }

  /** Some blanks already filled with the first value do not change which value is first. */
  lemma {:induction false} FirstStable<T>(orig: seq<T>, now: seq<T>, none: T)
    requires |orig| == |now|
    requires forall k | 0 <= k < |orig| :: now[k] == orig[k] || (orig[k] == none && now[k] == First(orig, none))
    ensures First(now, none) == First(orig, none)
  {
    if orig != [] && orig[0] == none && now[0] == none { FirstStable(orig[1..], now[1..], none); }
  }

  function Or<T(==)>(value: T, none: T, other: T): T { if value != none then value else other }

  /** An event with every blank filled from the first peer that has a value. */
  ghost function Filled(e: Event, peers: seq<Event>): Event {
    e.(name := Or(e.name, "", First(Names(peers), "")),
       description := Or(e.description, "", First(Descriptions(peers), "")),
       genres := Or(e.genres, [], First(Genres(peers), [])),
       videos := Or(e.videos, [], First(Videos(peers), [])),
       audios := Or(e.audios, [], First(Audios(peers), [])),
       extended := Or(e.extended, [], First(Extendeds(peers), [])),
       series := Or(e.series, None, First(Serieses(peers), None)))
  }

  function Names(p: seq<Event>): seq<string> { seq(|p|, i requires 0 <= i < |p| => p[i].name) }
  function Descriptions(p: seq<Event>): seq<string> { seq(|p|, i requires 0 <= i < |p| => p[i].description) }
  function Genres(p: seq<Event>): seq<seq<string>> { seq(|p|, i requires 0 <= i < |p| => p[i].genres) }
  function Videos(p: seq<Event>): seq<seq<string>> { seq(|p|, i requires 0 <= i < |p| => p[i].videos) }
  function Audios(p: seq<Event>): seq<seq<string>> { seq(|p|, i requires 0 <= i < |p| => p[i].audios) }
  function Extendeds(p: seq<Event>): seq<seq<string>> { seq(|p|, i requires 0 <= i < |p| => p[i].extended) }
  function Serieses(p: seq<Event>): seq<Option<string>> { seq(|p|, i requires 0 <= i < |p| => p[i].series) }

  /** What one peer contributes. */
  function Absorb(e: Event, peer: Event): Event {
    e.(name := Or(e.name, "", peer.name),
       description := Or(e.description, "", peer.description),
       genres := Or(e.genres, [], peer.genres),
       videos := Or(e.videos, [], peer.videos),
       audios := Or(e.audios, [], peer.audios),
       extended := Or(e.extended, [], peer.extended),
       series := Or(e.series, None, peer.series))
  }

  lemma FirstOfSnoc<T>(vals: seq<T>, v: T, none: T)
    ensures First(vals + [v], none) == Or(First(vals, none), none, v)
  {
    if vals == [] {
      assert ([v])[1..] == [];
    } else {
      assert (vals + [v])[1..] == vals[1..] + [v];
      FirstOfSnoc(vals[1..], v, none);
    }
  }

  /** Absorbing one more peer is filling from one more peer. */
  lemma FilledByOneMore(e: Event, peers: seq<Event>, p: Event)
    ensures Filled(e, peers + [p]) == Absorb(Filled(e, peers), p)
  {
    assert Names(peers + [p]) == Names(peers) + [p.name];
    assert Descriptions(peers + [p]) == Descriptions(peers) + [p.description];
    assert Genres(peers + [p]) == Genres(peers) + [p.genres];
    assert Videos(peers + [p]) == Videos(peers) + [p.videos];
    assert Audios(peers + [p]) == Audios(peers) + [p.audios];
    assert Extendeds(peers + [p]) == Extendeds(peers) + [p.extended];
    assert Serieses(peers + [p]) == Serieses(peers) + [p.series];
    FirstOfSnoc(Names(peers), p.name, "");
    FirstOfSnoc(Descriptions(peers), p.description, "");
    FirstOfSnoc(Genres(peers), p.genres, []);
    FirstOfSnoc(Videos(peers), p.videos, []);
    FirstOfSnoc(Audios(peers), p.audios, []);
    FirstOfSnoc(Extendeds(peers), p.extended, []);
    FirstOfSnoc(Serieses(peers), p.series, None);
  }

  /** Filling from peers some of which were already filled from the same peers gives the same event. */
  lemma FilledStable(e: Event, orig: seq<Event>, now: seq<Event>)
    requires |orig| == |now|
    requires forall k | 0 <= k < |orig| :: now[k] == orig[k] || now[k] == Filled(orig[k], orig)
    ensures Filled(e, now) == Filled(e, orig)
  {
    FirstStable(Names(orig), Names(now), "");
    FirstStable(Descriptions(orig), Descriptions(now), "");
    FirstStable(Genres(orig), Genres(now), []);
    FirstStable(Videos(orig), Videos(now), []);
    FirstStable(Audios(orig), Audios(now), []);
    FirstStable(Extendeds(orig), Extendeds(now), []);
    FirstStable(Serieses(orig), Serieses(now), None);
  }

  // ---------------------------------------------------------------- peer groups

  /** The events before n, in input order, whose keys the references connect to k. */
  ghost function PeersBefore(evs: seq<Event>, edges: Edges, k: Key, n: nat): seq<Event>
    requires n <= |evs|
  {
    if n == 0 then []
    else if Connected(edges, k, evs[n - 1].key) then PeersBefore(evs, edges, k, n - 1) + [evs[n - 1]]
    else PeersBefore(evs, edges, k, n - 1)
  }

  /** The group of event i: all events its shared references lead to, itself included. */
  ghost function SharedPeers(evs: seq<Event>, i: nat): seq<Event>
    requires i < |evs|
  {
    PeersBefore(evs, EdgesOf(evs), evs[i].key, |evs|)
  }

  ghost function AllFilled(evs: seq<Event>): seq<Event> {
    seq(|evs|, i requires 0 <= i < |evs| => Filled(evs[i], SharedPeers(evs, i)))
  }

  ghost predicate Below(group: seq<nat>, n: nat) { forall k | 0 <= k < |group| :: group[k] < n }

  ghost predicate Increasing(group: seq<nat>) { forall j, k | 0 <= j < k < |group| :: group[j] < group[k] }

  /** The indices before n whose key has the given root. */
  ghost function Indices(evs: seq<Event>, rep: Keys, root: Key, n: nat): seq<nat>
    requires n <= |evs|
    ensures Below(Indices(evs, rep, root, n), n)
  {
    if n == 0 then []
    else if evs[n - 1].key in rep && rep[evs[n - 1].key] == root then Indices(evs, rep, root, n - 1) + [n - 1]
    else Indices(evs, rep, root, n - 1)
  }

  lemma {:induction false} IndicesIncrease(evs: seq<Event>, rep: Keys, root: Key, n: nat)
    requires n <= |evs|
    ensures Increasing(Indices(evs, rep, root, n))
  {
    if n > 0 { IndicesIncrease(evs, rep, root, n - 1); }
  }

  lemma {:induction false} IndicesHave(evs: seq<Event>, rep: Keys, root: Key, n: nat, i: nat)
    requires n <= |evs|
    ensures i in Indices(evs, rep, root, n) <==> i < n && evs[i].key in rep && rep[evs[i].key] == root
  {
    if n > 0 { IndicesHave(evs, rep, root, n - 1, i); }
  }

  ghost function At(evs: seq<Event>, group: seq<nat>): seq<Event>
    requires Below(group, |evs|)
  {
    seq(|group|, k requires 0 <= k < |group| => evs[group[k]])
  }

  lemma AtOneMore(evs: seq<Event>, group: seq<nat>, i: nat)
    requires i < |evs| && Below(group, i)
    ensures Below(group + [i], |evs|) && Below(group, |evs|)
    ensures At(evs, group + [i]) == At(evs, group) + [evs[i]]
  {
  }

  /** The root of k is the given one exactly when references connect k to key. */
  ghost predicate RootTells(rep: Keys, edges: Edges, key: Key, root: Key, k: Key) {
    (k in rep && rep[k] == root) == Connected(edges, key, k)
  }

  /** The indices collected under a root are the peers that references connect. */
  lemma {:induction false} IndicesArePeers(evs: seq<Event>, rep: Keys, edges: Edges, key: Key, root: Key, n: nat)
    requires n <= |evs| && forall i | 0 <= i < |evs| :: RootTells(rep, edges, key, root, evs[i].key)
    ensures At(evs, Indices(evs, rep, root, n)) == PeersBefore(evs, edges, key, n)
  {
    if n > 0 {
      IndicesArePeers(evs, rep, edges, key, root, n - 1);
      var before := Indices(evs, rep, root, n - 1);
      assert RootTells(rep, edges, key, root, evs[n - 1].key);
      if Connected(edges, key, evs[n - 1].key) {
        AtOneMore(evs, before, n - 1);
        assert Indices(evs, rep, root, n) == before + [n - 1];
      } else {
        assert Indices(evs, rep, root, n) == before;
      }
    }
  }

  method BuildForest(evs: seq<Event>) returns (f: Forest)
    ensures fresh(f) && f.Valid() && f.edges == EdgesOf(evs)
    ensures forall i | 0 <= i < |evs| :: evs[i].key in f.rep
  {
    f := new Forest();
    for n := 0 to |evs|
      invariant fresh(f) && f.Valid() && f.edges == PrefixEdges(evs, n)
      invariant forall i | 0 <= i < n :: evs[i].key in f.rep
    {
      UniteReferences(f, evs[n], PrefixEdges(evs, n));
    }
  }

  method UniteReferences(f: Forest, e: Event, ghost before: Edges)
    requires f.Valid() && f.edges == before
    modifies f
    ensures f.Valid() && f.edges == before + EventEdges(e, |e.related|)
    ensures old(f.rep).Keys + {e.key} <= f.rep.Keys
  {
    var _ := f.Find(e.key);
    for j := 0 to |e.related|
      invariant f.Valid() && f.edges == before + EventEdges(e, j)
      invariant old(f.rep).Keys + {e.key} <= f.rep.Keys
    {
      assert EventEdges(e, j + 1)
          == EventEdges(e, j) + (if Refers(e.related[j]) then {(e.key, Target(e, e.related[j]))} else {});
      if Refers(e.related[j]) { f.Union(e.key, Target(e, e.related[j])); }
    }
  }

  ghost predicate CollectedAt(evs: seq<Event>, rep: Keys, peers: map<Key, seq<nat>>, n: nat, r: Key)
    requires n <= |evs|
  {
    Indices(evs, rep, r, n) == if r in peers then peers[r] else []
  }

  ghost predicate Collected(evs: seq<Event>, rep: Keys, peers: map<Key, seq<nat>>, n: nat)
    requires n <= |evs|
  {
    forall r :: CollectedAt(evs, rep, peers, n, r)
  }

  lemma CollectedStep(evs: seq<Event>, rep: Keys, peers: map<Key, seq<nat>>, n: nat)
    requires n < |evs| && evs[n].key in rep && Collected(evs, rep, peers, n)
    ensures var root := rep[evs[n].key];
            Collected(evs, rep, peers[root := (if root in peers then peers[root] else []) + [n]], n + 1)
  {
    var root := rep[evs[n].key];
    var peers' := peers[root := (if root in peers then peers[root] else []) + [n]];
    var m := n + 1;
    forall r ensures CollectedAt(evs, rep, peers', m, r) { assert CollectedAt(evs, rep, peers, n, r); }
  }

  method CollectPeers(evs: seq<Event>, f: Forest) returns (peers: map<Key, seq<nat>>)
    requires f.Valid() && forall i | 0 <= i < |evs| :: evs[i].key in f.rep
    modifies f
    ensures f.Valid() && f.edges == old(f.edges) && f.rep == old(f.rep)
    ensures Collected(evs, f.rep, peers, |evs|)
    ensures forall i | 0 <= i < |evs| :: f.rep[evs[i].key] in peers
  {
    peers := map[];
    for n := 0 to |evs|
      invariant f.Valid() && f.edges == old(f.edges) && f.rep == old(f.rep)
      invariant Collected(evs, f.rep, peers, n)
      invariant forall i | 0 <= i < n :: f.rep[evs[i].key] in peers
    {
      CollectedStep(evs, f.rep, peers, n);
      var root := f.Find(evs[n].key);
      peers := peers[root := (if root in peers then peers[root] else []) + [n]];
    }
  }

  /** One event takes what it lacks from the peers of its group, in order. */
  method FillEventFromPeers(events: array<Event>, i: nat, group: seq<nat>)
    requires i < events.Length && Below(group, events.Length)
    modifies events
    ensures events[..] == old(events[..])[i := Filled(old(events[i]), At(old(events[..]), group))]
  {
    ghost var evs := events[..];
    for k := 0 to |group|
      invariant events[..] == evs[i := Filled(evs[i], At(evs, group[..k]))]
    {
      FilledByOneMore(evs[i], At(evs, group[..k]), evs[group[k]]);
      assert At(evs, group[..k + 1]) == At(evs, group[..k]) + [evs[group[k]]];
      assert events[i] == events[..][i] && events[group[k]] == events[..][group[k]];
      if group[k] != i { events[i] := Absorb(events[i], events[group[k]]); }
    }
    assert group[..|group|] == group;
  }

  ghost predicate GroupFilled(evs: seq<Event>, now: seq<Event>, group: seq<nat>, n: nat)
    requires |now| == |evs| && n <= |group| && Below(group, |evs|)
  {
    && (forall k | 0 <= k < n :: now[group[k]] == Filled(evs[group[k]], At(evs, group)))
    && (forall i | 0 <= i < |evs| && i !in group[..n] :: now[i] == evs[i])
  }

  lemma GroupFilledStep(evs: seq<Event>, now: seq<Event>, group: seq<nat>, n: nat)
    requires |now| == |evs| && n < |group| && Below(group, |evs|) && Increasing(group)
    requires GroupFilled(evs, now, group, n)
    ensures GroupFilled(evs, now[group[n] := Filled(now[group[n]], At(now, group))], group, n + 1)
  {
    assert group[n] !in group[..n];
    forall k | 0 <= k < |group|
      ensures At(now, group)[k] == At(evs, group)[k] || At(now, group)[k] == Filled(At(evs, group)[k], At(evs, group))
    {
      if k < n { assert now[group[k]] == Filled(evs[group[k]], At(evs, group)); } else {
        assert group[k] !in group[..n];
      }
    }
    FilledStable(now[group[n]], At(evs, group), At(now, group));
    assert group[..n + 1] == group[..n] + [group[n]];
  }

  method FillGroup(events: array<Event>, group: seq<nat>)
    requires Below(group, events.Length) && Increasing(group)
    modifies events
    ensures GroupFilled(old(events[..]), events[..], group, |group|)
  {
    ghost var evs := events[..];
    for n := 0 to |group|
      invariant GroupFilled(evs, events[..], group, n)
    {
      GroupFilledStep(evs, events[..], group, n);
      FillEventFromPeers(events, group[n], group);
    }
  }

  ghost predicate Grouped(evs: seq<Event>, rep: Keys, peers: map<Key, seq<nat>>) {
    && Collected(evs, rep, peers, |evs|)
    && (forall r | r in peers :: Below(peers[r], |evs|))
    && (forall i | 0 <= i < |evs| :: evs[i].key in rep && rep[evs[i].key] in peers)
  }

  /** The groups still to do hold their original events, the others their filled ones. */
  ghost predicate Progress(evs: seq<Event>, now: seq<Event>, rep: Keys, peers: map<Key, seq<nat>>, todo: set<Key>)
    requires |now| == |evs| && Grouped(evs, rep, peers)
  {
    forall i | 0 <= i < |evs| ::
      now[i] == if rep[evs[i].key] in todo then evs[i] else Filled(evs[i], At(evs, peers[rep[evs[i].key]]))
  }

  lemma {:induction false} ProgressStep(evs: seq<Event>, now: seq<Event>, after: seq<Event>, rep: Keys, peers: map<Key,
                                        seq<nat>>,
                     todo: set<Key>, root: Key)
    requires |now| == |evs| == |after| && Grouped(evs, rep, peers) && root in todo && root in peers
    requires Progress(evs, now, rep, peers, todo) && GroupFilled(now, after, peers[root], |peers[root]|)
    ensures Progress(evs, after, rep, peers, todo - {root})
  {
    var group := peers[root];
    assert CollectedAt(evs, rep, peers, |evs|, root);
    forall k | 0 <= k < |group| ensures now[group[k]] == evs[group[k]] {
      assert group[k] in group;
      IndicesHave(evs, rep, root, |evs|, group[k]);
    }
    assert At(now, group) == At(evs, group);
    assert group[..|group|] == group;
    forall i | 0 <= i < |evs|
      ensures after[i] == if rep[evs[i].key] in todo - {root} then evs[i]
              else Filled(evs[i], At(evs, peers[rep[evs[i].key]]))
    {
      IndicesHave(evs, rep, root, |evs|, i);
    }
  }

  lemma {:induction false} ProgressDone(evs: seq<Event>, now: seq<Event>, rep: Keys, peers: map<Key, seq<nat>>,
                                        edges: Edges)
    requires |now| == |evs| && Grouped(evs, rep, peers) && GroupsOk(edges, rep) && edges == EdgesOf(evs)
    requires Progress(evs, now, rep, peers, {})
    ensures now == AllFilled(evs)
  {
    forall i | 0 <= i < |evs| ensures At(evs, peers[rep[evs[i].key]]) == SharedPeers(evs, i) {
      var key := evs[i].key;
      assert CollectedAt(evs, rep, peers, |evs|, rep[key]);
      forall j | 0 <= j < |evs| ensures RootTells(rep, edges, key, rep[key], evs[j].key) {
        RootsAreGroups(edges, rep, key, evs[j].key);
      }
      IndicesArePeers(evs, rep, edges, key, rep[key], |evs|);
    }
  }

  method FillGroups(events: array<Event>, peers: map<Key, seq<nat>>, ghost rep: Keys)
    requires Grouped(events[..], rep, peers)
    modifies events
    ensures Progress(old(events[..]), events[..], rep, peers, {})
  {
    ghost var evs := events[..];
    var todo := peers.Keys;
    while todo != {}
      invariant todo <= peers.Keys && Progress(evs, events[..], rep, peers, todo)
      decreases todo
    {
      var root :| root in todo;
      ghost var now := events[..];
      assert CollectedAt(evs, rep, peers, |evs|, root);
      IndicesIncrease(evs, rep, root, |evs|);
      FillGroup(events, peers[root]);
      ProgressStep(evs, now, events[..], rep, peers, todo, root);
      todo := todo - {root};
    }
  }

  /** Fills every event from the events it shares with: each blank field takes the first original
      value of its group in input order, and nothing else changes. */
  method FillEventsFromSharedPeers(events: array<Event>)
    modifies events
    ensures events[..] == AllFilled(old(events[..]))
  {
    ghost var evs := events[..];
    var f := BuildForest(events[..]);
    var peers := CollectPeers(events[..], f);
    forall r | r in peers ensures Below(peers[r], |evs|) { assert CollectedAt(evs, f.rep, peers, |evs|, r); }
    FillGroups(events, peers, f.rep);
    ProgressDone(evs, events[..], f.rep, peers, f.edges);
  }

  /** An event with the key `a` shares the event `b`: service and event are named, and the network is the named one
      or its own. */
  predicate Shares(own: Key, r: Related, a: Key, b: Key) {
    && own == a && r.groupType == 1 && r.service != 0 && r.event != 0 && b.service == r.service && b.event == r.event
    && (if r.network == 0 then b.network == a.network else b.network == r.network)
  }

  /** A reference (a, b) counts exactly when some event with key a names b as shared. */
  lemma {:induction false} EdgeMeansReference(evs: seq<Event>, n: nat, a: Key, b: Key)
    requires n <= |evs|
    ensures (a, b) in PrefixEdges(evs, n) <==>
              exists i, j | 0 <= i < n && 0 <= j < |evs[i].related| :: Shares(evs[i].key, evs[i].related[j], a, b)
  {
    if n > 0 { EdgeMeansReference(evs, n - 1, a, b); }
  }

  /** A blank name becomes the first originally non-empty name of its group; a name stays as it is. */
  lemma {:induction false} NameAfterFilling(evs: seq<Event>, i: nat, k: nat)
    requires i < |evs| && k < |SharedPeers(evs, i)|
    requires SharedPeers(evs, i)[k].name != "" && forall j | 0 <= j < k :: SharedPeers(evs, i)[j].name == ""
    ensures AllFilled(evs)[i].name == if evs[i].name != "" then evs[i].name else SharedPeers(evs, i)[k].name
  {
    var names := Names(SharedPeers(evs, i));
    assert forall j | 0 <= j < k :: names[j] == SharedPeers(evs, i)[j].name;
    FirstIsFirst(names, "", k);
  }

  /** A group without any name leaves the name blank. */
  lemma {:induction false} NameWithoutPeers(evs: seq<Event>, i: nat)
    requires i < |evs| && forall j | 0 <= j < |SharedPeers(evs, i)| :: SharedPeers(evs, i)[j].name == ""
    ensures AllFilled(evs)[i].name == evs[i].name
  {
    FirstOfNone(Names(SharedPeers(evs, i)), "");
  }
}
