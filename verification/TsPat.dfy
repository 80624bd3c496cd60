/** The program association table: ts/pat.go builds and parses it. */
module TsPat {
  import opened Basics
  import opened TsSection
  import Crc

  datatype Pat = Pat(transportStream: nat, version: nat, networkPid: nat, programs: map<nat, nat>)

  /** Entry `k` has a program number and its PID, in four bytes. */
  function Program(s: Bytes, k: nat): nat
    requires 12 + 4 * k <= |s|
  {
    s[8 + 4 * k] as int * 256 + s[9 + 4 * k] as int
  }

  function Pid(s: Bytes, k: nat): nat
    requires 12 + 4 * k <= |s|
  {
    (s[10 + 4 * k] as int % 32) * 256 + s[11 + 4 * k] as int
  }

  predicate Acceptable(s: Bytes) { |s| >= 12 && s[0] == 0 && Total(s) <= |s| && ValidCrc(s) }

  /** The table after the first `n` entries. */
  function Entries(s: Bytes, n: nat): Pat
    requires |s| >= 8 + 4 * n
  {
    if n == 0 then Pat(s[3] as int * 256 + s[4] as int, s[5] / 2 % 32, 0, map[])
    else
      var before := Entries(s, n - 1);
      if Program(s, n - 1) == 0 then before.(networkPid := Pid(s, n - 1))
      else before.(programs := before.programs[Program(s, n - 1) := Pid(s, n - 1)])
  }

  /** The whole entries before the CRC. */
  function Count(s: Bytes): (n: nat)
    requires |s| >= 12 && Total(s) <= |s|
    ensures 8 + 4 * n <= |s|
  {
    if Total(s) < 16 then 0 else (Total(s) - 12) / 4
  }

  method ParsePat(s: Bytes) returns (pat: Option<Pat>)
    ensures pat == if Acceptable(s) then Some(Entries(s, Count(s))) else None
  {
    if |s| < 12 || s[0] != 0 || Total(s) > |s| || !ValidCrc(s) { return None; }
    var p := Pat(s[3] as int * 256 + s[4] as int, s[5] / 2 % 32, 0, map[]);
    var off, end := 8, Total(s) - 4;
    ghost var n := 0;
    while off + 4 <= end
      invariant off == 8 + 4 * n && n <= Count(s) && p == Entries(s, n)
    {
      var program, pid := s[off] as int * 256 + s[off + 1] as int, (s[off + 2] as int % 32) * 256 + s[off + 3] as int;
      if program == 0 {
        p := p.(networkPid := pid);
      } else {
        p := p.(programs := p.programs[program := pid]);
      }
      off := off + 4;
      n := n + 1;
    }
    return Some(p);
  }

  /** Entry `k` is the last one for its program. */
  ghost predicate LastFor(s: Bytes, k: nat, n: nat, program: nat) {
    k < n && 8 + 4 * n <= |s| && Program(s, k) == program && forall j: nat | k < j < n :: Program(s, j) != program
  }

  /** The parsed programs are those with an entry, each with the PID of its last one. */
  lemma {:induction false} ProgramsAreEntries(s: Bytes, n: nat, program: nat)
    requires 8 + 4 * n <= |s| && program != 0
    ensures program in Entries(s, n).programs <==> exists k :: LastFor(s, k, n, program)
    ensures forall k :: LastFor(s, k, n, program) ==>
              program in Entries(s, n).programs && Entries(s, n).programs[program] == Pid(s, k)
  {
    if n > 0 {
      var m := n - 1;
      ProgramsAreEntries(s, m, program);
      if Program(s, m) == program {
        assert LastFor(s, m, n, program);
      } else {
        forall k: nat ensures LastFor(s, k, n, program) <==> LastFor(s, k, m, program) {}
        if program in Entries(s, m).programs {
          var k: nat :| LastFor(s, k, m, program);
          assert LastFor(s, k, n, program);
        }
      }
    }
  }

  // ----------------------------------------------------------------------- building

  function Body(transportStream: nat, service: nat, pid: nat, version: nat): Bytes
    requires transportStream < 0x1_0000 && service < 0x1_0000 && pid <= 0x1fff
  {
    [0, 0xb0, 13, transportStream / 256, transportStream % 256, 0xc1 + version % 32 * 2, 0, 0,
     service / 256, service % 256, 0xe0 + pid / 256, pid % 256]
  }

  /** A PAT section with one program; the PID must have 13 bits. */
  function BuildPat(transportStream: nat, service: nat, pid: nat, version: nat): (r: Option<Bytes>)
    requires transportStream < 0x1_0000 && service < 0x1_0000
  {
    if pid > 0x1fff then None
    else
      var body := Body(transportStream, service, pid, version);
      Some(body + Numbers(Crc.Be32(Crc.TableCrc(Words(body)))))
  }

  /** What is built is a valid section. */
  lemma BuiltIsValid(transportStream: nat, service: nat, pid: nat, version: nat)
    requires transportStream < 0x1_0000 && service < 0x1_0000 && pid <= 0x1fff
    ensures var s := BuildPat(transportStream, service, pid, version).value;
            |s| == 16 && Total(s) == 16 && ValidCrc(s) && s[..12] == Body(transportStream, service, pid, version)
  {
    var body := Body(transportStream, service, pid, version);
    var crc := Crc.Be32(Crc.TableCrc(Words(body)));
    var s := BuildPat(transportStream, service, pid, version).value;
    WordsConcat(body, Numbers(crc));
    WordsBack(crc);
    Crc.AppendedValidates(Words(body));
    assert s[..16] == s;
  }

  /** Parsing what was built recovers the stream, the version modulo 32 and the one program; program
      number zero is read as the network PID instead. */
  lemma PatRoundTrip(transportStream: nat, service: nat, pid: nat, version: nat)
    requires transportStream < 0x1_0000 && service < 0x1_0000
    ensures var s := BuildPat(transportStream, service, pid, version);
            && (s.None? <==> pid > 0x1fff)
            && (s.Some? ==>
                  && Acceptable(s.value)
                  && Entries(s.value, Count(s.value))
                  == if service == 0 then Pat(transportStream, version % 32, pid, map[])
                     else Pat(transportStream, version % 32, 0, map[service := pid]))
  {
    if pid <= 0x1fff {
      var s := BuildPat(transportStream, service, pid, version).value;
      BuiltIsValid(transportStream, service, pid, version);
      BuiltReads(s, transportStream, service, pid, version);
    }
  }

  lemma BuiltReads(s: Bytes, transportStream: nat, service: nat, pid: nat, version: nat)
    requires transportStream < 0x1_0000 && service < 0x1_0000 && pid <= 0x1fff
    requires |s| == 16 && s[..12] == Body(transportStream, service, pid, version)
    ensures s[0] == 0 && Total(s) == 16 && Count(s) == 1 && Program(s, 0) == service && Pid(s, 0) == pid
    ensures s[3] as int * 256 + s[4] as int == transportStream && s[5] / 2 % 32 == version % 32
  {}

  // ------------------------------------------------------------------- any number of programs

  /** A program number and its PID. */
  datatype Entry = Entry(program: nat, pid: nat)

  predicate Printable(es: seq<Entry>) {
    |es| <= 1021 && forall k | 0 <= k < |es| :: es[k].program < 0x1_0000 && es[k].pid <= 0x1fff
  }

  function EntryBytes(e: Entry): Bytes
    requires e.program < 0x1_0000 && e.pid <= 0x1fff
  {
    [e.program / 256, e.program % 256, 0xe0 + e.pid / 256, e.pid % 256]
  }

  function ListBytes(es: seq<Entry>): (b: Bytes)
    requires Printable(es)
    ensures |b| == 4 * |es|
  {
    if es == [] then [] else ListBytes(es[..|es| - 1]) + EntryBytes(es[|es| - 1])
  }

  lemma {:induction false} ListBytesAt(es: seq<Entry>, k: nat, i: nat)
    requires Printable(es) && k < |es| && i < 4
    ensures ListBytes(es)[4 * k + i] == EntryBytes(es[k])[i]
  {
    if k < |es| - 1 { ListBytesAt(es[..|es| - 1], k, i); }
  }

  /** A PAT section with these entries, as section 2.4.4.3 of ISO/IEC 13818-1 lays it out. */
  function ListSection(transportStream: nat, version: nat, es: seq<Entry>): Bytes
    requires transportStream < 0x1_0000 && Printable(es)
  {
    var body := ListBody(transportStream, version, es);
    body + Numbers(Crc.Be32(Crc.TableCrc(Words(body))))
  }

  function ListBody(transportStream: nat, version: nat, es: seq<Entry>): (b: Bytes)
    requires transportStream < 0x1_0000 && Printable(es)
    ensures |b| == 8 + 4 * |es|
  {
    var n := 9 + 4 * |es|;
    [0, 0xb0 + n / 256, n % 256, transportStream / 256, transportStream % 256, 0xc1 + version % 32 * 2, 0, 0]
    + ListBytes(es)
  }

  lemma ListIsAcceptable(transportStream: nat, version: nat, es: seq<Entry>)
    requires transportStream < 0x1_0000 && Printable(es)
    ensures var s := ListSection(transportStream, version, es);
            && Acceptable(s) && |s| == 12 + 4 * |es| && Count(s) == |es|
            && Begins(s, ListBody(transportStream, version, es))
  {
    var body := ListBody(transportStream, version, es);
    var crc := Crc.Be32(Crc.TableCrc(Words(body)));
    var s := ListSection(transportStream, version, es);
    WordsConcat(body, Numbers(crc));
    WordsBack(crc);
    Crc.AppendedValidates(Words(body));
    assert s[0] == body[0] && s[1] == body[1] && s[2] == body[2];
    assert Total(s) == |s|;
    assert s[..|s|] == s;
  }

  /** The section begins with these bytes. */
  ghost predicate Begins(s: Bytes, body: Bytes) { |body| <= |s| && forall j | 0 <= j < |body| :: s[j] == body[j] }

  lemma ListEntry(s: Bytes, transportStream: nat, version: nat, es: seq<Entry>, k: nat)
    requires transportStream < 0x1_0000 && Printable(es) && k < |es|
    requires Begins(s, ListBody(transportStream, version, es))
    ensures Program(s, k) == es[k].program && Pid(s, k) == es[k].pid
  {
    var body := ListBody(transportStream, version, es);
    forall i: nat | i < 4 ensures s[8 + 4 * k + i] == EntryBytes(es[k])[i] {
      ListBytesAt(es, k, i);
      assert body[8 + 4 * k + i] == ListBytes(es)[4 * k + i];
    }
    EntryReads(s, 8 + 4 * k, es[k]);
  }

  lemma EntryReads(s: Bytes, at: nat, e: Entry)
    requires e.program < 0x1_0000 && e.pid <= 0x1fff && at + 4 <= |s|
    requires forall i: nat | i < 4 :: s[at + i] == EntryBytes(e)[i]
    ensures s[at] as int * 256 + s[at + 1] as int == e.program
            && (s[at + 2] as int % 32) * 256 + s[at + 3] as int == e.pid
  {
    var b := EntryBytes(e);
    assert s[at + 0] == b[0] && s[at + 1] == b[1] && s[at + 2] == b[2] && s[at + 3] == b[3];
  }

  /** Entry `k` is the last one with its program number. */
  ghost predicate LastEntry(es: seq<Entry>, k: nat, program: nat) {
    k < |es| && es[k].program == program && forall j | k < j < |es| :: es[j].program != program
  }

  /** The network PID is that of the last entry with program number zero, and zero without one. */
  lemma {:induction false} NetworkPidIs(s: Bytes, n: nat)
    requires 8 + 4 * n <= |s|
    ensures forall k: nat :: LastFor(s, k, n, 0) ==> Entries(s, n).networkPid == Pid(s, k)
    ensures (forall k: nat | k < n :: Program(s, k) != 0) ==> Entries(s, n).networkPid == 0
    ensures Entries(s, n).transportStream == s[3] as int * 256 + s[4] as int
            && Entries(s, n).version == s[5] / 2 % 32
  {
    if n > 0 {
      NetworkPidIs(s, n - 1);
      forall k: nat | LastFor(s, k, n, 0) && k < n - 1 ensures LastFor(s, k, n - 1, 0) {
        assert Program(s, n - 1) != 0;
      }
    }
  }

  /** What a parsed table says of a program number. */
  ghost predicate Says(pat: Pat, es: seq<Entry>, program: nat) {
    && (forall k: nat :: LastEntry(es, k, program) ==>
          if program == 0 then pat.networkPid == es[k].pid
          else program in pat.programs && pat.programs[program] == es[k].pid)
    && ((forall k | 0 <= k < |es| :: es[k].program != program) ==>
          if program == 0 then pat.networkPid == 0 else program !in pat.programs)
  }

  lemma EntriesSay(s: Bytes, es: seq<Entry>, program: nat)
    requires 8 + 4 * |es| <= |s|
    requires forall k: nat | k < |es| :: Program(s, k) == es[k].program && Pid(s, k) == es[k].pid
    ensures Says(Entries(s, |es|), es, program)
  {
    forall k: nat | LastEntry(es, k, program) ensures LastFor(s, k, |es|, program) {}
    if program == 0 { NetworkPidIs(s, |es|); } else { ProgramsAreEntries(s, |es|, program); }
  }

  lemma ListReads(s: Bytes, transportStream: nat, version: nat, es: seq<Entry>, program: nat)
    requires transportStream < 0x1_0000 && Printable(es) && Begins(s, ListBody(transportStream, version, es))
    ensures var pat := Entries(s, |es|);
            Says(pat, es, program) && pat.transportStream == transportStream && pat.version == version % 32
  {
    forall k: nat | k < |es| ensures Program(s, k) == es[k].program && Pid(s, k) == es[k].pid {
      ListEntry(s, transportStream, version, es, k);
    }
    EntriesSay(s, es, program);
    NetworkPidIs(s, |es|);
    HeadReads(s, transportStream, version, es);
  }

  lemma HeadReads(s: Bytes, transportStream: nat, version: nat, es: seq<Entry>)
    requires transportStream < 0x1_0000 && Printable(es) && Begins(s, ListBody(transportStream, version, es))
    ensures s[3] as int * 256 + s[4] as int == transportStream && s[5] / 2 % 32 == version % 32
  {
    var body := ListBody(transportStream, version, es);
    assert s[3] == body[3] && s[4] == body[4] && s[5] == body[5];
  }

  /** A PAT of any entries parses back: to the stream, the version modulo 32, each program number but zero with the
      PID of its last entry, and the last entry of number zero as the network PID. */
  lemma TableRoundTrip(transportStream: nat, version: nat, es: seq<Entry>, program: nat)
    requires transportStream < 0x1_0000 && Printable(es)
    ensures var s := ListSection(transportStream, version, es);
            && Acceptable(s)
            && var pat := Entries(s, Count(s));
            Says(pat, es, program) && pat.transportStream == transportStream && pat.version == version % 32
  {
    ListIsAcceptable(transportStream, version, es);
    ListReads(ListSection(transportStream, version, es), transportStream, version, es, program);
  }

  /** A built PAT, packetized with any counter, comes out of any assembler for its PID unchanged. */
  lemma PatThroughStream(st: State, counter: nat, transportStream: nat, service: nat, pid: nat, version: nat)
    requires transportStream < 0x1_0000 && service < 0x1_0000 && pid <= 0x1fff
    ensures var s := BuildPat(transportStream, service, pid, version).value;
            Emitted(0, st, SectionViews(0, s, counter)) == [s]
  {
    var s := BuildPat(transportStream, service, pid, version).value;
    BuiltIsValid(transportStream, service, pid, version);
    assert s[0] == s[..12][0];
    SectionEmits(0, st, s, counter);
  }
}
