/**
 internal/domain/domain.go: the names a target can be reached by.

 A manager keeps one table of DNS records; each target gets the first free name
 of the series p.suffix, p-1.suffix, p-2.suffix, ...
 */
module Domain {
  import opened Wrappers
  import opened Text

  newtype byte = x: int | 0 <= x < 256

  type IPv4 = s: seq<byte> | |s| == 4 witness [0, 0, 0, 0]

  type Records = map<string, IPv4>

  // net.IP.To4: four bytes, or the sixteen-byte form of an IPv4 address.
  function To4(ip: seq<byte>): Option<IPv4> {
    if |ip| == 4 then Some(ip)
    else if |ip| == 16 && (forall i :: 0 <= i < 10 ==> ip[i] == 0) && ip[10] == 255 && ip[11] == 255 then Some(ip[12..16])
    else None
  }

  function Normalize(s: string): string { ToLower(Trim(TrimSpace(s), {'.'})) }

  // ----- the name prefix of a target

  predicate Alnum(c: char) { 'a' <= c <= 'z' || '0' <= c <= '9' }

  // Runs of other characters become one dash.
  function Dashed(s: string, prevDash: bool): string {
    if s == [] then []
    else if Alnum(s[0]) then [s[0]] + Dashed(s[1..], false)
    else if prevDash then Dashed(s[1..], true)
    else ['-'] + Dashed(s[1..], true)
  }

  function Prefix(target: string): string {
    var p := Trim(Dashed(ToLower(Trim(TrimSpace(target), {'.'})), false), {'-'});
    if p == "" then "host" else p
  }

  method TargetPrefix(target: string) returns (prefix: string)
    ensures prefix == Prefix(target)
  {
    var host := ToLower(Trim(TrimSpace(target), {'.'}));
    var b, prevDash := "", false;
    for i := 0 to |host|
      invariant b + Dashed(host[i..], prevDash) == Dashed(host, false)
    {
      ghost var rest := host[i + 1..];
      assert host[i..] == [host[i]] + rest;
      if Alnum(host[i]) {
        Regroup(b, [host[i]], Dashed(rest, false));
        b, prevDash := b + [host[i]], false;
      } else if !prevDash {
        Regroup(b, ['-'], Dashed(rest, true));
        b, prevDash := b + ['-'], true;
      }
    }
    prefix := Trim(b, {'-'});
    assert b + "" == b;
    if prefix == "" {
      prefix := "host";
    }
  }

  // Letters, digits and single dashes between them, as in a DNS label, of any length.
  predicate LabelShaped(p: string) {
    && p != [] && Alnum(p[0]) && Alnum(p[|p| - 1])
    && (forall i :: 0 <= i < |p| ==> Alnum(p[i]) || p[i] == '-')
    && (forall i :: 0 < i < |p| ==> p[i - 1] != '-' || p[i] != '-')
  }

  predicate DashShape(s: string) {
    && (forall i :: 0 <= i < |s| ==> Alnum(s[i]) || s[i] == '-')
    && (forall i :: 0 < i < |s| ==> s[i - 1] != '-' || s[i] != '-')
  }

  lemma {:induction false} DashedShape(s: string, prevDash: bool)
    ensures var d := Dashed(s, prevDash); DashShape(d) && (prevDash && d != [] ==> d[0] != '-')
  {
    if s != [] {
      if Alnum(s[0]) {
        DashedShape(s[1..], false);
      } else {
        DashedShape(s[1..], true);
      }
    }
  }

  lemma {:induction false} TrimmedLeft(s: string)
    requires DashShape(s)
    ensures var t := TrimLeft(s, {'-'}); DashShape(t) && (t != [] ==> t[0] != '-')
  {
    if s != [] && s[0] in {'-'} {
      assert forall i :: 0 < i < |s[1..]| ==> s[1..][i - 1] == s[i];
      TrimmedLeft(s[1..]);
    }
  }

  lemma {:induction false} TrimmedRight(s: string)
    requires DashShape(s) && (s != [] ==> s[0] != '-')
    ensures var t := TrimRight(s, {'-'}); DashShape(t) && (t != [] ==> t[0] != '-' && t[|t| - 1] != '-')
  {
    if s != [] && s[|s| - 1] in {'-'} {
      TrimmedRight(s[..|s| - 1]);
    }
  }

  /** Whatever the target, its prefix has the shape of a DNS label.  Its length is not
      limited: Dns says which names can be asked for. */
  lemma PrefixIsLabelShaped(target: string)
    ensures LabelShaped(Prefix(target))
  {
    var d := Dashed(ToLower(Trim(TrimSpace(target), {'.'})), false);
    DashedShape(ToLower(Trim(TrimSpace(target), {'.'})), false);
    TrimmedLeft(d);
    TrimmedRight(TrimLeft(d, {'-'}));
  }

  lemma {:induction false} DashedAlnum(s: string)
    requires forall i :: 0 <= i < |s| ==> Alnum(s[i])
    ensures Dashed(s, false) == s
  {
    if s != [] {
      DashedAlnum(s[1..]);
      assert s == [s[0]] + s[1..];
    }
  }

  /** A target of letters and digits is its own prefix. */
  lemma PlainTargetIsPrefix(target: string)
    requires target != [] && forall i :: 0 <= i < |target| ==> Alnum(target[i])
    ensures Prefix(target) == target
  {
    TrimKeeps(target, Space);
    TrimKeeps(target, {'.'});
    assert ToLower(target) == target;
    DashedAlnum(target);
    TrimKeeps(target, {'-'});
  }

  // The maximal runs of letters and digits, in order.
  function Runs(s: string): seq<string> {
    if s == [] then []
    else if !Alnum(s[0]) then Runs(s[1..])
    else if |s| > 1 && Alnum(s[1]) then
      var rest := Runs(s[1..]);
      if rest == [] then [[s[0]]] else [[s[0]] + rest[0]] + rest[1..]
    else [[s[0]]] + Runs(s[1..])
  }

  lemma {:induction false} RunsStart(s: string)
    requires s != [] && Alnum(s[0])
    ensures Runs(s) != [] && Runs(s)[0] != []
  {
    if |s| > 1 && Alnum(s[1]) {
      RunsStart(s[1..]);
    }
  }

  // Behind a dash, or at the start: the runs joined by dashes, and a dash if the text
  // ends with something else.
  function Closing(s: string): string { if Runs(s) != [] && s != [] && !Alnum(s[|s| - 1]) then "-" else "" }

  lemma {:induction false} DashedRuns(s: string)
    ensures Dashed(s, true) == Join(Runs(s), "-") + Closing(s)
    ensures Dashed(s, false) == (if s != [] && !Alnum(s[0]) then "-" else "") + Dashed(s, true)
  {
    if s != [] {
      var tail := s[1..];
      DashedRuns(tail);
      assert tail != [] ==> tail[|tail| - 1] == s[|s| - 1];
      if Alnum(s[0]) {
        DashedRun(s);
      } else if tail == [] {
        assert Runs(s) == [];
      }
    }
  }

  lemma DashedRun(s: string)
    requires s != [] && Alnum(s[0])
    requires Dashed(s[1..], true) == Join(Runs(s[1..]), "-") + Closing(s[1..])
    requires Dashed(s[1..], false) == (if s[1..] != [] && !Alnum(s[1]) then "-" else "") + Dashed(s[1..], true)
    ensures Dashed(s, true) == Join(Runs(s), "-") + Closing(s)
  {
    var c, tail := [s[0]], s[1..];
    if tail == [] {
      assert Runs(s) == [c] && Join([c], "-") == c;
    } else if Alnum(s[1]) {
      RunGrows(s, c, tail, Runs(tail));
    } else if Runs(tail) == [] {
      NoRuns(tail);
      RunEnds(s, c, tail);
    } else {
      RunCloses(s, c, tail, Runs(tail));
    }
  }

  lemma RunGrows(s: string, c: string, tail: string, rest: seq<string>)
    requires |s| > 1 && Alnum(s[0]) && Alnum(s[1]) && c == [s[0]] && tail == s[1..] && rest == Runs(tail)
    requires Dashed(tail, false) == Dashed(tail, true) == Join(rest, "-") + Closing(tail)
    ensures Dashed(s, true) == Join(Runs(s), "-") + Closing(s)
  {
    RunsStart(tail);
    JoinFront(c, rest);
    assert tail[|tail| - 1] == s[|s| - 1];
    Regroup(c, Join(rest, "-"), Closing(tail));
  }

  lemma RunEnds(s: string, c: string, tail: string)
    requires |s| > 1 && Alnum(s[0]) && c == [s[0]] && tail == s[1..] && Runs(tail) == []
    requires forall i :: 0 <= i < |tail| ==> !Alnum(tail[i])
    requires Dashed(tail, false) == "-" + Dashed(tail, true) && Dashed(tail, true) == Join([], "-") + Closing(tail)
    ensures Dashed(s, true) == Join(Runs(s), "-") + Closing(s)
  {
    assert tail[0] == s[1] && tail[|tail| - 1] == s[|s| - 1];
    assert Runs(s) == [c] && Join([c], "-") == c;
  }

  lemma RunCloses(s: string, c: string, tail: string, rest: seq<string>)
    requires |s| > 1 && Alnum(s[0]) && !Alnum(s[1]) && c == [s[0]] && tail == s[1..] && rest == Runs(tail) != []
    requires Dashed(tail, false) == "-" + Dashed(tail, true) && Dashed(tail, true) == Join(rest, "-") + Closing(tail)
    ensures Dashed(s, true) == Join(Runs(s), "-") + Closing(s)
  {
    assert tail[|tail| - 1] == s[|s| - 1];
    assert Runs(s) == [c] + rest && ([c] + rest)[1..] == rest;
    Regroup(c + "-", Join(rest, "-"), Closing(tail));
    Regroup(c, "-", Dashed(tail, true));
  }

  lemma JoinFront(c: string, rest: seq<string>)
    requires rest != []
    ensures Join([c + rest[0]] + rest[1..], "-") == c + Join(rest, "-")
  {
    assert ([c + rest[0]] + rest[1..])[1..] == rest[1..];
  }

  lemma {:induction false} NoRuns(s: string)
    requires Runs(s) == []
    ensures forall i :: 0 <= i < |s| ==> !Alnum(s[i])
  {
    if s != [] {
      if Alnum(s[0]) {
        RunsStart(s);
      }
      NoRuns(s[1..]);
    }
  }

  predicate IsRun(r: string) { r != [] && forall i :: 0 <= i < |r| ==> Alnum(r[i]) }

  predicate AreRuns(parts: seq<string>) { forall i :: 0 <= i < |parts| ==> IsRun(parts[i]) }

  lemma {:induction false} RunsAreRuns(s: string)
    ensures AreRuns(Runs(s))
  {
    if s != [] {
      RunsAreRuns(s[1..]);
    }
  }

  lemma {:induction false} JoinEnds(parts: seq<string>)
    requires AreRuns(parts) && parts != []
    ensures var j := Join(parts, "-"); j != [] && Alnum(j[0]) && Alnum(j[|j| - 1])
  {
    if |parts| > 1 {
      JoinEnds(parts[1..]);
    }
  }

  lemma TrimDashes(lead: string, core: string, end: string)
    requires lead in {"", "-"} && end in {"", "-"}
    requires core != [] ==> Alnum(core[0]) && Alnum(core[|core| - 1])
    requires core == [] ==> end == ""
    ensures Trim(lead + core + end, {'-'}) == core
  {
    var all := core + end;
    assert lead + core + end == lead + all;
    if lead == "-" {
      assert (lead + all)[1..] == all;
    }
    assert TrimLeft(lead + all, {'-'}) == all;
    assert TrimRight(core, {'-'}) == core;
    if end == "-" {
      assert all[..|all| - 1] == core && all[|all| - 1] == '-';
      assert TrimRight(all, {'-'}) == TrimRight(core, {'-'});
    } else {
      assert all == core;
    }
  }

  lemma {:induction false} RunsDropEnd(s: string)
    requires s != [] && !Alnum(s[|s| - 1])
    ensures Runs(s) == Runs(s[..|s| - 1])
  {
    if |s| > 1 {
      RunsDropEnd(s[1..]);
      assert s[1..][..|s| - 2] == s[..|s| - 1][1..];
    }
  }

  predicate NoLetters(cut: set<char>) { forall c :: c in cut ==> !Alnum(LowerChar(c)) }

  lemma {:induction false} RunsTrimLeft(s: string, cut: set<char>)
    requires NoLetters(cut)
    ensures Runs(ToLower(TrimLeft(s, cut))) == Runs(ToLower(s))
  {
    if s != [] && s[0] in cut {
      RunsTrimLeft(s[1..], cut);
      assert ToLower(s)[1..] == ToLower(s[1..]);
    }
  }

  lemma {:induction false} RunsTrimRight(s: string, cut: set<char>)
    requires NoLetters(cut)
    ensures Runs(ToLower(TrimRight(s, cut))) == Runs(ToLower(s))
  {
    if s != [] && s[|s| - 1] in cut {
      RunsTrimRight(s[..|s| - 1], cut);
      assert ToLower(s)[..|s| - 1] == ToLower(s[..|s| - 1]);
      RunsDropEnd(ToLower(s));
    }
  }

  /** The prefix is the target's runs of letters and digits, in lower case, joined by single
      dashes; a target without any is called "host". */
  lemma PrefixJoinsRuns(target: string)
    ensures var runs := Runs(ToLower(target)); Prefix(target) == if runs == [] then "host" else Join(runs, "-")
  {
    var space := TrimSpace(target);
    var h := ToLower(Trim(space, {'.'}));
    RunsTrimLeft(target, Space);
    RunsTrimRight(TrimLeft(target, Space), Space);
    RunsTrimLeft(space, {'.'});
    RunsTrimRight(TrimLeft(space, {'.'}), {'.'});
    var runs := Runs(h);
    DashedRuns(h);
    RunsAreRuns(h);
    if runs != [] {
      JoinEnds(runs);
    }
    TrimDashes(if h != [] && !Alnum(h[0]) then "-" else "", Join(runs, "-"), Closing(h));
    Regroup(if h != [] && !Alnum(h[0]) then "-" else "", Join(runs, "-"), Closing(h));
  }

  // ----- the series of candidate names

  function Candidate(prefix: string, k: nat): string {
    if k == 0 then prefix else prefix + "-" + Itoa(k)
  }

  function Name(prefix: string, k: nat, suffix: string): string { Candidate(prefix, k) + "." + suffix }

  function Key(prefix: string, k: nat, suffix: string): string { Normalize(Name(prefix, k, suffix)) }

  predicate Settled(c: string) {
    && c != []
    && c[0] !in Space && c[0] != '.' && c[|c| - 1] !in Space && c[|c| - 1] != '.'
    && ToLower(c) == c
  }

  lemma ItoaDigits(n: nat)
    ensures forall i :: 0 <= i < |Itoa(n)| ==> '0' <= Itoa(n)[i] <= '9'
  {
  }

  lemma CandidateSettled(prefix: string, k: nat)
    requires LabelShaped(prefix)
    ensures Settled(Candidate(prefix, k))
  {
    ItoaDigits(k);
  }

  // What Normalize leaves of "." + suffix.
  function Tail(suffix: string): string {
    ToLower(TrimRight(TrimRight("." + suffix, Space), {'.'}))
  }

  lemma NormalizeKeepsCandidate(c: string, suffix: string)
    requires Settled(c)
    ensures Normalize(c + "." + suffix) == c + Tail(suffix)
  {
    var s := "." + suffix;
    assert c + "." + suffix == c + s;
    TrimRightStops(c, s, Space);
    assert TrimLeft(c + s, Space) == c + s;
    var t := TrimRight(s, Space);
    TrimRightStops(c, t, {'.'});
    assert TrimLeft(c + t, {'.'}) == c + t;
    ToLowerAppend(c, TrimRight(t, {'.'}));
  }

  /** Candidates stay pairwise distinct after normalisation, for any suffix. */
  lemma KeysDistinct(prefix: string, suffix: string, j: nat, k: nat)
    requires LabelShaped(prefix)
    requires Key(prefix, j, suffix) == Key(prefix, k, suffix)
    ensures j == k
  {
    CandidateSettled(prefix, j);
    CandidateSettled(prefix, k);
    NormalizeKeepsCandidate(Candidate(prefix, j), suffix);
    NormalizeKeepsCandidate(Candidate(prefix, k), suffix);
    var cj, ck, t := Candidate(prefix, j), Candidate(prefix, k), Tail(suffix);
    assert |cj + t| == |ck + t|;
    assert cj == (cj + t)[..|cj|] && ck == (ck + t)[..|ck|];
    if j != 0 && k != 0 {
      assert cj[|prefix| + 1..] == Itoa(j) && ck[|prefix| + 1..] == Itoa(k);
      AtoiItoa(j);
      AtoiItoa(k);
    }
  }

  lemma {:induction false} DistinctFit(keys: seq<string>, table: set<string>)
    requires forall i :: 0 <= i < |keys| ==> keys[i] in table
    requires forall i, j :: 0 <= i < j < |keys| ==> keys[i] != keys[j]
    ensures |keys| <= |table|
  {
    if keys != [] {
      var n := |keys| - 1;
      DistinctFit(keys[..n], table - {keys[n]});
    }
  }

  predicate AllTaken(records: Records, prefix: string, suffix: string, k: nat) {
    forall j :: 0 <= j < k ==> Key(prefix, j, suffix) in records
  }

  // A run of taken candidates is no longer than the table.
  lemma TakenFitsTable(records: Records, prefix: string, suffix: string, k: nat)
    requires LabelShaped(prefix) && AllTaken(records, prefix, suffix, k)
    ensures k <= |records|
  {
    var keys := seq(k, j requires 0 <= j < k => Key(prefix, j, suffix));
    forall i, j | 0 <= i < j < k ensures keys[i] != keys[j] {
      if keys[i] == keys[j] {
        KeysDistinct(prefix, suffix, i, j);
      }
    }
    DistinctFit(keys, records.Keys);
  }

  lemma OneMoreTaken(records: Records, prefix: string, suffix: string, k: nat)
    requires AllTaken(records, prefix, suffix, k) && Key(prefix, k, suffix) in records
    ensures AllTaken(records, prefix, suffix, k + 1)
  {
  }

  predicate LeastFree(records: Records, prefix: string, suffix: string, k: nat) {
    Key(prefix, k, suffix) !in records && AllTaken(records, prefix, suffix, k)
  }

  lemma LeastFreeUnique(records: Records, prefix: string, suffix: string, a: nat, b: nat)
    requires LeastFree(records, prefix, suffix, a) && LeastFree(records, prefix, suffix, b)
    ensures a == b
  {
  }

  /** The first free number exists for every finite table, at most |records|. */
  function FreeFrom(records: Records, prefix: string, suffix: string, k: nat): (free: nat)
    requires LabelShaped(prefix) && AllTaken(records, prefix, suffix, k)
    ensures LeastFree(records, prefix, suffix, free) && k <= free <= |records|
    decreases |records| + 1 - k
  {
    TakenFitsTable(records, prefix, suffix, k);
    if Key(prefix, k, suffix) !in records then k else
    OneMoreTaken(records, prefix, suffix, k);
    FreeFrom(records, prefix, suffix, k + 1)
  }

  function Free(records: Records, target: string, suffix: string): (free: nat)
    ensures LeastFree(records, Prefix(target), suffix, free) && free <= |records|
  {
    PrefixIsLabelShaped(target);
    FreeFrom(records, Prefix(target), suffix, 0)
  }

  // RegisterTarget as a function: the name chosen and the new table.
  function Assign(records: Records, target: string, suffix: string, ip: IPv4): (string, Records) {
    var name := Name(Prefix(target), Free(records, target, suffix), suffix);
    (name, records[Normalize(name) := ip])
  }

  function Lookup(records: Records, name: string): Option<IPv4> {
    if Normalize(name) in records then Some(records[Normalize(name)]) else None
  }

  function Forget(records: Records, name: string): Records { records - {Normalize(name)} }

  /** A new target's name was free, resolves to the target's address, disturbs no
      other record, and unregistering it restores the table. */
  lemma AssignIsFresh(records: Records, target: string, suffix: string, ip: IPv4)
    ensures var (name, records') := Assign(records, target, suffix, ip);
            && Normalize(name) !in records
            && Lookup(records', name) == Some(ip)
            && (forall other :: other in records ==> other in records' && records'[other] == records[other])
            && Forget(records', name) == records
  {
  }

  class Manager {
    const suffix: string
    var records: Records

    constructor (suffix: string)
      ensures this.suffix == Normalize(suffix) && records == map[]
    {
      this.suffix, records := Normalize(suffix), map[];
    }

    method Register(name: string, ip: seq<byte>) returns (ok: bool)
      modifies this
      ensures ok == (To4(ip).Some? && Normalize(name) !in old(records))
      ensures records == if ok then old(records)[Normalize(name) := To4(ip).value] else old(records)
    {
      ok := To4(ip).Some? && Normalize(name) !in records;
      if ok {
        records := records[Normalize(name) := To4(ip).value];
      }
    }

    method RegisterTarget(target: string, ip: seq<byte>) returns (name: Option<string>)
      modifies this
      ensures To4(ip).None? ==> name == None && records == old(records)
      ensures To4(ip).Some? ==>
                name.Some? && (name.value, records) == Assign(old(records), target, suffix, To4(ip).value)
    {
      if To4(ip).None? {
        return None;
      }
      var prefix := TargetPrefix(target);
      PrefixIsLabelShaped(target);
      var number := FirstFree(prefix);
      LeastFreeUnique(records, prefix, suffix, number, Free(records, target, suffix));
      name := Some(Name(prefix, number, suffix));
      records := records[Normalize(name.value) := To4(ip).value];
    }

    // The numbering loop of RegisterTarget: it ends within |records| + 1 tries.
    method FirstFree(prefix: string) returns (number: nat)
      requires LabelShaped(prefix)
      ensures LeastFree(records, prefix, suffix, number) && number <= |records|
    {
      number := 0;
      TakenFitsTable(records, prefix, suffix, 0);
      while Key(prefix, number, suffix) in records
        invariant number <= |records|
        invariant AllTaken(records, prefix, suffix, number)
        decreases |records| + 1 - number
      {
        OneMoreTaken(records, prefix, suffix, number);
        number := number + 1;
        TakenFitsTable(records, prefix, suffix, number);
      }
    }

    method Unregister(name: string)
      modifies this
      ensures records == Forget(old(records), name)
    {
      records := records - {Normalize(name)};
    }
  }
}
