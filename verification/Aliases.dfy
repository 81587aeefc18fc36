/**
 internal/sshconfig/aliases.go: the host aliases of an ssh configuration and of all
 the files it includes, over a possibly cyclic Include graph.

 The file system, the decoder and filepath.Glob are parameters: `files` holds what
 decoding each existing file gives, `glob` the matches of a pattern.
 */
module Aliases {
  import opened Wrappers
  import opened Text
  import opened Sets
  import opened Sorting
  import Layout

  // A Host or Match block, with the words of its Include lines.
  datatype Host = Host(isHost: bool, patterns: seq<string>, includes: seq<string>)

  datatype File = Unreadable | Content(hosts: seq<Host>)

  datatype World = World(
    files: map<string, File>,
    glob: string -> Option<seq<string>>,
    home: string,
    wd: seq<string>)

  predicate IsConcreteHostAlias(s: string) { s != "" && '*' !in s && '?' !in s && '!' !in s }

  function ExpandHome(w: World, path: string): string {
    if w.home == "" then path
    else if path == "~" then w.home
    else if HasPrefix(path, "~/") then Layout.JoinPath(w.home, path[2..])
    else path
  }

  function Expanded(w: World, path: string): string {
    var e := ExpandHome(w, path);
    if Layout.IsAbs(e) then e else Layout.Abs(e, w.wd)
  }

  function Matches(w: World, path: string): Option<seq<string>> {
    match w.glob(Expanded(w, path))
    case None => None
    case Some(m) => Some(if m == [] then [Expanded(w, path)] else m)
  }

  // filepath.Dir of a cleaned absolute path
  function Dir(path: string): string {
    var parts := Layout.Parts(path);
    Layout.Render(true, if parts == [] then [] else parts[..|parts| - 1])
  }

  // An Include argument as seen from the file it stands in.
  function Included(w: World, file: string, arg: string): string {
    var e := ExpandHome(w, arg);
    if Layout.IsAbs(e) then e else Layout.JoinPath(Dir(file), e)
  }

  /** An Include argument names what follows "~/" below the home directory, an absolute path,
      or a path from the directory of the file it stands in, with ".." resolved. */
  lemma IncludeResolves(w: World, home: seq<string>, dir: seq<string>, name: string, arg: string)
    requires Layout.Normal(home, true) && Layout.Normal(dir + [name], true) && w.home == Layout.Render(true, home)
    ensures var file := Layout.Render(true, dir + [name]);
            && Included(w, file, "~/" + arg) == Layout.Render(true, Layout.Walk(home, Layout.Split(arg), true))
            && (arg != "~" && !HasPrefix(arg, "~/") ==>
                  Included(w, file, arg) ==
                  if Layout.IsAbs(arg) then arg else Layout.Render(true, Layout.Walk(dir, Layout.Split(arg), true)))
  {
    var file := Layout.Render(true, dir + [name]);
    assert ("~/" + arg)[2..] == arg && HasPrefix("~/" + arg, "~/");
    Layout.JoinResolves(home, arg);
    Layout.RenderedSplits(dir + [name], true);
    assert (dir + [name])[..|dir|] == dir && Layout.Normal(dir, true);
    assert Dir(file) == Layout.Render(true, dir);
    Layout.JoinResolves(dir, arg);
  }

  // ----- the Include graph

  function Cleaned(matches: seq<string>): set<string> {
    if matches == [] then {} else Cleaned(matches[..|matches| - 1]) + {Layout.Clean(matches[|matches| - 1])}
  }

  // The files a path stands for.
  function FilesOf(w: World, path: string): set<string> {
    match Matches(w, path)
    case None => {}
    case Some(m) => Cleaned(m)
  }

  function TargetsOf(w: World, file: string, includes: seq<string>): set<string> {
    if includes == [] then {} else
    TargetsOf(w, file, includes[..|includes| - 1]) + FilesOf(w, Included(w, file, includes[|includes| - 1]))
  }

  ghost predicate Resolves(w: World, file: string, includes: seq<string>) {
    forall i :: 0 <= i < |includes| ==> Matches(w, Included(w, file, includes[i])).Some?
  }

  function IncludesOf(hosts: seq<Host>): seq<string> {
    if hosts == [] then [] else IncludesOf(hosts[..|hosts| - 1]) + hosts[|hosts| - 1].includes
  }

  function Concrete(patterns: seq<string>): set<string> { set p | p in patterns && IsConcreteHostAlias(p) }

  function AliasesIn(hosts: seq<Host>): set<string> {
    if hosts == [] then {} else
    var last := hosts[|hosts| - 1];
    AliasesIn(hosts[..|hosts| - 1]) + if last.isHost then Concrete(last.patterns) else {}
  }

  function HostsOf(w: World, file: string): seq<Host> {
    if file in w.files && w.files[file].Content? then w.files[file].hosts else []
  }

  function Successors(w: World, file: string): set<string> { TargetsOf(w, file, IncludesOf(HostsOf(w, file))) }

  function AliasesOf(w: World, file: string): set<string> { AliasesIn(HostsOf(w, file)) }

  // Reading the file, or resolving one of its includes, fails.
  ghost predicate Fails(w: World, file: string) {
    (file in w.files && w.files[file].Unreadable?) || !Resolves(w, file, IncludesOf(HostsOf(w, file)))
  }

  ghost predicate Chain(w: World, chain: seq<string>) {
    chain != [] && forall i :: 0 <= i < |chain| - 1 ==> chain[i + 1] in Successors(w, chain[i])
  }

  ghost predicate Reaches(w: World, from: set<string>, file: string) {
    exists chain :: Chain(w, chain) && chain[0] in from && chain[|chain| - 1] == file
  }

  lemma ReachesItself(w: World, from: set<string>, file: string)
    requires file in from
    ensures Reaches(w, from, file)
  {
    assert Chain(w, [file]);
  }

  lemma ChainFront(w: World, first: string, chain: seq<string>)
    requires Chain(w, chain) && chain[0] in Successors(w, first)
    ensures Chain(w, [first] + chain)
  {
    var longer := [first] + chain;
    forall i | 0 <= i < |longer| - 1 ensures longer[i + 1] in Successors(w, longer[i]) {
      if i > 0 {
        assert chain[i - 1 + 1] in Successors(w, chain[i - 1]);
      }
    }
  }

  lemma ReachesThrough(w: World, from: set<string>, first: string, next: set<string>, file: string)
    requires first in from && next <= Successors(w, first) && Reaches(w, next, file)
    ensures Reaches(w, from, file)
  {
    var chain :| Chain(w, chain) && chain[0] in next && chain[|chain| - 1] == file;
    ChainFront(w, first, chain);
    var longer := [first] + chain;
    assert longer[0] in from && longer[|longer| - 1] == file;
  }

  lemma ReachesMore(w: World, from: set<string>, more: set<string>, file: string)
    requires from <= more && Reaches(w, from, file)
    ensures Reaches(w, more, file)
  {
  }

  lemma {:induction false} ChainStays(w: World, chain: seq<string>, seen: set<string>)
    requires Chain(w, chain) && chain[0] in seen && forall f :: f in seen ==> Successors(w, f) <= seen
    ensures chain[|chain| - 1] in seen
    decreases |chain|
  {
    if |chain| > 1 {
      assert chain[0 + 1] in Successors(w, chain[0]);
      ChainStays(w, chain[1..], seen);
    }
  }

  // ----- what one call adds

  function Gathered(w: World, files: set<string>): set<string> {
    set f, a | f in files && a in AliasesOf(w, f) :: a
  }

  datatype Seen = Seen(files: set<string>, aliases: set<string>)

  ghost predicate Done(w: World, from: set<string>, before: Seen, after: Seen) {
    && before.files <= after.files && from <= after.files
    && (forall f :: f in after.files - before.files ==> !Fails(w, f) && Successors(w, f) <= after.files)
    && after.aliases == before.aliases + Gathered(w, after.files - before.files)
  }

  ghost predicate OnlyReached(w: World, from: set<string>, before: Seen, after: Seen) {
    before.files <= after.files && forall f :: f in after.files - before.files ==> Reaches(w, from, f)
  }

  // Something that reading from `from` must come across fails.
  ghost predicate FailureFrom(w: World, from: set<string>) { exists f :: Reaches(w, from, f) && Fails(w, f) }

  lemma GatheredUnion(w: World, a: set<string>, b: set<string>)
    ensures Gathered(w, a + b) == Gathered(w, a) + Gathered(w, b)
  {
  }

  lemma DoneThen(w: World, a: set<string>, b: set<string>, both: set<string>, s0: Seen, s1: Seen, s2: Seen)
    requires Done(w, a, s0, s1) && Done(w, b, s1, s2) && both == a + b
    ensures Done(w, both, s0, s2)
  {
    var x, y := s1.files - s0.files, s2.files - s1.files;
    GatheredUnion(w, x, y);
    assert s2.files - s0.files == x + y;
  }

  lemma ReachedThen(w: World, a: set<string>, b: set<string>, both: set<string>, s0: Seen, s1: Seen, s2: Seen)
    requires OnlyReached(w, a, s0, s1) && OnlyReached(w, b, s1, s2) && both == a + b
    ensures OnlyReached(w, both, s0, s2)
  {
    forall f | f in s2.files - s0.files ensures Reaches(w, both, f) {
      ReachesMore(w, if f in s1.files then a else b, both, f);
    }
  }

  lemma DoneAlias(w: World, a: set<string>, s0: Seen, s1: Seen, more: set<string>)
    requires Done(w, a, s0, s1)
    ensures Done(w, a, WithAliases(s0, more), WithAliases(s1, more))
  {
  }

  // A file's own part: marked before its includes are followed.
  lemma DoneFile(w: World, file: string, before: Seen, after: Seen)
    requires file !in before.files && !Fails(w, file)
    requires Done(w, Successors(w, file), Seen(before.files + {file}, before.aliases + AliasesOf(w, file)), after)
    ensures Done(w, {file}, before, after)
  {
    var more := after.files - (before.files + {file});
    GatheredUnion(w, {file}, more);
    assert after.files - before.files == {file} + more;
    assert Gathered(w, {file}) == AliasesOf(w, file);
  }

  lemma ReachedFile(w: World, file: string, next: set<string>, before: Seen, marked: Seen, after: Seen)
    requires marked.files == before.files + {file} && next <= Successors(w, file) && OnlyReached(w, next, marked, after)
    ensures OnlyReached(w, {file}, before, after)
  {
    forall f | f in after.files - before.files ensures Reaches(w, {file}, f) {
      if f == file {
        ReachesItself(w, {file}, file);
      } else {
        ReachesThrough(w, {file}, file, next, f);
      }
    }
  }

  lemma NothingDone(w: World, s: Seen)
    ensures Done(w, {}, s, s) && OnlyReached(w, {}, s, s)
  {
    assert Gathered(w, {}) == {};
  }

  lemma SeenAlready(w: World, file: string, s: Seen)
    requires file in s.files
    ensures Done(w, {file}, s, s) && OnlyReached(w, {file}, s, s)
  {
    assert Gathered(w, {}) == {};
  }

  lemma FailsLater(w: World, file: string, next: set<string>)
    requires next <= Successors(w, file) && FailureFrom(w, next)
    ensures FailureFrom(w, {file})
  {
    var f :| Reaches(w, next, f) && Fails(w, f);
    ReachesThrough(w, {file}, file, next, f);
  }

  lemma FailsAmong(w: World, from: set<string>, more: set<string>)
    requires from <= more && FailureFrom(w, from)
    ensures FailureFrom(w, more)
  {
    var f :| Reaches(w, from, f) && Fails(w, f);
    ReachesMore(w, from, more, f);
  }

  lemma {:induction false} FirstMatches(matches: seq<string>, n: nat)
    requires n <= |matches|
    ensures Cleaned(matches[..n]) <= Cleaned(matches)
    ensures n < |matches| ==> Cleaned(matches[..n + 1]) == Cleaned(matches[..n]) + {Layout.Clean(matches[n])}
    decreases |matches|
  {
    if n < |matches| {
      assert matches[..n + 1][..n] == matches[..n];
      FirstMatches(matches[..|matches| - 1], n);
      assert matches[..|matches| - 1][..n] == matches[..n];
    } else {
      assert matches[..n] == matches;
    }
  }

  lemma {:induction false} FirstIncludes(w: World, file: string, includes: seq<string>, n: nat)
    requires n <= |includes|
    ensures TargetsOf(w, file, includes[..n]) <= TargetsOf(w, file, includes)
    ensures n < |includes| ==>
              TargetsOf(w, file, includes[..n + 1]) == TargetsOf(w, file, includes[..n]) + FilesOf(w, Included(w, file, includes[n]))
    decreases |includes|
  {
    if n < |includes| {
      assert includes[..n + 1][..n] == includes[..n];
      FirstIncludes(w, file, includes[..|includes| - 1], n);
      assert includes[..|includes| - 1][..n] == includes[..n];
    } else {
      assert includes[..n] == includes;
    }
  }

  lemma {:induction false} TargetsAppend(w: World, file: string, a: seq<string>, b: seq<string>)
    ensures TargetsOf(w, file, a + b) == TargetsOf(w, file, a) + TargetsOf(w, file, b)
    decreases |b|
  {
    if b == [] {
      assert a + b == a;
    } else {
      assert (a + b)[..|a + b| - 1] == a + b[..|b| - 1];
      TargetsAppend(w, file, a, b[..|b| - 1]);
    }
  }

  // Files on disk that have not been visited: what the recursion consumes.
  function Left(w: World, seen: set<string>): nat { |w.files.Keys - seen| }

  lemma LeftShrinks(w: World, seen: set<string>, more: set<string>)
    requires seen <= more
    ensures Left(w, more) <= Left(w, seen)
    ensures (exists f :: f in w.files && f in more && f !in seen) ==> Left(w, more) < Left(w, seen)
  {
    var a, b := w.files.Keys - more, w.files.Keys - seen;
    assert a <= b;
    SubsetSize(a, b);
    if f :| f in w.files && f in more && f !in seen {
      assert a <= b - {f};
      SubsetSize(a, b - {f});
    }
  }

  lemma {:induction false} SubsetSize(a: set<string>, b: set<string>)
    requires a <= b
    ensures |a| <= |b|
  {
    if a != {} {
      var x :| x in a;
      SubsetSize(a - {x}, b - {x});
    }
  }

  class Collector {
    var seenFiles: set<string>
    var seenAliases: set<string>

    constructor ()
      ensures seenFiles == {} && seenAliases == {}
    {
      seenFiles, seenAliases := {}, {};
    }

    ghost function Now(): Seen
      reads this
    {
      Seen(seenFiles, seenAliases)
    }

    /** Visits what the path stands for and everything included from there. */
    method CollectAliases(w: World, path: string) returns (ok: bool)
      modifies this
      ensures OnlyReached(w, FilesOf(w, path), old(Now()), Now())
      ensures ok ==> Matches(w, path).Some? && Done(w, FilesOf(w, path), old(Now()), Now())
      ensures !ok ==> Matches(w, path).None? || FailureFrom(w, FilesOf(w, path))
      decreases Left(w, seenFiles), 1
    {
      NothingDone(w, Now());
      var expanded := Expanded(w, path);
      var globbed := w.glob(expanded);
      if globbed.None? {
        assert FilesOf(w, path) == {};
        return false;
      }
      var matches := if globbed.value == [] then [expanded] else globbed.value;
      for i := 0 to |matches|
        invariant OnlyReached(w, Cleaned(matches[..i]), old(Now()), Now())
        invariant Done(w, Cleaned(matches[..i]), old(Now()), Now())
      {
        ghost var mid, done, next, both := Now(), Cleaned(matches[..i]), {Layout.Clean(matches[i])}, Cleaned(matches[..i + 1]);
        FirstMatches(matches, i);
        FirstMatches(matches, i + 1);
        LeftShrinks(w, old(seenFiles), seenFiles);
        ok := CollectAliasesFile(w, matches[i]);
        ReachedThen(w, done, next, both, old(Now()), mid, Now());
        if !ok {
          FailsAmong(w, next, Cleaned(matches));
          OnlyReachedMore(w, both, Cleaned(matches), old(Now()), Now());
          return;
        }
        DoneThen(w, done, next, both, old(Now()), mid, Now());
      }
      assert matches[..|matches|] == matches;
      ok := true;
    }

    method CollectAliasesFile(w: World, path: string) returns (ok: bool)
      modifies this
      ensures OnlyReached(w, {Layout.Clean(path)}, old(Now()), Now())
      ensures ok ==> Done(w, {Layout.Clean(path)}, old(Now()), Now())
      ensures !ok ==> FailureFrom(w, {Layout.Clean(path)})
      decreases Left(w, seenFiles), 0
    {
      var clean := Layout.Clean(path);
      if clean in seenFiles {
        SeenAlready(w, clean, Now());
        return true;
      }
      ghost var before := Now();
      seenFiles := seenFiles + {clean};
      ghost var marked := Now();
      NothingDone(w, marked);
      ReachedFile(w, clean, {}, before, marked, marked);
      ReachesItself(w, {clean}, clean);
      if clean !in w.files {
        DoneFile(w, clean, before, marked);
        return true;
      }
      if w.files[clean].Unreadable? {
        return false;
      }
      LeftShrinks(w, before.files, seenFiles);
      ok := CollectHosts(w, clean, w.files[clean].hosts);
      var includes := IncludesOf(HostsOf(w, clean));
      ReachedFile(w, clean, Successors(w, clean), before, marked, Now());
      if ok {
        DoneFile(w, clean, before, Now());
      } else if Resolves(w, clean, includes) {
        FailsLater(w, clean, Successors(w, clean));
      }
    }

    // The loop over the blocks of a decoded file.
    method CollectHosts(w: World, file: string, hosts: seq<Host>) returns (ok: bool)
      modifies this
      ensures OnlyReached(w, TargetsOf(w, file, IncludesOf(hosts)), old(Now()), Now())
      ensures ok ==> Resolves(w, file, IncludesOf(hosts))
      ensures ok ==> Done(w, TargetsOf(w, file, IncludesOf(hosts)), WithAliases(old(Now()), AliasesIn(hosts)), Now())
      ensures !ok ==> !Resolves(w, file, IncludesOf(hosts)) || FailureFrom(w, TargetsOf(w, file, IncludesOf(hosts)))
      decreases Left(w, seenFiles), 3
    {
      ghost var before := Now();
      NothingDone(w, before);
      for i := 0 to |hosts|
        invariant before.files <= seenFiles
        invariant OnlyReached(w, TargetsOf(w, file, IncludesOf(hosts[..i])), before, Now())
        invariant Resolves(w, file, IncludesOf(hosts[..i]))
        invariant Done(w, TargetsOf(w, file, IncludesOf(hosts[..i])), WithAliases(before, AliasesIn(hosts[..i])), Now())
      {
        ghost var mid, prior, next, through := Now(), IncludesOf(hosts[..i]), hosts[i].includes, IncludesOf(hosts[..i + 1]);
        ghost var done, all := TargetsOf(w, file, prior), TargetsOf(w, file, through);
        FirstHosts(w, file, hosts, i);
        AddConcrete(hosts[i]);
        ghost var added := if hosts[i].isHost then Concrete(hosts[i].patterns) else {};
        DoneAlias(w, done, WithAliases(before, AliasesIn(hosts[..i])), mid, added);
        MoreAliases(before, AliasesIn(hosts[..i]), added);
        LeftShrinks(w, before.files, seenFiles);
        ghost var marked := Now();
        ok := CollectIncludes(w, file, hosts[i].includes);
        TargetsAppend(w, file, prior, next);
        ReachedThen(w, done, TargetsOf(w, file, next), all, before, marked, Now());
        if !ok {
          OnlyReachedMore(w, all, TargetsOf(w, file, IncludesOf(hosts)), before, Now());
          ResolvesPart(w, file, prior, next);
          if Resolves(w, file, next) {
            FailsAmong(w, TargetsOf(w, file, next), TargetsOf(w, file, IncludesOf(hosts)));
          } else {
            assert !Resolves(w, file, IncludesOf(hosts));
          }
          return;
        }
        DoneThen(w, done, TargetsOf(w, file, next), all, WithAliases(before, AliasesIn(hosts[..i + 1])), marked, Now());
      }
      assert hosts[..|hosts|] == hosts;
      ok := true;
    }

    // The loop over the patterns of a Host block; other blocks have none.
    method AddConcrete(host: Host)
      modifies this`seenAliases
      ensures Now() == WithAliases(old(Now()), if host.isHost then Concrete(host.patterns) else {})
    {
      if host.isHost {
        for i := 0 to |host.patterns|
          invariant seenAliases == old(seenAliases) + Concrete(host.patterns[..i])
        {
          assert host.patterns[..i + 1] == host.patterns[..i] + [host.patterns[i]];
          if IsConcreteHostAlias(host.patterns[i]) {
            seenAliases := seenAliases + {host.patterns[i]};
          }
        }
        assert host.patterns[..|host.patterns|] == host.patterns;
      }
    }

    // The loop over the Include arguments of a block.
    method CollectIncludes(w: World, file: string, includes: seq<string>) returns (ok: bool)
      modifies this
      ensures OnlyReached(w, TargetsOf(w, file, includes), old(Now()), Now())
      ensures ok ==> Resolves(w, file, includes) && Done(w, TargetsOf(w, file, includes), old(Now()), Now())
      ensures !ok ==> !Resolves(w, file, includes) || FailureFrom(w, TargetsOf(w, file, includes))
      decreases Left(w, seenFiles), 2
    {
      ghost var before := Now();
      NothingDone(w, before);
      for i := 0 to |includes|
        invariant OnlyReached(w, TargetsOf(w, file, includes[..i]), before, Now())
        invariant Resolves(w, file, includes[..i])
        invariant Done(w, TargetsOf(w, file, includes[..i]), before, Now())
      {
        ghost var mid, done, both := Now(), TargetsOf(w, file, includes[..i]), TargetsOf(w, file, includes[..i + 1]);
        ghost var next := FilesOf(w, Included(w, file, includes[i]));
        FirstIncludes(w, file, includes, i);
        FirstIncludes(w, file, includes, i + 1);
        ResolvesNext(w, file, includes, i);
        LeftShrinks(w, before.files, seenFiles);
        ok := CollectAliases(w, Included(w, file, includes[i]));
        ReachedThen(w, done, next, both, before, mid, Now());
        if !ok {
          OnlyReachedMore(w, both, TargetsOf(w, file, includes), before, Now());
          if Matches(w, Included(w, file, includes[i])).Some? {
            FailsAmong(w, next, TargetsOf(w, file, includes));
          }
          return;
        }
        DoneThen(w, done, next, both, before, mid, Now());
      }
      assert includes[..|includes|] == includes;
      ok := true;
    }
  }

  function WithAliases(s: Seen, more: set<string>): Seen { s.(aliases := s.aliases + more) }

  lemma MoreAliases(s: Seen, a: set<string>, b: set<string>)
    ensures WithAliases(WithAliases(s, a), b) == WithAliases(s, a + b)
  {
  }

  lemma {:induction false} FirstHosts(w: World, file: string, hosts: seq<Host>, n: nat)
    requires n < |hosts|
    ensures IncludesOf(hosts[..n + 1]) == IncludesOf(hosts[..n]) + hosts[n].includes
    ensures AliasesIn(hosts[..n + 1]) == AliasesIn(hosts[..n]) + if hosts[n].isHost then Concrete(hosts[n].patterns) else {}
    ensures TargetsOf(w, file, IncludesOf(hosts[..n + 1])) <= TargetsOf(w, file, IncludesOf(hosts))
    ensures Resolves(w, file, IncludesOf(hosts)) ==> Resolves(w, file, IncludesOf(hosts[..n + 1]))
    decreases |hosts|
  {
    assert hosts[..n + 1][..n] == hosts[..n];
    if n + 1 == |hosts| {
      assert hosts[..n + 1] == hosts;
    } else {
      var init := hosts[..|hosts| - 1];
      FirstHosts(w, file, init, n);
      assert init[..n + 1] == hosts[..n + 1];
      TargetsAppend(w, file, IncludesOf(init), hosts[|hosts| - 1].includes);
      ResolvesPart(w, file, IncludesOf(init), hosts[|hosts| - 1].includes);
    }
    ResolvesPart(w, file, IncludesOf(hosts[..n]), hosts[n].includes);
  }

  lemma ResolvesNext(w: World, file: string, includes: seq<string>, n: nat)
    requires n < |includes|
    ensures Resolves(w, file, includes[..n + 1]) <==> Resolves(w, file, includes[..n]) && Matches(w, Included(w, file, includes[n])).Some?
    ensures Resolves(w, file, includes) ==> Matches(w, Included(w, file, includes[n])).Some?
  {
    if Resolves(w, file, includes[..n + 1]) {
      assert forall i :: 0 <= i < n ==> includes[..n][i] == includes[..n + 1][i];
      assert includes[..n + 1][n] == includes[n];
    }
  }

  lemma ResolvesPart(w: World, file: string, a: seq<string>, b: seq<string>)
    ensures Resolves(w, file, a + b) <==> Resolves(w, file, a) && Resolves(w, file, b)
  {
    if Resolves(w, file, a + b) {
      assert forall i :: 0 <= i < |a| ==> (a + b)[i] == a[i];
      assert forall i :: 0 <= i < |b| ==> (a + b)[|a| + i] == b[i];
    }
  }

  lemma OnlyReachedMore(w: World, from: set<string>, more: set<string>, before: Seen, after: Seen)
    requires from <= more && OnlyReached(w, from, before, after)
    ensures OnlyReached(w, more, before, after)
  {
    forall f | f in after.files - before.files ensures Reaches(w, more, f) {
      ReachesMore(w, from, more, f);
    }
  }

  // ----- whole configurations

  // Some file included from `path`, directly or not, names the alias.
  ghost predicate Names(w: World, path: string, alias: string) {
    exists f :: Reaches(w, FilesOf(w, path), f) && alias in AliasesOf(w, f)
  }

  // A Host block of the file lists the word.
  predicate InHostBlock(w: World, file: string, alias: string) {
    exists i :: 0 <= i < |HostsOf(w, file)| && HostsOf(w, file)[i].isHost && alias in HostsOf(w, file)[i].patterns
  }

  lemma {:induction false} AliasesInAre(hosts: seq<Host>, alias: string)
    ensures alias in AliasesIn(hosts) <==>
            alias != "" && '*' !in alias && '?' !in alias && '!' !in alias
            && exists i :: 0 <= i < |hosts| && hosts[i].isHost && alias in hosts[i].patterns
  {
    if hosts != [] {
      var n := |hosts| - 1;
      AliasesInAre(hosts[..n], alias);
      assert forall i :: 0 <= i < n ==> hosts[..n][i] == hosts[i];
    }
  }

  /** An alias is a word without wildcards or "!" in a Host block of a file reached. */
  lemma NamesMeans(w: World, path: string, alias: string)
    ensures Names(w, path, alias) <==>
            alias != "" && '*' !in alias && '?' !in alias && '!' !in alias
            && exists f :: Reaches(w, FilesOf(w, path), f) && InHostBlock(w, f, alias)
  {
    forall f ensures alias in AliasesOf(w, f) <==>
                     alias != "" && '*' !in alias && '?' !in alias && '!' !in alias && InHostBlock(w, f, alias)
    {
      AliasesInAre(HostsOf(w, f), alias);
    }
  }

  // The path or something reached from it cannot be read.
  ghost predicate Unusable(w: World, path: string) { Matches(w, path).None? || FailureFrom(w, FilesOf(w, path)) }

  /** A traversal that ends well has visited exactly the files reached from its start, none
      of which fails, and has gathered exactly their aliases. */
  lemma VisitedIsReached(w: World, from: set<string>, after: Seen)
    requires Done(w, from, Seen({}, {}), after) && OnlyReached(w, from, Seen({}, {}), after)
    ensures forall f :: f in after.files <==> Reaches(w, from, f)
    ensures !FailureFrom(w, from)
    ensures forall a :: a in after.aliases <==> exists f :: Reaches(w, from, f) && a in AliasesOf(w, f)
  {
    assert after.files - {} == after.files;
    forall f | Reaches(w, from, f) ensures f in after.files {
      var chain :| Chain(w, chain) && chain[0] in from && chain[|chain| - 1] == f;
      ChainStays(w, chain, after.files);
    }
  }

  method CollectFrom(w: World, path: string) returns (ok: bool, seen: Collector)
    ensures ok <==> !Unusable(w, path)
    ensures ok ==> (forall a :: a in seen.seenAliases <==> Names(w, path, a))
    ensures ok ==> (forall f :: f in seen.seenFiles <==> Reaches(w, FilesOf(w, path), f))
  {
    seen := new Collector();
    ok := seen.CollectAliases(w, path);
    if ok {
      VisitedIsReached(w, FilesOf(w, path), seen.Now());
    }
  }

  /** Fails exactly when something to be read cannot be; otherwise lists the concrete host
      patterns of all files reached, in order and once each. */
  method Aliases(w: World, path: string) returns (r: Option<seq<string>>)
    ensures path == "" ==> r == Some([])
    ensures path != "" ==> (r.None? <==> Unusable(w, path))
    ensures path != "" && r.Some? ==> Increasing(r.value, LeString) && forall a :: a in r.value <==> Names(w, path, a)
  {
    if path == "" {
      return Some([]);
    }
    var ok, seen := CollectFrom(w, path);
    if !ok {
      return None;
    }
    var out := Listed(seen.seenAliases);
    assert forall a :: a in out <==> a in Elements(out);
    r := Some(out);
  }

  method Listed(aliases: set<string>) returns (out: seq<string>)
    ensures Lists(out, aliases, LeString)
  {
    out := [];
    var todo := aliases;
    ghost var listed: set<string> := {};
    while todo != {}
      invariant todo <= aliases
      invariant Collects(out, listed) && listed == aliases - todo
      decreases |todo|
    {
      var alias := AnyOf(todo);
      Collect(out, alias, listed);
      listed := listed + {alias};
      out := out + [alias];
      todo := todo - {alias};
    }
    StringOrder();
    SortLists(out, listed, LeString);
    out := Sort(out, LeString);
  }

  method HasAlias(w: World, path: string, target: string) returns (r: Option<bool>)
    ensures path == "" ==> r == Some(false)
    ensures path != "" ==> (r.None? <==> Unusable(w, path))
    ensures path != "" && r.Some? ==> (r.value <==> Names(w, path, target))
  {
    if path == "" {
      return Some(false);
    }
    var ok, seen := CollectFrom(w, path);
    if !ok {
      return None;
    }
    r := Some(target in seen.seenAliases);
  }

  /** The list is determined by the aliases it holds: the order in which the files were
      visited does not show. */
  lemma ListIsDetermined(a: seq<string>, b: seq<string>)
    requires Increasing(a, LeString) && Increasing(b, LeString) && forall x :: x in a <==> x in b
    ensures a == b
  {
    StringOrder();
    assert Elements(a) == Elements(b);
    ListsUnique(a, b, Elements(a), LeString);
  }
}
