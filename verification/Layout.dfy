/**
 internal/remotefs/layout.go: the lexical algebra of mount paths, on Unix.

 Paths are strings.  path.Clean, filepath.Join, filepath.Abs and filepath.Rel are
 modelled by their documented effect on the elements between slashes; the working
 directory is a parameter.
 */
module Layout {
  import opened Wrappers
  import opened Text

  // strings.Split(s, "/")
  function Split(s: string): (r: seq<string>)
    ensures r != []
  {
    if s == [] then [[]] else
    var rest := Split(s[1..]);
    if s[0] == '/' then [[]] + rest else [[s[0]] + rest[0]] + rest[1..]
  }

  // "." and empty elements go, ".." takes back the one before.
  function Step(stack: seq<string>, e: string, rooted: bool): seq<string> {
    if e == "" || e == "." then stack
    else if e == ".." && stack != [] && stack[|stack| - 1] != ".." then stack[..|stack| - 1]
    else if e == ".." && rooted then stack
    else stack + [e]
  }

  function Walk(stack: seq<string>, raw: seq<string>, rooted: bool): seq<string>
    decreases |raw|
  {
    if raw == [] then stack else Walk(Step(stack, raw[0], rooted), raw[1..], rooted)
  }

  function Render(rooted: bool, parts: seq<string>): string {
    if rooted then "/" + Join(parts, "/") else if parts == [] then "." else Join(parts, "/")
  }

  predicate IsAbs(s: string) { s != "" && s[0] == '/' }

  // path.Clean, and filepath.Clean on Unix
  function Clean(s: string): string {
    if s == "" then "." else Render(IsAbs(s), Walk([], Split(s), IsAbs(s)))
  }

  // filepath.Join of two non-empty paths
  function JoinPath(base: string, rel: string): string { Clean(base + "/" + rel) }

  // filepath.Abs, with the elements of the working directory
  function Abs(s: string, wd: seq<string>): string { if IsAbs(s) then Clean(s) else JoinPath(Render(true, wd), s) }

  function Parts(absolute: string): seq<string> { Walk([], Split(absolute), true) }

  function Common(a: seq<string>, b: seq<string>): (n: nat)
    ensures n <= |a| && n <= |b|
  {
    if a != [] && b != [] && a[0] == b[0] then 1 + Common(a[1..], b[1..]) else 0
  }

  function Ups(n: nat): seq<string> { seq(n, _ => "..") }

  // filepath.Rel of two cleaned absolute paths
  function Rel(base: string, target: string): string {
    var a, b := Parts(base), Parts(target);
    Render(false, Ups(|a| - Common(a, b)) + b[Common(a, b)..])
  }

  // ----- layout.go

  datatype ExportLayout = ExportLayout(rootPath: string, relativeCwd: string, mountPath: string)

  datatype LayoutError = Invalid | Escapes

  predicate PathWithinRoot(rel: string) { rel == "." || (rel != ".." && !HasPrefix(rel, "../")) }

  predicate PathWithin(root: string, path: string, wd: seq<string>) {
    PathWithinRoot(Rel(Clean(Abs(root, wd)), Clean(Abs(path, wd))))
  }

  predicate HasBadChar(s: string) { 0 as char in s || '\\' in s }

  function CleanMountPath(value: string): Result<string, LayoutError> {
    if value == "" || HasBadChar(value) then Err(Invalid) else
    var clean := Clean(value);
    if clean == "." || HasPrefix(clean, "/") || clean == ".." || HasPrefix(clean, "../") then Err(Escapes) else Ok(clean)
  }

  function SourcePathHierarchy(source: string): Result<string, LayoutError> {
    var rest := TrimLeft(source, {'/', '\\'});
    CleanMountPath(if rest != "" then rest else "root")
  }

  function ResolveExportLayout(home0: string, cwd0: string, wd: seq<string>): Result<ExportLayout, LayoutError> {
    var home, cwd := Abs(home0, wd), Abs(cwd0, wd);
    var rel := Rel(home, cwd);
    var root, relativeCwd := if PathWithinRoot(rel) then home else cwd, if PathWithinRoot(rel) then rel else ".";
    match SourcePathHierarchy(root)
    case Err(e) => Err(e)
    case Ok(mountPath) => Ok(ExportLayout(root, relativeCwd, mountPath))
  }

  function MountPathBelow(base: string, hierarchy: string): Result<string, LayoutError> {
    match CleanMountPath(hierarchy)
    case Err(e) => Err(e)
    case Ok(clean) => Ok(JoinPath(base, clean))
  }

  function WorkspacePathBelow(mountRoot: string, relativeCwd: string): Result<string, LayoutError> {
    if relativeCwd == "" || HasBadChar(relativeCwd) then Err(Invalid) else
    var clean := Clean(relativeCwd);
    if HasPrefix(clean, "/") || clean == ".." || HasPrefix(clean, "../") then Err(Escapes)
    else if clean == "." then Ok(mountRoot) else Ok(JoinPath(mountRoot, clean))
  }

  // ----- strings and their elements

  predicate NoSlash(s: string) { '/' !in s }

  predicate AllNoSlash(parts: seq<string>) { forall i :: 0 <= i < |parts| ==> NoSlash(parts[i]) }

  lemma {:induction false} SplitParts(s: string)
    ensures AllNoSlash(Split(s))
  {
    if s != [] {
      SplitParts(s[1..]);
    }
  }

  lemma {:induction false} SplitOne(s: string)
    requires NoSlash(s)
    ensures Split(s) == [s]
  {
    if s != [] {
      assert s[0] in s && s == [s[0]] + s[1..];
      SplitOne(s[1..]);
    }
  }

  lemma SplitFirst(c: char, t: string, more: seq<string>)
    ensures Split([c] + t) + more == if c == '/' then [[]] + (Split(t) + more) else [[c] + (Split(t) + more)[0]] + (Split(t) + more)[1..]
  {
    assert ([c] + t)[1..] == t;
  }

  lemma {:induction false} SplitConcat(a: string, b: string)
    ensures Split(a + "/" + b) == Split(a) + Split(b)
  {
    var s := a + "/" + b;
    if a == [] {
      assert s[1..] == b && s[0] == '/';
    } else {
      SplitConcat(a[1..], b);
      assert s[1..] == a[1..] + "/" + b && s[0] == a[0];
      assert [a[0]] + a[1..] == a;
      SplitFirst(a[0], a[1..], Split(b));
    }
  }

  lemma {:induction false} SplitJoin(parts: seq<string>)
    requires parts != [] && AllNoSlash(parts)
    ensures Split(Join(parts, "/")) == parts
  {
    SplitOne(parts[0]);
    if |parts| > 1 {
      SplitJoin(parts[1..]);
      SplitConcat(parts[0], Join(parts[1..], "/"));
    }
  }

  predicate Element(s: string) { s != "" && s != "." && NoSlash(s) }

  // Cleaned: ".." only in front, and not at all below "/".
  predicate Normal(parts: seq<string>, rooted: bool) {
    && (forall i :: 0 <= i < |parts| ==> Element(parts[i]))
    && (forall i :: 0 <= i < |parts| && parts[i] == ".." ==> !rooted && (i > 0 ==> parts[i - 1] == ".."))
  }

  lemma StepIsNormal(stack: seq<string>, e: string, rooted: bool)
    requires Normal(stack, rooted) && NoSlash(e)
    ensures Normal(Step(stack, e, rooted), rooted)
  {
  }

  lemma {:induction false} WalkIsNormal(stack: seq<string>, raw: seq<string>, rooted: bool)
    requires Normal(stack, rooted) && AllNoSlash(raw)
    ensures Normal(Walk(stack, raw, rooted), rooted)
    decreases |raw|
  {
    if raw != [] {
      StepIsNormal(stack, raw[0], rooted);
      WalkIsNormal(Step(stack, raw[0], rooted), raw[1..], rooted);
    }
  }

  lemma {:induction false} WalkAppend(stack: seq<string>, a: seq<string>, b: seq<string>, rooted: bool)
    ensures Walk(stack, a + b, rooted) == Walk(Walk(stack, a, rooted), b, rooted)
    decreases |a|
  {
    if a == [] {
      assert a + b == b;
    } else {
      assert (a + b)[1..] == a[1..] + b;
      WalkAppend(Step(stack, a[0], rooted), a[1..], b, rooted);
    }
  }

  // Walking elements that are already in place only pushes them.
  lemma {:induction false} WalkPushes(stack: seq<string>, more: seq<string>, rooted: bool)
    requires Normal(stack + more, rooted)
    ensures Walk(stack, more, rooted) == stack + more
    decreases |more|
  {
    if more == [] {
      assert stack + more == stack;
    } else {
      assert (stack + more)[|stack|] == more[0];
      assert stack != [] ==> (stack + more)[|stack| - 1] == stack[|stack| - 1];
      assert stack + [more[0]] + more[1..] == stack + more;
      assert Step(stack, more[0], rooted) == stack + [more[0]];
      WalkPushes(stack + [more[0]], more[1..], rooted);
    }
  }

  lemma JoinFirst(parts: seq<string>)
    requires parts != [] && parts[0] != ""
    ensures var s := Join(parts, "/"); s != "" && s[0] == parts[0][0]
  {
  }

  lemma RenderedSplits(parts: seq<string>, rooted: bool)
    requires Normal(parts, rooted)
    ensures Walk([], Split(Render(rooted, parts)), rooted) == parts
    ensures IsAbs(Render(rooted, parts)) == rooted && Render(rooted, parts) != ""
  {
    var s := Join(parts, "/");
    assert [] + parts == parts;
    WalkPushes([], parts, rooted);
    if parts != [] {
      SplitJoin(parts);
      JoinFirst(parts);
      assert parts[0][0] in parts[0];
    }
    if rooted {
      assert "" + "/" + s == "/" + s;
      SplitConcat("", s);
      var raw := if parts == [] then [""] else parts;
      assert Split("/" + s) == [""] + raw && ([""] + raw)[1..] == raw;
    } else if parts == [] {
      SplitOne(".");
    }
  }

  /** Cleaned paths are fixed points of Clean, and their elements determine them. */
  lemma CleanIsIdempotent(s: string)
    ensures Clean(Clean(s)) == Clean(s)
    ensures exists rooted, parts :: Normal(parts, rooted) && Clean(s) == Render(rooted, parts)
  {
    var rooted := IsAbs(s);
    var parts := Walk([], Split(s), rooted);
    SplitParts(s);
    WalkIsNormal([], Split(s), rooted);
    if s != "" {
      RenderedSplits(parts, rooted);
    } else {
      RenderedSplits([], false);
      assert Clean(s) == Render(false, []);
    }
  }

  lemma RenderInjective(a: seq<string>, b: seq<string>, rooted: bool)
    requires Normal(a, rooted) && Normal(b, rooted) && Render(rooted, a) == Render(rooted, b)
    ensures a == b
  {
    RenderedSplits(a, rooted);
    RenderedSplits(b, rooted);
  }

  lemma PartsNormal(s: string)
    requires IsAbs(s)
    ensures Normal(Parts(s), true) && Clean(s) == Render(true, Parts(s))
  {
    SplitParts(s);
    WalkIsNormal([], Split(s), true);
  }

  // Joining resolves the elements of the second path against the first.
  lemma JoinResolves(base: seq<string>, rel: string)
    requires Normal(base, true)
    ensures var parts := Walk(base, Split(rel), true);
            JoinPath(Render(true, base), rel) == Render(true, parts) && Normal(parts, true)
  {
    var b := Render(true, base);
    RenderedSplits(base, true);
    SplitConcat(b, rel);
    WalkAppend([], Split(b), Split(rel), true);
    SplitParts(rel);
    WalkIsNormal(base, Split(rel), true);
    assert IsAbs(b + "/" + rel);
  }

  function AbsParts(s: string, wd: seq<string>): seq<string> { if IsAbs(s) then Parts(s) else Walk(wd, Split(s), true) }

  lemma AbsIs(s: string, wd: seq<string>)
    requires Normal(wd, true)
    ensures Normal(AbsParts(s, wd), true) && Abs(s, wd) == Render(true, AbsParts(s, wd))
  {
    if IsAbs(s) {
      PartsNormal(s);
    } else {
      JoinResolves(wd, s);
    }
  }

  // ----- staying below a directory

  lemma {:induction false} CommonIsPrefix(a: seq<string>, b: seq<string>)
    ensures Common(a, b) == |a| <==> a <= b
  {
    if a != [] && b != [] && a[0] == b[0] {
      CommonIsPrefix(a[1..], b[1..]);
      if a[1..] <= b[1..] {
        assert b == [a[0]] + b[1..] && b[1..][..|a| - 1] == a[1..];
        assert a == b[..|a|];
      }
      if a <= b {
        assert b[1..][..|a| - 1] == b[..|a|][1..];
      }
    }
  }

  lemma {:induction false} FirstIsUp(parts: seq<string>)
    requires parts != [] && (forall i :: 0 <= i < |parts| ==> Element(parts[i]))
    ensures var s := Join(parts, "/"); s == ".." || HasPrefix(s, "../") <==> parts[0] == ".."
    ensures Join(parts, "/") != "."
  {
    var s, x := Join(parts, "/"), parts[0];
    assert NoSlash(x) && forall i :: 0 <= i < |x| ==> x[i] != '/';
    assert "../"[2] == '/' && (HasPrefix(s, "../") ==> s[2] == '/');
    if |parts| > 1 {
      assert s == x + ("/" + Join(parts[1..], "/")) && s[|x|] == '/';
      if HasPrefix(s, "../") {
        assert s[0] == '.' && s[1] == '.' && s[2] == '/';
        assert x == "..";
      }
      assert x == ".." ==> HasPrefix(s, "../");
    }
  }

  lemma WithinMeansNoUps(n: nat, rest: seq<string>)
    requires Normal(rest, true)
    ensures PathWithinRoot(Render(false, Ups(n) + rest)) <==> n == 0
  {
    var parts := Ups(n) + rest;
    if parts != [] {
      forall i | 0 <= i < |parts| ensures Element(parts[i]) {
        assert i >= n ==> parts[i] == rest[i - n];
      }
      FirstIsUp(parts);
      assert n > 0 ==> parts[0] == "..";
      assert n == 0 ==> parts[0] == rest[0];
    }
  }

  lemma WithinIsPrefix(a: seq<string>, b: seq<string>)
    requires Normal(a, true) && Normal(b, true)
    ensures var rel := Rel(Render(true, a), Render(true, b));
            (PathWithinRoot(rel) <==> a <= b) && (a <= b ==> rel == Render(false, b[|a|..]))
  {
    RenderedSplits(a, true);
    RenderedSplits(b, true);
    CommonIsPrefix(a, b);
    var n := Common(a, b);
    assert Normal(b[n..], true) by {
      assert forall i :: 0 <= i < |b[n..]| ==> b[n..][i] == b[n + i];
    }
    WithinMeansNoUps(|a| - n, b[n..]);
    if n == |a| {
      assert Ups(0) + b[n..] == b[n..];
    }
  }

  /** PathWithin compares whole elements: it holds exactly when the elements of the root
      begin those of the path. */
  lemma PathWithinIff(root: string, path: string, wd: seq<string>)
    requires Normal(wd, true)
    ensures PathWithin(root, path, wd) <==> AbsParts(root, wd) <= AbsParts(path, wd)
  {
    AbsIs(root, wd);
    AbsIs(path, wd);
    var a, b := AbsParts(root, wd), AbsParts(path, wd);
    RenderedSplits(a, true);
    RenderedSplits(b, true);
    WithinIsPrefix(a, b);
  }

  // Cleaning a relative path first does not change where it leads.
  lemma StepCommutes(base: seq<string>, stack: seq<string>, e: string)
    requires Normal(base, true) && Normal(stack, false) && NoSlash(e)
    ensures Walk(base, Step(stack, e, false), true) == Step(Walk(base, stack, true), e, true)
  {
    if e != "" && e != "." {
      if e == ".." && stack != [] && stack[|stack| - 1] != ".." {
        var init, last := stack[..|stack| - 1], stack[|stack| - 1];
        assert stack == init + [last];
        WalkAppend(base, init, [last], true);
        assert [last][1..] == [];
        assert Walk(base, stack, true) == Walk(base, init, true) + [last];
      } else {
        WalkAppend(base, stack, [e], true);
        assert [e][1..] == [];
      }
    }
  }

  lemma {:induction false} WalkCommutes(base: seq<string>, stack: seq<string>, raw: seq<string>)
    requires Normal(base, true) && Normal(stack, false) && AllNoSlash(raw)
    ensures Walk(base, Walk(stack, raw, false), true) == Walk(Walk(base, stack, true), raw, true)
    decreases |raw|
  {
    if raw != [] {
      StepCommutes(base, stack, raw[0]);
      StepIsNormal(stack, raw[0], false);
      WalkCommutes(base, Step(stack, raw[0], false), raw[1..]);
    }
  }

  // ----- mount hierarchies

  predicate Below(parts: seq<string>) { parts != [] && parts[0] != ".." }

  lemma BelowIsRooted(parts: seq<string>)
    requires Normal(parts, false) && Below(parts)
    ensures Normal(parts, true)
  {
    forall i | 0 <= i < |parts| ensures parts[i] != ".." {
      UpsInFront(parts, i);
    }
  }

  lemma {:induction false} UpsInFront(parts: seq<string>, i: nat)
    requires Normal(parts, false) && Below(parts) && i < |parts|
    ensures parts[i] != ".."
  {
    if i > 0 {
      UpsInFront(parts, i - 1);
    }
  }

  lemma CleanAccepts(v: string)
    ensures var parts := Walk([], Split(v), false);
            && Normal(parts, false)
            && (CleanMountPath(v).Ok? <==> !HasBadChar(v) && !IsAbs(v) && Below(parts))
            && (CleanMountPath(v).Ok? ==> CleanMountPath(v).value == Join(parts, "/"))
  {
    var parts := Walk([], Split(v), false);
    SplitParts(v);
    WalkIsNormal([], Split(v), false);
    if IsAbs(v) {
      PartsNormal(v);
      assert HasPrefix(Clean(v), "/");
    } else {
      RenderedSplits(parts, false);
      assert !HasPrefix(Render(false, parts), "/");
      if parts != [] {
        FirstIsUp(parts);
      }
    }
  }

  // Resolved against `base`, `raw` names something strictly below it.
  predicate Descends(base: seq<string>, raw: seq<string>) { base < Walk(base, raw, true) }

  lemma BelowDescends(base: seq<string>, raw: seq<string>)
    requires Normal(base, true) && AllNoSlash(raw) && Below(Walk([], raw, false))
    ensures Walk(base, raw, true) == base + Walk([], raw, false) && Normal(base + Walk([], raw, false), true) && Descends(base, raw)
  {
    var parts := Walk([], raw, false);
    WalkIsNormal([], raw, false);
    BelowIsRooted(parts);
    WalkCommutes(base, [], raw);
    assert Normal(base + parts, true);
    WalkPushes(base, parts, true);
  }

  lemma NotBelowEscapes(raw: seq<string>) returns (base: seq<string>)
    requires AllNoSlash(raw) && !Below(Walk([], raw, false))
    ensures Normal(base, true) && !Descends(base, raw)
    ensures Walk([], raw, false) != [] ==> !(base <= Walk(base, raw, true))
  {
    var parts := Walk([], raw, false);
    WalkIsNormal([], raw, false);
    if parts == [] {
      base := [];
      WalkCommutes(base, [], raw);
    } else {
      var elsewhere := Walk([], parts[1..], true);
      base := if elsewhere != [] && elsewhere[0] == "a" then ["b"] else ["a"];
      assert Step(base, "..", true) == [];
      WalkCommutes(base, [], raw);
      assert Walk(base, raw, true) == elsewhere;
    }
  }

  /** A hierarchy is accepted exactly when it is free of NUL and backslash, relative,
      and leads strictly below every directory it can be resolved against. */
  lemma AcceptedIffStaysBelow(v: string)
    ensures CleanMountPath(v).Ok? <==>
            !HasBadChar(v) && !IsAbs(v) && forall base :: Normal(base, true) ==> Descends(base, Split(v))
  {
    CleanAccepts(v);
    SplitParts(v);
    if Below(Walk([], Split(v), false)) {
      forall base | Normal(base, true) ensures Descends(base, Split(v)) {
        BelowDescends(base, Split(v));
      }
    } else {
      var base := NotBelowEscapes(Split(v));
    }
  }

  predicate NoneBad(parts: seq<string>) { forall i :: 0 <= i < |parts| ==> !HasBadChar(parts[i]) }

  lemma {:induction false} NoBadElements(stack: seq<string>, raw: seq<string>, rooted: bool)
    requires NoneBad(stack) && NoneBad(raw)
    ensures NoneBad(Walk(stack, raw, rooted))
    decreases |raw|
  {
    if raw != [] {
      assert NoneBad(Step(stack, raw[0], rooted)) && NoneBad(raw[1..]);
      NoBadElements(Step(stack, raw[0], rooted), raw[1..], rooted);
    }
  }

  lemma {:induction false} BadInParts(parts: seq<string>)
    ensures HasBadChar(Join(parts, "/")) <==> !NoneBad(parts)
  {
    if |parts| > 1 {
      BadInParts(parts[1..]);
      var s, t := Join(parts, "/"), Join(parts[1..], "/");
      assert s == parts[0] + "/" + t;
      assert HasBadChar(s) <==> HasBadChar(parts[0]) || HasBadChar(t);
      assert parts == [parts[0]] + parts[1..];
      assert NoneBad(parts) <==> !HasBadChar(parts[0]) && NoneBad(parts[1..]);
    }
  }

  lemma BadInSplit(s: string)
    ensures HasBadChar(s) <==> !NoneBad(Split(s))
  {
    SplitParts(s);
    JoinSplit(s);
    BadInParts(Split(s));
  }

  lemma {:induction false} JoinSplit(s: string)
    ensures Join(Split(s), "/") == s
  {
    if s != [] {
      JoinSplit(s[1..]);
      var rest := Split(s[1..]);
      assert s == [s[0]] + s[1..];
      if s[0] == '/' {
        assert ([[]] + rest)[1..] == rest;
        assert Join([[]] + rest, "/") == "" + "/" + Join(rest, "/");
      } else {
        assert ([[s[0]] + rest[0]] + rest[1..])[1..] == rest[1..];
      }
    }
  }

  /** An accepted hierarchy is in normal form: accepted again unchanged.  Below any base
      it resolves to where the unclean one leads, which PathWithin places under the base. */
  lemma AcceptedHierarchyIsSound(v: string, base: seq<string>, wd: seq<string>)
    requires CleanMountPath(v).Ok? && Normal(base, true) && Normal(wd, true)
    ensures var c, b := CleanMountPath(v).value, Render(true, base);
            && CleanMountPath(c) == Ok(c)
            && MountPathBelow(b, v) == Ok(JoinPath(b, v))
            && MountPathBelow(b, v) == MountPathBelow(b, c) == Ok(Render(true, base + Split(c)))
            && PathWithin(b, JoinPath(b, v), wd)
  {
    var c, b, parts := CleanMountPath(v).value, Render(true, base), Walk([], Split(v), false);
    CleanAccepts(v);
    SplitParts(v);
    AcceptedIsFixed(v);
    BelowDescends(base, Split(v));
    JoinResolves(base, v);
    NormalNoSlash(parts, false);
    SplitJoin(parts);
    BelowIsRooted(parts);
    WalkPushes(base, parts, true);
    JoinResolves(base, c);
    RenderedSplits(base, true);
    RenderedSplits(base + parts, true);
    PathWithinIff(b, JoinPath(b, v), wd);
  }

  lemma NormalNoSlash(parts: seq<string>, rooted: bool)
    requires Normal(parts, rooted)
    ensures AllNoSlash(parts)
  {
  }

  lemma AcceptedIsFixed(v: string)
    requires CleanMountPath(v).Ok?
    ensures var c := CleanMountPath(v).value; CleanMountPath(c) == Ok(c) && Split(c) == Walk([], Split(v), false)
  {
    var c, parts := CleanMountPath(v).value, Walk([], Split(v), false);
    CleanAccepts(v);
    CleanAccepts(c);
    NormalNoSlash(parts, false);
    SplitJoin(parts);
    RenderedSplits(parts, false);
    BadInSplit(v);
    NoBadElements([], Split(v), false);
    BadInParts(parts);
  }

  // ----- the export layout of a working directory

  // The elements of the exported root: home's when cwd is inside home, else cwd's own.
  function RootParts(home: string, cwd: string, wd: seq<string>): seq<string> {
    if AbsParts(home, wd) <= AbsParts(cwd, wd) then AbsParts(home, wd) else AbsParts(cwd, wd)
  }

  lemma LayoutParts(home: string, cwd: string, wd: seq<string>)
    requires Normal(wd, true)
    ensures var root, all := RootParts(home, cwd, wd), AbsParts(cwd, wd);
            && Normal(root, true) && Normal(all, true) && root <= all
            && match SourcePathHierarchy(Render(true, root))
               case Err(e) => ResolveExportLayout(home, cwd, wd) == Err(e)
               case Ok(m) => ResolveExportLayout(home, cwd, wd) == Ok(ExportLayout(Render(true, root), Render(false, all[|root|..]), m))
  {
    AbsIs(home, wd);
    AbsIs(cwd, wd);
    WithinIsPrefix(AbsParts(home, wd), AbsParts(cwd, wd));
  }

  lemma TailNormal(parts: seq<string>, n: nat)
    requires Normal(parts, true) && n <= |parts|
    ensures Normal(parts[n..], true) && Normal(parts[n..], false)
  {
    assert forall i :: 0 <= i < |parts[n..]| ==> parts[n..][i] == parts[n + i];
  }

  // Joining a cleaned path below a cleaned directory appends its elements.
  lemma JoinAppends(base: seq<string>, more: seq<string>)
    requires Normal(base, true) && Normal(more, true)
    ensures Normal(base + more, true) && Normal(more, false)
    ensures JoinPath(Render(true, base), Render(false, more)) == Render(true, base + more)
  {
    JoinResolves(base, Render(false, more));
    WalkPushes(base, more, true);
    if more == [] {
      SplitOne(".");
      assert base + [] == base;
    } else {
      NormalNoSlash(more, true);
      SplitJoin(more);
    }
  }

  /** The exported root joined with the relative directory is the cleaned cwd. */
  lemma RootAndRelativeGiveCwd(home: string, cwd: string, wd: seq<string>)
    requires Normal(wd, true) && ResolveExportLayout(home, cwd, wd).Ok?
    ensures var l := ResolveExportLayout(home, cwd, wd).value; JoinPath(l.rootPath, l.relativeCwd) == Abs(cwd, wd)
    ensures var l := ResolveExportLayout(home, cwd, wd).value;
            if PathWithin(home, cwd, wd) then l.rootPath == Abs(home, wd) else l.rootPath == Abs(cwd, wd) && l.relativeCwd == "."
  {
    var root, all := RootParts(home, cwd, wd), AbsParts(cwd, wd);
    LayoutParts(home, cwd, wd);
    AbsIs(cwd, wd);
    AbsIs(home, wd);
    TailNormal(all, |root|);
    JoinAppends(root, all[|root|..]);
    assert root + all[|root|..] == all;
    PathWithinIff(home, cwd, wd);
  }

  lemma CleanRelative(rel: string)
    requires rel != "" && !IsAbs(rel)
    ensures var parts := Walk([], Split(rel), false); var clean := Clean(rel);
            && Normal(parts, false) && clean == Render(false, parts) && !HasPrefix(clean, "/") && (clean == "." <==> parts == [])
            && (clean == ".." || HasPrefix(clean, "../") <==> parts != [] && parts[0] == "..")
  {
    var parts := Walk([], Split(rel), false);
    SplitParts(rel);
    WalkIsNormal([], Split(rel), false);
    RenderedSplits(parts, false);
    if parts != [] {
      FirstIsUp(parts);
    }
  }

  /** A relative directory is accepted exactly when it is free of NUL and backslash, relative,
      and leads to every directory it can be resolved against, or below it; the result is
      where it leads. */
  lemma WorkspaceStaysWithin(base: seq<string>, rel: string)
    requires Normal(base, true)
    ensures var r := WorkspacePathBelow(Render(true, base), rel);
            && (r.Ok? <==> rel != "" && !HasBadChar(rel) && !IsAbs(rel) && forall b :: Normal(b, true) ==> b <= Walk(b, Split(rel), true))
            && (r.Ok? ==> r.value == Render(true, Walk(base, Split(rel), true)))
  {
    if rel != "" && IsAbs(rel) {
      PartsNormal(rel);
      assert HasPrefix(Clean(rel), "/");
    } else if rel != "" {
      var parts := Walk([], Split(rel), false);
      SplitParts(rel);
      CleanRelative(rel);
      if parts != [] && parts[0] == ".." {
        var b := NotBelowEscapes(Split(rel));
      } else {
        forall b | Normal(b, true) ensures b <= Walk(b, Split(rel), true) == b + parts {
          StaysWithin(b, Split(rel));
        }
        if parts != [] {
          BelowIsRooted(parts);
          JoinAppends(base, parts);
        } else {
          assert base + parts == base;
        }
      }
    }
  }

  lemma StaysWithin(b: seq<string>, raw: seq<string>)
    requires Normal(b, true) && AllNoSlash(raw)
    requires var parts := Walk([], raw, false); parts == [] || parts[0] != ".."
    ensures Walk(b, raw, true) == b + Walk([], raw, false)
  {
    if Walk([], raw, false) == [] {
      WalkCommutes(b, [], raw);
      assert b + [] == b;
    } else {
      BelowDescends(b, raw);
    }
  }

  // Where a directory of the source machine ends up: its layout, mounted below `base`.
  function SourceCwdAt(base: string, home: string, cwd: string, wd: seq<string>): Result<string, LayoutError> {
    match ResolveExportLayout(home, cwd, wd)
    case Err(e) => Err(e)
    case Ok(l) =>
      match MountPathBelow(base, l.mountPath)
      case Err(e) => Err(e)
      case Ok(mountRoot) => WorkspacePathBelow(mountRoot, l.relativeCwd)
  }

  lemma TrimStops(s: string)
    requires s != "" && s[0] != '/' && s[0] != '\\'
    ensures TrimLeft("/" + s, {'/', '\\'}) == s
  {
    assert ("/" + s)[1..] == s;
    assert TrimLeft(s, {'/', '\\'}) == s;
  }

  lemma GoodHierarchy(root: seq<string>)
    requires Normal(root, true) && root != [] && NoneBad(root)
    ensures SourcePathHierarchy(Render(true, root)) == Ok(Join(root, "/"))
  {
    var s := Join(root, "/");
    JoinFirst(root);
    assert root[0][0] in root[0];
    TrimStops(s);
    BadInParts(root);
    RenderedSplits(root, false);
    CleanAccepts(s);
  }

  lemma WorkspaceAppends(base: seq<string>, more: seq<string>)
    requires Normal(base, true) && Normal(more, true)
    ensures var r := WorkspacePathBelow(Render(true, base), Render(false, more));
            r == if NoneBad(more) then Ok(Render(true, base + more)) else Err(Invalid)
  {
    var rel := Render(false, more);
    assert Normal(more, false);
    RenderedSplits(more, false);
    BadInParts(more);
    JoinAppends(base, more);
    if more == [] {
      assert base + more == base;
    } else {
      FirstIsUp(more);
      assert !HasPrefix(rel, "/");
    }
  }

  lemma HierarchyOfRoot()
    ensures SourcePathHierarchy("/") == Ok("root")
  {
    var r := "root";
    assert TrimLeft("/", {'/', '\\'}) == TrimLeft("", {'/', '\\'}) == "";
    SplitOne(r);
    assert Normal([r], false);
    RenderedSplits([r], false);
    CleanAccepts(r);
    assert Join([r], "/") == r;
  }

  // The mount path of any root the layout accepts, as elements.
  lemma AcceptedRoot(root: seq<string>) returns (mount: seq<string>)
    requires Normal(root, true) && SourcePathHierarchy(Render(true, root)).Ok?
    ensures Normal(mount, true) && mount != [] && NoneBad(mount)
    ensures SourcePathHierarchy(Render(true, root)).value == Join(mount, "/")
    ensures root == [] ==> mount == ["root"]
  {
    var m := SourcePathHierarchy(Render(true, root)).value;
    var rest := TrimLeft(Render(true, root), {'/', '\\'});
    var v := if rest != "" then rest else "root";
    assert CleanMountPath(v) == Ok(m);
    mount := Walk([], Split(v), false);
    CleanAccepts(v);
    BelowIsRooted(mount);
    BadInSplit(v);
    NoBadElements([], Split(v), false);
    if root == [] {
      HierarchyOfRoot();
      assert Render(true, root) == "/";
      SplitOne("root");
    }
  }

  lemma MountedAt(base: seq<string>, mount: seq<string>)
    requires Normal(base, true) && Normal(mount, true) && mount != [] && NoneBad(mount)
    ensures Normal(base + mount, true) && MountPathBelow(Render(true, base), Join(mount, "/")) == Ok(Render(true, base + mount))
  {
    var m := Join(mount, "/");
    RenderedSplits(mount, false);
    BadInParts(mount);
    CleanAccepts(m);
    JoinAppends(base, mount);
  }

  /** A working directory is found below the base under its own absolute path, exactly
      when the exported root is not "/" and the path has neither NUL nor backslash. */
  lemma CwdKeepsItsHierarchy(base: seq<string>, home: string, cwd: string, wd: seq<string>)
    requires Normal(base, true) && Normal(wd, true)
    ensures Normal(base + AbsParts(cwd, wd), true)
    ensures SourceCwdAt(Render(true, base), home, cwd, wd) == Ok(Render(true, base + AbsParts(cwd, wd)))
            <==> RootParts(home, cwd, wd) != [] && !HasBadChar(Abs(cwd, wd))
  {
    var root, all := RootParts(home, cwd, wd), AbsParts(cwd, wd);
    LayoutParts(home, cwd, wd);
    CwdOf(base, home, cwd, wd, root, all);
    AbsIs(cwd, wd);
    BadInAbsolute(all);
  }

  lemma CwdOf(base: seq<string>, home: string, cwd: string, wd: seq<string>, root: seq<string>, all: seq<string>)
    requires Normal(base, true) && Normal(root, true) && Normal(all, true) && root <= all
    requires match SourcePathHierarchy(Render(true, root))
             case Err(e) => ResolveExportLayout(home, cwd, wd) == Err(e)
             case Ok(m) => ResolveExportLayout(home, cwd, wd) == Ok(ExportLayout(Render(true, root), Render(false, all[|root|..]), m))
    ensures Normal(base + all, true)
    ensures SourceCwdAt(Render(true, base), home, cwd, wd) == Ok(Render(true, base + all)) <==> root != [] && NoneBad(all)
  {
    TailNormal(all, |root|);
    assert all == root + all[|root|..];
    CwdPlaced(base, home, cwd, wd, root, all[|root|..], all);
  }

  // The same with the root and what the cwd adds to it.
  lemma CwdPlaced(base: seq<string>, home: string, cwd: string, wd: seq<string>, root: seq<string>, more: seq<string>, all: seq<string>)
    requires Normal(base, true) && Normal(root, true) && Normal(more, true) && Normal(all, true) && all == root + more
    requires match SourcePathHierarchy(Render(true, root))
             case Err(e) => ResolveExportLayout(home, cwd, wd) == Err(e)
             case Ok(m) => ResolveExportLayout(home, cwd, wd) == Ok(ExportLayout(Render(true, root), Render(false, more), m))
    ensures Normal(base + all, true)
    ensures SourceCwdAt(Render(true, base), home, cwd, wd) == Ok(Render(true, base + all)) <==> root != [] && NoneBad(all)
  {
    if SourcePathHierarchy(Render(true, root)).Ok? {
      var mount := AcceptedRoot(root);
      MountedAt(base, mount);
      WorkspaceAppends(base + mount, more);
      PlacedRight(base, root, mount, more);
    } else if root != [] && NoneBad(root + more) {
      NoneBadConcat(root, more);
      GoodHierarchy(root);
    }
  }

  lemma BadInAbsolute(parts: seq<string>)
    ensures HasBadChar(Render(true, parts)) <==> !NoneBad(parts)
  {
    BadInParts(parts);
    assert HasBadChar("/" + Join(parts, "/")) <==> HasBadChar(Join(parts, "/"));
  }

  lemma PlacedRight(base: seq<string>, root: seq<string>, mount: seq<string>, more: seq<string>)
    requires Normal(base, true) && Normal(root, true) && Normal(mount, true) && Normal(more, true)
    requires NoneBad(mount) && mount != [] && (root == [] ==> mount == ["root"])
    requires SourcePathHierarchy(Render(true, root)) == Ok(Join(mount, "/"))
    ensures NoneBad(more) && Render(true, base + mount + more) == Render(true, base + (root + more))
            <==> root != [] && NoneBad(root + more)
  {
    NoneBadConcat(root, more);
    if root != [] && NoneBad(root) {
      GoodHierarchy(root);
      SameJoin(root, mount);
      assert base + root + more == base + (root + more);
    } else {
      SamePlace(base, root, mount, more);
    }
  }

  lemma NoneBadConcat(a: seq<string>, b: seq<string>)
    ensures NoneBad(a + b) <==> NoneBad(a) && NoneBad(b)
  {
    if NoneBad(a + b) {
      assert forall i :: 0 <= i < |a| ==> (a + b)[i] == a[i];
      assert forall i :: 0 <= i < |b| ==> (a + b)[|a| + i] == b[i];
    }
  }

  lemma SameJoin(a: seq<string>, b: seq<string>)
    requires Normal(a, true) && Normal(b, true) && a != [] && b != [] && Join(a, "/") == Join(b, "/")
    ensures a == b
  {
    NormalNoSlash(a, true);
    NormalNoSlash(b, true);
    SplitJoin(a);
    SplitJoin(b);
  }

  lemma SamePlace(base: seq<string>, root: seq<string>, mount: seq<string>, more: seq<string>)
    requires Normal(base, true) && Normal(root, true) && Normal(mount, true) && Normal(more, true)
    ensures Render(true, base + mount + more) == Render(true, base + (root + more)) ==> root == mount
  {
    var a, b := base + mount + more, base + (root + more);
    assert Normal(a, true) && Normal(b, true);
    if Render(true, a) == Render(true, b) {
      RenderInjective(a, b, true);
      assert mount == a[|base|..|base + mount|] && root == b[|base|..|base + root|];
    }
  }

  /** As strings that is base followed by cwd. */
  lemma BaseFollowedByCwd(base: seq<string>, cwd: seq<string>)
    requires base != [] && cwd != []
    ensures Render(true, base + cwd) == Render(true, base) + Render(true, cwd)
  {
    JoinConcat(base, cwd);
    assert "/" + (Join(base, "/") + "/" + Join(cwd, "/")) == ("/" + Join(base, "/")) + ("/" + Join(cwd, "/"));
  }

  lemma {:induction false} JoinConcat(a: seq<string>, b: seq<string>)
    requires a != [] && b != []
    ensures Join(a + b, "/") == Join(a, "/") + "/" + Join(b, "/")
  {
    assert (a + b)[1..] == a[1..] + b;
    if |a| > 1 {
      JoinConcat(a[1..], b);
      var x, y, z := a[0], Join(a[1..], "/"), Join(b, "/");
      assert x + "/" + (y + "/" + z) == (x + "/" + y) + "/" + z;
    }
  }
}
