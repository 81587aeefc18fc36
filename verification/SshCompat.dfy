/**
 internal/sshcompat/parse.go: finding the target in an ssh command line.
 */
module SshCompat {
  import opened Text

  type Args = seq<string>

  const RequiredValue: set<char> := {
    'B', 'b', 'c', 'D', 'E', 'e', 'F', 'I', 'i', 'J', 'L', 'l',
    'm', 'O', 'o', 'p', 'Q', 'R', 'S', 'W', 'w'}

  // The option tables hold words of "-" and a letter; the model keeps the letters.
  predicate Listed(arg: string, letters: set<char>) { |arg| == 2 && arg[0] == '-' && arg[1] in letters }

  predicate IsOption(arg: string) { arg != "" && arg[0] == '-' && arg != "-" }

  predicate IsInfoMode(arg: string) { arg == "-V" || arg == "-G" || HasPrefix(arg, "-Q") }

  datatype Parsed = Parsed(args: Args, target: string, targetIndex: int, remoteCommand: Args, noWrap: bool, infoMode: bool)

  function DropNoWrap(args: Args): Args {
    if args == [] then [] else (if args[0] == "--no-wrap" then [] else [args[0]]) + DropNoWrap(args[1..])
  }

  predicate HasNoWrap(args: Args) { args != [] && (args[0] == "--no-wrap" || HasNoWrap(args[1..])) }

  // How many words the option at the front takes.
  function Width(args: Args): (n: nat)
    requires args != []
    ensures 1 <= n <= |args|
  {
    if Listed(args[0], RequiredValue) && |args| > 1 then 2 else 1
  }

  function Shift(n: nat, index: int): int { if index < 0 then -1 else n + index }

  // Where the target is, or -1.
  function Find(args: Args): (index: int)
    ensures -1 <= index < |args|
  {
    if args == [] then -1
    else if args[0] == "--" then if |args| > 1 then 1 else -1
    else if !IsOption(args[0]) then 0
    else Shift(Width(args), Find(args[Width(args)..]))
  }

  function SeesInfo(args: Args): bool {
    args != [] && args[0] != "--"
    && (IsInfoMode(args[0]) || (IsOption(args[0]) && SeesInfo(args[Width(args)..])))
  }

  function ParseOf(args: Args): Parsed {
    var a := DropNoWrap(args);
    var i := Find(a);
    Parsed(a, if i < 0 then "" else a[i], i, if i < 0 then [] else a[i + 1..], HasNoWrap(args), SeesInfo(a))
  }

  method Parse(args: Args) returns (out: Parsed)
    ensures out == ParseOf(args)
  {
    var a, noWrap := TakeNoWrap(args);
    var i, infoMode := FindTarget(a);
    if i < 0 {
      return Parsed(a, "", -1, [], noWrap, infoMode);
    }
    return Parsed(a, a[i], i, a[i + 1..], noWrap, infoMode);
  }

  // The first loop of Parse.
  method TakeNoWrap(args: Args) returns (a: Args, noWrap: bool)
    ensures a == DropNoWrap(args) && noWrap == HasNoWrap(args)
  {
    a, noWrap := [], false;
    for j := 0 to |args|
      invariant a + DropNoWrap(args[j..]) == DropNoWrap(args)
      invariant HasNoWrap(args) == (noWrap || HasNoWrap(args[j..]))
    {
      assert args[j..][1..] == args[j + 1..];
      if args[j] == "--no-wrap" {
        noWrap := true;
      } else {
        a := a + [args[j]];
      }
    }
    assert a + [] == a;
  }

  // The second loop of Parse.
  method FindTarget(a: Args) returns (index: int, infoMode: bool)
    ensures index == Find(a) && infoMode == SeesInfo(a)
  {
    infoMode := false;
    var i := 0;
    while i < |a|
      invariant 0 <= i <= |a|
      invariant Find(a) == Shift(i, Find(a[i..]))
      invariant SeesInfo(a) == (infoMode || SeesInfo(a[i..]))
    {
      var arg := a[i];
      if arg == "--" {
        return if i + 1 < |a| then i + 1 else -1, infoMode;
      }
      if IsInfoMode(arg) {
        infoMode := true;
      }
      if !IsOption(arg) {
        return i, infoMode;
      }
      assert a[i..][Width(a[i..])..] == a[i + Width(a[i..])..];
      if Listed(arg, RequiredValue) && i + 1 < |a| {
        i := i + 2;
      } else {
        i := i + 1;
      }
    }
    index := -1;
  }

  function InsertPoint(p: Parsed): int {
    if 0 < p.targetIndex <= |p.args| && p.args[p.targetIndex - 1] == "--" then p.targetIndex - 1 else p.targetIndex
  }

  function Inserted(p: Parsed, options: Args): Args {
    if p.targetIndex < 0 || p.targetIndex > |p.args| then p.args
    else p.args[..InsertPoint(p)] + options + p.args[InsertPoint(p)..]
  }

  method InsertBeforeTarget(p: Parsed, options: Args) returns (out: Args)
    ensures out == Inserted(p, options)
  {
    if p.targetIndex < 0 || p.targetIndex > |p.args| {
      return p.args;
    }
    var insertAt := p.targetIndex;
    if insertAt > 0 && p.args[insertAt - 1] == "--" {
      insertAt := insertAt - 1;
    }
    out := [];
    out := out + p.args[..insertAt];
    out := out + options;
    out := out + p.args[insertAt..];
  }

  // ----- option lists as items

  datatype Item = Flag(word: string) | Separate(opt: string, value: string) | Attached(opt: string, value: string)

  predicate WellFormed(item: Item) {
    match item
    case Flag(w) =>
      && IsOption(w) && w != "--" && w != "--no-wrap" && !Listed(w, RequiredValue)
      && (|w| > 2 ==> !Listed(w[..2], RequiredValue))
    case Separate(o, v) => Listed(o, RequiredValue) && !IsOption(v)
    case Attached(o, v) => Listed(o, RequiredValue) && v != ""
  }

  predicate AllWellFormed(items: seq<Item>) { forall i :: 0 <= i < |items| ==> WellFormed(items[i]) }

  function Words(item: Item): Args {
    match item
    case Flag(w) => [w]
    case Separate(o, v) => [o, v]
    case Attached(o, v) => [o + v]
  }

  function Print(items: seq<Item>): Args {
    if items == [] then [] else Words(items[0]) + Print(items[1..])
  }

  predicate Plain(words: Args) { forall i :: 0 <= i < |words| ==> !IsOption(words[i]) }

  lemma AttachedWord(o: string, v: string)
    requires Listed(o, RequiredValue) && v != ""
    ensures IsOption(o + v) && !Listed(o + v, RequiredValue) && o + v != "--" && |o + v| > 2 && (o + v)[..2] == o && (o + v)[2..] == v
    ensures o + v != "--no-wrap"
  {
    assert (o + v)[1] == o[1];
  }

  /** Well-formed options in front of anything only shift where the target is. */
  lemma {:induction false} FindSkipsItems(items: seq<Item>, rest: Args)
    requires AllWellFormed(items)
    ensures Find(Print(items) + rest) == Shift(|Print(items)|, Find(rest))
  {
    if items == [] {
      assert Print(items) + rest == rest;
    } else {
      var more := Print(items[1..]) + rest;
      assert Print(items) + rest == Words(items[0]) + more;
      FindSkipsItems(items[1..], rest);
      match items[0]
      case Flag(w) => assert ([w] + more)[1..] == more;
      case Separate(o, v) => assert ([o, v] + more)[2..] == more;
      case Attached(o, v) =>
        AttachedWord(o, v);
        assert ([o + v] + more)[1..] == more;
    }
  }

  lemma {:induction false} DropAppend(a: Args, b: Args)
    ensures DropNoWrap(a + b) == DropNoWrap(a) + DropNoWrap(b) && |DropNoWrap(a)| <= |a|
  {
    if a == [] {
      assert a + b == b;
    } else {
      assert (a + b)[1..] == a[1..] + b;
      DropAppend(a[1..], b);
    }
  }

  lemma {:induction false} DropTwice(args: Args)
    ensures DropNoWrap(DropNoWrap(args)) == DropNoWrap(args)
  {
    if args != [] {
      var head := if args[0] == "--no-wrap" then [] else [args[0]];
      DropTwice(args[1..]);
      DropAppend(head, DropNoWrap(args[1..]));
    }
  }

  lemma DropWords(item: Item)
    requires WellFormed(item)
    ensures DropNoWrap(Words(item)) == Words(item)
  {
    var w := Words(item);
    assert forall x: string :: Listed(x, RequiredValue) ==> |x| == 2;
    if item.Attached? {
      AttachedWord(item.opt, item.value);
    }
    KeptWord(w[0]);
    assert w == [w[0]] + w[1..];
    DropAppend([w[0]], w[1..]);
    if item.Separate? {
      KeptWord(w[1]);
      assert w[1..] == [w[1]];
    }
  }

  lemma KeptWord(w: string)
    requires w != "--no-wrap"
    ensures DropNoWrap([w]) == [w]
  {
  }

  lemma {:induction false} DropPrinted(items: seq<Item>)
    requires AllWellFormed(items)
    ensures DropNoWrap(Print(items)) == Print(items)
  {
    if items != [] {
      DropPrinted(items[1..]);
      DropAppend(Words(items[0]), Print(items[1..]));
      DropWords(items[0]);
    }
  }

  lemma SameSplit(x: Args, y: Args, x': Args, y': Args)
    requires x + y == x' + y' && |x'| <= |x| && |y'| <= |y|
    ensures x == x' && y == y'
  {
    assert |x + y| == |x| + |y| && |x' + y'| == |x'| + |y'|;
    assert x == (x + y)[..|x|] && x' == (x' + y')[..|x|];
    assert y == (x + y)[|x|..] && y' == (x' + y')[|x|..];
  }

  lemma DropSplit(x: Args, y: Args)
    requires DropNoWrap(x + y) == x + y
    ensures DropNoWrap(x) == x && DropNoWrap(y) == y
  {
    DropAppend(x, y);
    DropAppend(y, []);
    SameSplit(x, y, DropNoWrap(x), DropNoWrap(y));
  }

  /** The wrapping flag is found wherever it stands, and taken out wherever it stands. */
  lemma {:induction false} NoWrapIff(args: Args)
    ensures HasNoWrap(args) <==> "--no-wrap" in args
    ensures "--no-wrap" !in DropNoWrap(args)
    ensures "--no-wrap" !in args ==> DropNoWrap(args) == args
  {
    if args != [] {
      NoWrapIff(args[1..]);
      assert args == [args[0]] + args[1..];
    }
  }

  // ssh only prints something: its version, its configuration, or what it supports.
  predicate IsInfo(item: Item) {
    if item.Flag? then item.word == "-V" || item.word == "-G" else item.opt == "-Q"
  }

  lemma InfoWord(item: Item, rest: Args)
    requires WellFormed(item)
    ensures SeesInfo(Words(item) + rest) <==> IsInfo(item) || SeesInfo(rest)
  {
    var args := Words(item) + rest;
    assert Listed("-Q", RequiredValue) && forall o: string :: Listed(o, RequiredValue) ==> |o| == 2;
    match item
    case Flag(w) =>
      assert args[1..] == rest && (|w| > 2 ==> w[..2] != "-Q") && w != "-Q" && !HasPrefix(w, "-Q");
    case Separate(o, v) => assert args[2..] == rest && (HasPrefix(o, "-Q") <==> o == "-Q");
    case Attached(o, v) =>
      AttachedWord(o, v);
      assert args[1..] == rest && (HasPrefix(o + v, "-Q") <==> o == "-Q");
  }

  /** Parse sees such an option anywhere among the options. */
  lemma {:induction false} InfoModeIff(items: seq<Item>, rest: Args)
    requires AllWellFormed(items)
    ensures SeesInfo(Print(items) + rest) <==> (exists i :: 0 <= i < |items| && IsInfo(items[i])) || SeesInfo(rest)
  {
    if items == [] {
      assert Print(items) + rest == rest;
    } else {
      var more := Print(items[1..]) + rest;
      assert Print(items) + rest == Words(items[0]) + more;
      InfoModeIff(items[1..], rest);
      InfoWord(items[0], more);
      if i :| 0 <= i < |items| && IsInfo(items[i]) {
        assert i > 0 ==> items[i] == items[1..][i - 1];
      }
      if i :| 0 <= i < |items[1..]| && IsInfo(items[1..][i]) {
        assert items[1..][i] == items[i + 1];
      }
    }
  }

  /** Neither behind a target nor behind "--". */
  lemma NoInfoBehindTarget(target: string, rest: Args)
    requires !IsOption(target) || target == "--"
    ensures !SeesInfo([target] + rest)
  {
    assert "-V"[0] == '-' && "-G"[0] == '-' && "-Q"[0] == '-';
  }

  // ----- insertion, for every argument list

  // Option scanning from the front arrives exactly at position `at`.
  predicate Reaches(args: Args, at: nat) {
    at == 0 || (args != [] && args[0] != "--" && IsOption(args[0]) && Width(args) <= at && Reaches(args[Width(args)..], at - Width(args)))
  }

  lemma {:induction false} FindReaches(args: Args)
    requires Find(args) >= 0
    ensures var i := Find(args); Reaches(args, i) || (i > 0 && args[i - 1] == "--" && Reaches(args, i - 1))
  {
    if args[0] != "--" && IsOption(args[0]) {
      FindReaches(args[Width(args)..]);
    }
  }

  // What lies beyond a position that scanning reaches can be replaced.
  lemma {:induction false} FindBeyond(args: Args, at: nat, rest: Args)
    requires Reaches(args, at) && at < |args| && rest != []
    ensures Find(args[..at] + rest) == Shift(at, Find(rest))
  {
    if at == 0 {
      assert args[..at] + rest == rest;
    } else {
      var n := Width(args);
      FindBeyond(args[n..], at - n, rest);
      assert (args[..at] + rest)[n..] == args[n..][..at - n] + rest;
    }
  }

  // A "--" right before the target is the end-of-options mark, not an option's value.
  predicate TerminatorIsReal(args: Args) {
    var i := Find(args);
    i > 0 && args[i - 1] == "--" ==> Reaches(args, i - 1)
  }

  lemma InsertReaches(args: Args)
    requires var a := DropNoWrap(args); Find(a) >= 0 && TerminatorIsReal(a)
    ensures var p := ParseOf(args); 0 <= InsertPoint(p) < |p.args| && Reaches(p.args, InsertPoint(p))
  {
    FindReaches(DropNoWrap(args));
  }

  lemma ParseAt(args: Args, i: nat)
    requires DropNoWrap(args) == args && Find(args) == i
    ensures var p := ParseOf(args); p.args == args && p.target == args[i] && p.remoteCommand == args[i + 1..] && p.targetIndex == i
  {
  }

  lemma FindInserted(x: Args, y: Args, items: seq<Item>)
    requires AllWellFormed(items) && Reaches(x + y, |x|) && y != [] && Find(x + y) >= 0
    ensures Find(x + Print(items) + y) == Find(x + y) + |Print(items)| && |x| <= Find(x + y)
  {
    var a := x + y;
    assert a[..|x|] == x;
    FindBeyond(a, |x|, y);
    FindSkipsItems(items, y);
    FindBeyond(a, |x|, Print(items) + y);
    assert x + Print(items) + y == x + (Print(items) + y);
  }

  // `out` has the target of `a`, and the words after it, `n` places later.
  predicate Carries(a: Args, i: nat, out: Args, n: nat) {
    i < |a| && i + n < |out| && out[i + n] == a[i] && out[i + n + 1..] == a[i + 1..]
  }

  lemma InsertFind(args: Args, items: seq<Item>)
    requires AllWellFormed(items)
    requires var a := DropNoWrap(args); Find(a) >= 0 && TerminatorIsReal(a)
    ensures var p := ParseOf(args);
            InsertPoint(p) <= p.targetIndex && Find(Inserted(p, Print(items))) == p.targetIndex + |Print(items)|
  {
    InsertReaches(args);
    FindSpliced(ParseOf(args).args, InsertPoint(ParseOf(args)), items);
  }

  lemma FindSpliced(a: Args, at: nat, items: seq<Item>)
    requires AllWellFormed(items) && at < |a| && Reaches(a, at) && Find(a) >= 0
    ensures Find(a[..at] + Print(items) + a[at..]) == Find(a) + |Print(items)| && at <= Find(a)
  {
    var x, y := a[..at], a[at..];
    assert x + y == a;
    FindInserted(x, y, items);
  }

  lemma InsertCarries(p: Parsed, options: Args)
    requires 0 <= p.targetIndex < |p.args| && InsertPoint(p) <= p.targetIndex
    ensures Carries(p.args, p.targetIndex, Inserted(p, options), |options|)
  {
    var x, y := p.args[..InsertPoint(p)], p.args[InsertPoint(p)..];
    assert x + y == p.args;
    Spliced(x, y, options, p.targetIndex);
  }

  lemma CarriedParse(args: Args, out: Args, n: nat)
    requires var p := ParseOf(args); p.targetIndex >= 0 && Carries(p.args, p.targetIndex, out, n) && Find(out) == p.targetIndex + n
    requires DropNoWrap(out) == out
    ensures var p, q := ParseOf(args), ParseOf(out);
            q.target == p.target && q.remoteCommand == p.remoteCommand && q.targetIndex == p.targetIndex + n
  {
    ParseAt(out, Find(out));
  }

  /** Inserting well-formed options keeps the target and the remote command of every
      argument list whose "--", if one precedes the target, ends the options. */
  lemma InsertKeepsTarget(args: Args, items: seq<Item>)
    requires AllWellFormed(items)
    requires var a := DropNoWrap(args); Find(a) >= 0 && TerminatorIsReal(a)
    ensures var p := ParseOf(args); var q := ParseOf(Inserted(p, Print(items)));
            q.target == p.target && q.remoteCommand == p.remoteCommand && q.targetIndex == p.targetIndex + |Print(items)|
  {
    InsertFind(args, items);
    InsertCarries(ParseOf(args), Print(items));
    ReparseInserted(args, items);
    CarriedParse(args, Inserted(ParseOf(args), Print(items)), |Print(items)|);
  }

  lemma Spliced(x: Args, y: Args, opts: Args, i: nat)
    requires |x| <= i < |x + y|
    ensures var out := x + opts + y;
            i + |opts| < |out| && out[i + |opts|] == (x + y)[i] && out[i + |opts| + 1..] == (x + y)[i + 1..]
  {
  }

  lemma SplicedKeeps(x: Args, y: Args, items: seq<Item>)
    requires AllWellFormed(items) && DropNoWrap(x + y) == x + y
    ensures DropNoWrap(x + Print(items) + y) == x + Print(items) + y
  {
    DropSplit(x, y);
    DropPrinted(items);
    DropAppend(x, Print(items));
    DropAppend(x + Print(items), y);
  }

  lemma SplicedAtKeeps(a: Args, at: nat, items: seq<Item>)
    requires AllWellFormed(items) && DropNoWrap(a) == a && at <= |a|
    ensures var out := a[..at] + Print(items) + a[at..]; DropNoWrap(out) == out
  {
    var x, y := a[..at], a[at..];
    assert x + y == a;
    SplicedKeeps(x, y, items);
  }

  lemma ReparseInserted(args: Args, items: seq<Item>)
    requires AllWellFormed(items)
    ensures var out := Inserted(ParseOf(args), Print(items)); DropNoWrap(out) == out
  {
    var p := ParseOf(args);
    DropTwice(args);
    if p.targetIndex >= 0 {
      SplicedAtKeeps(p.args, InsertPoint(p), items);
    }
  }

  lemma {:induction false} ValueDash(args: Args)
    requires var i := Find(args); i > 0 && args[i - 1] == "--" && !Reaches(args, i - 1)
    ensures var i := Find(args);
            && i >= 2 && Reaches(args, i - 2)
            && Listed(args[i - 2], RequiredValue) && args[i - 2] != "--" && IsOption(args[i - 2])
  {
    var n := Width(args);
    assert args[0] != "--" && IsOption(args[0]);
    if Find(args[n..]) > 0 {
      ValueDash(args[n..]);
    }
  }

  // With the "--" as a value, the option in front takes the first inserted word.
  lemma FindAfterValueDash(a: Args, o: string, v: string, more: Args)
    requires var i := Find(a); i > 0 && a[i - 1] == "--" && !Reaches(a, i - 1)
    requires !IsOption(v)
    ensures var i := Find(a); Find(a[..i - 1] + ([o, v] + more)) == i
  {
    var i := Find(a);
    ValueDash(a);
    var rest := [a[i - 2], o, v] + more;
    assert a[..i - 1] + ([o, v] + more) == a[..i - 2] + rest;
    FindBeyond(a, i - 2, rest);
    FindSecond(rest, v, more);
  }

  lemma FindSecond(rest: Args, v: string, more: Args)
    requires |rest| == 3 + |more| && rest[2..] == [v] + more && !IsOption(v)
    requires Listed(rest[0], RequiredValue) && rest[0] != "--"
    ensures Find(rest) == 2
  {
  }

  /** That proviso is exact: when the "--" is an option's value, inserting options
      that start with a separate one makes its value the target. */
  lemma InsertKeepsTargetIff(args: Args, items: seq<Item>)
    requires AllWellFormed(items) && items != [] && items[0].Separate?
    requires Find(DropNoWrap(args)) >= 0
    ensures var p := ParseOf(args); var q := ParseOf(Inserted(p, Print(items)));
            && (q.target == p.target && q.remoteCommand == p.remoteCommand <==> TerminatorIsReal(p.args))
            && (!TerminatorIsReal(p.args) ==> q.target == items[0].value)
  {
    var p := ParseOf(args);
    if TerminatorIsReal(p.args) {
      InsertKeepsTarget(args, items);
    } else {
      InsertLosesTarget(args, items);
    }
  }

  lemma InsertLosesTarget(args: Args, items: seq<Item>)
    requires AllWellFormed(items) && items != [] && items[0].Separate?
    requires Find(DropNoWrap(args)) >= 0 && !TerminatorIsReal(DropNoWrap(args))
    ensures var p := ParseOf(args); var q := ParseOf(Inserted(p, Print(items)));
            q.target == items[0].value && |q.remoteCommand| > |p.remoteCommand|
  {
    var p := ParseOf(args);
    var i := p.targetIndex;
    ReparseInserted(args, items);
    InsertedBefore(p, Print(items));
    FindLost(p.args, items);
    LongerAt(p, Inserted(p, Print(items)), i);
  }

  lemma InsertedBefore(p: Parsed, options: Args)
    requires 0 < p.targetIndex < |p.args| && p.args[p.targetIndex - 1] == "--"
    ensures Inserted(p, options) == p.args[..p.targetIndex - 1] + options + p.args[p.targetIndex - 1..]
  {
  }

  lemma LongerAt(p: Parsed, out: Args, i: nat)
    requires DropNoWrap(out) == out && Find(out) == i < |p.args| < |out| && p.remoteCommand == p.args[i + 1..]
    ensures ParseOf(out).target == out[i] && |ParseOf(out).remoteCommand| > |p.remoteCommand|
  {
    ParseAt(out, i);
  }

  lemma FindLost(a: Args, items: seq<Item>)
    requires AllWellFormed(items) && items != [] && items[0].Separate?
    requires Find(a) > 0 && a[Find(a) - 1] == "--" && !Reaches(a, Find(a) - 1)
    ensures var i := Find(a); var out := a[..i - 1] + Print(items) + a[i - 1..];
            Find(out) == i && out[i] == items[0].value && |out| >= |a| + 2
  {
    var i, o, v := Find(a), items[0].opt, items[0].value;
    var more := Print(items[1..]) + a[i - 1..];
    FindAfterValueDash(a, o, v, more);
    assert Print(items) == [o, v] + Print(items[1..]);
    assert a[..i - 1] + Print(items) + a[i - 1..] == a[..i - 1] + ([o, v] + more);
  }
}
