/**
 internal/identity/identity.go: the arguments of the `ssh -G` probe, found by a
 second scanner with its own option tables, and how it agrees with Parse.
 */
module Identity {
  import opened Wrappers
  import opened Text
  import opened SshCompat
  import opened SshControl

  const ValueOptions: set<char> := {
    'B', 'b', 'c', 'E', 'e', 'F', 'I', 'i', 'J', 'l', 'm', 'o', 'p', 'w'}

  const ActionOptions: set<char> := {'D', 'L', 'O', 'R', 'S', 'W'}

  // What the probe keeps of the option in front and its value, and how far it moves.
  function KeptProbe(args: Args): Args
    requires args != []
  {
    var arg := args[0];
    if Listed(arg, ActionOptions) || (|arg| > 2 && Listed(arg[..2], ActionOptions)) then []
    else if Listed(arg, ValueOptions) then
      if |args| > 1 && (arg != "-o" || !IsControlSSHOption(args[1])) then args[..2] else []
    else if |arg| > 2 && Listed(arg[..2], ValueOptions) then
      if arg[..2] != "-o" || !IsControlSSHOption(arg[2..]) then [arg] else []
    else []
  }

  function ProbeWidth(args: Args): (n: nat)
    requires args != []
    ensures 1 <= n <= |args|
  {
    if |args| > 1 && (Listed(args[0], ActionOptions) || Listed(args[0], ValueOptions)) then 2 else 1
  }

  function Probe(args: Args): Args {
    if args == [] then []
    else if args[0] == "--" then if |args| > 1 then [args[1]] else []
    else if !IsOption(args[0]) then [args[0]]
    else KeptProbe(args) + Probe(args[ProbeWidth(args)..])
  }

  method ConfigProbeArgs(args: Args) returns (out: Args)
    ensures out == Probe(args)
  {
    out := [];
    var i := 0;
    while i < |args|
      invariant 0 <= i <= |args|
      invariant out + Probe(args[i..]) == Probe(args)
    {
      var arg := args[i];
      ghost var j, rest, before := i, args[i..], out;
      if arg == "--" {
        if i + 1 < |args| {
          out := out + [args[i + 1]];
        }
        return;
      }
      if !IsOption(arg) {
        out := out + [arg];
        return;
      }
      if Listed(arg, ActionOptions) {
        i := if i + 1 < |args| then i + 2 else i + 1;
      } else if |arg| > 2 && Listed(arg[..2], ActionOptions) {
        i := i + 1;
      } else if Listed(arg, ValueOptions) {
        if i + 1 < |args| {
          if arg != "-o" || !IsControlSSHOption(args[i + 1]) {
            out := out + [arg, args[i + 1]];
          }
          i := i + 1;
        }
        i := i + 1;
      } else {
        if |arg| > 2 && Listed(arg[..2], ValueOptions) {
          if arg[..2] != "-o" || !IsControlSSHOption(arg[2..]) {
            out := out + [arg];
          }
        }
        i := i + 1;
      }
      assert out == before + KeptProbe(rest) && i == j + ProbeWidth(rest);
      assert rest[ProbeWidth(rest)..] == args[i..];
      Regroup(before, KeptProbe(rest), Probe(args[i..]));
    }
    assert out + [] == out;
  }

  // ----- the two scanners

  // No option that the scan meets is "-Q", the one entry missing from the probe's tables.
  predicate NoBareQuery(args: Args) {
    args == [] || args[0] == "--" || !IsOption(args[0]) || (args[0] != "-Q" && NoBareQuery(args[Width(args)..]))
  }

  lemma SameTables(arg: string)
    requires arg != "-Q"
    ensures Listed(arg, RequiredValue) <==> Listed(arg, ActionOptions) || Listed(arg, ValueOptions)
  {
  }

  predicate EndsWith(words: Args, last: string) { words != [] && words[|words| - 1] == last }

  /** Whenever Parse finds a target, the probe ends with it. */
  lemma {:induction false} ScannersAgree(args: Args)
    requires NoBareQuery(args) && Find(args) >= 0
    ensures EndsWith(Probe(args), args[Find(args)])
  {
    if args[0] != "--" && IsOption(args[0]) {
      SameTables(args[0]);
      ScannersAgree(args[Width(args)..]);
    }
  }

  lemma {:induction false} NothingToDrop(args: Args)
    requires !HasNoWrap(args)
    ensures DropNoWrap(args) == args
  {
    if args != [] {
      NothingToDrop(args[1..]);
    }
  }

  lemma ProbeFindsParsedTarget(args: Args)
    requires !HasNoWrap(args) && NoBareQuery(args) && ParseOf(args).targetIndex >= 0
    ensures EndsWith(Probe(args), ParseOf(args).target)
  {
    NothingToDrop(args);
    ScannersAgree(args);
  }

  // The value of the first "-Q" that stands as an option of its own.
  function FirstQuery(items: seq<Item>): Option<string> {
    if items == [] then None
    else if items[0].Separate? && items[0].opt == "-Q" then Some(items[0].value)
    else FirstQuery(items[1..])
  }

  lemma FlagInNoTable(w: string)
    requires WellFormed(Flag(w))
    ensures !Listed(w, ActionOptions) && !Listed(w, ValueOptions)
    ensures |w| > 2 ==> !Listed(w[..2], ActionOptions) && !Listed(w[..2], ValueOptions)
  {
    assert ActionOptions <= RequiredValue && ValueOptions <= RequiredValue;
  }

  // For any other option the probe keeps or drops its words and goes on behind them.
  lemma ProbePassesItem(item: Item, rest: Args)
    requires WellFormed(item) && !(item.Separate? && item.opt == "-Q")
    ensures Probe(Words(item) + rest) == KeptProbe(Words(item) + rest) + Probe(rest)
  {
    var args := Words(item) + rest;
    match item
    case Flag(w) =>
      FlagInNoTable(w);
      assert args[1..] == rest && ProbeWidth(args) == 1;
    case Separate(o, v) =>
      SameTables(o);
      assert args[2..] == rest && ProbeWidth(args) == 2;
    case Attached(o, v) =>
      AttachedWord(o, v);
      assert args[1..] == rest && ProbeWidth(args) == 1;
  }

  // "-Q" passes for a flag, and its value for the destination.
  lemma ProbeStopsAtQuery(value: string, rest: Args)
    requires !IsOption(value)
    ensures Probe(["-Q", value] + rest) == [value]
  {
    var args, query := ["-Q", value] + rest, "-Q";
    assert args[0] == query && args[1..] == [value] + rest && query[1] == 'Q';
    assert KeptProbe(args) == [] && ProbeWidth(args) == 1;
    assert [] + Probe(args[1..]) == Probe(args[1..]);
  }

  lemma {:induction false} ProbeEnds(items: seq<Item>, rest: Args, last: string)
    requires AllWellFormed(items) && EndsWith(Probe(rest), last)
    ensures EndsWith(Probe(Print(items) + rest), if FirstQuery(items).Some? then FirstQuery(items).value else last)
  {
    if items == [] {
      assert Print(items) + rest == rest;
    } else {
      var more := Print(items[1..]) + rest;
      assert Print(items) + rest == Words(items[0]) + more;
      if items[0].Separate? && items[0].opt == "-Q" {
        ProbeStopsAtQuery(items[0].value, more);
      } else {
        ProbeEnds(items[1..], rest, last);
        ProbePassesItem(items[0], more);
      }
    }
  }

  /** What the probe ends with on a command line: the value of its first bare "-Q", else
      the target.  So it ends with Parse's target if and only if there is no bare "-Q" or
      the first one's value is that target. */
  lemma ProbeEndsWithTargetIff(items: seq<Item>, mark: bool, target: string, command: Args)
    requires AllWellFormed(items) && !IsOption(target)
    ensures var line, q := CommandLine(items, mark, target, command), FirstQuery(items);
            && EndsWith(Probe(line), if q.Some? then q.value else target)
            && ParseOf(line).target == target
            && (EndsWith(Probe(line), ParseOf(line).target) <==> q.None? || q.value == target)
  {
    var tail := Tail(mark, target, command);
    assert Probe(tail) == [target];
    ProbeEnds(items, tail, target);
    ParseCommandLine(items, mark, target, command);
  }

  // What selects a configuration: an option of the value table, but no control setting.
  predicate Selects(item: Item) {
    !item.Flag? && Listed(item.opt, ValueOptions) && !(item.opt == "-o" && IsControlSSHOption(item.value))
  }

  // The selectors in front of the first bare "-Q".
  function Selectors(items: seq<Item>): seq<Item> {
    if items == [] || (items[0].Separate? && items[0].opt == "-Q") then []
    else (if Selects(items[0]) then [items[0]] else []) + Selectors(items[1..])
  }

  lemma KeepsSelector(item: Item, rest: Args)
    requires WellFormed(item) && !(item.Separate? && item.opt == "-Q")
    ensures KeptProbe(Words(item) + rest) == if Selects(item) then Words(item) else []
  {
    match item
    case Flag(w) => FlagInNoTable(w);
    case Separate(o, v) => assert (Words(item) + rest)[..2] == Words(item);
    case Attached(o, v) => AttachedWord(o, v);
  }

  lemma {:induction false} ProbeSelects(items: seq<Item>, rest: Args)
    requires AllWellFormed(items)
    ensures Probe(Print(items) + rest) ==
            Print(Selectors(items)) + if FirstQuery(items).Some? then [FirstQuery(items).value] else Probe(rest)
  {
    if items == [] {
      assert Print(items) + rest == rest && [] + Probe(rest) == Probe(rest);
    } else {
      var item, more := items[0], Print(items[1..]) + rest;
      assert Print(items) + rest == Words(item) + more;
      if item.Separate? && item.opt == "-Q" {
        ProbeStopsAtQuery(item.value, more);
        assert [] + [item.value] == [item.value];
      } else {
        ProbeSelects(items[1..], rest);
        ProbePassesItem(item, more);
        KeepsSelector(item, more);
        var kept, end := Selectors(items[1..]), if FirstQuery(items).Some? then [FirstQuery(items).value] else Probe(rest);
        if Selects(item) {
          PrintFront(item, kept, end);
        } else {
          assert [] + kept == kept && [] + (Print(kept) + end) == Print(kept) + end;
        }
      }
    }
  }

  /** The probe of a command line, exactly: the words of the configuration selectors in order,
      without flags, actions and control settings, and then the destination. */
  lemma ProbeIsSelectorsAndTarget(items: seq<Item>, mark: bool, target: string, command: Args)
    requires AllWellFormed(items) && !IsOption(target) && FirstQuery(items).None?
    ensures Probe(CommandLine(items, mark, target, command)) == Print(Selectors(items)) + [target]
    ensures forall i :: 0 <= i < |items| && Selects(items[i]) ==> items[i] in Selectors(items)
  {
    ProbeSelects(items, Tail(mark, target, command));
    ProbeTail(mark, target, command);
    SelectorsKept(items);
  }

  lemma ProbeTail(mark: bool, target: string, command: Args)
    requires !IsOption(target)
    ensures Probe(Tail(mark, target, command)) == [target]
  {
    TailFront(mark, target, command);
    assert mark ==> (["--"] + ([target] + command))[1] == target;
  }

  lemma {:induction false} SelectorsKept(items: seq<Item>)
    requires FirstQuery(items).None?
    ensures forall i :: 0 <= i < |items| && Selects(items[i]) ==> items[i] in Selectors(items)
  {
    if items != [] {
      SelectorsKept(items[1..]);
      forall i | 0 <= i < |items| && Selects(items[i]) ensures items[i] in Selectors(items) {
        if i > 0 {
          assert items[i] == items[1..][i - 1];
        }
      }
    }
  }

  // ----- inserted options

  predicate Dropped(item: Item) {
    || item.Flag? || Listed(item.opt, ActionOptions) || (item.opt == "-Q" && item.Attached?)
    || (item.opt == "-o" && IsControlSSHOption(item.value))
  }

  predicate AllDropped(items: seq<Item>) { forall i :: 0 <= i < |items| ==> WellFormed(items[i]) && Dropped(items[i]) }

  lemma DroppedFront(item: Item, rest: Args)
    requires WellFormed(item) && Dropped(item)
    ensures Probe(Words(item) + rest) == Probe(rest)
  {
    ProbePassesItem(item, rest);
    assert KeptProbe(Words(item) + rest) == [] by {
      match item
      case Flag(w) => FlagInNoTable(w);
      case Separate(_, _) =>
      case Attached(o, v) => AttachedWord(o, v);
    }
    assert [] + Probe(rest) == Probe(rest);
  }

  lemma {:induction false} ProbeSkipsDropped(items: seq<Item>, rest: Args)
    requires AllDropped(items)
    ensures Probe(Print(items) + rest) == Probe(rest)
  {
    if items == [] {
      assert Print(items) + rest == rest;
    } else {
      ProbeSkipsDropped(items[1..], rest);
      DroppedFront(items[0], Print(items[1..]) + rest);
      assert Print(items) + rest == Words(items[0]) + (Print(items[1..]) + rest);
    }
  }

  // The words kept on the way to a position that scanning reaches.
  function KeptUpTo(args: Args, at: nat): Args
    requires Reaches(args, at) && NoBareQuery(args)
  {
    if at == 0 then [] else KeptProbe(args) + KeptUpTo(args[Width(args)..], at - Width(args))
  }

  lemma SameFront(args: Args, args': Args)
    requires |args| > 1 && |args'| > 1 && args[0] == args'[0] != "-Q" && (Width(args) == 2 ==> args[1] == args'[1])
    ensures KeptProbe(args') == KeptProbe(args) && ProbeWidth(args') == Width(args)
  {
    SameTables(args[0]);
    if Width(args) == 2 {
      assert args[..2] == args'[..2];
    }
  }

  lemma PrefixFront(args: Args, at: nat, n: nat, rest: Args)
    requires 1 <= n <= 2 && n <= at < |args| && rest != []
    ensures var spliced := args[..at] + rest;
            && |spliced| > 1 && spliced[0] == args[0] && (n == 2 ==> spliced[1] == args[1])
            && spliced[n..] == args[n..][..at - n] + rest
  {
  }

  lemma ProbeStep(args: Args, args': Args)
    requires |args| > 1 && |args'| > 1 && args[0] == args'[0] != "-Q" && (Width(args) == 2 ==> args[1] == args'[1])
    requires IsOption(args[0]) && args[0] != "--"
    ensures Probe(args') == KeptProbe(args) + Probe(args'[Width(args)..])
  {
    SameFront(args, args');
  }

  lemma {:induction false} ProbeBeyond(args: Args, at: nat, rest: Args, spliced: Args)
    requires Reaches(args, at) && NoBareQuery(args) && at < |args| && rest != [] && spliced == args[..at] + rest
    ensures Probe(spliced) == KeptUpTo(args, at) + Probe(rest)
  {
    if at == 0 {
      assert spliced == rest;
    } else {
      var n := Width(args);
      PrefixFront(args, at, n, rest);
      ProbeBeyond(args[n..], at - n, rest, spliced[n..]);
      ProbeStep(args, spliced);
      Regroup(KeptProbe(args), KeptUpTo(args[n..], at - n), Probe(rest));
    }
  }

  lemma ProbeSame(a: Args, at: nat, r: Args, r': Args)
    requires Reaches(a, at) && NoBareQuery(a) && at < |a| && r != [] && r' != [] && Probe(r) == Probe(r')
    ensures Probe(a[..at] + r) == Probe(a[..at] + r')
  {
    ProbeBeyond(a, at, r, a[..at] + r);
    ProbeBeyond(a, at, r', a[..at] + r');
  }

  lemma ProbeSpliced(a: Args, at: nat, items: seq<Item>)
    requires AllDropped(items) && Reaches(a, at) && NoBareQuery(a) && at < |a|
    ensures Probe(a[..at] + Print(items) + a[at..]) == Probe(a)
  {
    var x, p, y := a[..at], Print(items), a[at..];
    assert x + y == a;
    Regroup(x, p, y);
    ProbeSkipsDropped(items, y);
    ProbeSame(a, at, p + y, y);
  }

  /** Options the probe drops can be inserted before the target without changing it,
      when a "--" right before the target ends the options. */
  lemma ProbeIgnoresInserted(args: Args, items: seq<Item>)
    requires AllDropped(items)
    requires var a := DropNoWrap(args); Find(a) >= 0 && NoBareQuery(a) && TerminatorIsReal(a)
    ensures Probe(Inserted(ParseOf(args), Print(items))) == Probe(DropNoWrap(args))
  {
    InsertReaches(args);
    ProbeSpliced(DropNoWrap(args), InsertPoint(ParseOf(args)), items);
  }

  lemma {:induction false} NoQueryFrom(args: Args, at: nat)
    requires Reaches(args, at) && NoBareQuery(args) && at < |args|
    ensures NoBareQuery(args[at..])
  {
    if at > 0 {
      var n := Width(args);
      NoQueryFrom(args[n..], at - n);
      assert args[n..][at - n..] == args[at..];
    } else {
      assert args[at..] == args;
    }
  }

  lemma {:induction false} NoQuerySpliced(args: Args, at: nat, rest: Args, spliced: Args)
    requires Reaches(args, at) && NoBareQuery(args) && at < |args| && rest != [] && spliced == args[..at] + rest
    requires NoBareQuery(rest)
    ensures NoBareQuery(spliced)
  {
    if at == 0 {
      assert spliced == rest;
    } else {
      PrefixFront(args, at, Width(args), rest);
      NoQuerySpliced(args[Width(args)..], at - Width(args), rest, spliced[Width(args)..]);
    }
  }

  // With the "--" as a value, the option in front takes the first inserted word.
  lemma NoQueryAfterValueDash(a: Args, o: string, v: string, more: Args)
    requires var i := Find(a); i > 0 && a[i - 1] == "--" && !Reaches(a, i - 1)
    requires NoBareQuery(a) && !IsOption(v)
    ensures NoBareQuery(a[..Find(a) - 1] + ([o, v] + more))
  {
    var i := Find(a);
    ValueDash(a);
    NoQueryFrom(a, i - 2);
    assert a[i - 2..][0] == a[i - 2];
    var rest := [a[i - 2], o, v] + more;
    assert rest[2..] == [v] + more;
    assert a[..i - 1] + ([o, v] + more) == a[..i - 2] + rest;
    NoQuerySpliced(a, i - 2, rest, a[..i - 2] + rest);
  }

  lemma ProbeAfterValueDash(a: Args, items: seq<Item>)
    requires AllDropped(items) && items != [] && items[0].Separate?
    requires Find(a) > 0 && a[Find(a) - 1] == "--" && !Reaches(a, Find(a) - 1) && NoBareQuery(a)
    ensures EndsWith(Probe(a[..Find(a) - 1] + Print(items) + a[Find(a) - 1..]), items[0].value)
  {
    var i, o, v := Find(a), items[0].opt, items[0].value;
    var more := Print(items[1..]) + a[i - 1..];
    var out := a[..i - 1] + Print(items) + a[i - 1..];
    assert Print(items) == [o, v] + Print(items[1..]);
    assert out == a[..i - 1] + ([o, v] + more);
    NoQueryAfterValueDash(a, o, v, more);
    FindLost(a, items);
    ScannersAgree(out);
  }

  /** That proviso is exact, unless the inserted value happens to be the target: a "--"
      that is an option's value makes the first inserted value the destination. */
  lemma ProbeIgnoresInsertedIff(args: Args, items: seq<Item>)
    requires AllDropped(items) && items != [] && items[0].Separate?
    requires var a := DropNoWrap(args); Find(a) >= 0 && NoBareQuery(a)
    requires items[0].value != ParseOf(args).target
    ensures Probe(Inserted(ParseOf(args), Print(items))) == Probe(DropNoWrap(args)) <==> TerminatorIsReal(DropNoWrap(args))
  {
    var a := DropNoWrap(args);
    if TerminatorIsReal(a) {
      ProbeIgnoresInserted(args, items);
    } else {
      ProbeAfterValueDash(a, items);
      ScannersAgree(a);
    }
  }
}
