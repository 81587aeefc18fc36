/**
 internal/forward/control.go: an ssh command line stripped of everything that must
 not reach a control operation on the same target.
 */
module SshControl {
  import opened Text
  import opened SshCompat

  function OptionKey(value: string): string { ToLower(TrimSpace(Before(value, '='))) }

  const ControlKeys: set<string> := {"controlmaster", "controlpath", "controlpersist"}

  const ForwardingKeys: set<string> := {
    "clearallforwardings", "exitonforwardfailure", "localforward", "remoteforward", "dynamicforward"}

  predicate IsControlSSHOption(value: string) {
    OptionKey(value) in ControlKeys
  }

  // The code cuts the value at "=" first and passes the key.
  predicate IsForwardingConfigOption(value: string) {
    OptionKey(value) in ForwardingKeys
  }

  const ValueActions: set<char> := {'D', 'L', 'R', 'W'}

  predicate AllT(s: string) { forall i :: 0 <= i < |s| ==> s[i] == 't' }

  predicate IsTTY(arg: string) { |arg| >= 2 && arg[0] == '-' && AllT(arg[1..]) }

  method IsTTYRequestFlag(arg: string) returns (r: bool)
    ensures r == IsTTY(arg)
  {
    if |arg| < 2 || arg[0] != '-' || arg[1] != 't' {
      assert |arg| >= 2 && arg[1] != 't' ==> arg[1..][0] != 't';
      return false;
    }
    for i := 1 to |arg|
      invariant AllT(arg[1..i])
    {
      if arg[i] != 't' {
        assert arg[1..][i - 1] != 't';
        return false;
      }
      assert arg[1..i + 1] == arg[1..i] + ['t'];
    }
    assert arg[1..|arg|] == arg[1..];
    return true;
  }

  // ----- the three passes

  // What the first pass keeps of the word in front and its value, and how far it moves.
  function KeptControl(args: Args): Args
    requires args != []
  {
    var arg := args[0];
    if HasPrefix(arg, "-S") then []
    else if arg == "-o" && |args| > 1 then (if IsControlSSHOption(args[1]) then [] else args[..2])
    else if HasPrefix(arg, "-o") && |arg| > 2 && IsControlSSHOption(arg[2..]) then []
    else [arg]
  }

  function ControlWidth(args: Args): (n: nat)
    requires args != []
    ensures 1 <= n <= |args|
  {
    if (args[0] == "-S" || args[0] == "-o") && |args| > 1 then 2 else 1
  }

  function StripControl(args: Args): Args {
    if args == [] then [] else KeptControl(args) + StripControl(args[ControlWidth(args)..])
  }

  function KeptAuxiliary(arg: string): Args {
    if Listed(arg, ValueActions) || (|arg| > 2 && Listed(arg[..2], ValueActions)) then []
    else if arg == "-N" || arg == "-f" || IsTTY(arg) then []
    else [arg]
  }

  function AuxiliaryWidth(args: Args): (n: nat)
    requires args != []
    ensures 1 <= n <= |args|
  {
    if Listed(args[0], ValueActions) && |args| > 1 then 2 else 1
  }

  function StripAuxiliary(args: Args): Args {
    if args == [] then [] else KeptAuxiliary(args[0]) + StripAuxiliary(args[AuxiliaryWidth(args)..])
  }

  function StripForwarding(args: Args): Args {
    if args == [] then [] else
    var arg := args[0];
    if arg == "-o" && |args| > 1 && IsForwardingConfigOption(args[1]) then StripForwarding(args[2..])
    else if HasPrefix(arg, "-o") && |arg| > 2 && IsForwardingConfigOption(arg[2..]) then StripForwarding(args[1..])
    else [arg] + StripForwarding(args[1..])
  }

  function Clean(args: Args): Args { StripForwarding(StripAuxiliary(StripControl(args))) }

  lemma ControlStep(args: Args, i: nat, out: Args)
    requires i < |args|
    ensures var arg, n := args[i], ControlWidth(args[i..]);
            && n == (if (arg == "-S" || arg == "-o") && i + 1 < |args| then 2 else 1)
            && out + StripControl(args[i..]) == (out + KeptControl(args[i..])) + StripControl(args[i + n..])
  {
    var n := ControlWidth(args[i..]);
    assert args[i..][n..] == args[i + n..];
    Regroup(out, KeptControl(args[i..]), StripControl(args[i + n..]));
  }

  lemma KeptControlAt(args: Args, i: nat)
    requires i < |args|
    ensures var arg := args[i];
            KeptControl(args[i..]) ==
            if HasPrefix(arg, "-S") then []
            else if arg == "-o" && i + 1 < |args| then (if IsControlSSHOption(args[i + 1]) then [] else [arg, args[i + 1]])
            else if HasPrefix(arg, "-o") && |arg| > 2 && IsControlSSHOption(arg[2..]) then []
            else [arg]
  {
    assert i + 1 < |args| ==> args[i..][..2] == [args[i], args[i + 1]];
  }

  method StripControlSSHOptions(args: Args) returns (out: Args)
    ensures out == StripControl(args)
  {
    out := [];
    var i := 0;
    while i < |args|
      invariant 0 <= i <= |args|
      invariant out + StripControl(args[i..]) == StripControl(args)
    {
      var arg := args[i];
      ControlStep(args, i, out);
      assert out + [] == out;
      KeptControlAt(args, i);
      if arg == "-S" {
        i := if i + 1 < |args| then i + 2 else i + 1;
      } else if HasPrefix(arg, "-S") && |arg| > 2 {
        i := i + 1;
      } else if arg == "-o" && i + 1 < |args| {
        if !IsControlSSHOption(args[i + 1]) {
          out := out + [arg, args[i + 1]];
        }
        i := i + 2;
      } else {
        if !(HasPrefix(arg, "-o") && |arg| > 2 && IsControlSSHOption(arg[2..])) {
          out := out + [arg];
        }
        i := i + 1;
      }
    }
    assert out + [] == out;
  }

  lemma AuxiliaryStep(args: Args, i: nat, out: Args)
    requires i < |args|
    ensures var n := if Listed(args[i], ValueActions) && i + 1 < |args| then 2 else 1;
            out + StripAuxiliary(args[i..]) == (out + KeptAuxiliary(args[i])) + StripAuxiliary(args[i + n..])
  {
    var n := AuxiliaryWidth(args[i..]);
    assert args[i..][n..] == args[i + n..];
    Regroup(out, KeptAuxiliary(args[i]), StripAuxiliary(args[i + n..]));
  }

  method StripAuxiliarySSHOptions(args: Args) returns (out: Args)
    ensures out == StripAuxiliary(args)
  {
    out := [];
    var i := 0;
    while i < |args|
      invariant 0 <= i <= |args|
      invariant out + StripAuxiliary(args[i..]) == StripAuxiliary(args)
    {
      var arg := args[i];
      AuxiliaryStep(args, i, out);
      assert out + [] == out;
      if Listed(arg, ValueActions) {
        i := if i + 1 < |args| then i + 2 else i + 1;
      } else {
        var tty := IsTTYRequestFlag(arg);
        if !(|arg| > 2 && Listed(arg[..2], ValueActions)) && !(arg == "-N" || arg == "-f" || tty) {
          out := out + [arg];
        }
        i := i + 1;
      }
    }
    assert out + [] == out;
  }

  method StripForwardingConfigOptions(args: Args) returns (out: Args)
    ensures out == StripForwarding(args)
  {
    out := [];
    var i := 0;
    while i < |args|
      invariant 0 <= i <= |args|
      invariant out + StripForwarding(args[i..]) == StripForwarding(args)
    {
      var arg := args[i];
      assert args[i..][1..] == args[i + 1..];
      assert i + 1 < |args| ==> args[i..][2..] == args[i + 2..];
      if arg == "-o" && i + 1 < |args| && IsForwardingConfigOption(args[i + 1]) {
        i := i + 2;
      } else {
        if !(HasPrefix(arg, "-o") && |arg| > 2 && IsForwardingConfigOption(arg[2..])) {
          out := out + [arg];
        }
        i := i + 1;
      }
    }
    assert out + [] == out;
  }

  method CleanSSHArgs(args: Args) returns (out: Args)
    ensures out == Clean(args)
  {
    out := StripControlSSHOptions(args);
    out := StripAuxiliarySSHOptions(out);
    out := StripForwardingConfigOptions(out);
  }

  // ----- on well-formed lists the passes are one filter on items

  // The item whose option is `opt`, with its value.
  predicate Is(item: Item, opt: string) { !item.Flag? && item.opt == opt }

  predicate ControlItem(item: Item) { Is(item, "-S") || (Is(item, "-o") && IsControlSSHOption(item.value)) }

  predicate AuxiliaryItem(item: Item) {
    if item.Flag? then item.word == "-N" || item.word == "-f" || IsTTY(item.word) else Listed(item.opt, ValueActions)
  }

  predicate ForwardingItem(item: Item) { Is(item, "-o") && IsForwardingConfigOption(item.value) }

  predicate Kept(item: Item) { !ControlItem(item) && !AuxiliaryItem(item) && !ForwardingItem(item) }

  function Cleaned(items: seq<Item>): seq<Item> {
    if items == [] then [] else (if Kept(items[0]) then [items[0]] else []) + Cleaned(items[1..])
  }

  // Words that each pass keeps, and that do not make it look at the next word.
  predicate ControlKeeps(v: string) {
    !HasPrefix(v, "-S") && v != "-o" && (HasPrefix(v, "-o") ==> !IsControlSSHOption(v[2..]))
  }

  predicate AuxiliaryKeeps(v: string) {
    !Listed(v, ValueActions) && (|v| > 2 ==> !Listed(v[..2], ValueActions)) && v != "-N" && v != "-f" && !IsTTY(v)
  }

  predicate ForwardingKeeps(v: string) {
    v != "-o" && (HasPrefix(v, "-o") ==> !IsForwardingConfigOption(v[2..]))
  }

  predicate Inert(v: string) { ControlKeeps(v) && AuxiliaryKeeps(v) && ForwardingKeeps(v) }

  // The value of an option that reaches a pass as a word of its own is inert there.
  predicate InertValue(o: string, v: string) {
    || o == "-S"
    || (&& (o == "-o" || ControlKeeps(v))
        && (Listed(o, ValueActions) || (AuxiliaryKeeps(v) && ForwardingKeeps(v))))
  }

  predicate Undisturbed(item: Item) {
    if item.Separate? then Listed(item.opt, RequiredValue) && InertValue(item.opt, item.value) else WellFormed(item)
  }

  predicate AllUndisturbed(items: seq<Item>) { forall i :: 0 <= i < |items| ==> Undisturbed(items[i]) }

  lemma PlainIsInert(v: string)
    requires !IsOption(v)
    ensures Inert(v)
  {
    assert "-S"[0] == '-' && "-o"[0] == '-';
    assert forall a: string :: Listed(a, ValueActions) ==> |a| == 2 && a[0] == '-';
    if |v| > 2 {
      assert v[..2][0] == v[0];
    }
  }

  // In particular a value that does not start with "-".
  lemma WellFormedUndisturbed(items: seq<Item>)
    requires AllWellFormed(items)
    ensures AllUndisturbed(items)
  {
    forall i | 0 <= i < |items| ensures Undisturbed(items[i]) {
      if items[i].Separate? {
        PlainIsInert(items[i].value);
      }
    }
  }

  lemma TableWords()
    ensures forall o: string :: Listed(o, RequiredValue) ==> |o| == 2 && o[0] == '-' && o[1] !in {'-', 't', 'N', 'f'}
  {
  }

  // One item at the front, pass by pass.
  lemma ControlFront(item: Item, rest: Args)
    requires Undisturbed(item)
    ensures StripControl(Words(item) + rest) == (if ControlItem(item) then [] else Words(item)) + StripControl(rest)
  {
    match item
    case Flag(w) => ControlFlag(w, rest);
    case Separate(o, v) => ControlSeparate(o, v, rest);
    case Attached(o, v) => ControlAttached(o, v, rest);
  }

  lemma ControlFlag(w: string, rest: Args)
    requires WellFormed(Flag(w))
    ensures StripControl([w] + rest) == [w] + StripControl(rest)
  {
    var args := [w] + rest;
    assert args[1..] == rest && (|w| > 2 ==> w[..2] != "-S" && w[..2] != "-o");
    assert !HasPrefix(w, "-S") by {
      assert HasPrefix(w, "-S") && |w| == 2 ==> w == "-S";
    }
  }

  lemma ControlSeparate(o: string, v: string, rest: Args)
    requires Undisturbed(Separate(o, v))
    ensures StripControl([o, v] + rest) == (if ControlItem(Separate(o, v)) then [] else [o, v]) + StripControl(rest)
  {
    var args := [o, v] + rest;
    assert args[2..] == rest && args[1..] == [v] + rest;
    if o == "-S" {
      assert KeptControl(args) == [] && ControlWidth(args) == 2;
    } else if o == "-o" {
      assert args[..2] == [o, v];
      ControlPair(args);
    } else {
      OtherControl(o, [v] + rest);
      InertControl(v, rest);
      Regroup([o], [v], StripControl(rest));
    }
  }

  lemma ControlPair(args: Args)
    requires |args| > 1 && args[0] == "-o"
    ensures KeptControl(args) == (if IsControlSSHOption(args[1]) then [] else args[..2]) && ControlWidth(args) == 2
  {
    assert "-o"[1] == 'o' && "-S"[1] == 'S';
    assert !HasPrefix(args[0], "-S");
  }

  lemma OtherControl(o: string, rest: Args)
    requires |o| == 2 && o != "-S" && o != "-o"
    ensures StripControl([o] + rest) == [o] + StripControl(rest)
  {
    assert HasPrefix(o, "-S") ==> o == "-S";
    assert ([o] + rest)[1..] == rest;
  }

  lemma ControlAttached(o: string, v: string, rest: Args)
    requires WellFormed(Attached(o, v))
    ensures StripControl([o + v] + rest) == (if ControlItem(Attached(o, v)) then [] else [o + v]) + StripControl(rest)
  {
    AttachedWord(o, v);
    assert ([o + v] + rest)[1..] == rest;
    assert (HasPrefix(o + v, "-S") <==> o == "-S") && (HasPrefix(o + v, "-o") <==> o == "-o");
  }

  lemma InertControl(v: string, rest: Args)
    requires ControlKeeps(v)
    ensures StripControl([v] + rest) == [v] + StripControl(rest)
  {
    assert ([v] + rest)[1..] == rest;
    assert HasPrefix("-S", "-S");
  }

  lemma AuxiliaryFront(item: Item, rest: Args)
    requires Undisturbed(item) && !ControlItem(item)
    ensures StripAuxiliary(Words(item) + rest) == (if AuxiliaryItem(item) then [] else Words(item)) + StripAuxiliary(rest)
  {
    match item
    case Flag(w) => AuxiliaryFlag(w, rest);
    case Separate(o, v) => AuxiliarySeparate(o, v, rest);
    case Attached(o, v) => AuxiliaryAttached(o, v, rest);
  }

  lemma AuxiliaryFlag(w: string, rest: Args)
    requires WellFormed(Flag(w))
    ensures StripAuxiliary([w] + rest) == (if AuxiliaryItem(Flag(w)) then [] else [w]) + StripAuxiliary(rest)
  {
    assert ([w] + rest)[1..] == rest && (|w| > 2 ==> !Listed(w[..2], ValueActions));
  }

  lemma AuxiliarySeparate(o: string, v: string, rest: Args)
    requires Undisturbed(Separate(o, v)) && o != "-S"
    ensures StripAuxiliary([o, v] + rest) == (if Listed(o, ValueActions) then [] else [o, v]) + StripAuxiliary(rest)
  {
    var args := [o, v] + rest;
    assert args[2..] == rest && args[1..] == [v] + rest;
    if Listed(o, ValueActions) {
      ActionPair(args);
    } else {
      OtherAuxiliary(o, [v] + rest);
      InertAuxiliary(v, rest);
      Regroup([o], [v], StripAuxiliary(rest));
    }
  }

  lemma ActionPair(args: Args)
    requires |args| > 1 && Listed(args[0], ValueActions)
    ensures StripAuxiliary(args) == StripAuxiliary(args[2..])
  {
  }

  lemma OtherAuxiliary(o: string, rest: Args)
    requires Listed(o, RequiredValue) && !Listed(o, ValueActions)
    ensures StripAuxiliary([o] + rest) == [o] + StripAuxiliary(rest)
  {
    TableWords();
    assert o[1..][0] == o[1] && ([o] + rest)[1..] == rest;
  }

  lemma AuxiliaryAttached(o: string, v: string, rest: Args)
    requires WellFormed(Attached(o, v))
    ensures StripAuxiliary([o + v] + rest) == (if Listed(o, ValueActions) then [] else [o + v]) + StripAuxiliary(rest)
  {
    TableWords();
    AttachedWord(o, v);
    assert ([o + v] + rest)[1..] == rest && (o + v)[1] == o[1] && (o + v)[1..][0] == o[1];
  }

  lemma InertAuxiliary(v: string, rest: Args)
    requires AuxiliaryKeeps(v)
    ensures StripAuxiliary([v] + rest) == [v] + StripAuxiliary(rest)
  {
    assert ([v] + rest)[1..] == rest;
  }

  lemma ForwardingFront(item: Item, rest: Args)
    requires Undisturbed(item) && !AuxiliaryItem(item) && !ControlItem(item)
    ensures StripForwarding(Words(item) + rest) == (if ForwardingItem(item) then [] else Words(item)) + StripForwarding(rest)
  {
    match item
    case Flag(w) => ForwardingFlag(w, rest);
    case Separate(o, v) => ForwardingSeparate(o, v, rest);
    case Attached(o, v) => ForwardingAttached(o, v, rest);
  }

  lemma ForwardingFlag(w: string, rest: Args)
    requires WellFormed(Flag(w))
    ensures StripForwarding([w] + rest) == [w] + StripForwarding(rest)
  {
    var o := "-o";
    assert Listed(o, RequiredValue);
    assert ([w] + rest)[1..] == rest && w != o && (|w| > 2 ==> w[..2] != o);
  }

  lemma ForwardingSeparate(o: string, v: string, rest: Args)
    requires Undisturbed(Separate(o, v)) && o != "-S" && !Listed(o, ValueActions)
    ensures StripForwarding([o, v] + rest) == (if ForwardingItem(Separate(o, v)) then [] else [o, v]) + StripForwarding(rest)
  {
    var args := [o, v] + rest;
    assert args[2..] == rest && args[1..] == [v] + rest;
    if !ForwardingItem(Separate(o, v)) {
      assert StripForwarding(args) == [o] + StripForwarding([v] + rest);
      InertForwarding(v, rest);
      Regroup([o], [v], StripForwarding(rest));
    }
  }

  lemma ForwardingAttached(o: string, v: string, rest: Args)
    requires WellFormed(Attached(o, v))
    ensures StripForwarding([o + v] + rest) == (if ForwardingItem(Attached(o, v)) then [] else [o + v]) + StripForwarding(rest)
  {
    var args := [o + v] + rest;
    AttachedWord(o, v);
    assert args[1..] == rest && args[0] == o + v && args[0] != "-o" && (HasPrefix(o + v, "-o") <==> o == "-o");
  }

  lemma InertForwarding(v: string, rest: Args)
    requires ForwardingKeeps(v)
    ensures StripForwarding([v] + rest) == [v] + StripForwarding(rest)
  {
    assert ([v] + rest)[1..] == rest;
  }

  // One item at the front, through all three.
  lemma CleanFront(item: Item, rest: Args)
    requires Undisturbed(item)
    ensures Clean(Words(item) + rest) == (if Kept(item) then Words(item) else []) + Clean(rest)
  {
    var once, twice := StripControl(rest), StripAuxiliary(StripControl(rest));
    assert [] + once == once && [] + twice == twice && [] + StripForwarding(twice) == StripForwarding(twice);
    ControlFront(item, rest);
    if !ControlItem(item) {
      AuxiliaryFront(item, once);
      if !AuxiliaryItem(item) {
        ForwardingFront(item, twice);
      }
    }
  }

  lemma PrintFront(item: Item, tail: seq<Item>, words: Args)
    ensures Print([item] + tail) + words == Words(item) + (Print(tail) + words)
  {
    assert ([item] + tail)[1..] == tail;
  }

  /** On options followed by anything, whose values no pass takes for an option, the three
      passes amount to dropping the unwanted options and keeping the others in order. */
  lemma {:induction false} CleanIsFilter(items: seq<Item>, words: Args)
    requires AllUndisturbed(items)
    ensures Clean(Print(items) + words) == Print(Cleaned(items)) + Clean(words)
  {
    if items == [] {
      assert Print(items) + words == words && Print(Cleaned(items)) + Clean(words) == Clean(words);
    } else {
      var item, tail := items[0], Cleaned(items[1..]);
      assert items == [item] + items[1..];
      PrintFront(item, items[1..], words);
      CleanIsFilter(items[1..], words);
      CleanFront(item, Print(items[1..]) + words);
      PrintFront(item, tail, Clean(words));
      assert [] + tail == tail && [] + Clean(Print(items[1..]) + words) == Clean(Print(items[1..]) + words);
    }
  }

  lemma {:induction false} CleanedWellFormed(items: seq<Item>)
    requires AllWellFormed(items)
    ensures AllWellFormed(Cleaned(items))
  {
    if items != [] {
      CleanedWellFormed(items[1..]);
    }
  }

  // ----- whole command lines: options, perhaps "--", the target, the remote command

  function CommandLine(items: seq<Item>, mark: bool, target: string, command: Args): Args {
    Print(items) + Tail(mark, target, command)
  }

  function Tail(mark: bool, target: string, command: Args): Args { (if mark then ["--"] else []) + [target] + command }

  lemma CleanInert(v: string, rest: Args)
    requires Inert(v)
    ensures Clean([v] + rest) == [v] + Clean(rest)
  {
    InertControl(v, rest);
    InertAuxiliary(v, StripControl(rest));
    InertForwarding(v, StripAuxiliary(StripControl(rest)));
  }

  // A word that is not inert disappears, or takes another with it.
  lemma NotInert(v: string) returns (rest: Args)
    requires !Inert(v)
    ensures Clean([v] + rest) != [v] + Clean(rest)
  {
    if v == "-o" {
      rest := ["controlpath"];
      ControlPathKey();
      assert KeptControl(["-o", "controlpath"]) == [] && ["-o"] + rest == ["-o", "controlpath"];
      assert Clean([v] + rest) == [];
    } else {
      rest := [];
      assert [v] + rest == [v];
      Alone(v);
    }
  }

  lemma Alone(v: string)
    requires !Inert(v) && v != "-o"
    ensures Clean([v]) == []
  {
    var one := [v];
    assert one[1..] == [] && one[0] == v;
    assert StripControl(one) == KeptControl(one) + StripControl([]) == KeptControl(one) == if ControlKeeps(v) then one else [];
    assert StripAuxiliary(one) == KeptAuxiliary(v) + StripAuxiliary([]) == KeptAuxiliary(v);
    if ControlKeeps(v) && AuxiliaryKeeps(v) {
      assert StripForwarding(one) == [];
    }
  }

  lemma ControlPathKey()
    ensures IsControlSSHOption("controlpath")
  {
    var key := "controlpath";
    LetterKey(key);
    assert key in ControlKeys;
  }

  lemma LetterKey(key: string)
    requires key != [] && forall i :: 0 <= i < |key| ==> 'a' <= key[i] <= 'z'
    ensures OptionKey(key) == key
  {
    WholeKey(key);
    LowerStays(key);
  }

  lemma LowerStays(key: string)
    requires forall i :: 0 <= i < |key| ==> 'a' <= key[i] <= 'z'
    ensures ToLower(key) == key
  {
  }

  lemma WholeKey(key: string)
    requires key != [] && '=' !in key && key[0] !in Space && key[|key| - 1] !in Space
    ensures OptionKey(key) == ToLower(key)
  {
    BeforeAll(key);
  }

  lemma {:induction false} BeforeAll(s: string)
    requires '=' !in s
    ensures Before(s, '=') == s
  {
    if s != [] {
      BeforeAll(s[1..]);
      assert s == [s[0]] + s[1..];
    }
  }

  /** The condition on a word is exact: cleaning leaves it alone, whatever follows, if and
      only if it is inert. */
  lemma InertIff(v: string)
    ensures Inert(v) <==> forall rest: Args :: Clean([v] + rest) == [v] + Clean(rest)
  {
    if Inert(v) {
      forall rest: Args ensures Clean([v] + rest) == [v] + Clean(rest) {
        CleanInert(v, rest);
      }
    } else {
      var rest := NotInert(v);
    }
  }

  lemma CleanPlain(v: string, rest: Args)
    requires !IsOption(v)
    ensures Clean([v] + rest) == [v] + Clean(rest)
  {
    PlainIsInert(v);
    CleanInert(v, rest);
  }

  lemma MarkIsInert(mark: string)
    requires mark == "--"
    ensures Inert(mark)
  {
    assert mark[1] == '-' && mark[1..][0] == '-' && "-S"[1] == 'S' && "-o"[1] == 'o';
  }

  lemma CleanMark(rest: Args)
    ensures Clean(["--"] + rest) == ["--"] + Clean(rest)
  {
    MarkIsInert("--");
    CleanInert("--", rest);
  }

  lemma TailFront(mark: bool, target: string, command: Args)
    ensures Tail(mark, target, command) == if mark then ["--"] + ([target] + command) else [target] + command
  {
  }

  lemma CleanTail(mark: bool, target: string, command: Args)
    requires !IsOption(target)
    ensures Clean(Tail(mark, target, command)) == Tail(mark, target, Clean(command))
  {
    TailFront(mark, target, command);
    TailFront(mark, target, Clean(command));
    CleanPlain(target, command);
    if mark {
      CleanMark([target] + command);
    }
  }

  /** Cleaning a command line drops the unwanted options, cleans the words of the
      remote command and leaves the rest as it is. */
  lemma CleanCommandLine(items: seq<Item>, mark: bool, target: string, command: Args)
    requires AllWellFormed(items) && !IsOption(target)
    ensures Clean(CommandLine(items, mark, target, command)) == CommandLine(Cleaned(items), mark, target, Clean(command))
    ensures AllWellFormed(Cleaned(items))
  {
    WellFormedUndisturbed(items);
    CleanedWellFormed(items);
    CleanIsFilter(items, Tail(mark, target, command));
    CleanTail(mark, target, command);
  }

  lemma {:induction false} CleanPlainWords(words: Args)
    requires Plain(words)
    ensures Clean(words) == words && DropNoWrap(words) == words
  {
    if words != [] {
      CleanPlainWords(words[1..]);
      assert words == [words[0]] + words[1..];
      CleanPlain(words[0], words[1..]);
    }
  }

  // ----- any list of options and words, the remote command included

  // A word that stands by itself: "--", the target, part of a command, "-v", "-p", ...
  datatype Piece = Option(item: Item) | Word(word: string)

  predicate UndisturbedPiece(p: Piece) {
    match p
    case Option(item) => Undisturbed(item)
    case Word(w) => Inert(w)
  }

  predicate AllUndisturbedPieces(pieces: seq<Piece>) { forall i :: 0 <= i < |pieces| ==> UndisturbedPiece(pieces[i]) }

  function PieceWords(p: Piece): Args {
    match p
    case Option(item) => Words(item)
    case Word(w) => [w]
  }

  function PrintPieces(pieces: seq<Piece>): Args {
    if pieces == [] then [] else PieceWords(pieces[0]) + PrintPieces(pieces[1..])
  }

  function CleanedPieces(pieces: seq<Piece>): seq<Piece> {
    if pieces == [] then [] else
    (if pieces[0].Option? && !Kept(pieces[0].item) then [] else [pieces[0]]) + CleanedPieces(pieces[1..])
  }

  lemma CleanPiece(p: Piece, rest: Args)
    requires UndisturbedPiece(p)
    ensures Clean(PieceWords(p) + rest) == (if p.Option? && !Kept(p.item) then [] else PieceWords(p)) + Clean(rest)
  {
    match p
    case Option(item) => CleanFront(item, rest);
    case Word(w) => CleanInert(w, rest);
  }

  /** Cleaning any such list drops the unwanted options and nothing else. */
  lemma {:induction false} CleanPieces(pieces: seq<Piece>)
    requires AllUndisturbedPieces(pieces)
    ensures Clean(PrintPieces(pieces)) == PrintPieces(CleanedPieces(pieces)) && AllUndisturbedPieces(CleanedPieces(pieces))
  {
    if pieces != [] {
      CleanPieces(pieces[1..]);
      CleanPiece(pieces[0], PrintPieces(pieces[1..]));
      var tail := CleanedPieces(pieces[1..]);
      assert ([pieces[0]] + tail)[1..] == tail && [] + tail == tail;
      assert [] + PrintPieces(tail) == PrintPieces(tail);
    }
  }

  lemma {:induction false} CleanedPiecesTwice(pieces: seq<Piece>)
    ensures CleanedPieces(CleanedPieces(pieces)) == CleanedPieces(pieces)
  {
    if pieces != [] {
      CleanedPiecesTwice(pieces[1..]);
      var tail := CleanedPieces(pieces[1..]);
      assert ([pieces[0]] + tail)[1..] == tail && [] + tail == tail;
    }
  }

  /** So cleaning twice is cleaning once, on every list in which no value that survives as
      a word of its own, or other word, is one a pass acts on. */
  lemma CleanIsIdempotent(pieces: seq<Piece>)
    requires AllUndisturbedPieces(pieces)
    ensures Clean(Clean(PrintPieces(pieces))) == Clean(PrintPieces(pieces))
  {
    CleanPieces(pieces);
    CleanPieces(CleanedPieces(pieces));
    CleanedPiecesTwice(pieces);
  }

  // ----- an option value that starts with "-"

  // The keys the passes look for are all longer.
  lemma ShortValue(v: string)
    requires |v| == 2
    ensures !IsControlSSHOption(v) && !IsForwardingConfigOption(v)
  {
    BeforeShrinks(v, '=');
    var i, j := TrimIsSlice(Before(v, '='), Space);
    assert |OptionKey(v)| <= 2;
    assert forall k: string :: k in ControlKeys || k in ForwardingKeys ==> |k| > 2;
  }

  lemma FirstPassKeepsPair(o: string, v: string, rest: Args)
    requires o == "-o" && |v| == 2
    ensures StripControl([o, v] + rest) == [o, v] + StripControl(rest)
  {
    var args := [o, v] + rest;
    ShortValue(v);
    ControlPair(args);
    assert args[2..] == rest && args[..2] == [o, v];
  }

  lemma ThirdPassKeepsWord(o: string, rest: Args)
    requires |o| == 2 && rest != [] && |rest[0]| == 2
    ensures StripForwarding([o] + rest) == [o] + StripForwarding(rest)
  {
    assert ([o] + rest)[1..] == rest;
    ShortValue(rest[0]);
  }

  lemma Passes(a: Args, b: Args, c: Args, d: Args)
    requires StripControl(a) == b && StripAuxiliary(b) == c && StripForwarding(c) == d
    ensures Clean(a) == d
  {
  }

  lemma SecondPassDropsFlag(o: string, f: string, tail: Args)
    requires o == "-o" && f == "-N"
    ensures StripAuxiliary([o, f] + tail) == [o] + StripAuxiliary(tail)
  {
    var args := [f] + tail;
    assert [o, f] + tail == [o] + args && args[1..] == tail;
    OtherAuxiliary(o, args);
    assert KeptAuxiliary(f) == [] && AuxiliaryWidth(args) == 1;
    assert [] + StripAuxiliary(tail) == StripAuxiliary(tail);
  }

  // The first cleaning drops the "-N" from between two options ...
  lemma DropsFlagBetween(o: string, f: string, tail: Args)
    requires o == "-o" && f == "-N" && tail != [] && |tail[0]| == 2
    requires StripControl(tail) == StripAuxiliary(tail) == StripForwarding(tail) == tail
    ensures Clean([o, f] + tail) == [o] + tail
  {
    FirstPassKeepsPair(o, f, tail);
    SecondPassDropsFlag(o, f, tail);
    ThirdPassKeepsWord(o, tail);
    Passes([o, f] + tail, [o, f] + tail, [o] + tail, [o] + tail);
  }

  lemma TailPasses(o: string, s: string, host: string)
    requires o == "-o" && s == "-S" && !IsOption(host)
    ensures var tail := [o, s] + [host]; StripControl(tail) == StripAuxiliary(tail) == StripForwarding(tail) == tail
  {
    FirstPassKeepsPair(o, s, [host]);
    CleanPlainWords([host]);
    PlainIsInert(host);
    InertControl(host, []);
    InertAuxiliary(host, []);
    InertForwarding(host, []);
    assert [host] + [] == [host] && [o, s] + [host] == [o] + ([s] + [host]);
    OtherAuxiliary(o, [s] + [host]);
    OtherAuxiliary(s, [host]);
    ThirdPassKeepsWord(o, [s] + [host]);
    ShortThird(s, host);
  }

  lemma ShortThird(s: string, host: string)
    requires s == "-S"
    ensures StripForwarding([s] + [host]) == [s] + StripForwarding([host])
  {
    assert ([s] + [host])[1..] == [host];
  }

  // ... which leaves "-S" and its would-be value behind a complete pair.
  lemma DropsTarget(o: string, s: string, host: string)
    requires o == "-o" && s == "-S"
    ensures Clean([o, o] + [s, host]) == [o, o]
  {
    FirstPassKeepsPair(o, o, [s, host]);
    assert [s, host][2..] == [] && KeptControl([s, host]) == [] && StripControl([s, host]) == [];
    assert [o, o] + [] == [o, o] == [o] + [o] && [o] + [] == [o];
    OtherAuxiliary(o, [o]);
    OtherAuxiliary(o, []);
    ThirdPassKeepsWord(o, [o]);
    assert StripForwarding([o]) == [o] + StripForwarding([]);
  }

  /** The second pass takes such a value for a flag, and the option is left with the next
      word: here the second cleaning drops even the target. */
  lemma CleaningTwiceCanDiffer(host: string)
    requires !IsOption(host)
    ensures Clean(["-o", "-N", "-o", "-S", host]) == ["-o", "-o", "-S", host]
    ensures Clean(["-o", "-o", "-S", host]) == ["-o", "-o"]
  {
    var o, f, s := "-o", "-N", "-S";
    TailPasses(o, s, host);
    DropsFlagBetween(o, f, [o, s] + [host]);
    DropsTarget(o, s, host);
    SameWords(o, f, s, host);
  }

  lemma SameWords(o: string, f: string, s: string, host: string)
    ensures [o, f] + ([o, s] + [host]) == [o, f, o, s, host]
    ensures [o] + ([o, s] + [host]) == [o, o] + [s, host] == [o, o, s, host]
  {
  }

  lemma LineParts(items: seq<Item>, mark: bool, target: string, command: Args)
    requires AllWellFormed(items) && !IsOption(target)
    ensures var line := CommandLine(items, mark, target, command); var at := |Print(items)| + (if mark then 1 else 0);
            && DropNoWrap(line) == CommandLine(items, mark, target, DropNoWrap(command))
            && Find(line) == at && at < |line| && line[at] == target && line[at + 1..] == command
  {
    var tail := Tail(mark, target, command);
    FindSkipsItems(items, tail);
    DropPrinted(items);
    DropAppend(Print(items), tail);
    DropAppend(if mark then ["--"] else [], [target]);
    DropAppend((if mark then ["--"] else []) + [target], command);
    KeptWord(target);
    KeptWord("--");
  }

  /** Parsing a command line gives back its target and its remote command. */
  lemma ParseCommandLine(items: seq<Item>, mark: bool, target: string, command: Args)
    requires AllWellFormed(items) && !IsOption(target)
    ensures var p := ParseOf(CommandLine(items, mark, target, command));
            p.target == target && p.remoteCommand == DropNoWrap(command)
  {
    LineParts(items, mark, target, command);
    LineParts(items, mark, target, DropNoWrap(command));
  }

  /** So cleaning changes neither the target nor a remote command without options. */
  lemma CleanKeepsTarget(items: seq<Item>, mark: bool, target: string, command: Args)
    requires AllWellFormed(items) && !IsOption(target)
    ensures var line := CommandLine(items, mark, target, command);
            && ParseOf(Clean(line)).target == ParseOf(line).target == target
            && (Plain(command) ==> ParseOf(Clean(line)).remoteCommand == ParseOf(line).remoteCommand == command)
  {
    CleanCommandLine(items, mark, target, command);
    ParseCommandLine(items, mark, target, command);
    ParseCommandLine(Cleaned(items), mark, target, Clean(command));
    if Plain(command) {
      CleanPlainWords(command);
    }
  }

  // ----- control operations

  function OperationOptions(controlPath: string, operation: string, direction: char, spec: string): Args {
    ["-S", controlPath, "-O", operation, "-o", "ExitOnForwardFailure=yes", "-" + [direction], spec]
  }

  method ControlOperationArgs(sshArgs: Args, controlPath: string, operation: string, direction: char, forwardSpec: string)
    returns (out: Args)
    ensures out == Inserted(ParseOf(Clean(sshArgs)), OperationOptions(controlPath, operation, direction, forwardSpec))
  {
    var cleaned := CleanSSHArgs(sshArgs);
    var parsed := Parse(cleaned);
    var options := OperationOptions(controlPath, operation, direction, forwardSpec);
    out := InsertBeforeTarget(parsed, options);
  }

  function OperationItems(controlPath: string, operation: string, direction: char, spec: string): seq<Item> {
    [Separate("-S", controlPath), Separate("-O", operation), Separate("-o", "ExitOnForwardFailure=yes"),
     Separate("-" + [direction], spec)]
  }

  lemma OperationPrinted(controlPath: string, operation: string, direction: char, spec: string)
    requires direction in {'L', 'R'} && !IsOption(controlPath) && !IsOption(operation) && !IsOption(spec)
    ensures var items := OperationItems(controlPath, operation, direction, spec);
            AllWellFormed(items) && Print(items) == OperationOptions(controlPath, operation, direction, spec)
  {
    var items := OperationItems(controlPath, operation, direction, spec);
    assert "-" + [direction] == if direction == 'L' then "-L" else "-R";
    assert Print(items[3..]) == ["-" + [direction], spec];
    assert Print(items[2..]) == ["-o", "ExitOnForwardFailure=yes"] + Print(items[2..][1..]) && items[2..][1..] == items[3..];
    assert Print(items[1..]) == ["-O", operation] + Print(items[1..][1..]) && items[1..][1..] == items[2..];
  }

  lemma {:induction false} PrintAppend(a: seq<Item>, b: seq<Item>)
    ensures Print(a + b) == Print(a) + Print(b)
  {
    if a == [] {
      assert a + b == b;
    } else {
      assert (a + b)[1..] == a[1..] + b;
      PrintAppend(a[1..], b);
    }
  }

  lemma {:induction false} LastWord(items: seq<Item>)
    requires AllWellFormed(items) && items != []
    ensures Print(items) != [] && Print(items)[|Print(items)| - 1] != "--"
  {
    if |items| > 1 {
      LastWord(items[1..]);
    } else {
      assert Print(items) == Words(items[0]);
      if items[0].Attached? {
        AttachedWord(items[0].opt, items[0].value);
      }
    }
  }

  lemma InsertIntoLine(items: seq<Item>, mark: bool, target: string, command: Args, more: seq<Item>)
    requires AllWellFormed(items) && !IsOption(target)
    ensures Inserted(ParseOf(CommandLine(items, mark, target, command)), Print(more))
         == CommandLine(items + more, mark, target, DropNoWrap(command))
  {
    var kept := DropNoWrap(command);
    LineParts(items, mark, target, command);
    LineParts(items, mark, target, kept);
    var line, at := CommandLine(items, mark, target, kept), |Print(items)|;
    assert InsertPoint(ParseOf(CommandLine(items, mark, target, command))) == at by {
      if !mark && items != [] {
        LastWord(items);
      }
    }
    assert line[..at] == Print(items) && line[at..] == Tail(mark, target, kept);
    PrintAppend(items, more);
  }

  /** The arguments of a control operation are the caller's options without the unwanted
      ones, then the operation's own, then the same target. */
  lemma OperationReachesTarget(items: seq<Item>, mark: bool, target: string, command: Args,
                                                  controlPath: string, operation: string, direction: char, spec: string)
    requires AllWellFormed(items) && !IsOption(target)
    requires direction in {'L', 'R'} && !IsOption(controlPath) && !IsOption(operation) && !IsOption(spec)
    ensures var line := CommandLine(items, mark, target, command);
            var out := Inserted(ParseOf(Clean(line)), OperationOptions(controlPath, operation, direction, spec));
            && out == CommandLine(Cleaned(items) + OperationItems(controlPath, operation, direction, spec),
                                  mark, target, DropNoWrap(Clean(command)))
            && ParseOf(out).target == target
  {
    var more := OperationItems(controlPath, operation, direction, spec);
    CleanCommandLine(items, mark, target, command);
    OperationPrinted(controlPath, operation, direction, spec);
    InsertIntoLine(Cleaned(items), mark, target, Clean(command), more);
    ParseCommandLine(Cleaned(items) + more, mark, target, DropNoWrap(Clean(command)));
  }
}
