/** The string operations of Go's standard library the sources rely on, on ASCII text. */
module Text {
  import opened Wrappers

  const Space: set<char> := {' ', '\t', '\n', '\r', 11 as char, 12 as char}

  function TrimLeft(s: string, cut: set<char>): string {
    if s != [] && s[0] in cut then TrimLeft(s[1..], cut) else s
  }

  function TrimRight(s: string, cut: set<char>): string {
    if s != [] && s[|s| - 1] in cut then TrimRight(s[..|s| - 1], cut) else s
  }

  function Trim(s: string, cut: set<char>): string { TrimRight(TrimLeft(s, cut), cut) }

  function TrimSpace(s: string): string { Trim(s, Space) }

  function LowerChar(c: char): char { if 'A' <= c <= 'Z' then c + ('a' - 'A') else c }

  function ToLower(s: string): (r: string)
    ensures |r| == |s| && forall i :: 0 <= i < |s| ==> r[i] == LowerChar(s[i])
  {
    seq(|s|, i requires 0 <= i < |s| => LowerChar(s[i]))
  }

  predicate HasPrefix(s: string, prefix: string) { prefix <= s }

  // strings.Cut(s, sep) for a one-character separator: the part before it.
  function Before(s: string, sep: char): string {
    if s == [] || s[0] == sep then [] else [s[0]] + Before(s[1..], sep)
  }

  function Join(parts: seq<string>, sep: string): string {
    if parts == [] then [] else if |parts| == 1 then parts[0] else parts[0] + sep + Join(parts[1..], sep)
  }

  function Digit(n: nat): char
    requires n < 10
  {
    '0' + n as char
  }

  function Itoa(n: nat): (s: string)
    ensures s != []
  {
    if n < 10 then [Digit(n)] else Itoa(n / 10) + [Digit(n % 10)]
  }

  function Atoi(s: string): int {
    if s == [] then 0 else 10 * Atoi(s[..|s| - 1]) + (s[|s| - 1] as int - '0' as int)
  }

  lemma {:induction false} AtoiItoa(n: nat)
    ensures Atoi(Itoa(n)) == n
  {
    if n >= 10 {
      AtoiItoa(n / 10);
      assert Itoa(n)[..|Itoa(n)| - 1] == Itoa(n / 10);
    }
  }

  lemma {:induction false} TrimRightStops(c: string, s: string, cut: set<char>)
    requires c != [] && c[|c| - 1] !in cut
    ensures TrimRight(c + s, cut) == c + TrimRight(s, cut)
  {
    if s == [] {
      assert c + s == c;
    } else if s[|s| - 1] in cut {
      TrimRightStops(c, s[..|s| - 1], cut);
      assert (c + s)[..|c + s| - 1] == c + s[..|s| - 1];
    }
  }

  lemma ToLowerAppend(a: string, b: string)
    ensures ToLower(a + b) == ToLower(a) + ToLower(b)
  {
  }

  lemma {:induction false} TrimLeftIsSuffix(s: string, cut: set<char>) returns (n: nat)
    ensures n <= |s| && TrimLeft(s, cut) == s[n..]
  {
    n := 0;
    if s != [] && s[0] in cut {
      n := TrimLeftIsSuffix(s[1..], cut);
      assert s[1..][n..] == s[n + 1..];
      n := n + 1;
    }
  }

  lemma {:induction false} TrimRightIsPrefix(s: string, cut: set<char>) returns (n: nat)
    ensures n <= |s| && TrimRight(s, cut) == s[..n]
  {
    n := |s|;
    if s != [] && s[|s| - 1] in cut {
      n := TrimRightIsPrefix(s[..|s| - 1], cut);
      assert s[..|s| - 1][..n] == s[..n];
    }
  }

  lemma TrimIsSlice(s: string, cut: set<char>) returns (i: nat, j: nat)
    ensures i <= j <= |s| && Trim(s, cut) == s[i..j]
  {
    i := TrimLeftIsSuffix(s, cut);
    var n := TrimRightIsPrefix(s[i..], cut);
    j := i + n;
    assert s[i..][..n] == s[i..j];
  }

  lemma SliceOfSlice(s: string, a: nat, b: nat, c: nat, d: nat)
    requires a <= b <= |s| && c <= d <= b - a
    ensures s[a..b][c..d] == s[a + c..a + d]
  {
    var t := s[a..b];
    forall x | 0 <= x < d - c ensures t[c..d][x] == s[a + c..a + d][x] {
      assert t[c..d][x] == t[c + x] == s[a + (c + x)];
    }
  }

  lemma TrimKeeps(s: string, cut: set<char>)
    requires s != [] && s[0] !in cut && s[|s| - 1] !in cut
    ensures Trim(s, cut) == s
  {
  }

  lemma {:induction false} BeforeShrinks(s: string, sep: char)
    ensures |Before(s, sep)| <= |s|
  {
    if s != [] {
      BeforeShrinks(s[1..], sep);
    }
  }

  lemma Regroup<T>(a: seq<T>, b: seq<T>, c: seq<T>)
    ensures (a + b) + c == a + (b + c)
  {
  }
}
