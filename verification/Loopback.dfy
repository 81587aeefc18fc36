/** internal/loopback/pool.go: the pool of target addresses. */
module Loopback {
  import opened Text

  const PoolPrefix := "127.64.0."
  const Size: nat := 64

  function Address(index: int): string {
    if index < 0 || index >= Size then "" else PoolPrefix + Itoa(index + 1)
  }

  /** The pool is 127.64.0.1 up to 127.64.0.64. */
  lemma AddressOfPool(i: nat)
    requires i < Size
    ensures Address(i) == "127.64.0." + Itoa(i + 1) && Atoi(Itoa(i + 1)) == i + 1 <= 64
  {
    AtoiItoa(i + 1);
  }

  /** Distinct indices of the pool are distinct addresses. */
  lemma AddressInjective(i: nat, j: nat)
    requires i < Size && j < Size && Address(i) == Address(j)
    ensures i == j
  {
    assert Address(i)[|PoolPrefix|..] == Itoa(i + 1) && Address(j)[|PoolPrefix|..] == Itoa(j + 1);
    AtoiItoa(i + 1);
    AtoiItoa(j + 1);
  }
}
