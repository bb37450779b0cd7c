/** Satang amounts are mathematical integers here. The source rejects any value
    outside JavaScript's safe-integer range, and the database stores amounts in
    32-bit columns; both bounds are spelled out. */
module Money {

  const MAX_SAFE_INTEGER := 9007199254740991
  const MAX_INT4 := 2147483647

  /** The values `assertSatang` lets through. */
  predicate IsSatang(v: int) {
    -MAX_SAFE_INTEGER <= v <= MAX_SAFE_INTEGER
  }

  /** The values an integer column can store. */
  predicate FitsColumn(v: int) {
    -MAX_INT4 - 1 <= v <= MAX_INT4
  }

  function SumSatang(amounts: seq<int>): int {
    if amounts == [] then 0 else SumSatang(amounts[..|amounts| - 1]) + amounts[|amounts| - 1]
  }

  lemma {:induction false} SumOfConcat(a: seq<int>, b: seq<int>)
    ensures SumSatang(a + b) == SumSatang(a) + SumSatang(b)
  {
    if b == [] {
      assert a + b == a;
    } else {
      SumOfConcat(a, b[..|b| - 1]);
      assert (a + b)[..|a + b| - 1] == a + b[..|b| - 1];
    }
  }

  lemma SumOfOne(v: int)
    ensures SumSatang([]) == 0 && SumSatang([v]) == v
  {
    assert [v][..0] == [];
  }

  /** The two bounds: 53 bits of magnitude, and 32-bit columns. */
  lemma Bounds(v: int)
    ensures IsSatang(v) <==> -0x20_0000_0000_0000 < v < 0x20_0000_0000_0000
    ensures FitsColumn(v) <==> -0x8000_0000 <= v < 0x8000_0000
  {
  }
}
