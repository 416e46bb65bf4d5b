/** Definitions shared by the four Anchor programs: instruction results, the
    integer widths of on-chain fields, basis-point arithmetic and the token
    transfers an instruction asks the token program to perform. */
module Common {

  /** The outcome of an instruction: `Ok` with what it returns, or the error
      code that aborts it (an aborted instruction changes no account). */
  datatype Result<+T, +E> = Ok(value: T) | Err(error: E)

  /** An account address. How addresses are derived is not modelled. */
  type Pubkey = nat

  type U8 = x: int | 0 <= x < 0x100
  type U16 = x: int | 0 <= x < 0x1_0000
  type U32 = x: int | 0 <= x < 0x1_0000_0000

  /** One hundred percent, in basis points. */
  const BasisPointsPerUnit: nat := 10000

  /** The basis-point share `floor(amount * bp / 10000)`: the early-unstake
      penalty, the marketplace royalty and the token transfer fee. */
  function BasisPointShare(amount: nat, bp: nat): (share: nat)
    ensures share * BasisPointsPerUnit <= amount * bp < (share + 1) * BasisPointsPerUnit
    ensures bp <= BasisPointsPerUnit ==> share <= amount
    ensures bp == 0 || amount == 0 ==> share == 0
  {
    MulMonotone(amount, bp, BasisPointsPerUnit);
    amount * bp / BasisPointsPerUnit
  }

  lemma MulMonotone(a: nat, x: nat, y: nat)
    ensures x <= y ==> a * x <= a * y
  {
    if x <= y {
      assert a * y == a * x + a * (y - x);
    }
  }

  lemma DivMonotone(x: nat, y: nat, d: nat)
    requires 0 < d && x <= y
    ensures x / d <= y / d
  {
    var qx, qy := x / d, y / d;
    assert d * qx <= x && y < d * (qy + 1);
    MulMonotone(d, qy + 1, qx);
  }

  /** A token transfer requested from the token program: `amount` units to
      the token account at `destination`. */
  datatype Transfer = Transfer(destination: Pubkey, amount: nat)

  /** The total amount moved by a sequence of transfers. */
  function Total(transfers: seq<Transfer>): nat
  {
    if transfers == [] then 0 else transfers[0].amount + Total(transfers[1..])
  }

  /** Splitting `amount` into a basis-point fee paid to `feeAccount` and the
      rest paid to `mainAccount`; the fee transfer is skipped when the fee is
      zero. Used by the marketplace royalty and by the token transfer fee. */
  function FeeSplitTransfers(amount: nat, bp: nat, feeAccount: Pubkey, mainAccount: Pubkey): (transfers: seq<Transfer>)
    requires bp <= BasisPointsPerUnit
    ensures Total(transfers) == amount
    ensures BasisPointShare(amount, bp) > 0 ==>
              transfers == [Transfer(feeAccount, BasisPointShare(amount, bp)),
                            Transfer(mainAccount, amount - BasisPointShare(amount, bp))]
    ensures BasisPointShare(amount, bp) == 0 ==> transfers == [Transfer(mainAccount, amount)]
  {
    var fee := BasisPointShare(amount, bp);
    var rest := [Transfer(mainAccount, amount - fee)];
    assert Total(rest) == amount - fee by { assert rest[1..] == []; }
    if fee > 0 then
      var both := [Transfer(feeAccount, fee)] + rest;
      assert both[1..] == rest;
      both
    else
      rest
  }

  /** The sum of `weight` over the values of `m`. Weights are added one key
      at a time, in an order the sum does not depend on (`MapSumRemove`). */
  ghost function MapSum<K, V>(m: map<K, V>, weight: V -> nat): nat
    decreases |m|
  {
    if m == map[] then 0
    else
      var k :| k in m;
      weight(m[k]) + MapSum(m - {k}, weight)
  }

  /** Any key can be taken out first. */
  lemma {:induction false} MapSumRemove<K, V>(m: map<K, V>, weight: V -> nat, k: K)
    requires k in m
    ensures MapSum(m, weight) == weight(m[k]) + MapSum(m - {k}, weight)
    decreases |m|
  {
    var j :| j in m && MapSum(m, weight) == weight(m[j]) + MapSum(m - {j}, weight);
    if j != k {
      var rest := m - {j} - {k};
      assert (m - {j}) - {k} == rest && (m - {k}) - {j} == rest;
      MapSumRemove(m - {j}, weight, k);
      MapSumRemove(m - {k}, weight, j);
    }
  }

  /** Adding a new key adds its weight. */
  lemma MapSumInsert<K, V>(m: map<K, V>, weight: V -> nat, k: K, v: V)
    requires k !in m
    ensures MapSum(m[k := v], weight) == MapSum(m, weight) + weight(v)
  {
    MapSumRemove(m[k := v], weight, k);
    assert m[k := v] - {k} == m;
  }

  /** Summing two weights separately is summing their sum. */
  lemma {:induction false} MapSumAdd<K, V>(m: map<K, V>, f: V -> nat, g: V -> nat, h: V -> nat)
    requires forall v :: h(v) == f(v) + g(v)
    ensures MapSum(m, h) == MapSum(m, f) + MapSum(m, g)
    decreases |m|
  {
    if m != map[] {
      var k :| k in m;
      MapSumRemove(m, f, k);
      MapSumRemove(m, g, k);
      MapSumRemove(m, h, k);
      MapSumAdd(m - {k}, f, g, h);
    }
  }
}
