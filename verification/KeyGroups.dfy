/** Key groups and their assignment to shards (service/engine/core/keygroup.go). The member hash is
    a parameter: only its range matters. */
module KeyGroups {

  const NUM_KEY_GROUPS: nat := 1024

  function KeyGroupOf(hash: string -> nat, memberID: string): (kg: nat)
    ensures kg < NUM_KEY_GROUPS
    ensures kg <= hash(memberID) && (hash(memberID) - kg) % 1024 == 0
  {
    hash(memberID) % NUM_KEY_GROUPS
  }

  function ShardOf(kg: nat, numShards: nat): nat {
    kg * numShards / NUM_KEY_GROUPS
  }

  /** ceil(s * 1024 / n): the first key group of shard `s`. */
  function FirstGroup(s: nat, n: nat): nat
    requires n >= 1
  {
    (s * NUM_KEY_GROUPS + n - 1) / n
  }

  /** The groups of a shard are one contiguous range, cut at the FirstGroup marks. */
  lemma ShardIsRange(kg: nat, s: nat, n: nat)
    requires n >= 1
    ensures ShardOf(kg, n) == s <==> FirstGroup(s, n) <= kg < FirstGroup(s + 1, n)
  {
    AtLeastFirst(kg, s, n);
    AtLeastFirst(kg, s + 1, n);
  }

  lemma AtLeastFirst(kg: nat, s: nat, n: nat)
    requires n >= 1
    ensures ShardOf(kg, n) >= s <==> kg >= FirstGroup(s, n)
  {
    var f := FirstGroup(s, n);
    DivBounds(s * NUM_KEY_GROUPS + n - 1, n);
    DivBounds(kg * n, NUM_KEY_GROUPS);
    if kg >= f {
      MulLe(f, kg, n);
    } else {
      MulLe(kg + 1, f, n);
      assert (kg + 1) * n == kg * n + n;
    }
    var q := ShardOf(kg, n);
    if q >= s { MulLe(s, q, NUM_KEY_GROUPS); } else { MulLe(q + 1, s, NUM_KEY_GROUPS); }
  }

  lemma DivBounds(x: nat, d: nat)
    requires d >= 1
    ensures x / d * d <= x < x / d * d + d
  {
  }

  lemma MulLe(a: nat, b: nat, c: nat)
    requires a <= b
    ensures a * c <= b * c
  {
  }

  lemma ShardInRange(kg: nat, n: nat)
    requires n >= 1 && kg < NUM_KEY_GROUPS
    ensures ShardOf(kg, n) < n
  {
    MulLe(kg + 1, NUM_KEY_GROUPS, n);
    assert (kg + 1) * n == kg * n + n;
    DivBounds(kg * n, NUM_KEY_GROUPS);
    if ShardOf(kg, n) >= n { MulLe(n, ShardOf(kg, n), NUM_KEY_GROUPS); }
  }

  /** Every shard count lands in range, and the shard sizes differ by at most one group. */
  lemma ShardsAreBalanced(n: nat, s: nat)
    requires n >= 1 && s < n
    ensures forall kg: nat :: kg < NUM_KEY_GROUPS ==> ShardOf(kg, n) < n
    ensures var size := FirstGroup(s + 1, n) - FirstGroup(s, n);
            NUM_KEY_GROUPS / n <= size <= NUM_KEY_GROUPS / n + 1
  {
    forall kg: nat | kg < NUM_KEY_GROUPS ensures ShardOf(kg, n) < n {
      ShardInRange(kg, n);
    }
    hide ShardOf;
    var lo, hi, q := FirstGroup(s, n), FirstGroup(s + 1, n), NUM_KEY_GROUPS / n;
    DivBounds(s * NUM_KEY_GROUPS + n - 1, n);
    DivBounds((s + 1) * NUM_KEY_GROUPS + n - 1, n);
    DivBounds(NUM_KEY_GROUPS, n);
    assert (hi - lo) * n == hi * n - lo * n;
    assert (q - 1) * n == q * n - n && (q + 2) * n == q * n + 2 * n;
    Cancel(q - 1, hi - lo, n);
    Cancel(hi - lo, q + 2, n);
  }

  lemma Cancel(a: int, b: int, c: nat)
    requires a * c < b * c
    ensures a < b
  {
  }

  /** Rescaling by a whole factor splits shards and never mixes them. */
  lemma RescaleRefines(kg: nat, n: nat, factor: nat)
    requires n >= 1 && factor >= 1
    ensures ShardOf(kg, n * factor) / factor == ShardOf(kg, n)
  {
    var x := kg * n;
    assert kg * (n * factor) == x * factor;
    var fine := x * factor / NUM_KEY_GROUPS;
    var q := fine / factor;
    DivBounds(x * factor, NUM_KEY_GROUPS);
    DivBounds(fine, factor);
    Distribute(q, factor);
    Cancel(q * NUM_KEY_GROUPS - 1, x, factor);
    Cancel(x, q * NUM_KEY_GROUPS + NUM_KEY_GROUPS, factor);
  }

  lemma Distribute(q: nat, factor: nat)
    requires factor >= 1
    ensures (q * NUM_KEY_GROUPS - 1) * factor == q * factor * NUM_KEY_GROUPS - factor
    ensures (q * NUM_KEY_GROUPS + NUM_KEY_GROUPS) * factor == (q * factor + factor) * NUM_KEY_GROUPS
  {
  }
}
