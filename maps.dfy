/** Facts about Dafny's built-in maps used when a loop updates a map entry by entry. */
module Maps {
  /** Updating a union is updating its right operand. */
  lemma UnionUpdate<K, V>(m: map<K, V>, d: map<K, V>, k: K, v: V)
    ensures (m + d)[k := v] == m + d[k := v]
  {
  }
}
