/** The one helper of the samber/lo library the core uses. */
module Lo {

  /**
    `lo.Assign(maps...)`: a new map holding the entries of all the arguments, merged
    from the first to the last, so that on a key held by several arguments the last
    one wins (AssignLastWins). The merge is shallow: a value is taken whole, never
    merged with another.
   */
  function Assign<K, V>(maps: seq<map<K, V>>): map<K, V>
  {
    if |maps| == 0 then map[]
    else Assign(maps[..|maps| - 1]) + maps[|maps| - 1]
  }

  /** A key is in the merge iff some argument holds it. */
  lemma {:induction false} AssignKeys<K, V>(maps: seq<map<K, V>>, k: K)
    ensures k in Assign(maps) <==> exists i | 0 <= i < |maps| :: k in maps[i]
  {
    if |maps| > 0 {
      var init := maps[..|maps| - 1];
      AssignKeys(init, k);
      if k in Assign(init) {
        var i :| 0 <= i < |init| && k in init[i];
        assert k in maps[i];
      }
      if i :| 0 <= i < |maps| && k in maps[i] {
        if i < |init| {
          assert k in init[i];
        }
      }
    }
  }

  /** The value the merge gives a key is that of the last argument holding it. */
  lemma {:induction false} AssignLastWins<K, V>(maps: seq<map<K, V>>, i: nat, k: K)
    requires i < |maps| && k in maps[i]
    requires forall j | i < j < |maps| :: k !in maps[j]
    ensures k in Assign(maps) && Assign(maps)[k] == maps[i][k]
  {
    if i < |maps| - 1 {
      var init := maps[..|maps| - 1];
      assert k in init[i];
      AssignLastWins(init, i, k);
    }
  }
}
