/** A dictionary and its two-level view: the keys that `parse` takes apart, filed under their
    parts. Stated for any injective `parse`. */
module TwoLevelMap {
  import opened Prelude

  ghost predicate Injective<K(!new), V, A>(parse: K -> Option<(V, A)>) {
    forall j, k :: parse(j).Some? && parse(j) == parse(k) ==> j == k
  }

  ghost predicate Files<K, V, A, E>(parse: K -> Option<(V, A)>, flat: map<K, E>, two: map<V, map<A, E>>) {
    forall k :: k in flat && parse(k).Some? ==>
      var (v, a) := parse(k).value;
      v in two && a in two[v] && two[v][a] == flat[k]
  }

  ghost predicate Names<K, V, A, E>(parse: K -> Option<(V, A)>, flat: map<K, E>, v: V, a: A) {
    exists k :: k in flat && parse(k) == Some((v, a))
  }

  ghost predicate Justified<K, V, A, E>(parse: K -> Option<(V, A)>, flat: map<K, E>, two: map<V, map<A, E>>) {
    forall v, a :: v in two && a in two[v] ==> Names(parse, flat, v, a)
  }

  ghost predicate NoEmpty<V, A, E>(two: map<V, map<A, E>>) {
    forall v :: v in two ==> two[v] != map[]
  }

  /** The view files every key that parses, files nothing else, and has no empty second level. */
  ghost predicate Agrees<K, V, A, E>(parse: K -> Option<(V, A)>, flat: map<K, E>, two: map<V, map<A, E>>) {
    Files(parse, flat, two) && Justified(parse, flat, two) && NoEmpty(two)
  }

  function Put<V, A, E>(two: map<V, map<A, E>>, v: V, a: A, e: E): map<V, map<A, E>> {
    two[v := (if v in two then two[v] else map[])[a := e]]
  }

  function Drop<V, A, E>(two: map<V, map<A, E>>, v: V, a: A): map<V, map<A, E>> {
    if v !in two then two
    else if two[v].Keys <= {a} then two - {v}
    else two[v := two[v] - {a}]
  }

  function PutKey<K, V, A, E>(parse: K -> Option<(V, A)>, two: map<V, map<A, E>>, k: K, e: E): map<V, map<A, E>> {
    if parse(k).None? then two else Put(two, parse(k).value.0, parse(k).value.1, e)
  }

  function DropKey<K, V, A, E>(parse: K -> Option<(V, A)>, two: map<V, map<A, E>>, k: K): map<V, map<A, E>> {
    if parse(k).None? then two else Drop(two, parse(k).value.0, parse(k).value.1)
  }

  lemma PutJustified<K, V, A, E>(parse: K -> Option<(V, A)>, flat: map<K, E>, two: map<V, map<A, E>>, k: K, e: E)
    requires Justified(parse, flat, two)
    ensures Justified(parse, flat[k := e], PutKey(parse, two, k, e))
  {
    var flat', two' := flat[k := e], PutKey(parse, two, k, e);
    forall v, a | v in two' && a in two'[v] ensures Names(parse, flat', v, a) {
      if parse(k) == Some((v, a)) {
        assert k in flat';
      } else {
        assert v in two && a in two[v];
        var j :| j in flat && parse(j) == Some((v, a));
        assert j in flat';
      }
    }
  }

  lemma PutAgrees<K(!new), V, A, E>(parse: K -> Option<(V, A)>, flat: map<K, E>, two: map<V, map<A, E>>, k: K, e: E)
    requires Injective(parse) && Agrees(parse, flat, two)
    ensures Agrees(parse, flat[k := e], PutKey(parse, two, k, e))
  {
    PutJustified(parse, flat, two, k, e);
    var flat', two' := flat[k := e], PutKey(parse, two, k, e);
    forall v | v in two' ensures two'[v] != map[] {
      if parse(k).Some? && v == parse(k).value.0 {
        assert parse(k).value.1 in two'[v];
      }
    }
    forall j | j in flat' && parse(j).Some?
      ensures parse(j).value.0 in two' && parse(j).value.1 in two'[parse(j).value.0]
      ensures two'[parse(j).value.0][parse(j).value.1] == flat'[j]
    {
      assert j == k || parse(j) != parse(k);
    }
  }

  lemma DropJustified<K, V, A, E>(parse: K -> Option<(V, A)>, flat: map<K, E>, two: map<V, map<A, E>>, k: K)
    requires Justified(parse, flat, two)
    ensures Justified(parse, flat - {k}, DropKey(parse, two, k))
  {
    var flat', two' := flat - {k}, DropKey(parse, two, k);
    forall v, a | v in two' && a in two'[v] ensures Names(parse, flat', v, a) {
      assert v in two && a in two[v];
      var j :| j in flat && parse(j) == Some((v, a));
      assert j in flat';
    }
  }

  lemma DropFiles<K(!new), V, A, E>(parse: K -> Option<(V, A)>, flat: map<K, E>, two: map<V, map<A, E>>, k: K, j: K)
    requires Injective(parse) && Files(parse, flat, two) && j in flat && j != k && parse(j).Some?
    ensures var (v, a) := parse(j).value;
            v in DropKey(parse, two, k) && a in DropKey(parse, two, k)[v] && DropKey(parse, two, k)[v][a] == flat[j]
  {
    assert parse(j) != parse(k);
    assert parse(j).value.1 in two[parse(j).value.0].Keys;
  }

  lemma DropNoEmpty<K, V, A, E>(parse: K -> Option<(V, A)>, two: map<V, map<A, E>>, k: K)
    requires NoEmpty(two)
    ensures NoEmpty(DropKey(parse, two, k))
  {
    var two' := DropKey(parse, two, k);
    forall v | v in two' ensures two'[v] != map[] {
      if parse(k).Some? && v == parse(k).value.0 {
        var a :| a in two[v].Keys && a !in {parse(k).value.1};
        assert a in two'[v];
      }
    }
  }

  lemma DropAgrees<K(!new), V, A, E>(parse: K -> Option<(V, A)>, flat: map<K, E>, two: map<V, map<A, E>>, k: K)
    requires Injective(parse) && Agrees(parse, flat, two)
    ensures Agrees(parse, flat - {k}, DropKey(parse, two, k))
  {
    DropJustified(parse, flat, two, k);
    DropNoEmpty(parse, two, k);
    var flat', two' := flat - {k}, DropKey(parse, two, k);
    forall j | j in flat' && parse(j).Some?
      ensures parse(j).value.0 in two' && parse(j).value.1 in two'[parse(j).value.0]
      ensures two'[parse(j).value.0][parse(j).value.1] == flat'[j]
    {
      DropFiles(parse, flat, two, k, j);
    }
  }

  /** At most one view agrees with a dictionary. */
  lemma AgreesUnique<K(!new), V, A, E>(parse: K -> Option<(V, A)>, flat: map<K, E>, one: map<V, map<A, E>>, two: map<V, map<A, E>>)
    requires Agrees(parse, flat, one) && Agrees(parse, flat, two)
    ensures one == two
  {
    AgreesWithin(parse, flat, one, two);
    AgreesWithin(parse, flat, two, one);
    forall v | v in one ensures one[v] == two[v] {
    }
  }

  lemma AgreesWithin<K(!new), V, A, E>(parse: K -> Option<(V, A)>, flat: map<K, E>, one: map<V, map<A, E>>, two: map<V, map<A, E>>)
    requires Agrees(parse, flat, one) && Agrees(parse, flat, two)
    ensures forall v :: v in one ==> v in two
    ensures forall v, a :: v in one && a in one[v] ==> v in two && a in two[v] && one[v][a] == two[v][a]
  {
    forall v, a | v in one && a in one[v] ensures v in two && a in two[v] && one[v][a] == two[v][a] {
      assert Names(parse, flat, v, a);
      var k :| k in flat && parse(k) == Some((v, a));
    }
    forall v | v in one ensures v in two {
      var a :| a in one[v];
    }
  }
}
