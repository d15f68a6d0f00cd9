/**
 * Ordered string-keyed maps: the model of a PHP array indexed by strings.
 * Entries keep insertion order, keys are unique, assigning to a present
 * key keeps its position (`$a[$k] = $v`) and `unset($a[$k])` drops the entry
 * without disturbing the order of the others.
 */
module OrderedMaps {

  /** No two entries carry the same key. */
  ghost predicate UniqueKeys<V>(m: seq<(string, V)>)
  {
    forall i, j :: 0 <= i < j < |m| ==> m[i].0 != m[j].0
  }

  /** A PHP string-keyed array: entries in insertion order, keys unique. */
  type OrderedMap<V> = m: seq<(string, V)> | UniqueKeys(m) witness []

  /** The keys of `m`, in entry order. */
  function Keys<V>(m: seq<(string, V)>): (ks: seq<string>)
    ensures |ks| == |m|
    ensures forall i :: 0 <= i < |m| ==> ks[i] == m[i].0
  {
    if m == [] then [] else [m[0].0] + Keys(m[1..])
  }

  /** `array_key_exists($k, $m)`: some entry carries key `k`. For a non-null value this agrees with `isset`. */
  function Has<V>(m: seq<(string, V)>, k: string): (b: bool)
    ensures b <==> exists i :: 0 <= i < |m| && m[i].0 == k
  {
    if m == [] then false
    else if m[0].0 == k then true
    else
      var b := Has(m[1..], k);
      assert forall i :: 0 <= i < |m| - 1 ==> m[1..][i] == m[i + 1];
      b
  }

  /** The position of the entry for a present key. */
  function IndexOf<V>(m: seq<(string, V)>, k: string): (i: nat)
    requires Has(m, k)
    ensures i < |m| && m[i].0 == k
  {
    if m[0].0 == k then 0 else 1 + IndexOf(m[1..], k)
  }

  /** `$m[$k]` for a present key: the value stored under `k`. */
  function Get<V>(m: OrderedMap<V>, k: string): (v: V)
    requires Has(m, k)
    ensures (k, v) in m
  {
    m[IndexOf(m, k)].1
  }

  /**
   * `$m[$k] = $v`: last write wins. A present key keeps its position and
   * only its value changes; an absent key is appended after all others.
   */
  function Put<V>(m: OrderedMap<V>, k: string, v: V): (r: OrderedMap<V>)
    ensures Has(m, k) ==> |r| == |m| && forall i :: 0 <= i < |m| ==> r[i] == if m[i].0 == k then (k, v) else m[i]
    ensures !Has(m, k) ==> r == m + [(k, v)]
  {
    if m == [] then [(k, v)]
    else if m[0].0 == k then
      var r := [(k, v)] + m[1..];
      assert forall i :: 1 <= i < |m| ==> r[i] == m[i];
      r
    else
      var rest := Put(m[1..], k, v);
      assert forall i :: 0 <= i < |rest| ==> rest[i].0 != m[0].0 by {
        forall i | 0 <= i < |rest| ensures rest[i].0 != m[0].0 {
          if i < |m| - 1 {
            assert m[1..][i] == m[i + 1];
          }
        }
      }
      [m[0]] + rest
  }

  /**
   * `unset($m[$k])`: drops the entry for `k`, if any; the remaining entries
   * keep their order.
   */
  function Remove<V>(m: OrderedMap<V>, k: string): (r: OrderedMap<V>)
    ensures !Has(r, k)
    ensures !Has(m, k) ==> r == m
    ensures Has(m, k) ==> r == m[..IndexOf(m, k)] + m[IndexOf(m, k) + 1..]
  {
    if m == [] then []
    else if m[0].0 == k then
      TailLacksHeadKey(m);
      m[1..]
    else
      var rest := Remove(m[1..], k);
      RemoveStep(m, k, rest);
      [m[0]] + rest
  }

  /** The head's key occurs nowhere in the tail. */
  lemma TailLacksHeadKey<V>(m: OrderedMap<V>)
    requires m != []
    ensures !Has(m[1..], m[0].0)
  {
    forall i | 0 <= i < |m| - 1 ensures m[1..][i].0 != m[0].0 {
      assert m[1..][i] == m[i + 1];
    }
  }

  /** One step of `Remove` past a head entry whose key is not `k`. */
  lemma RemoveStep<V>(m: OrderedMap<V>, k: string, rest: seq<(string, V)>)
    requires m != [] && m[0].0 != k
    requires !Has(rest, k) && UniqueKeys(rest)
    requires !Has(m[1..], k) ==> rest == m[1..]
    requires Has(m[1..], k) ==> rest == m[1..][..IndexOf(m[1..], k)] + m[1..][IndexOf(m[1..], k) + 1..]
    ensures UniqueKeys([m[0]] + rest) && !Has([m[0]] + rest, k)
    ensures !Has(m, k) ==> [m[0]] + rest == m
    ensures Has(m, k) ==> [m[0]] + rest == m[..IndexOf(m, k)] + m[IndexOf(m, k) + 1..]
  {
    RemoveStepShape(m, k, rest);
    TailLacksHeadKey(m);
    assert !Has(rest, m[0].0) by {
      forall j | 0 <= j < |rest| ensures rest[j].0 != m[0].0 {
        assert rest[j] in m[1..];
      }
    }
    ConsUnique(m[0], rest);
  }

  /** The entries left after one `Remove` step, laid out against `m`. */
  lemma RemoveStepShape<V>(m: OrderedMap<V>, k: string, rest: seq<(string, V)>)
    requires m != [] && m[0].0 != k
    requires !Has(m[1..], k) ==> rest == m[1..]
    requires Has(m[1..], k) ==> rest == m[1..][..IndexOf(m[1..], k)] + m[1..][IndexOf(m[1..], k) + 1..]
    ensures forall p :: p in rest ==> p in m[1..]
    ensures !Has(m, k) ==> [m[0]] + rest == m
    ensures Has(m, k) ==> [m[0]] + rest == m[..IndexOf(m, k)] + m[IndexOf(m, k) + 1..]
  {
    if Has(m[1..], k) {
      var i := IndexOf(m[1..], k);
      assert IndexOf(m, k) == i + 1;
      assert m[1..][..i] == m[1..i + 1];
      assert m[1..][i + 1..] == m[i + 2..];
      assert rest == m[1..i + 1] + m[i + 2..];
      assert [m[0]] + m[1..i + 1] == m[..i + 1];
      assert [m[0]] + rest == ([m[0]] + m[1..i + 1]) + m[i + 2..];
    } else {
      assert m == [m[0]] + m[1..];
    }
  }

  /** Putting an entry whose key is new in front keeps the keys unique. */
  lemma ConsUnique<V>(h: (string, V), rest: seq<(string, V)>)
    requires UniqueKeys(rest) && !Has(rest, h.0)
    ensures UniqueKeys([h] + rest)
  {
    var r := [h] + rest;
    forall i, j | 0 <= i < j < |r| ensures r[i].0 != r[j].0 {
      assert r[j] == rest[j - 1];
      if i > 0 {
        assert r[i] == rest[i - 1];
      }
    }
  }

  /** Applies `f` to every value, keeping keys and order. */
  function MapValues<V, W>(m: OrderedMap<V>, f: V -> W): (r: OrderedMap<W>)
    ensures Keys(r) == Keys(m)
    ensures |r| == |m| && forall i :: 0 <= i < |m| ==> r[i] == (m[i].0, f(m[i].1))
  {
    var r := seq(|m|, i requires 0 <= i < |m| => (m[i].0, f(m[i].1)));
    assert forall i :: 0 <= i < |m| ==> r[i].0 == m[i].0;
    r
  }

  /** A key is stored with exactly one value. */
  lemma MemberIsGet<V>(m: OrderedMap<V>, k: string, v: V)
    requires (k, v) in m
    ensures Has(m, k) && Get(m, k) == v
  {
    var i :| 0 <= i < |m| && m[i] == (k, v);
    var j :| 0 <= j < |m| && m[j] == (k, Get(m, k));
  }

  /** After `Put(m, k, v)` the key is present and reads back `v`. */
  lemma PutThenGet<V>(m: OrderedMap<V>, k: string, v: V)
    ensures Has(Put(m, k, v), k) && Get(Put(m, k, v), k) == v
  {
    var r := Put(m, k, v);
    if Has(m, k) {
      var i :| 0 <= i < |m| && m[i].0 == k;
      assert r[i] == (k, v);
    } else {
      assert r[|m|] == (k, v);
    }
    MemberIsGet(r, k, v);
  }

  /** `Put(m, k, v)` leaves every other key's presence and value unchanged. */
  lemma PutKeepsOthers<V>(m: OrderedMap<V>, k: string, v: V, other: string)
    requires other != k
    ensures Has(Put(m, k, v), other) <==> Has(m, other)
    ensures Has(m, other) ==> Get(Put(m, k, v), other) == Get(m, other)
  {
    var r := Put(m, k, v);
    if Has(m, other) {
      var i :| 0 <= i < |m| && m[i].0 == other;
      assert r[i] == m[i];
      assert m[i] == (other, Get(m, other)) by { MemberIsGet(m, other, m[i].1); }
      MemberIsGet(r, other, Get(m, other));
    }
    if Has(r, other) {
      var i :| 0 <= i < |r| && r[i].0 == other;
      assert i < |m| && m[i].0 == other;
    }
  }

  /** `PutKeepsOthers` for every other key at once. */
  lemma PutKeepsAllOthers<V>(m: OrderedMap<V>, k: string, v: V)
    ensures forall other :: other != k ==> (Has(Put(m, k, v), other) <==> Has(m, other))
    ensures forall other :: other != k && Has(m, other) ==> Get(Put(m, k, v), other) == Get(m, other)
  {
    forall other | other != k
      ensures Has(Put(m, k, v), other) <==> Has(m, other)
      ensures Has(m, other) ==> Get(Put(m, k, v), other) == Get(m, other)
    {
      PutKeepsOthers(m, k, v, other);
    }
  }

  /** The key order after `Put`: unchanged for a present key, the new key last otherwise. */
  lemma PutKeyOrder<V>(m: OrderedMap<V>, k: string, v: V)
    ensures Keys(Put(m, k, v)) == if Has(m, k) then Keys(m) else Keys(m) + [k]
  {
    var r := Put(m, k, v);
    if Has(m, k) {
      assert forall i :: 0 <= i < |m| ==> Keys(r)[i] == Keys(m)[i];
    } else {
      assert forall i :: 0 <= i < |m| ==> Keys(r)[i] == (Keys(m) + [k])[i];
    }
  }

  /** Last write wins: a second `Put` on the same key only replaces the value. */
  lemma PutPut<V>(m: OrderedMap<V>, k: string, v: V, w: V)
    ensures Put(Put(m, k, v), k, w) == Put(m, k, w)
  {
    if Has(m, k) {
      PutPutPresent(m, k, v, w);
    } else {
      PutPutAbsent(m, k, v, w);
    }
  }

  lemma PutPutPresent<V>(m: OrderedMap<V>, k: string, v: V, w: V)
    requires Has(m, k)
    ensures Put(Put(m, k, v), k, w) == Put(m, k, w)
  {
    var once := Put(m, k, v);
    assert once[IndexOf(m, k)].0 == k;
    var twice := Put(once, k, w);
    var direct := Put(m, k, w);
    assert |twice| == |m| == |direct|;
    forall i | 0 <= i < |m| ensures twice[i] == direct[i] {
      if m[i].0 == k {
        assert once[i] == (k, v) && twice[i] == (k, w) && direct[i] == (k, w);
      } else {
        assert once[i] == m[i] && twice[i] == m[i] && direct[i] == m[i];
      }
    }
    assert twice == direct;
  }

  lemma PutPutAbsent<V>(m: OrderedMap<V>, k: string, v: V, w: V)
    requires !Has(m, k)
    ensures Put(Put(m, k, v), k, w) == Put(m, k, w)
  {
    var once := Put(m, k, v);
    assert once == m + [(k, v)];
    assert once[|m|].0 == k;
    var twice := Put(once, k, w);
    assert |twice| == |m| + 1;
    forall i | 0 <= i < |m| ensures twice[i] == m[i] {
      assert once[i] == m[i];
    }
    assert twice[|m|] == (k, w);
    assert twice == m + [(k, w)];
  }

  /** `Remove` leaves the entries before the removed one where they were. */
  lemma RemoveBefore<V>(m: OrderedMap<V>, k: string, j: nat)
    requires Has(m, k) && j < IndexOf(m, k)
    ensures j < |Remove(m, k)| && Remove(m, k)[j] == m[j]
  {
    var i := IndexOf(m, k);
    assert Remove(m, k)[j] == m[..i][j];
  }

  /** `Remove` moves each entry after the removed one down by one position. */
  lemma RemoveAfter<V>(m: OrderedMap<V>, k: string, j: nat)
    requires Has(m, k) && IndexOf(m, k) < j < |m|
    ensures Remove(m, k)[j - 1] == m[j]
  {
    var i := IndexOf(m, k);
    assert Remove(m, k)[j - 1] == m[i + 1..][j - 1 - i];
  }

  /** `Remove` keeps the presence of every other key. */
  lemma RemoveKeepsOtherKeys<V>(m: OrderedMap<V>, k: string, other: string)
    requires other != k
    ensures Has(Remove(m, k), other) <==> Has(m, other)
  {
    var r := Remove(m, k);
    if Has(m, k) {
      var i := IndexOf(m, k);
      if Has(m, other) {
        var j := IndexOf(m, other);
        if j < i {
          RemoveBefore(m, k, j);
          assert r[j].0 == other;
        } else {
          RemoveAfter(m, k, j);
          assert r[j - 1].0 == other;
        }
      }
      if Has(r, other) {
        var j := IndexOf(r, other);
        if j < i {
          RemoveBefore(m, k, j);
          assert m[j].0 == other;
        } else {
          RemoveAfter(m, k, j + 1);
          assert m[j + 1].0 == other;
        }
      }
    }
  }

  /** `Remove` keeps the value of every other key. */
  lemma RemoveKeepsOtherValues<V>(m: OrderedMap<V>, k: string, other: string)
    requires other != k && Has(m, other)
    ensures Has(Remove(m, k), other) && Get(Remove(m, k), other) == Get(m, other)
  {
    var r := Remove(m, k);
    RemoveKeepsOtherKeys(m, k, other);
    var j := IndexOf(r, other);
    assert r[j] in m by {
      if Has(m, k) {
        if j < IndexOf(m, k) {
          RemoveBefore(m, k, j);
        } else {
          RemoveAfter(m, k, j + 1);
        }
      }
    }
    MemberIsGet(m, other, r[j].1);
  }

  /** Removing the key that a `Put` has just appended restores the map. */
  lemma {:induction false} RemoveAppended<V>(m: OrderedMap<V>, k: string, v: V)
    requires !Has(m, k)
    ensures Remove(Put(m, k, v), k) == m
  {
    var r := Put(m, k, v);
    assert r == m + [(k, v)];
    if m == [] {
      assert r == [(k, v)];
    } else {
      assert m[0].0 != k;
      assert !Has(m[1..], k) by {
        forall i | 0 <= i < |m| - 1 ensures m[1..][i].0 != k {
          assert m[1..][i] == m[i + 1];
        }
      }
      RemoveAppended(m[1..], k, v);
      assert r[1..] == Put(m[1..], k, v);
      assert Remove(r, k) == [m[0]] + Remove(r[1..], k);
      assert m == [m[0]] + m[1..];
    }
  }
}
