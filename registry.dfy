/**
 * The classifier registry: a string-keyed JavaScript object used as an
 * insertion-ordered table. It is modelled as a sequence of entries whose
 * order is the order in which the keys were first assigned.
 */
module Registry {
  import opened Common

  datatype Entry<V> = Entry(key: string, value: V)

  function Keys<V>(reg: seq<Entry<V>>): seq<string> {
    seq(|reg|, i requires 0 <= i < |reg| => reg[i].key)
  }

  /** Property read `reg[k]`: the value stored under `k`, if any. */
  function Lookup<V>(reg: seq<Entry<V>>, k: string): (r: Option<V>)
    ensures r.None? <==> k !in Keys(reg)
    ensures r.Some? ==> Entry(k, r.value) in reg
  {
    if |reg| == 0 then None
    else if reg[0].key == k then
      assert Keys(reg)[0] == k;
      Some(reg[0].value)
    else
      var r := Lookup(reg[1..], k);
      assert Keys(reg) == [reg[0].key] + Keys(reg[1..]);
      r
  }

  /**
   * Property assignment `reg[k] = v`: an existing key keeps its position and
   * gets the new value; a new key is appended at the end.
   */
  function Put<V>(reg: seq<Entry<V>>, k: string, v: V): seq<Entry<V>> {
    if k in Keys(reg) then seq(|reg|, i requires 0 <= i < |reg| => if reg[i].key == k then Entry(k, v) else reg[i])
    else reg + [Entry(k, v)]
  }

  /**
   * What an assignment does to the table: the keys stay distinct, a new key
   * is appended, and an existing key keeps its position and takes the new
   * value while every other entry stays as it was.
   */
  lemma {:induction false} PutShape<V>(reg: seq<Entry<V>>, k: string, v: V)
    requires Distinct(Keys(reg))
    ensures var r := Put(reg, k, v);
      && Distinct(Keys(r))
      && Keys(r) == (if k in Keys(reg) then Keys(reg) else Keys(reg) + [k])
      && (k !in Keys(reg) ==> r == reg + [Entry(k, v)])
      && (k in Keys(reg) ==> |r| == |reg| && forall i :: 0 <= i < |reg| ==> r[i] == if reg[i].key == k then Entry(k, v) else reg[i])
  {
    var r := Put(reg, k, v);
    if k in Keys(reg) {
      assert Keys(r) == Keys(reg);
    } else {
      assert Keys(reg + [Entry(k, v)]) == Keys(reg) + [k];
    }
  }

  /** With distinct keys, a read finds the one entry that holds the key. */
  lemma {:induction false} LookupAt<V>(reg: seq<Entry<V>>, i: nat)
    requires Distinct(Keys(reg)) && i < |reg|
    ensures Lookup(reg, reg[i].key) == Some(reg[i].value)
  {
    var k := reg[i].key;
    assert Keys(reg)[i] == k;
    var r := Lookup(reg, k);
    var j :| 0 <= j < |reg| && reg[j] == Entry(k, r.value);
    assert Keys(reg)[j] == k;
  }

  /** The first get/put law of a JavaScript object: the written key reads back the new value. */
  lemma {:induction false} PutReadsBack<V>(reg: seq<Entry<V>>, k: string, v: V)
    requires Distinct(Keys(reg))
    ensures Lookup(Put(reg, k, v), k) == Some(v)
  {
    PutShape(reg, k, v);
    if k in Keys(reg) {
      var i :| 0 <= i < |reg| && Keys(reg)[i] == k;
      LookupAt(Put(reg, k, v), i);
    } else {
      LookupAt(Put(reg, k, v), |reg|);
    }
  }

  /** The second get/put law: every other key reads as it did before the assignment. */
  lemma {:induction false} PutKeepsOthers<V>(reg: seq<Entry<V>>, k: string, v: V, k': string)
    requires Distinct(Keys(reg)) && k' != k
    ensures Lookup(Put(reg, k, v), k') == Lookup(reg, k')
  {
    PutShape(reg, k, v);
    if k' in Keys(reg) {
      var r := Put(reg, k, v);
      var i :| 0 <= i < |reg| && Keys(reg)[i] == k';
      assert r[i] == reg[i];
      LookupAt(r, i);
      LookupAt(reg, i);
    }
  }

  /**
   * Assigning the keys of a duplicate-free list one by one: key `ks[j]` goes
   * to position `j`, either appended (the table held `ks[..j]`) or
   * overwritten in place (the table already held all of `ks`).
   */
  lemma {:induction false} PutNext<V>(reg: seq<Entry<V>>, ks: seq<string>, j: nat, v: V, fromEmpty: bool)
    requires Distinct(ks) && j < |ks|
    requires Keys(reg) == if fromEmpty then ks[..j] else ks
    ensures var r := Put(reg, ks[j], v);
      && Keys(r) == (if fromEmpty then ks[..j + 1] else ks)
      && r[j] == Entry(ks[j], v)
      && forall m :: 0 <= m < |r| && m != j ==> r[m] == reg[m]
  {
    PutShape(reg, ks[j], v);
    if fromEmpty {
      assert ks[..j + 1] == ks[..j] + [ks[j]];
    } else {
      assert Keys(reg)[j] == ks[j];
      assert forall m :: 0 <= m < |reg| && m != j ==> reg[m].key != ks[j] by {
        assert forall m :: 0 <= m < |reg| ==> Keys(reg)[m] == reg[m].key;
      }
    }
  }
}
