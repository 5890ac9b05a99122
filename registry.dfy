/**
 * The subscriber registry: a plain object used as a dictionary from
 * subscription id to callback. Its keys are uuid strings, which are never
 * array-index-like, so `Object.keys` lists them in insertion order; the object
 * is therefore modelled as a sequence of (id, value) pairs in that order.
 */
module Registry {

  type Id = string

  /** `Object.keys`: the ids in insertion order. */
  function Keys<V>(reg: seq<(Id, V)>): (ks: seq<Id>)
    ensures |ks| == |reg|
    ensures forall i :: 0 <= i < |reg| ==> ks[i] == reg[i].0
  {
    if reg == [] then [] else [reg[0].0] + Keys(reg[1..])
  }

  /** An object never holds the same key twice. */
  predicate Distinct(ks: seq<Id>)
  {
    forall i, j :: 0 <= i < j < |ks| ==> ks[i] != ks[j]
  }

  /** The property read `obj[id]` for a key that is present. */
  function Lookup<V>(reg: seq<(Id, V)>, id: Id): (v: V)
    requires id in Keys(reg)
  {
    if reg[0].0 == id then reg[0].1 else Lookup(reg[1..], id)
  }

  /** What `obj[id]` reads is the value of an entry stored under `id`. */
  lemma {:induction false} LookupFound<V>(reg: seq<(Id, V)>, id: Id)
    requires id in Keys(reg)
    ensures (id, Lookup(reg, id)) in reg
  {
    if reg[0].0 != id {
      LookupFound(reg[1..], id);
      assert reg == [reg[0]] + reg[1..];
    }
  }

  /**
   * The assignment `obj[id] = v`: an existing key keeps its position and gets
   * the new value; a new key is appended.
   */
  function Insert<V>(reg: seq<(Id, V)>, id: Id, v: V): (r: seq<(Id, V)>)
    ensures Keys(r) == if id in Keys(reg) then Keys(reg) else Keys(reg) + [id]
    ensures Lookup(r, id) == v
    ensures forall k :: k in Keys(reg) && k != id ==> Lookup(r, k) == Lookup(reg, k)
  {
    if reg == [] then [(id, v)]
    else if reg[0].0 == id then [(id, v)] + reg[1..]
    else [reg[0]] + Insert(reg[1..], id, v)
  }

  /**
   * `delete obj[id]`: removes the key if present, keeps every other entry and
   * the order of the rest; a missing key leaves the object as it was.
   */
  function Delete<V>(reg: seq<(Id, V)>, id: Id): (r: seq<(Id, V)>)
    ensures forall k :: k in Keys(r) <==> k in Keys(reg) && k != id
    ensures forall k :: k in Keys(r) ==> Lookup(r, k) == Lookup(reg, k)
    ensures id !in Keys(reg) ==> r == reg
  {
    if reg == [] then []
    else if reg[0].0 == id then Delete(reg[1..], id)
    else [reg[0]] + Delete(reg[1..], id)
  }

  /** With distinct keys, the value read for the i-th key is the i-th value. */
  lemma {:induction false} LookupAt<V>(reg: seq<(Id, V)>, i: nat)
    requires Distinct(Keys(reg))
    requires i < |reg|
    ensures reg[i].0 in Keys(reg) && Lookup(reg, reg[i].0) == reg[i].1
  {
    if i > 0 {
      assert Keys(reg)[0] != Keys(reg)[i];
      assert Keys(reg[1..]) == Keys(reg)[1..];
      LookupAt(reg[1..], i - 1);
    }
  }

  /** Assigning a key, new or present, keeps the keys distinct. */
  lemma InsertKeepsDistinct<V>(reg: seq<(Id, V)>, id: Id, v: V)
    requires Distinct(Keys(reg))
    ensures Distinct(Keys(Insert(reg, id, v)))
  {
  }

  /** Deleting a key keeps the keys distinct, and removes one entry when the key was present. */
  lemma {:induction false} DeleteKeepsDistinct<V>(reg: seq<(Id, V)>, id: Id)
    requires Distinct(Keys(reg))
    ensures Distinct(Keys(Delete(reg, id)))
    ensures |Delete(reg, id)| == if id in Keys(reg) then |reg| - 1 else |reg|
  {
    if reg != [] {
      var rest := reg[1..];
      assert Keys(rest) == Keys(reg)[1..];
      assert reg[0].0 !in Keys(rest) by {
        forall j | 0 <= j < |rest| ensures Keys(rest)[j] != reg[0].0 {
          assert Keys(reg)[0] != Keys(reg)[j + 1];
        }
      }
      DeleteKeepsDistinct(rest, id);
      if reg[0].0 != id {
        var tail := Keys(Delete(rest, id));
        assert Keys(Delete(reg, id)) == [reg[0].0] + tail;
        assert reg[0].0 !in tail;
      }
    }
  }

  /** Deleting the same key twice has the effect of deleting it once. */
  lemma DeleteIdempotent<V>(reg: seq<(Id, V)>, id: Id)
    ensures Delete(Delete(reg, id), id) == Delete(reg, id)
  {
  }
}
