/** Sequence helpers shared by both stores: the optional value that stands for
    JavaScript's `undefined`, and the first-match search (`find` / `findIndex`)
    and `splice(k, 1)` that both stores apply to their lists. */
module Lists {

  datatype Option<+T> = None | Some(value: T) {
    function GetOr(default: T): T {
      match this
      case Some(v) => v
      case None => default
    }
  }

  /** No identifier occurs twice. */
  predicate Unique(ids: seq<int>) {
    forall i, j :: 0 <= i < j < |ids| ==> ids[i] != ids[j]
  }

  /** `findIndex(x => x.id === id)`: the index of the first occurrence of `id`,
      or -1 when there is none. */
  function IndexOf(ids: seq<int>, id: int): (k: int)
    ensures -1 <= k < |ids|
    ensures k >= 0 <==> id in ids
    ensures k >= 0 ==> ids[k] == id && forall j :: 0 <= j < k ==> ids[j] != id
  {
    if ids == [] then -1
    else if ids[0] == id then 0
    else
      var k := IndexOf(ids[1..], id);
      if k < 0 then -1 else k + 1
  }

  /** `splice(k, 1)`: the sequence without its element at position `k`. */
  function RemoveAt<T>(s: seq<T>, k: nat): (r: seq<T>)
    requires k < |s|
    ensures |r| == |s| - 1
    ensures forall j :: 0 <= j < k ==> r[j] == s[j]
    ensures forall j :: k <= j < |r| ==> r[j] == s[j + 1]
    ensures multiset(r) + multiset{s[k]} == multiset(s)
  {
    assert s == s[..k] + [s[k]] + s[k + 1..];
    s[..k] + s[k + 1..]
  }

  /** Removing one position of a duplicate-free sequence keeps it duplicate-free
      and removes that value altogether. */
  lemma RemoveAtUnique(ids: seq<int>, k: nat)
    requires k < |ids| && Unique(ids)
    ensures Unique(RemoveAt(ids, k))
    ensures ids[k] !in RemoveAt(ids, k)
  {
    var r := RemoveAt(ids, k);
    forall i, j | 0 <= i < j < |r| ensures r[i] != r[j] {
      var i' := if i < k then i else i + 1;
      var j' := if j < k then j else j + 1;
      assert r[i] == ids[i'] && r[j] == ids[j'] && i' < j';
    }
    forall j | 0 <= j < |r| ensures r[j] != ids[k] {
      var j' := if j < k then j else j + 1;
      assert r[j] == ids[j'] && j' != k;
    }
  }
}
