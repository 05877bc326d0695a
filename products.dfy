/** The product record both stores work with, and the lookup by id
    (`products.find(p => p.id === id)`) that the catalog's `getProduct` and the
    cart's stock check share. */
module Products {
  import opened Lists

  /** A catalog entry. Timestamps are instants supplied by the caller. Records
      seeded by the store or saved before any edit have no `createdAt` or
      `updatedAt`, and imported records may have no `image`. */
  datatype Product = Product(
    id: int,
    name: string,
    category: string,
    price: real,
    quantity: int,
    image: Option<string>,
    createdAt: Option<int>,
    updatedAt: Option<int>)

  function Ids(ps: seq<Product>): (ids: seq<int>)
    ensures |ids| == |ps| && forall i :: 0 <= i < |ps| ==> ids[i] == ps[i].id
  {
    seq(|ps|, i requires 0 <= i < |ps| => ps[i].id)
  }

  /** The first product carrying `id`, or `None` (JavaScript's `undefined`). */
  function Find(ps: seq<Product>, id: int): (r: Option<Product>)
    ensures r.Some? <==> id in Ids(ps)
    ensures r.Some? ==> r.value in ps && r.value.id == id
    ensures r.Some? ==> r.value == ps[IndexOf(Ids(ps), id)]
  {
    var k := IndexOf(Ids(ps), id);
    if k < 0 then None else Some(ps[k])
  }

  lemma IdsAppend(ps: seq<Product>, p: Product)
    ensures Ids(ps + [p]) == Ids(ps) + [p.id]
  {
  }

  lemma IdsRemoveAt(ps: seq<Product>, k: nat)
    requires k < |ps|
    ensures Ids(RemoveAt(ps, k)) == RemoveAt(Ids(ps), k)
  {
  }

  /** A product appended under an id nobody else has is what a later lookup of
      that id finds. */
  lemma FindAppended(ps: seq<Product>, p: Product)
    requires p.id !in Ids(ps)
    ensures Find(ps + [p], p.id) == Some(p)
    ensures forall id :: id != p.id ==> Find(ps + [p], id) == Find(ps, id)
  {
    IdsAppend(ps, p);
    forall id | id != p.id ensures Find(ps + [p], id) == Find(ps, id) {
      var k := IndexOf(Ids(ps), id);
      if k >= 0 {
        assert IndexOf(Ids(ps) + [p.id], id) == k by {
          assert (Ids(ps) + [p.id])[k] == id;
        }
      }
    }
  }

  /** With unique ids, a lookup after removing the product found for `id`
      finds nothing. */
  lemma FindRemoved(ps: seq<Product>, k: nat)
    requires k < |ps| && Unique(Ids(ps))
    ensures Find(RemoveAt(ps, k), ps[k].id).None?
  {
    IdsRemoveAt(ps, k);
    RemoveAtUnique(Ids(ps), k);
  }
}
