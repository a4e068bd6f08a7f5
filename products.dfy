/** The `Product` record shared by both dashboards, the sample seed, and the
    record-level updates the dashboards perform (`products.find`,
    `products.map(p => p.id === id ? ... : p)`). */
module Products {

  datatype Option<T> = None | Some(value: T)

  /** The three values of `Product["status"]`; no other value is representable. */
  datatype Status = InStock | LowStock | OutOfStock

  datatype Product = Product(
    id: int,
    name: string,
    category: string,
    quantity: int,
    supplier: string,
    status: Status)

  predicate UniqueIds(ps: seq<Product>)
  {
    forall i, j :: 0 <= i < j < |ps| ==> ps[i].id != ps[j].id
  }

  predicate HasId(ps: seq<Product>, id: int)
  {
    exists i :: 0 <= i < |ps| && ps[i].id == id
  }

  /** The eight sample records shown when nothing is stored, and restored by "Reset". */
  function Seed(): (r: seq<Product>)
    ensures |r| == 8
    ensures forall i :: 0 <= i < |r| ==> r[i].id == i + 1
    ensures UniqueIds(r)
  {
    [ Product(1, "iPhone 15 Pro", "Electronics", 25, "Apple Inc", InStock),
      Product(2, "MacBook Air M3", "Electronics", 8, "Apple Inc", LowStock),
      Product(3, "Gaming Chair", "Furniture", 0, "Herman Miller", OutOfStock),
      Product(4, "Wireless Mouse", "Electronics", 45, "Logitech", InStock),
      Product(5, "Standing Desk", "Furniture", 3, "IKEA", LowStock),
      Product(6, "Monitor 4K", "Electronics", 0, "Samsung", OutOfStock),
      Product(7, "Coffee Maker", "Appliances", 15, "Breville", InStock),
      Product(8, "Air Purifier", "Appliances", 2, "Dyson", LowStock) ]
  }

  /** `products.find(p => p.id === id)`: the first record carrying `id`, if any. */
  function FindById(ps: seq<Product>, id: int): (r: Option<Product>)
    ensures r.None? <==> !HasId(ps, id)
    ensures r.Some? ==> exists i :: 0 <= i < |ps| && ps[i] == r.value && r.value.id == id &&
                                    forall j :: 0 <= j < i ==> ps[j].id != id
  {
    if ps == [] then None
    else if ps[0].id == id then
      Some(ps[0])
    else
      var r := FindById(ps[1..], id);
      assert HasId(ps, id) <==> HasId(ps[1..], id) by {
        if HasId(ps, id) {
          var i :| 0 <= i < |ps| && ps[i].id == id;
          assert ps[1..][i - 1].id == id;
        }
        if HasId(ps[1..], id) {
          var i :| 0 <= i < |ps| - 1 && ps[1..][i].id == id;
          assert ps[i + 1].id == id;
        }
      }
      if r.Some? then
        var i :| 0 <= i < |ps| - 1 && ps[1..][i] == r.value && r.value.id == id &&
                 forall j :: 0 <= j < i ==> ps[1..][j].id != id;
        assert ps[i + 1] == r.value;
        r
      else
        r
  }

  /** `ps.map(p => p.id === id ? f(p) : p)`: every record carrying `id` is
      rewritten by `f`, the others are kept, in place. */
  function UpdateWhere(ps: seq<Product>, id: int, f: Product -> Product): (r: seq<Product>)
    ensures |r| == |ps|
    ensures forall i :: 0 <= i < |ps| && ps[i].id != id ==> r[i] == ps[i]
    ensures forall i :: 0 <= i < |ps| && ps[i].id == id ==> r[i] == f(ps[i])
  {
    if ps == [] then []
    else [if ps[0].id == id then f(ps[0]) else ps[0]] + UpdateWhere(ps[1..], id, f)
  }

  /** The drop commit of the dashboard page: only `status` changes. */
  function SetStatus(ps: seq<Product>, id: int, target: Status): (r: seq<Product>)
    ensures |r| == |ps|
    ensures forall i :: 0 <= i < |ps| && ps[i].id != id ==> r[i] == ps[i]
    ensures forall i :: 0 <= i < |ps| && ps[i].id == id ==>
              r[i] == ps[i].(status := target) && r[i].quantity == ps[i].quantity
  {
    UpdateWhere(ps, id, (p: Product) => p.(status := target))
  }

  /** The edit save of both dashboards: records with the saved record's id become it. */
  function ReplaceById(ps: seq<Product>, saved: Product): (r: seq<Product>)
    ensures |r| == |ps|
    ensures forall i :: 0 <= i < |ps| && ps[i].id != saved.id ==> r[i] == ps[i]
    ensures forall i :: 0 <= i < |ps| && ps[i].id == saved.id ==> r[i] == saved
  {
    UpdateWhere(ps, saved.id, (_: Product) => saved)
  }

  /** An update that never changes a record's id keeps every record's id,
      so id uniqueness is preserved. */
  lemma UpdateKeepsIds(ps: seq<Product>, id: int, f: Product -> Product)
    requires forall p: Product :: p.id == id ==> f(p).id == id
    ensures forall i :: 0 <= i < |ps| ==> UpdateWhere(ps, id, f)[i].id == ps[i].id
    ensures UniqueIds(ps) ==> UniqueIds(UpdateWhere(ps, id, f))
  {
  }

  /** After a status commit, looking the record up again finds the same record
      with the new status. */
  lemma {:induction false} FindAfterSetStatus(ps: seq<Product>, id: int, target: Status)
    ensures FindById(SetStatus(ps, id, target), id) ==
            match FindById(ps, id)
            case None => None
            case Some(p) => Some(p.(status := target))
  {
    if ps != [] {
      FindAfterSetStatus(ps[1..], id, target);
      var r := SetStatus(ps, id, target);
      assert r == [r[0]] + SetStatus(ps[1..], id, target);
    }
  }

  /** Appending a record whose id is not yet used keeps ids unique and makes the
      record findable by its id. */
  lemma AppendFresh(ps: seq<Product>, p: Product)
    requires UniqueIds(ps) && !HasId(ps, p.id)
    ensures UniqueIds(ps + [p])
    ensures FindById(ps + [p], p.id) == Some(p)
  {
    var r := ps + [p];
    var f := FindById(r, p.id);
    assert r[|ps|] == p;
    if f.Some? {
      var i :| 0 <= i < |r| && r[i] == f.value && f.value.id == p.id &&
               forall j :: 0 <= j < i ==> r[j].id != p.id;
      assert i == |ps|;
    }
  }

  /** With unique ids, the first record's id occurs nowhere after it. */
  lemma NotFoundAfterFirst(ps: seq<Product>, id: int)
    requires UniqueIds(ps) && ps != [] && ps[0].id == id
    ensures !HasId(ps[1..], id)
  {
  }

  /** A status commit for an id no record carries changes nothing. */
  lemma SetStatusMissing(ps: seq<Product>, id: int, target: Status)
    requires !HasId(ps, id)
    ensures SetStatus(ps, id, target) == ps
  {
  }
}
