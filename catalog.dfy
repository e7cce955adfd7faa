/** The product catalog of the HTTP service: the `products` table and the
    five route handlers over it (create, list, get, update, delete). Each
    handler runs as one atomic step on the table; the table is a map from
    product id to the stored row. */
module Catalog {
  import opened Models

  /** A stored row of the `products` table, without its key. */
  datatype Row = Row(name: string, price: int, description: Option<string>, stock: int)

  /** Body of a create request; `stock` may be omitted. */
  datatype ProductCreate = ProductCreate(
    name: string,
    price: int,
    description: Option<string>,
    stock: Option<int>)

  /** Body of an update request; every field may be omitted. */
  datatype ProductUpdate = ProductUpdate(
    name: Option<string>,
    price: Option<int>,
    description: Option<string>,
    stock: Option<int>)

  /** The errors the handlers raise: HTTP 404 with its detail text. */
  datatype Error = NotFound(detail: string)

  const UpdateNotFound := "Product not found"
  const ByIdNotFound := "Product not found by ID"

  /** The response body built from a stored row: it carries the id and
      every stored field, so the row can be read back from it. */
  function ViewOf(id: int, row: Row): (p: Product)
    ensures p.id == id
    ensures Row(p.name, p.price, p.description, p.stock) == row
  {
    Product(id, row.name, row.price, row.description, row.stock)
  }

  /** The update every field of which is absent. */
  const NoChange := ProductUpdate(None, None, None, None)

  /** The reference meaning of a partial update: each field present in `u`
      replaces the stored one, each absent field keeps the stored value. */
  function Merge(row: Row, u: ProductUpdate): (r: Row)
    ensures r == row <==>
      (u.name.Some? ==> u.name.value == row.name) &&
      (u.price.Some? ==> u.price.value == row.price) &&
      (u.description.Some? ==> u.description == row.description) &&
      (u.stock.Some? ==> u.stock.value == row.stock)
  {
    Row(u.name.GetOr(row.name), u.price.GetOr(row.price),
        if u.description.Some? then u.description else row.description,
        u.stock.GetOr(row.stock))
  }

  /** An update with every field absent changes nothing. */
  lemma MergeNoChange(row: Row)
    ensures Merge(row, NoChange) == row
  {
  }

  /** Applying the same update twice gives what applying it once gives. */
  lemma MergeIdempotent(row: Row, u: ProductUpdate)
    ensures Merge(Merge(row, u), u) == Merge(row, u)
  {
  }

  /** A stored description can never be cleared through an update: an
      absent description in the request keeps the stored one. */
  lemma MergeKeepsDescription(row: Row, u: ProductUpdate)
    requires row.description.Some?
    ensures Merge(row, u).description.Some?
    ensures u.description.None? ==> Merge(row, u).description == row.description
  {
  }

  /** Two successive updates amount to one update whose present fields are
      those of the second, falling back to the first. */
  lemma MergeCompose(row: Row, u: ProductUpdate, v: ProductUpdate)
    ensures Merge(Merge(row, u), v) == Merge(row, ProductUpdate(
      if v.name.Some? then v.name else u.name,
      if v.price.Some? then v.price else u.price,
      if v.description.Some? then v.description else u.description,
      if v.stock.Some? then v.stock else u.stock))
  {
  }

  /** A set of ids is empty or has a member. */
  lemma EmptyOrMember(ids: set<int>)
    ensures ids == {} || exists id :: id in ids
  {
    if forall id :: id !in ids {
      assert ids == {};
    }
  }

  /** The ids carried by a sequence of views. */
  function IdsOf(r: seq<Product>): set<int>
  {
    set i | 0 <= i < |r| :: r[i].id
  }

  lemma IdsOfAppend(r: seq<Product>, p: Product)
    ensures IdsOf(r + [p]) == IdsOf(r) + {p.id}
  {
    var s := r + [p];
    assert s[|r|].id == p.id;
    forall id | id in IdsOf(r) ensures id in IdsOf(s) {
      var i :| 0 <= i < |r| && r[i].id == id;
      assert s[i] == r[i];
    }
  }

  /** No two views in the sequence share an id. */
  ghost predicate DistinctIds(r: seq<Product>)
  {
    forall i, j :: 0 <= i < j < |r| ==> r[i].id != r[j].id
  }

  /** Every view in the sequence is the view of the stored row with its id. */
  ghost predicate ViewsOf(r: seq<Product>, rows: map<int, Row>)
  {
    forall i :: 0 <= i < |r| ==> r[i].id in rows && r[i] == ViewOf(r[i].id, rows[r[i].id])
  }

  /** One step of listing: appending the view of a row not yet listed keeps
      the listed ids distinct and the views faithful to their rows. */
  lemma ListStep(r: seq<Product>, rows: map<int, Row>, pending: set<int>, id: int)
    requires pending <= rows.Keys && id in pending
    requires IdsOf(r) == rows.Keys - pending && DistinctIds(r) && ViewsOf(r, rows)
    ensures IdsOf(r + [ViewOf(id, rows[id])]) == rows.Keys - (pending - {id})
    ensures DistinctIds(r + [ViewOf(id, rows[id])])
    ensures ViewsOf(r + [ViewOf(id, rows[id])], rows)
  {
    var view := ViewOf(id, rows[id]);
    var s := r + [view];
    IdsOfAppend(r, view);
    assert forall i :: 0 <= i < |r| ==> s[i] == r[i];
    assert s[|r|] == view;
    forall i | 0 <= i < |r| ensures r[i].id != id {
      assert r[i].id in IdsOf(r);
    }
  }

  /** The `products` table. New ids come from a counter that is always
      above every stored id, as a database sequence would hand them out. */
  class ProductTable {
    var rows: map<int, Row>
    var nextId: int

    ghost predicate Valid()
      reads this
    {
      1 <= nextId && forall id :: id in rows ==> 1 <= id < nextId
    }

    constructor ()
      ensures Valid()
      ensures rows == map[] && nextId == 1
    {
      rows := map[];
      nextId := 1;
    }

    /** POST /products: stores a new row under a fresh id; an omitted stock
        is stored as 0. */
    method Create(dto: ProductCreate) returns (p: Product)
      requires Valid()
      modifies this
      ensures Valid()
      ensures p.id !in old(rows)
      ensures rows.Keys == old(rows).Keys + {p.id}
      ensures forall id :: id in old(rows) ==> rows[id] == old(rows)[id]
      ensures rows[p.id] == Row(dto.name, dto.price, dto.description,
                                if dto.stock.Some? then dto.stock.value else 0)
      ensures p == ViewOf(p.id, rows[p.id])
    {
      var row := Row(dto.name, dto.price, dto.description,
                     if dto.stock.Some? then dto.stock.value else 0);
      var id := nextId;
      rows := rows[id := row];
      nextId := nextId + 1;
      p := ViewOf(id, row);
    }

    /** GET /products: one view per stored row. The query has no ORDER BY,
        so the order of the views is left open. */
    method GetAll() returns (r: seq<Product>)
      ensures |r| == |rows|
      ensures IdsOf(r) == rows.Keys
      ensures forall i, j :: 0 <= i < j < |r| ==> r[i].id != r[j].id
      ensures forall i :: 0 <= i < |r| ==> r[i].id in rows && r[i] == ViewOf(r[i].id, rows[r[i].id])
    {
      var pending := rows.Keys;
      r := [];
      while pending != {}
        invariant pending <= rows.Keys
        invariant |r| + |pending| == |rows.Keys|
        invariant IdsOf(r) == rows.Keys - pending
        invariant DistinctIds(r)
        invariant ViewsOf(r, rows)
        decreases |pending|
      {
        EmptyOrMember(pending);
        var id :| id in pending;
        ListStep(r, rows, pending, id);
        r := r + [ViewOf(id, rows[id])];
        pending := pending - {id};
      }
    }

    /** GET /products/{id}: the stored row, or 404 when the id is absent. */
    method Get(id: int) returns (r: Result<Product, Error>)
      ensures r.Success? <==> id in rows
      ensures id in rows ==> r.value == ViewOf(id, rows[id])
      ensures id !in rows ==> r.error == NotFound(ByIdNotFound)
    {
      if id !in rows {
        return Failure(NotFound(ByIdNotFound));
      }
      var row := rows[id];
      r := Success(ViewOf(id, row));
    }

    /** PUT /products/{id}: overwrites, one field at a time, exactly the
        fields present in the request; 404 and no change when absent. */
    method Update(id: int, dto: ProductUpdate) returns (r: Result<Product, Error>)
      requires Valid()
      modifies this
      ensures Valid() && nextId == old(nextId)
      ensures id !in old(rows) ==> r == Failure(NotFound(UpdateNotFound)) && rows == old(rows)
      ensures id in old(rows) ==> rows == old(rows)[id := Merge(old(rows)[id], dto)]
      ensures id in old(rows) ==> r == Success(ViewOf(id, rows[id]))
    {
      if id !in rows {
        return Failure(NotFound(UpdateNotFound));
      }
      var existing := rows[id];
      if dto.name.Some? {
        existing := existing.(name := dto.name.value);
      }
      if dto.price.Some? {
        existing := existing.(price := dto.price.value);
      }
      if dto.description.Some? {
        existing := existing.(description := dto.description);
      }
      if dto.stock.Some? {
        existing := existing.(stock := dto.stock.value);
      }
      rows := rows[id := existing];
      r := Success(ViewOf(id, existing));
    }

    /** DELETE /products/{id}: removes exactly that row; 404 and no change
        when absent. */
    method Delete(id: int) returns (r: Result<(), Error>)
      requires Valid()
      modifies this
      ensures Valid() && nextId == old(nextId)
      ensures r.Success? <==> id in old(rows)
      ensures id !in old(rows) ==> r.error == NotFound(ByIdNotFound) && rows == old(rows)
      ensures rows.Keys == old(rows).Keys - {id}
      ensures forall k :: k in rows ==> rows[k] == old(rows)[k]
    {
      if id !in rows {
        return Failure(NotFound(ByIdNotFound));
      }
      rows := rows - {id};
      r := Success(());
    }
  }

  /** A get issued after a successful update returns the values the update
      wrote; every other product reads as before. */
  method UpdateThenGet(t: ProductTable, id: int, u: ProductUpdate, other: int)
    returns (updated: Result<Product, Error>, got: Result<Product, Error>, before: Result<Product, Error>, after: Result<Product, Error>)
    requires t.Valid()
    requires other != id
    modifies t
    ensures updated.Success? ==> got == updated
    ensures updated.Failure? ==> got == Failure(NotFound(ByIdNotFound))
    ensures before == after
  {
    before := t.Get(other);
    updated := t.Update(id, u);
    got := t.Get(id);
    after := t.Get(other);
  }
}
