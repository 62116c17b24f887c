/**
 * The in-memory category table of the HTTP server: a slice of categories that
 * the GET, PUT, DELETE and POST handlers scan and change in place. Path
 * parsing and JSON decoding happen before these operations and are not part
 * of the model; each operation receives an already parsed id and record.
 */
module Categories {
  import opened Outcomes

  datatype Category = Category(id: int, name: string, description: string)

  /**
   * Position of the first category carrying `id`, or -1 when none does.
   * Every scan of the table stops at this position.
   */
  function IndexOfId(cs: seq<Category>, id: int): (i: int)
    ensures -1 <= i < |cs|
    ensures i >= 0 ==> cs[i].id == id
    ensures i >= 0 ==> forall k :: 0 <= k < i ==> cs[k].id != id
    ensures i == -1 <==> forall k :: 0 <= k < |cs| ==> cs[k].id != id
  {
    if |cs| == 0 then -1
    else if cs[0].id == id then 0
    else
      var j := IndexOfId(cs[1..], id);
      if j < 0 then -1 else j + 1
  }

  class CategoryTable {
    var categories: seq<Category>

    /** The table the server starts with. */
    constructor ()
      ensures |categories| == 3
      ensures forall k :: 0 <= k < 3 ==> categories[k].id == k + 1
      ensures categories[0] == Category(1, "Makanan", "Kategori untuk produk makanan")
      ensures categories[1] == Category(2, "Minuman", "Kategori untuk produk minuman")
      ensures categories[2] == Category(3, "Snack", "Kategori untuk produk snack")
    {
      categories := [
        Category(1, "Makanan", "Kategori untuk produk makanan"),
        Category(2, "Minuman", "Kategori untuk produk minuman"),
        Category(3, "Snack", "Kategori untuk produk snack")
      ];
    }

    /** GET /api/categories/{id}: the first category with that id, or not found. */
    method GetById(id: int) returns (r: Option<Category>)
      ensures r.None? <==> forall k :: 0 <= k < |categories| ==> categories[k].id != id
      ensures r.Some? ==> r.value.id == id && r.value == categories[IndexOfId(categories, id)]
    {
      var i := 0;
      while i < |categories|
        invariant 0 <= i <= |categories|
        invariant forall k :: 0 <= k < i ==> categories[k].id != id
      {
        if categories[i].id == id {
          return Some(categories[i]);
        }
        i := i + 1;
      }
      return None;
    }

    /**
     * PUT /api/categories/{id}: the first category with that id is replaced by
     * the payload, whose own id is overridden by the one in the path; the
     * stored category is returned. Without a match nothing changes.
     */
    method UpdateById(id: int, payload: Category) returns (r: Option<Category>)
      modifies this
      ensures var i := IndexOfId(old(categories), id);
        if i < 0 then r.None? && categories == old(categories)
        else r == Some(payload.(id := id)) && categories == old(categories)[i := payload.(id := id)]
    {
      var i := 0;
      while i < |categories|
        invariant 0 <= i <= |categories|
        invariant categories == old(categories)
        invariant forall k :: 0 <= k < i ==> categories[k].id != id
      {
        if categories[i].id == id {
          categories := categories[i := payload];
          categories := categories[i := categories[i].(id := id)];
          return Some(categories[i]);
        }
        i := i + 1;
      }
      return None;
    }

    /**
     * DELETE /api/categories/{id}: the first category with that id is cut out
     * of the table, the rest keeping their order. Without a match nothing changes.
     */
    method DeleteById(id: int) returns (deleted: bool)
      modifies this
      ensures var i := IndexOfId(old(categories), id);
        if i < 0 then !deleted && categories == old(categories)
        else deleted && categories == old(categories)[..i] + old(categories)[i + 1..]
    {
      var i := 0;
      while i < |categories|
        invariant 0 <= i <= |categories|
        invariant categories == old(categories)
        invariant forall k :: 0 <= k < i ==> categories[k].id != id
      {
        if categories[i].id == id {
          categories := categories[..i] + categories[i + 1..];
          return true;
        }
        i := i + 1;
      }
      return false;
    }

    /**
     * POST /api/categories: the payload receives the id one past the current
     * length and is appended. After a delete this id may already be in use.
     */
    method Create(payload: Category) returns (created: Category)
      modifies this
      ensures created == payload.(id := |old(categories)| + 1)
      ensures categories == old(categories) + [created]
    {
      created := payload.(id := |categories| + 1);
      categories := categories + [created];
    }
  }

  /** After an update the category at the matched position answers lookups of that id. */
  lemma LookupAfterUpdate(cs: seq<Category>, id: int, payload: Category)
    requires IndexOfId(cs, id) >= 0
    ensures var i := IndexOfId(cs, id);
      IndexOfId(cs[i := payload.(id := id)], id) == i
  {
    var i := IndexOfId(cs, id);
    var updated := cs[i := payload.(id := id)];
    assert updated[i].id == id;
    assert forall k :: 0 <= k < i ==> updated[k] == cs[k];
  }

  /** A lookup skips a leading part of the table that does not carry the id. */
  lemma LookupSkipsPrefix(front: seq<Category>, back: seq<Category>, id: int)
    requires forall k :: 0 <= k < |front| ==> front[k].id != id
    ensures var j := IndexOfId(back, id);
      IndexOfId(front + back, id) == if j < 0 then -1 else |front| + j
  {
    var whole := front + back;
    var j := IndexOfId(back, id);
    forall k | 0 <= k < |whole| && k < |front| + (if j < 0 then |back| else j)
      ensures whole[k].id != id
    {
      if k >= |front| {
        assert whole[k] == back[k - |front|];
      }
    }
    if j >= 0 {
      assert whole[|front| + j] == back[j];
    }
  }

  /**
   * After a delete a lookup of the same id finds the next category that
   * carried it, if any; ids are not unique in this table.
   */
  lemma LookupAfterDelete(cs: seq<Category>, id: int)
    requires IndexOfId(cs, id) >= 0
    ensures var i := IndexOfId(cs, id);
      var j := IndexOfId(cs[i + 1..], id);
      IndexOfId(cs[..i] + cs[i + 1..], id) == if j < 0 then -1 else i + j
  {
    var i := IndexOfId(cs, id);
    LookupSkipsPrefix(cs[..i], cs[i + 1..], id);
  }

  /**
   * A created category is found by a lookup of its id only when no earlier
   * category already carries that id.
   */
  lemma {:induction false} LookupAfterCreate(cs: seq<Category>, payload: Category)
    ensures var c := payload.(id := |cs| + 1);
      var i := IndexOfId(cs, c.id);
      IndexOfId(cs + [c], c.id) == if i >= 0 then i else |cs|
  {
    var c := payload.(id := |cs| + 1);
    var grown := cs + [c];
    assert forall k :: 0 <= k < |cs| ==> grown[k] == cs[k];
    assert grown[|cs|].id == c.id;
  }

  /** Deleting category 1 and creating a new one makes two categories with id 3. */
  method DeleteThenCreateDuplicatesId()
  {
    var table := new CategoryTable();
    var deleted := table.DeleteById(1);
    assert deleted;
    var created := table.Create(Category(0, "Lainnya", ""));
    assert created.id == 3;
    assert table.categories[1].id == 3 && table.categories[2].id == 3;
  }
}
