/**
 * The shop table behind `ServiceImpl<ShopMapper, Shop>`: `getById` and
 * `updateById`. A shop is represented by its JSON text (`Doc`); a database that
 * is down makes every call throw.
 */
module ShopDb {
  import opened Base

  /** The text of a JSON object, the only strings a bean decodes from. */
  predicate IsJsonObject(s: string) {
    |s| >= 2 && s[0] == '{' && s[|s| - 1] == '}'
  }

  /** An entity, represented by its JSON serialisation. */
  type Doc = s: string | IsJsonObject(s) witness "{}"

  class ShopTable {
    var rows: map<int, Doc>
    var down: bool
    /** How many calls reached the table: the observable cost of a cache miss. */
    ghost var calls: nat

    constructor (rows: map<int, Doc>)
      ensures this.rows == rows && !down && calls == 0
    {
      this.rows := rows;
      down := false;
      calls := 0;
    }

    /** What `getById(id)` answers in the current state. */
    function Load(id: int): (r: Call<Option<Doc>>)
      reads this
      ensures r.Returns? <==> !down
      ensures r.Returns? ==> (r.value.Some? <==> id in rows) && (id in rows ==> r.value == Some(rows[id]))
    {
      if down then Throws else if id in rows then Returns(Some(rows[id])) else Returns(None)
    }

    /** `getById(id)`. */
    method GetById(id: int) returns (r: Call<Option<Doc>>)
      modifies this
      ensures r == old(Load(id))
      ensures rows == old(rows) && down == old(down) && calls == old(calls) + 1
    {
      calls := calls + 1;
      if down {
        r := Throws;
      } else if id in rows {
        r := Returns(Some(rows[id]));
      } else {
        r := Returns(None);
      }
    }

    /**
     * `updateById(shop)`: rewrites the row with the shop's id; a null id or an
     * id with no row matches nothing.
     */
    method UpdateById(id: Option<int>, doc: Doc) returns (r: Call<bool>)
      modifies this
      ensures old(down) ==> r == Throws && rows == old(rows)
      ensures !old(down) ==> r == Returns(id.Some? && id.value in old(rows))
      ensures rows == if r == Returns(true) then old(rows)[id.value := doc] else old(rows)
      ensures down == old(down) && calls == old(calls) + 1
    {
      calls := calls + 1;
      if down {
        r := Throws;
      } else if id.Some? && id.value in rows {
        rows := rows[id.value := doc];
        r := Returns(true);
      } else {
        r := Returns(false);
      }
    }
  }
}
