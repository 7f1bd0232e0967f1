/**
 * The two admin registries, locations and categories: tables of named rows that
 * can be archived. Both routes behave alike (role-filtered listing, create or
 * un-archive, rename, and a "smart" delete that archives a row the ledger still
 * refers to and removes it otherwise); they differ only in which ledger entries
 * count as a reference.
 */
module Registry {
  import opened Common
  import opened Ledger
  import Sorting

  datatype Kind = Locations | Categories

  /** A `locations` or `categories` row. */
  datatype Row = Row(id: nat, name: string, isArchived: bool)

  /** The history check of the delete route: locations count stock movements, categories item creations and edits. */
  predicate InUse(kind: Kind, ledger: seq<Block>, name: string) {
    match kind
    case Locations => LocationReferenced(ledger, name)
    case Categories => CategoryReferenced(ledger, name)
  }

  /** A single-row `WHERE` lookup: the position of the first row satisfying `p`. */
  function FirstWhere(rows: seq<Row>, p: Row -> bool): (r: Option<nat>)
    ensures r.Some? ==> r.value < |rows| && p(rows[r.value])
    ensures r.Some? ==> forall j :: 0 <= j < r.value ==> !p(rows[j])
    ensures r.None? ==> forall i :: 0 <= i < |rows| ==> !p(rows[i])
  {
    if rows == [] then None
    else if p(rows[0]) then Some(0)
    else match FirstWhere(rows[1..], p)
      case None => None
      case Some(k) => Some(k + 1)
  }

  /** `WHERE name = $1`. */
  function IndexOfName(rows: seq<Row>, name: string): Option<nat> {
    FirstWhere(rows, (row: Row) => row.name == name)
  }

  /** `WHERE id = $1`. */
  function IndexOfId(rows: seq<Row>, id: nat): Option<nat> {
    FirstWhere(rows, (row: Row) => row.id == id)
  }

  /** `ORDER BY is_archived ASC, name ASC`. */
  predicate AdminOrder(a: Row, b: Row) {
    (!a.isArchived && b.isArchived) || (a.isArchived == b.isArchived && Sorting.StrLe(a.name, b.name))
  }

  /** `ORDER BY name`. */
  predicate NameOrder(a: Row, b: Row) {
    Sorting.StrLe(a.name, b.name)
  }

  /** `WHERE is_archived = false`. */
  function Active(rows: seq<Row>): (r: seq<Row>)
    ensures forall x :: multiset(r)[x] == if x.isArchived then 0 else multiset(rows)[x]
  {
    if rows == [] then []
    else
      assert rows == [rows[0]] + rows[1..];
      (if rows[0].isArchived then [] else [rows[0]]) + Active(rows[1..])
  }

  lemma AdminOrderIsPreorder()
    ensures Sorting.TotalPreorder(AdminOrder)
  {
    forall a: Row, b: Row ensures AdminOrder(a, b) || AdminOrder(b, a) {
      Sorting.StrLeTotal(a.name, b.name);
    }
    forall a: Row, b: Row, c: Row | AdminOrder(a, b) && AdminOrder(b, c) ensures AdminOrder(a, c) {
      if a.isArchived == b.isArchived == c.isArchived {
        Sorting.StrLeTransitive(a.name, b.name, c.name);
      }
    }
  }

  lemma NameOrderIsPreorder()
    ensures Sorting.TotalPreorder(NameOrder)
  {
    forall a: Row, b: Row ensures NameOrder(a, b) || NameOrder(b, a) {
      Sorting.StrLeTotal(a.name, b.name);
    }
    forall a: Row, b: Row, c: Row | NameOrder(a, b) && NameOrder(b, c) ensures NameOrder(a, c) {
      Sorting.StrLeTransitive(a.name, b.name, c.name);
    }
  }

  class Table {
    const kind: Kind
    var rows: seq<Row>
    /** The next value of the table's id sequence. */
    var nextId: nat

    /** Ids and names are unique, and every id was drawn from the sequence. */
    ghost predicate Valid()
      reads this
    {
      (forall i, j :: 0 <= i < j < |rows| ==> rows[i].id != rows[j].id && rows[i].name != rows[j].name) &&
      (forall i :: 0 <= i < |rows| ==> rows[i].id < nextId)
    }

    constructor (kind: Kind)
      ensures Valid() && this.kind == kind && rows == [] && nextId == 1
    {
      this.kind := kind;
      rows := [];
      nextId := 1;
    }

    /**
     * `GET /`: an Admin sees every row, active ones first, each group by name;
     * anyone else sees only the active rows, by name.
     */
    method List(callerRole: Option<string>) returns (listing: seq<Row>)
      ensures callerRole == Some("Admin") ==>
        multiset(listing) == multiset(rows) && Sorting.SortedBy(listing, AdminOrder)
      ensures callerRole != Some("Admin") ==>
        multiset(listing) == multiset(Active(rows)) && Sorting.SortedBy(listing, NameOrder)
      ensures callerRole != Some("Admin") ==> forall r :: r in listing ==> !r.isArchived
    {
      if callerRole == Some("Admin") {
        listing := Sorting.InsertionSort(rows, AdminOrder);
        AdminOrderIsPreorder();
        Sorting.SortSorts(rows, AdminOrder);
        Sorting.SortPermutes(rows, AdminOrder);
      } else {
        listing := Sorting.InsertionSort(Active(rows), NameOrder);
        NameOrderIsPreorder();
        Sorting.SortSorts(Active(rows), NameOrder);
        Sorting.SortPermutes(Active(rows), NameOrder);
        forall r | r in listing ensures !r.isArchived {
          assert r in multiset(listing);
        }
      }
    }

    /**
     * `POST /`: a name is required. An unknown name is inserted as a new active
     * row; an archived one is un-archived in place; an active one is a conflict
     * and the transaction is rolled back.
     */
    method Add(name: string) returns (outcome: Outcome, row: Option<Row>)
      requires Valid()
      modifies this
      ensures Valid()
      ensures name == "" ==> outcome == BadRequest && rows == old(rows) && nextId == old(nextId)
      ensures name != "" && IndexOfName(old(rows), name).None? ==>
        outcome == Ok && row == Some(Row(old(nextId), name, false)) &&
        rows == old(rows) + [row.value] && nextId == old(nextId) + 1
      ensures name != "" && IndexOfName(old(rows), name).Some? ==>
        var i := IndexOfName(old(rows), name).value;
        nextId == old(nextId) &&
        if old(rows)[i].isArchived then
          outcome == Ok && row == Some(old(rows)[i].(isArchived := false)) && rows == old(rows)[i := row.value]
        else
          outcome == Conflict && row == None && rows == old(rows)
      ensures outcome == Ok ==> var k := IndexOfName(rows, name); k.Some? && !rows[k.value].isArchived
    {
      if name == "" {
        return BadRequest, None;
      }
      var existing := IndexOfName(rows, name);
      if existing.None? {
        var created := Row(nextId, name, false);
        rows := rows + [created];
        nextId := nextId + 1;
        assert rows[|rows| - 1] == created;
        ghost var k := IndexOfName(rows, name);
        assert k.Some? && k.value == |rows| - 1;
        outcome, row := Ok, Some(created);
      } else if rows[existing.value].isArchived {
        var i := existing.value;
        var restored := rows[i].(isArchived := false);
        rows := rows[i := restored];
        ghost var k := IndexOfName(rows, name);
        assert rows[i].name == name;
        assert k.Some? && k.value == i;
        outcome, row := Ok, Some(restored);
      } else {
        outcome, row := Conflict, None;
      }
    }

    /**
     * `PUT /:id`: renames the row. A name held by another row violates the unique
     * constraint (a conflict); an unknown id updates nothing and answers no row.
     */
    method Rename(id: nat, name: string) returns (outcome: Outcome, row: Option<Row>)
      requires Valid()
      modifies this
      ensures Valid() && nextId == old(nextId)
      ensures IndexOfId(old(rows), id).None? ==> outcome == Ok && row == None && rows == old(rows)
      ensures IndexOfId(old(rows), id).Some? ==>
        var i := IndexOfId(old(rows), id).value;
        var k := IndexOfName(old(rows), name);
        if k.Some? && k.value != i then
          outcome == Conflict && row == None && rows == old(rows)
        else
          outcome == Ok && row == Some(old(rows)[i].(name := name)) && rows == old(rows)[i := row.value]
    {
      var target := IndexOfId(rows, id);
      if target.None? {
        return Ok, None;
      }
      var i := target.value;
      var holder := IndexOfName(rows, name);
      if holder.Some? && holder.value != i {
        return Conflict, None;
      }
      var renamed := rows[i].(name := name);
      rows := rows[i := renamed];
      outcome, row := Ok, Some(renamed);
    }

    /**
     * `DELETE /:id`, the smart delete: an unknown id fails and rolls back; a row
     * the ledger still refers to is archived; any other row is removed.
     */
    method Delete(id: nat, ledger: seq<Block>) returns (outcome: Outcome)
      requires Valid()
      modifies this
      ensures Valid() && nextId == old(nextId)
      ensures IndexOfId(old(rows), id).None? ==> outcome == ServerError && rows == old(rows)
      ensures IndexOfId(old(rows), id).Some? ==>
        var i := IndexOfId(old(rows), id).value;
        outcome == Ok &&
        if InUse(kind, ledger, old(rows)[i].name) then
          rows == old(rows)[i := old(rows)[i].(isArchived := true)]
        else
          rows == old(rows)[..i] + old(rows)[i + 1..]
      ensures outcome == Ok ==>
        (IndexOfId(rows, id).Some? <==> InUse(kind, ledger, old(rows)[IndexOfId(old(rows), id).value].name))
    {
      var target := IndexOfId(rows, id);
      if target.None? {
        return ServerError;
      }
      var i := target.value;
      var name := rows[i].name;
      if InUse(kind, ledger, name) {
        rows := rows[i := rows[i].(isArchived := true)];
        assert rows[i].id == id;
      } else {
        rows := rows[..i] + rows[i + 1..];
        forall j | 0 <= j < |rows| ensures rows[j].id != id {
          if j < i {
            assert rows[j] == old(rows)[j];
          } else {
            assert rows[j] == old(rows)[j + 1];
          }
        }
      }
      outcome := Ok;
    }
  }
}
