/** The tag endpoints: list all tags, create a tag (idempotent by name),
    and delete a tag by id. */
module TagRouter {
  import opened Common
  import opened Models

  /** The tag table as a value: its rows and the next id to hand out. */
  datatype TagTable = TagTable(rows: map<int, string>, next: int)

  ghost predicate TagTableValid(t: TagTable) {
    IdsBelow(t.rows, t.next) && UniqueValues(t.rows)
  }

  predicate HasName(t: TagTable, name: string) {
    exists id | id in t.rows :: t.rows[id] == name
  }

  /** The outcome of create_tag: the table afterwards and the tag returned. */
  datatype Created = Created(table: TagTable, tag: TagRow)

  /** create_tag: the row already carrying `name` if there is one,
      otherwise a new row with the next id. */
  ghost function AfterCreate(t: TagTable, name: string): (c: Created)
    requires TagTableValid(t)
    ensures TagTableValid(c.table)
    ensures c.tag.tagId in c.table.rows && c.table.rows[c.tag.tagId] == name && c.tag.name == name
    ensures HasName(t, name) ==> c.table == t
    ensures !HasName(t, name) ==>
      c.table.rows == t.rows[t.next := name] && c.table.next == t.next + 1 && c.tag.tagId == t.next
  {
    if HasName(t, name) then
      var id :| id in t.rows && t.rows[id] == name;
      Created(t, TagRow(id, name))
    else
      var t' := TagTable(t.rows[t.next := name], t.next + 1);
      assert UniqueValues(t'.rows) by {
        forall a, b | a in t'.rows && b in t'.rows && t'.rows[a] == t'.rows[b]
          ensures a == b
        {
        }
      }
      Created(t', TagRow(t.next, name))
  }

  /** Creating the same name twice returns the same tag, and the second
      call adds nothing. */
  lemma CreateIdempotent(t: TagTable, name: string)
    requires TagTableValid(t)
    ensures AfterCreate(AfterCreate(t, name).table, name) == AfterCreate(t, name)
  {
    var c := AfterCreate(t, name);
    assert HasName(c.table, name);
    var c2 := AfterCreate(c.table, name);
    assert c2.tag.tagId == c.tag.tagId;
  }

  /** Creating a name adds at most one row, and never a second row with a
      name that is already present. */
  lemma CreateAddsAtMostOne(t: TagTable, name: string)
    requires TagTableValid(t)
    ensures |AfterCreate(t, name).table.rows| == |t.rows| + (if HasName(t, name) then 0 else 1)
    ensures forall id | id in AfterCreate(t, name).table.rows && id !in t.rows :: id == t.next
  {
    if !HasName(t, name) {
      assert t.next !in t.rows;
    }
  }

  function TableOf(db: Models.Db): TagTable
    reads db
  {
    TagTable(db.tags, db.nextTagId)
  }

  /** get_tags: every stored tag, in id order. */
  method GetTags(db: Db) returns (r: seq<TagRow>)
    requires db.Valid()
    ensures forall x | x in r :: x.tagId in db.tags && db.tags[x.tagId] == x.name
    ensures forall id | id in db.tags :: TagRow(id, db.tags[id]) in r
    ensures forall i, j | 0 <= i < j < |r| :: r[i].tagId < r[j].tagId
  {
    r := [];
    var id := 1;
    while id < db.nextTagId
      invariant 1 <= id <= db.nextTagId
      invariant forall x | x in r :: x.tagId in db.tags && db.tags[x.tagId] == x.name && x.tagId < id
      invariant forall k | k in db.tags && k < id :: TagRow(k, db.tags[k]) in r
      invariant forall i, j | 0 <= i < j < |r| :: r[i].tagId < r[j].tagId
    {
      if id in db.tags {
        r := r + [TagRow(id, db.tags[id])];
      }
      id := id + 1;
    }
  }

  /** create_tag. */
  method CreateTag(db: Db, name: string) returns (tag: TagRow)
    requires db.Valid()
    modifies db`tags, db`nextTagId
    ensures db.Valid()
    ensures Created(TableOf(db), tag) == AfterCreate(old(TableOf(db)), name)
  {
    var found := FirstWhere(db.tags, db.nextTagId, (n: string) => n == name);
    if found.Some? {
      tag := TagRow(found.value, name);
      ghost var c := AfterCreate(TableOf(db), name);
      assert c.tag.tagId == found.value;
    } else {
      assert !HasName(TableOf(db), name);
      tag := TagRow(db.nextTagId, name);
      db.tags := db.tags[db.nextTagId := name];
      db.nextTagId := db.nextTagId + 1;
    }
  }

  /** delete_tag: 404 when no tag has the id; otherwise the tag row goes,
      and with it the rows of meetings_tags that name it (the ORM clears
      the association rows of a deleted tag). */
  method DeleteTag(db: Db, tagId: int) returns (r: Result<()>)
    requires db.Valid()
    modifies db`tags, db`links
    ensures db.Valid()
    ensures r.Err? <==> tagId !in old(db.tags)
    ensures r.Err? ==> r.error == NotFound && db.tags == old(db.tags) && db.links == old(db.links)
    ensures r.Ok? ==> db.tags == old(db.tags) - {tagId}
    ensures r.Ok? ==> db.links == set p | p in old(db.links) && p.1 != tagId
  {
    if tagId !in db.tags {
      return Err(NotFound);
    }
    db.tags := db.tags - {tagId};
    db.links := set p | p in db.links && p.1 != tagId;
    return Ok(());
  }
}
