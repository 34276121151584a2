/**
 * Properties that relate several fallback operations: seeding and the list
 * order, read-after-write for create and update, delete followed by get, and
 * the uniqueness of ids across writes.
 */
module StoreLaws {
  import opened Wrappers
  import opened Blogs
  import opened DateSort
  import opened LocalStore

  /** On first access the list view shows the two seeds, id 1 (the newer)
      before id 2, and the slot now holds them in that order. */
  lemma FirstListShowsSeedsNewestFirst(seeds: seq<Blog>)
    requires SeedShape(seeds)
    ensures ListLocal(None, seeds) == Reply(Some(seeds), Success(seeds))
    ensures ListLocal(None, seeds).out.value[0].id == 1
  {
    SortKeepsSortedList(seeds);
  }

  /** The list view keeps records of equal date in their stored order. */
  lemma ListLocalIsStable(slot: Slot, seeds: seq<Blog>, d: Timestamp)
    ensures DatedAt(ListLocal(slot, seeds).out.value, d) == DatedAt(LoadBlogs(slot, seeds).blogs, d)
  {
    SortIsStable(LoadBlogs(slot, seeds).blogs, d);
  }

  /** A list that is stored newest first is shown exactly as stored. */
  lemma ListLocalOfSortedStore(l: seq<Blog>, seeds: seq<Blog>)
    requires NewestFirst(l)
    ensures ListLocal(Some(l), seeds).out == Success(l)
  {
    SortKeepsSortedList(l);
  }

  /** After a fallback create, a fallback get of the new id returns the
      created record and writes nothing. */
  lemma CreateThenGet(slot: Slot, seeds: seq<Blog>, d: Draft, now: Timestamp)
    ensures var c := CreateLocal(slot, seeds, d, now);
            GetLocal(c.slot, seeds, c.out.value.id) == Reply(c.slot, Success(c.out.value))
  {
  }

  /** A create keeps ids unique. */
  lemma CreateKeepsIdsUnique(slot: Slot, seeds: seq<Blog>, d: Draft, now: Timestamp)
    requires UniqueIds(LoadBlogs(slot, seeds).blogs)
    ensures UniqueIds(CreateLocal(slot, seeds, d, now).slot.value)
  {
  }

  /** After a successful fallback update whose patch does not move the record
      to another id, a fallback get returns the merged record. */
  lemma UpdateThenGet(slot: Slot, seeds: seq<Blog>, id: int, p: Patch)
    requires HasId(LoadBlogs(slot, seeds).blogs, id)
    requires p.id.None? || p.id == Some(id)
    ensures var u := UpdateLocal(slot, seeds, id, p);
            u.out.Success? && GetLocal(u.slot, seeds, id) == Reply(u.slot, u.out)
  {
  }

  /** A fallback update whose patch leaves the id alone keeps ids unique. */
  lemma UpdateKeepsIdsUnique(slot: Slot, seeds: seq<Blog>, id: int, p: Patch)
    requires UniqueIds(LoadBlogs(slot, seeds).blogs)
    requires p.id.None? || p.id == Some(id)
    ensures UniqueIds(UpdateLocal(slot, seeds, id, p).slot.value)
  {
  }

  /** The edit dialog sends the whole record, id included. A patch carrying
      another record's id duplicates that id: from the seeded store, giving
      record 1 the id 2 leaves two records with id 2. */
  lemma UpdateWithForeignIdDuplicatesIds(seeds: seq<Blog>)
    requires SeedShape(seeds)
    ensures var u := UpdateLocal(None, seeds, 1, EmptyPatch.(id := Some(2)));
            u.out.Success? && !UniqueIds(u.slot.value)
  {
  }

  /** The edit dialog's update, which sends the record it shows with the
      same id, stores exactly that record. */
  lemma UpdateWithWholeRecord(slot: Slot, seeds: seq<Blog>, b: Blog)
    requires HasId(LoadBlogs(slot, seeds).blogs, b.id)
    ensures UpdateLocal(slot, seeds, b.id, FullPatch(b)).out == Success(b)
  {
  }

  /** After a fallback delete, a fallback get of that id fails. */
  lemma DeleteThenGetFails(slot: Slot, seeds: seq<Blog>, id: int)
    ensures GetLocal(DeleteLocal(slot, seeds, id).slot, seeds, id).out == Failure(BlogNotFound)
  {
  }

  /** `Without` keeps relative order: filtering a concatenation filters each part. */
  lemma {:induction false} WithoutConcat(a: seq<Blog>, b: seq<Blog>, id: int)
    ensures Without(a + b, id) == Without(a, id) + Without(b, id)
  {
    if |a| > 0 {
      assert (a + b)[1..] == a[1..] + b;
      WithoutConcat(a[1..], b, id);
    } else {
      assert a + b == b;
    }
  }

  /** Dropping records never creates a duplicate id. */
  lemma {:induction false} WithoutKeepsIdsUnique(l: seq<Blog>, id: int)
    requires UniqueIds(l)
    ensures UniqueIds(Without(l, id))
  {
    if |l| > 0 {
      WithoutKeepsIdsUnique(l[1..], id);
      var rest := Without(l[1..], id);
      if l[0].id != id {
        var r := [l[0]] + rest;
        forall i, j | 0 <= i < j < |r|
          ensures r[i].id != r[j].id
        {
          if i == 0 {
            assert r[j] in l[1..];
          }
        }
      }
    }
  }

  /** A delete keeps ids unique. */
  lemma DeleteKeepsIdsUnique(slot: Slot, seeds: seq<Blog>, id: int)
    requires UniqueIds(LoadBlogs(slot, seeds).blogs)
    ensures UniqueIds(DeleteLocal(slot, seeds, id).slot.value)
  {
    WithoutKeepsIdsUnique(LoadBlogs(slot, seeds).blogs, id);
  }

  /** Ids are reused: deleting the record with the largest id and creating
      another gives the new record the deleted id again. */
  lemma IdReusedAfterDeletingLargestId(seeds: seq<Blog>, d: Draft, now: Timestamp)
    requires SeedShape(seeds)
    ensures var s := DeleteLocal(None, seeds, 2).slot;
            CreateLocal(s, seeds, d, now).out.value.id == 2
  {
  }

  /** From an empty slot, creating a record no older than the newer seed
      (as any record created after the module loaded is) gives it id 3, and
      the list view then shows three records with it first. */
  lemma CreateThenListFromFreshStore(seeds: seq<Blog>, d: Draft, now: Timestamp)
    requires SeedShape(seeds)
    requires now >= seeds[0].date
    ensures var c := CreateLocal(None, seeds, d, now);
            && c.out.value.id == 3
            && ListLocal(c.slot, seeds).out.value == [c.out.value] + seeds
  {
    var c := CreateLocal(None, seeds, d, now);
    var l := [c.out.value] + seeds;
    assert NewestFirst(l);
    SortKeepsSortedList(l);
  }
}
