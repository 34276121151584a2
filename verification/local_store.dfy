/**
 * The local fallback of the blog API: a read-modify-write over the list of
 * records kept in one storage slot. Each operation reads the slot (seeding
 * it on first use), computes its answer, and writes the slot back when it
 * changes the list.
 */
module LocalStore {
  import opened Wrappers
  import opened Blogs
  import opened DateSort

  /** The storage slot holding the persisted list; `None` until first written. */
  type Slot = Option<seq<Blog>>

  /** The one error the fallback surfaces to callers. */
  datatype ApiError = BlogNotFound

  /** The message the rejected call carries. */
  function Message(e: ApiError): string {
    match e
    case BlogNotFound => "Blog not found"
  }

  /** The cover a create call fills in when the draft has none. */
  const DefaultCover: string := "https://images.unsplash.com/photo-1499750310107-5fef28a66643?auto=format&fit=crop&q=80&w=1200"

  /** What a call leaves in the slot, and what it resolves or rejects with. */
  datatype Reply<T> = Reply(slot: Slot, out: Result<T, ApiError>)

  /** The slot after a read, and the list the read returns. */
  datatype Loaded = Loaded(slot: Slot, blogs: seq<Blog>)

  /** Lazy seeding: an empty slot is filled with the seed list, which is
      returned; a filled slot is returned as stored and not written. The seed
      list is evaluated once, when the module loads, and is passed in (its
      value is `Blogs.Seeds`). */
  function LoadBlogs(slot: Slot, seeds: seq<Blog>): (r: Loaded)
    ensures r.slot == Some(r.blogs)
    ensures slot.Some? ==> r.blogs == slot.value
    ensures slot.None? ==> r.blogs == seeds
  {
    match slot
    case Some(l) => Loaded(slot, l)
    case None => Loaded(Some(seeds), seeds)
  }

  /** `i` is the position of the first record of `l` with id `id`. */
  ghost predicate FirstIndexOf(l: seq<Blog>, id: int, i: int) {
    0 <= i < |l| && l[i].id == id && forall j :: 0 <= j < i ==> l[j].id != id
  }

  /** `l'` is `l` with position `i` replaced by `b` and everything else in place. */
  ghost predicate ReplacedAt(l: seq<Blog>, l': seq<Blog>, i: int, b: Blog) {
    && |l'| == |l|
    && 0 <= i < |l|
    && l'[i] == b
    && forall j :: 0 <= j < |l| && j != i ==> l'[j] == l[j]
  }

  /** `findIndex` by id: the first position carrying `id`, if any. */
  function FindIndex(l: seq<Blog>, id: int): (r: Option<nat>)
    ensures r.Some? ==> FirstIndexOf(l, id, r.value)
    ensures r.None? <==> !HasId(l, id)
  {
    if |l| == 0 then None
    else if l[0].id == id then Some(0)
    else
      match FindIndex(l[1..], id)
      case Some(i) => Some(i + 1)
      case None =>
        assert forall j :: 1 <= j < |l| ==> l[j] == l[1..][j - 1];
        None
  }

  /** The largest id of `l`, or 0 when every id is negative or `l` is empty. */
  function MaxId(l: seq<Blog>): (m: int)
    ensures m >= 0
    ensures forall k :: 0 <= k < |l| ==> l[k].id <= m
    ensures m == 0 || HasId(l, m)
  {
    if |l| == 0 then 0
    else
      var rest := MaxId(l[1..]);
      assert forall k :: 1 <= k < |l| ==> l[k] == l[1..][k - 1];
      if l[0].id > rest then l[0].id else rest
  }

  /** The id a local create assigns: one past the largest id, and 1 for an
      empty list. It exceeds every stored id and is the least such number
      that is at least 1 and no larger than one past an existing id. */
  function NextId(l: seq<Blog>): (r: int)
    ensures r >= 1
    ensures forall k :: 0 <= k < |l| ==> l[k].id < r
    ensures r == 1 || HasId(l, r - 1)
    ensures |l| == 0 ==> r == 1
  {
    MaxId(l) + 1
  }

  /** The record a local create builds: the draft's fields, then the id, the date and the cover. */
  function NewBlog(d: Draft, id: int, now: Timestamp): (b: Blog)
    ensures b.id == id && b.date == now
    ensures b.coverImage != ""
    ensures d.coverImage != "" ==> b.coverImage == d.coverImage
    ensures d.coverImage == "" ==> b.coverImage == DefaultCover
    ensures b.title == d.title && b.category == d.category
    ensures b.description == d.description && b.content == d.content
  {
    Blog(id, d.title, d.category, d.description, now,
         if d.coverImage == "" then DefaultCover else d.coverImage,
         d.content)
  }

  /** Fallback list: the stored list sorted newest first; the slot is only
      written when it was empty and gets seeded. */
  function ListLocal(slot: Slot, seeds: seq<Blog>): (r: Reply<seq<Blog>>)
    ensures r.slot == LoadBlogs(slot, seeds).slot
    ensures slot.Some? ==> r.slot == slot
    ensures r.out.Success?
    ensures NewestFirst(r.out.value)
    ensures multiset(r.out.value) == multiset(LoadBlogs(slot, seeds).blogs)
  {
    var rd := LoadBlogs(slot, seeds);
    Reply(rd.slot, Success(SortNewestFirst(rd.blogs)))
  }

  /** Fallback get: the first stored record with the id, else "Blog not found". */
  function GetLocal(slot: Slot, seeds: seq<Blog>, id: int): (r: Reply<Blog>)
    ensures r.slot == LoadBlogs(slot, seeds).slot
    ensures slot.Some? ==> r.slot == slot
    ensures r.out.Failure? <==> !HasId(LoadBlogs(slot, seeds).blogs, id)
    ensures r.out.Failure? ==> r.out.error == BlogNotFound && Message(r.out.error) == "Blog not found"
    ensures r.out.Success? ==>
      exists i :: FirstIndexOf(LoadBlogs(slot, seeds).blogs, id, i)
               && LoadBlogs(slot, seeds).blogs[i] == r.out.value
  {
    var rd := LoadBlogs(slot, seeds);
    match FindIndex(rd.blogs, id)
    case Some(i) => Reply(rd.slot, Success(rd.blogs[i]))
    case None => Reply(rd.slot, Failure(BlogNotFound))
  }

  /** Fallback create: a fresh id above every stored one, the call's time as
      `date`, the default cover when the draft has none, and the new record
      put in front of the stored list. */
  function CreateLocal(slot: Slot, seeds: seq<Blog>, d: Draft, now: Timestamp): (r: Reply<Blog>)
    ensures r.out.Success?
    ensures r.slot == Some([r.out.value] + LoadBlogs(slot, seeds).blogs)
    ensures forall k :: 0 <= k < |LoadBlogs(slot, seeds).blogs| ==>
              LoadBlogs(slot, seeds).blogs[k].id < r.out.value.id
    ensures r.out.value.id >= 1
    ensures r.out.value.id == 1 || HasId(LoadBlogs(slot, seeds).blogs, r.out.value.id - 1)
    ensures r.out.value.date == now
    ensures r.out.value.coverImage != ""
    ensures d.coverImage != "" ==> r.out.value.coverImage == d.coverImage
    ensures d.coverImage == "" ==> r.out.value.coverImage == DefaultCover
    ensures r.out.value.title == d.title && r.out.value.content == d.content
    ensures r.out.value.category == d.category && r.out.value.description == d.description
  {
    var rd := LoadBlogs(slot, seeds);
    var b := NewBlog(d, NextId(rd.blogs), now);
    Reply(Some([b] + rd.blogs), Success(b))
  }

  /** Fallback update: the patch merged over the first record with the id,
      written back at that position; "Blog not found" without a write when
      there is no such record. */
  function UpdateLocal(slot: Slot, seeds: seq<Blog>, id: int, p: Patch): (r: Reply<Blog>)
    ensures r.out.Failure? <==> !HasId(LoadBlogs(slot, seeds).blogs, id)
    ensures r.out.Failure? ==>
      r.out.error == BlogNotFound && Message(r.out.error) == "Blog not found"
      && r.slot == LoadBlogs(slot, seeds).slot
    ensures r.out.Success? ==>
      r.slot.Some? &&
      exists i :: FirstIndexOf(LoadBlogs(slot, seeds).blogs, id, i)
               && r.out.value == Merge(LoadBlogs(slot, seeds).blogs[i], p)
               && ReplacedAt(LoadBlogs(slot, seeds).blogs, r.slot.value, i, r.out.value)
    ensures r.out.Success? ==> r.out.value in r.slot.value
  {
    var rd := LoadBlogs(slot, seeds);
    match FindIndex(rd.blogs, id)
    case None => Reply(rd.slot, Failure(BlogNotFound))
    case Some(i) =>
      var b := Merge(rd.blogs[i], p);
      Reply(Some(rd.blogs[i := b]), Success(b))
  }

  /** The records of `l` whose id is not `id`, in their order in `l`. */
  function Without(l: seq<Blog>, id: int): (r: seq<Blog>)
    ensures forall k :: 0 <= k < |r| ==> r[k].id != id
    ensures forall b :: b in r <==> b in l && b.id != id
    ensures !HasId(l, id) ==> r == l
    ensures HasId(l, id) ==> |r| < |l|
  {
    if |l| == 0 then []
    else
      assert forall k :: 1 <= k < |l| ==> l[k] == l[1..][k - 1];
      assert l == [l[0]] + l[1..];
      if l[0].id == id then Without(l[1..], id)
      else [l[0]] + Without(l[1..], id)
  }

  /** Fallback delete: the stored list without the id, always written back;
      an absent id changes nothing and is not an error. */
  function DeleteLocal(slot: Slot, seeds: seq<Blog>, id: int): (r: Reply<()>)
    ensures r.out == Success(())
    ensures r.slot == Some(Without(LoadBlogs(slot, seeds).blogs, id))
    ensures !HasId(LoadBlogs(slot, seeds).blogs, id) ==> r.slot == LoadBlogs(slot, seeds).slot
    ensures !HasId(r.slot.value, id)
  {
    var rd := LoadBlogs(slot, seeds);
    Reply(Some(Without(rd.blogs, id)), Success(()))
  }
}
