/**
 * The exported blog API: every call tries the remote endpoint first and
 * falls back to the local store when the remote call rejects. For the list
 * call a response body that is not an array counts as a rejection too. The
 * remote outcome is an input; the remote never touches the storage slot.
 */
module Api {
  import opened Wrappers
  import opened Blogs
  import opened DateSort
  import opened LocalStore
  import opened StoreLaws

  /** How a remote call settled: resolved with a response body, or rejected
      (network failure, non-2xx status, anything else). */
  datatype Remote<T> = RemoteOk(data: T) | RemoteFail

  /** The body of a remote list response: an array of records, or any other value. */
  datatype ListBody = ArrayBody(blogs: seq<Blog>) | OtherBody

  /** List: an array body is returned verbatim; otherwise the local list,
      newest first. */
  function FetchBlogs(remote: Remote<ListBody>, slot: Slot, seeds: seq<Blog>): (r: Reply<seq<Blog>>)
    ensures r.out.Success?
    ensures remote.RemoteOk? && remote.data.ArrayBody? ==>
              r.slot == slot && r.out.value == remote.data.blogs
    ensures remote.RemoteFail? || remote.data.OtherBody? ==>
              && r.slot == LoadBlogs(slot, seeds).slot
              && NewestFirst(r.out.value)
              && multiset(r.out.value) == multiset(LoadBlogs(slot, seeds).blogs)
  {
    match remote
    case RemoteOk(ArrayBody(bs)) => Reply(slot, Success(bs))
    case _ => ListLocal(slot, seeds)
  }

  /** Get by id: the remote body, or the first local record with the id. */
  function FetchBlogById(remote: Remote<Blog>, slot: Slot, seeds: seq<Blog>, id: int): (r: Reply<Blog>)
    ensures remote.RemoteOk? ==> r.slot == slot && r.out == Success(remote.data)
    ensures remote.RemoteFail? ==>
              && r.slot == LoadBlogs(slot, seeds).slot
              && (r.out.Failure? <==> !HasId(LoadBlogs(slot, seeds).blogs, id))
              && (r.out.Failure? ==> r.out.error == BlogNotFound)
              && (r.out.Success? ==>
                    exists i :: FirstIndexOf(LoadBlogs(slot, seeds).blogs, id, i)
                             && LoadBlogs(slot, seeds).blogs[i] == r.out.value)
  {
    match remote
    case RemoteOk(b) => Reply(slot, Success(b))
    case RemoteFail => GetLocal(slot, seeds, id)
  }

  /** Create: the remote body, or a new local record put first in the store. */
  function CreateBlog(remote: Remote<Blog>, slot: Slot, seeds: seq<Blog>, d: Draft, now: Timestamp): (r: Reply<Blog>)
    ensures r.out.Success?
    ensures remote.RemoteOk? ==> r.slot == slot && r.out.value == remote.data
    ensures remote.RemoteFail? ==>
              && r.slot == Some([r.out.value] + LoadBlogs(slot, seeds).blogs)
              && !HasId(LoadBlogs(slot, seeds).blogs, r.out.value.id)
              && r.out.value.id == NextId(LoadBlogs(slot, seeds).blogs)
              && r.out.value == NewBlog(d, r.out.value.id, now)
  {
    match remote
    case RemoteOk(b) => Reply(slot, Success(b))
    case RemoteFail => CreateLocal(slot, seeds, d, now)
  }

  /** Update: the remote body, or the local record merged with the patch. */
  function UpdateBlog(remote: Remote<Blog>, slot: Slot, seeds: seq<Blog>, id: int, p: Patch): (r: Reply<Blog>)
    ensures remote.RemoteOk? ==> r.slot == slot && r.out == Success(remote.data)
    ensures remote.RemoteFail? ==>
              && (r.out.Failure? <==> !HasId(LoadBlogs(slot, seeds).blogs, id))
              && (r.out.Failure? ==> r.out.error == BlogNotFound && r.slot == LoadBlogs(slot, seeds).slot)
              && (r.out.Success? ==>
                    r.slot.Some? &&
                    exists i :: FirstIndexOf(LoadBlogs(slot, seeds).blogs, id, i)
                             && r.out.value == Merge(LoadBlogs(slot, seeds).blogs[i], p)
                             && ReplacedAt(LoadBlogs(slot, seeds).blogs, r.slot.value, i, r.out.value))
  {
    match remote
    case RemoteOk(b) => Reply(slot, Success(b))
    case RemoteFail =>
      UpdateLocal(slot, seeds, id, p)
  }

  /** Delete: nothing local when the remote succeeds; otherwise the id is
      removed from the local store. Neither path is an error. */
  function DeleteBlog(remote: Remote<()>, slot: Slot, seeds: seq<Blog>, id: int): (r: Reply<()>)
    ensures r.out == Success(())
    ensures remote.RemoteOk? ==> r.slot == slot
    ensures remote.RemoteFail? ==>
              && r.slot == Some(Without(LoadBlogs(slot, seeds).blogs, id))
              && !HasId(r.slot.value, id)
              && (forall b :: b in r.slot.value <==> b in LoadBlogs(slot, seeds).blogs && b.id != id)
  {
    match remote
    case RemoteOk(_) => Reply(slot, Success(()))
    case RemoteFail => DeleteLocal(slot, seeds, id)
  }

  /** One call of the API together with how its remote attempt settles. */
  datatype Request =
    | List(listRemote: Remote<ListBody>)
    | Get(blogRemote: Remote<Blog>, id: int)
    | Create(blogRemote: Remote<Blog>, draft: Draft, now: Timestamp)
    | Update(blogRemote: Remote<Blog>, id: int, patch: Patch)
    | Delete(unitRemote: Remote<()>, id: int)

  /** The storage slot after handling one request. */
  function SlotAfter(req: Request, slot: Slot, seeds: seq<Blog>): Slot {
    match req
    case List(rm) => FetchBlogs(rm, slot, seeds).slot
    case Get(rm, id) => FetchBlogById(rm, slot, seeds, id).slot
    case Create(rm, d, now) => CreateBlog(rm, slot, seeds, d, now).slot
    case Update(rm, id, p) => UpdateBlog(rm, slot, seeds, id, p).slot
    case Delete(rm, id) => DeleteBlog(rm, slot, seeds, id).slot
  }

  /** The storage slot after handling the requests one at a time, in order. */
  function Run(reqs: seq<Request>, slot: Slot, seeds: seq<Blog>): Slot
    decreases |reqs|
  {
    if |reqs| == 0 then slot
    else Run(reqs[1..], SlotAfter(reqs[0], slot, seeds), seeds)
  }

  /** An update request whose patch leaves the id alone (or any other request). */
  predicate KeepsOwnId(req: Request) {
    req.Update? ==> req.patch.id.None? || req.patch.id == Some(req.id)
  }

  /** An empty slot, or a stored list with unique ids. */
  ghost predicate SlotIdsUnique(slot: Slot) {
    slot.None? || UniqueIds(slot.value)
  }

  /** The list a fallback reads has unique ids whenever the slot and the seed list do. */
  lemma LoadKeepsIdsUnique(slot: Slot, seeds: seq<Blog>)
    requires SlotIdsUnique(slot)
    requires UniqueIds(seeds)
    ensures UniqueIds(LoadBlogs(slot, seeds).blogs)
    ensures SlotIdsUnique(LoadBlogs(slot, seeds).slot)
  {
  }

  /** A read-only request writes at most the seeds, which have unique ids. */
  lemma ReadKeepsIdsUnique(req: Request, slot: Slot, seeds: seq<Blog>)
    requires SlotIdsUnique(slot)
    requires UniqueIds(seeds)
    requires req.List? || req.Get?
    ensures SlotIdsUnique(SlotAfter(req, slot, seeds))
  {
  }

  /** A create request keeps ids unique. */
  lemma CreateRequestKeepsIdsUnique(rm: Remote<Blog>, slot: Slot, seeds: seq<Blog>, d: Draft, now: Timestamp)
    requires SlotIdsUnique(slot)
    requires UniqueIds(seeds)
    ensures SlotIdsUnique(CreateBlog(rm, slot, seeds, d, now).slot)
  {
  }

  /** An update request whose patch keeps the target id keeps ids unique. */
  lemma UpdateRequestKeepsIdsUnique(rm: Remote<Blog>, slot: Slot, seeds: seq<Blog>, id: int, p: Patch)
    requires SlotIdsUnique(slot)
    requires UniqueIds(seeds)
    requires p.id.None? || p.id == Some(id)
    ensures SlotIdsUnique(UpdateBlog(rm, slot, seeds, id, p).slot)
  {
  }

  /** A delete request keeps ids unique. */
  lemma DeleteRequestKeepsIdsUnique(rm: Remote<()>, slot: Slot, seeds: seq<Blog>, id: int)
    requires SlotIdsUnique(slot)
    requires UniqueIds(seeds)
    ensures SlotIdsUnique(DeleteBlog(rm, slot, seeds, id).slot)
  {
    if rm.RemoteFail? {
      LoadKeepsIdsUnique(slot, seeds);
      DeleteKeepsIdsUnique(slot, seeds, id);
    }
  }

  /** Handling one request keeps ids unique, provided an update's patch does
      not carry a different id. */
  lemma StepKeepsIdsUnique(req: Request, slot: Slot, seeds: seq<Blog>)
    requires SlotIdsUnique(slot)
    requires UniqueIds(seeds)
    requires KeepsOwnId(req)
    ensures SlotIdsUnique(SlotAfter(req, slot, seeds))
  {
    match req
    case List(_) => ReadKeepsIdsUnique(req, slot, seeds);
    case Get(_, _) => ReadKeepsIdsUnique(req, slot, seeds);
    case Create(rm, d, now) => CreateRequestKeepsIdsUnique(rm, slot, seeds, d, now);
    case Update(rm, id, p) => UpdateRequestKeepsIdsUnique(rm, slot, seeds, id, p);
    case Delete(rm, id) => DeleteRequestKeepsIdsUnique(rm, slot, seeds, id);
  }

  /** Any sequence of requests whose updates keep their ids leaves ids unique. */
  lemma {:induction false} RunKeepsIdsUnique(reqs: seq<Request>, slot: Slot, seeds: seq<Blog>)
    requires SlotIdsUnique(slot)
    requires UniqueIds(seeds)
    requires forall k :: 0 <= k < |reqs| ==> KeepsOwnId(reqs[k])
    ensures SlotIdsUnique(Run(reqs, slot, seeds))
  {
    if |reqs| > 0 {
      StepKeepsIdsUnique(reqs[0], slot, seeds);
      RunKeepsIdsUnique(reqs[1..], SlotAfter(reqs[0], slot, seeds), seeds);
    }
  }

  /** Requests that the remote answers never touch the storage slot. */
  lemma {:induction false} RemoteAnswersLeaveSlot(reqs: seq<Request>, slot: Slot, seeds: seq<Blog>)
    requires forall k :: 0 <= k < |reqs| ==> RemoteAnswers(reqs[k])
    ensures Run(reqs, slot, seeds) == slot
  {
    if |reqs| > 0 {
      RemoteAnswersLeaveSlot(reqs[1..], slot, seeds);
    }
  }

  /** The remote attempt of `req` succeeds with a usable body. */
  predicate RemoteAnswers(req: Request) {
    match req
    case List(rm) => rm.RemoteOk? && rm.data.ArrayBody?
    case Get(rm, _) => rm.RemoteOk?
    case Create(rm, _, _) => rm.RemoteOk?
    case Update(rm, _, _) => rm.RemoteOk?
    case Delete(rm, _) => rm.RemoteOk?
  }
}
