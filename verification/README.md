# Blog store: the local fallback of the blog API

A Dafny model of the data-access layer of a single-page blog front-end
(`api.ts`). Each exported call (list, get by id, create, update, delete)
first tries a REST endpoint; when that call rejects, it runs a
read-modify-write over a list of `Blog` records kept in one local storage
slot. On first use, an empty slot is seeded with two example records.

The model is functional. The storage slot is an `Option<seq<Blog>>`. Every
operation is a pure function from the slot, plus its inputs, to a `Reply`,
which pairs the slot after the call with a `Result` that either resolves
with a value or rejects with `BlogNotFound` ("Blog not found"). The remote
attempt is an input, `RemoteOk(body) | RemoteFail`. Dates are integer
millisecond timestamps: the source compares `getTime()` values of the
stored ISO strings, and those strings have millisecond precision. The
current time is a parameter `now`. The seed list is evaluated once, when
the module is loaded, so its dates depend on the load time `loaded` rather
than on the time of the call. Every fallback operation therefore takes the
evaluated seed list as a parameter `seeds`, whose value is
`Blogs.Seeds(loaded)`. The laws that need particular seeds require only
`SeedShape`: the list holds two records, id 1 then id 2, and the first is
strictly newer. `Blogs.Seeds` proves that the real seeds have this shape.

Files:
- `wrappers.dfy`: `Option` and `Result`.
- `blogs.dfy`: the record, the create draft, the update patch, the
  shallow merge, and the seed records.
- `date_sort.dfy`: the list view's order, which is newest first and stable.
- `local_store.dfy`: lazy seeding and the five fallback operations.
- `store_laws.dfy`: laws relating several operations.
- `api.dfy`: the remote-first dispatch of each call, and id uniqueness
  across any sequence of calls.

Modelling choices:
- The update patch keeps the `id` field, because the source merges a
  `Partial<Blog>` and the edit dialog sends the whole record, id included
  (App.tsx:72-75). `UpdateLocal` takes any patch, just as the source does.
  The uniqueness lemmas require that the patch's id is absent or equal to
  the target id. `StoreLaws.UpdateWithForeignIdDuplicatesIds` shows that
  any other id can duplicate ids.
- A draft's `coverImage` of `""` stands for "none given". A missing cover
  and an empty one are both falsy in the source, and both get the default
  cover.
- A slot holding an empty list is not re-seeded. The stored text `[]` is a
  non-empty string, so the source's truthiness test passes for it.
- The source's in-place `sort` is stable, so the list view keeps records
  with equal dates in their stored order. `DateSort.SortIsStable` proves
  this.

Two consequences of the code that a reader might not expect:
- Ids can be reused. Create assigns one past the largest id, so deleting
  the record with the largest id frees that id for the next create
  (`StoreLaws.IdReusedAfterDeletingLargestId`).
- An update can change `date`. The merge overrides every supplied field,
  `date` included.

## Model

| member | source | states |
|---|---|---|
| Blogs.Seed1 | api.ts:12-20 | the first seed has id 1 and is dated one day before load time |
| Blogs.Seed2 | api.ts:21-29 | the second seed has id 2 and is dated two days before load time |
| Blogs.Seeds | api.ts:11-30 | the seed list has two records, ids 1 then 2, with unique ids, dated one and two days before load time, so the first is newer |
| Blogs.Merge | api.ts:95 | each field the patch supplies takes the supplied value; each field it does not supply keeps the record's value |
| Blogs.MergeEmptyIsIdentity | api.ts:95 | spreading a patch with no keys over a record leaves the record unchanged |
| Blogs.MergeFullPatch | api.ts:95 | merging a patch that carries every field of `x` yields exactly `x`, whatever record it was merged over |
| Blogs.MergeIdempotent | api.ts:95 | merging the same patch a second time changes nothing more |
| LocalStore.LoadBlogs | api.ts:32-37 | after the read, the slot holds exactly the list returned; a filled slot is returned as stored; an empty slot yields the seed list |
| LocalStore.FindIndex | api.ts:93 | returns the first position whose record has the id, and returns none exactly when no record has it |
| LocalStore.MaxId | api.ts:77 | the result is at least 0, no record's id exceeds it, and it is 0 or some record's id |
| LocalStore.NextId | api.ts:77 | the new id is at least 1 and above every stored id; it is 1 or one past an existing id; an empty list gives 1 |
| LocalStore.NewBlog | api.ts:75-80 | the new record carries the given id and `now` as its date, the draft's title, category, description and content, and the draft's cover if non-empty, else the default cover |
| LocalStore.ListLocal | api.ts:48-50 | the fallback list is a permutation of the stored list with non-increasing dates; the slot is unchanged unless it was empty and got seeded |
| LocalStore.GetLocal | api.ts:58-62 | rejects with not-found (message "Blog not found") exactly when no stored record has the id; otherwise returns the first stored record with that id; storage changes only by seeding |
| LocalStore.CreateLocal | api.ts:73-84 | the slot becomes the new record followed by the old list in order; its id is above every old id and is 1 or one past an existing id; its date is `now`; its cover is the draft's if non-empty and the default otherwise; the other fields come from the draft |
| LocalStore.UpdateLocal | api.ts:91-99 | rejects with not-found (message "Blog not found") and writes nothing beyond seeding exactly when the id is absent; otherwise only the first record with the id is replaced, by the merge of the patch over it, the length and all other positions stay as they were, and the returned record is the stored one |
| LocalStore.Without | api.ts:107 | no record with the id remains; a record is kept exactly when it was present and has another id; an absent id leaves the list equal; a present id shortens it |
| LocalStore.DeleteLocal | api.ts:105-109 | the slot becomes the stored list filtered by id; an absent id leaves the slot as read; the deleted id is gone; the call never rejects |
| DateSort.Insert | api.ts:50 | inserting into a newest-first list keeps it newest first and adds exactly the one record, which goes to the front when it is at least as new as the current head |
| DateSort.SortNewestFirst | api.ts:50 | the sorted list is a permutation of the input with non-increasing dates |
| DateSort.SortIsStable | api.ts:50 | for every date, the records carrying it keep their stored relative order after sorting |
| DateSort.SortKeepsSortedList | api.ts:50 | a list that is already newest first is returned unchanged |
| StoreLaws.FirstListShowsSeedsNewestFirst | api.ts:32-50 | for a seed list of the seed shape, the first list shows the seeds in their order, id 1 first, and the slot now holds them |
| StoreLaws.ListLocalIsStable | api.ts:50 | the fallback list keeps records with equal dates in their stored order |
| StoreLaws.ListLocalOfSortedStore | api.ts:50 | a stored list that is already newest first is shown exactly as stored |
| StoreLaws.CreateThenGet | api.ts:59-83 | after a fallback create, a fallback get of the new id returns the created record and writes nothing |
| StoreLaws.CreateKeepsIdsUnique | api.ts:77-81 | if stored ids were unique, they stay unique after a create |
| StoreLaws.UpdateThenGet | api.ts:59-98 | after an update of a present id whose patch keeps that id, a get of the id returns the merged record |
| StoreLaws.UpdateKeepsIdsUnique | api.ts:93-97 | an update whose patch keeps the target id preserves unique ids |
| StoreLaws.UpdateWithForeignIdDuplicatesIds | api.ts:95-96 | from a freshly seeded store, giving record 1 the id 2 succeeds and leaves two records with id 2 |
| StoreLaws.UpdateWithWholeRecord | api.ts:95-98 | updating with the whole record under its own id returns exactly that record |
| StoreLaws.DeleteThenGetFails | api.ts:59-108 | after a fallback delete of an id, a fallback get of that id rejects with not-found |
| StoreLaws.WithoutConcat | api.ts:107 | filtering a concatenation filters each part, so the kept records stay in their relative order |
| StoreLaws.WithoutKeepsIdsUnique | api.ts:107 | filtering preserves unique ids |
| StoreLaws.DeleteKeepsIdsUnique | api.ts:106-108 | a delete preserves unique ids |
| StoreLaws.IdReusedAfterDeletingLargestId | api.ts:77-107 | after seeding and deleting id 2, the record with the largest id, the next create is given id 2 again |
| StoreLaws.CreateThenListFromFreshStore | api.ts:32-82 | from an empty slot, a create dated no earlier than the newer seed gets id 3, and the list then shows the new record, then seed 1, then seed 2 |
| Api.FetchBlogs | api.ts:39-52 | an array response is returned verbatim and storage is untouched; a rejection or a non-array body gives the local newest-first permutation |
| Api.FetchBlogById | api.ts:54-64 | a remote body is returned as is; on rejection, the slot changes only by seeding, the result is not-found exactly when the id is absent locally, and otherwise the first stored record with the id |
| Api.CreateBlog | api.ts:66-85 | a remote body is returned as is; on rejection, the new record is put first before the old list in order; its id is one past the largest stored id (1 for none), so no stored record has it; it is dated `now`, takes the draft's fields, and gets the default cover when the draft has none |
| Api.UpdateBlog | api.ts:87-100 | a remote body is returned as is; on rejection, the call fails with not-found exactly when the id is absent and then writes nothing beyond seeding; otherwise the first record with the id is replaced by the merge of the patch over it, every other position is kept, and the merged record is returned |
| Api.DeleteBlog | api.ts:102-110 | the call never rejects; on remote success storage is untouched; on rejection, the slot becomes the stored list filtered by id in its order, so exactly the records with other ids remain |
| Api.LoadKeepsIdsUnique | api.ts:32-37 | with seeds of unique ids, reading an empty slot or one with unique ids yields a list with unique ids |
| Api.ReadKeepsIdsUnique | api.ts:32-62 | a list or get call writes at most the seeds, so with seeds of unique ids, unique ids in the slot stay unique |
| Api.CreateRequestKeepsIdsUnique | api.ts:66-85 | a create call, answered remotely or not, keeps unique ids in the slot unique |
| Api.UpdateRequestKeepsIdsUnique | api.ts:87-100 | an update call whose patch keeps the target id keeps unique ids in the slot unique |
| Api.DeleteRequestKeepsIdsUnique | api.ts:102-110 | a delete call keeps unique ids in the slot unique |
| Api.StepKeepsIdsUnique | api.ts:39-110 | with seeds of unique ids, any one call whose patch, if it is an update, keeps its id preserves unique ids in the slot |
| Api.RunKeepsIdsUnique | api.ts:39-110 | with seeds of unique ids, any sequence of such calls, handled one at a time, preserves unique ids in the slot |
| Api.RemoteAnswersLeaveSlot | api.ts:39-104 | calls that the remote answers with a usable body never change the slot |

## Left out

- The HTTP client and the remote endpoint (api.ts:5-9) are reduced to a
  success-or-rejection input. The payload a remote create posts, the draft
  plus the current date, is not modelled, because the remote's answer is an
  input.
- Browser storage and JSON encoding are replaced by the `Option<seq<Blog>>`
  slot. The model does not cover a slot holding unparsable text or a value
  that is not an array, or a storage write that throws.
- The clock and ISO-8601 formatting are replaced by the `now` and `loaded`
  integer timestamps. Invalid dates, whose `getTime()` is NaN, are not
  modelled.
- Aliasing of the seed array is not modelled. On a read of an empty slot,
  the source hands out the module-level seed array itself, and the list
  sort and the update's element write then mutate that array in place. This
  only shows up if the slot is cleared by something outside this code
  afterwards. The model treats the seeds as values.
- Patch keys present with the value `undefined` are not modelled. Such a
  key would override a field with `undefined`. A patch field is either
  supplied or absent.
- LocalStore.NextId: `Math.max` over a spread of a very large array can
  throw a range error; the model computes the maximum for any length.
- LocalStore.NextId: ids are unbounded integers, but in the source they are
  double-precision numbers. From 2^53 upward, one past the largest id can
  round back to the largest id, and fractional ids are possible. The model's
  "above every stored id" therefore holds in the source only while every
  stored id is an integer below 2^53.
- Api.RunKeepsIdsUnique: for the same reason, id uniqueness across calls
  holds in the source only while every stored id is an integer below 2^53.
- The `console.warn` on the list fallback is left out.
- Concurrency is left out: two interleaved creates could both compute the
  same `max + 1`. The model handles one call at a time.
- The React components (App.tsx and components/) are presentation and query
  wiring and are left out. This includes the create form's non-blank
  title/content check, so create accepts any draft, just as `createBlog`
  does.
