/**
 * The blog record, the draft a create call receives, the partial record an
 * update call merges, and the two records the local store is seeded with.
 */
module Blogs {
  import opened Wrappers

  /** Milliseconds since the epoch, the value `Date.getTime()` yields for a record's date. */
  type Timestamp = int

  /** One persisted blog post; every field is always present. */
  datatype Blog = Blog(
    id: int,
    title: string,
    category: seq<string>,
    description: string,
    date: Timestamp,
    coverImage: string,
    content: string
  )

  /** What a create call receives: a record without `id` and `date`. An empty
      `coverImage` stands for a missing or empty one (both are falsy). */
  datatype Draft = Draft(
    title: string,
    category: seq<string>,
    description: string,
    coverImage: string,
    content: string
  )

  /** A partial record: `Some` for every key the caller supplied. */
  datatype Patch = Patch(
    id: Option<int>,
    title: Option<string>,
    category: Option<seq<string>>,
    description: Option<string>,
    date: Option<Timestamp>,
    coverImage: Option<string>,
    content: Option<string>
  )

  /** The patch that supplies nothing. */
  const EmptyPatch: Patch := Patch(None, None, None, None, None, None, None)

  /** The patch that supplies every field of `b`, which is what the edit
      dialog sends: the whole record being edited. */
  function FullPatch(b: Blog): Patch {
    Patch(Some(b.id), Some(b.title), Some(b.category), Some(b.description),
          Some(b.date), Some(b.coverImage), Some(b.content))
  }

  /** Object spread `{ ...b, ...p }`: every supplied key of `p` overrides `b`,
      and every key `p` does not supply keeps `b`'s value. */
  function Merge(b: Blog, p: Patch): (r: Blog)
    ensures p.id.Some? ==> r.id == p.id.value
    ensures p.id.None? ==> r.id == b.id
    ensures p.title.Some? ==> r.title == p.title.value
    ensures p.title.None? ==> r.title == b.title
    ensures p.category.Some? ==> r.category == p.category.value
    ensures p.category.None? ==> r.category == b.category
    ensures p.description.Some? ==> r.description == p.description.value
    ensures p.description.None? ==> r.description == b.description
    ensures p.date.Some? ==> r.date == p.date.value
    ensures p.date.None? ==> r.date == b.date
    ensures p.coverImage.Some? ==> r.coverImage == p.coverImage.value
    ensures p.coverImage.None? ==> r.coverImage == b.coverImage
    ensures p.content.Some? ==> r.content == p.content.value
    ensures p.content.None? ==> r.content == b.content
  {
    Blog(
      p.id.GetOr(b.id),
      p.title.GetOr(b.title),
      p.category.GetOr(b.category),
      p.description.GetOr(b.description),
      p.date.GetOr(b.date),
      p.coverImage.GetOr(b.coverImage),
      p.content.GetOr(b.content)
    )
  }

  /** Merging nothing leaves the record as it was. */
  lemma MergeEmptyIsIdentity(b: Blog)
    ensures Merge(b, EmptyPatch) == b
  {
  }

  /** Merging the whole of `x` over any record yields `x`: the edit dialog's
      update writes exactly the record it shows. */
  lemma MergeFullPatch(b: Blog, x: Blog)
    ensures Merge(b, FullPatch(x)) == x
  {
  }

  /** Merging the same patch twice changes nothing more than merging it once. */
  lemma MergeIdempotent(b: Blog, p: Patch)
    ensures Merge(Merge(b, p), p) == Merge(b, p)
  {
  }

  /** No two records of `l` share an id. */
  ghost predicate UniqueIds(l: seq<Blog>) {
    forall i, j :: 0 <= i < j < |l| ==> l[i].id != l[j].id
  }

  /** Some record of `l` has id `id`. */
  predicate HasId(l: seq<Blog>, id: int) {
    exists i :: 0 <= i < |l| && l[i].id == id
  }

  /** One day, in milliseconds. */
  const DayMillis: int := 86400000

  const SeedCover1: string := "https://images.unsplash.com/photo-1551288049-bebda4e38f71?auto=format&fit=crop&q=80&w=1200"
  const SeedContent1: string :=
  "The intersection of finance and technology, often referred to as Fintech, is currently undergoing a massive transformation. Artificial Intelligence (AI) is personalizing banking experiences, while Blockchain technology is securing transactions and reducing costs.\n\nIn this blog, we delve deep into the core shifts that will define the next decade of financial interaction. From decentralized finance (DeFi) to the integration of machine learning in risk assessment, the landscape is shifting from traditional legacy systems to agile, cloud-native solutions."
  const SeedContent2: string :=
  "Remote work is no longer just a perk; it's a fundamental shift in how we approach our professional lives. From digital nomads in Bali to suburban parents, the flexibility of distributed work is changing urban landscapes and corporate cultures alike.\n\nCompanies that embrace asynchronous communication and outcome-based performance tracking are finding themselves at a significant advantage in the global talent war."
  const SeedCover2: string := "https://images.unsplash.com/photo-1522202176988-66273c2fd55f?auto=format&fit=crop&q=80&w=1200"

  /** The first seed record, dated one day before the module was loaded. */
  function Seed1(loaded: Timestamp): (b: Blog)
    ensures b.id == 1 && b.date == loaded - DayMillis
  {
    Blog(
      1,
      "Future of Fintech",
      ["FINANCE", "TECH"],
      "Exploring how AI and blockchain are reshaping financial services",
      loaded - DayMillis,
      SeedCover1,
      SeedContent1
    )
  }

  /** The second seed record, dated two days before the module was loaded. */
  function Seed2(loaded: Timestamp): (b: Blog)
    ensures b.id == 2 && b.date == loaded - 2 * DayMillis
  {
    Blog(
      2,
      "The Rise of Remote Work",
      ["WORK", "LIFESTYLE"],
      "How the pandemic accelerated the shift to distributed teams",
      loaded - 2 * DayMillis,
      SeedCover2,
      SeedContent2
    )
  }

  /** The shape of the seed list: two records, id 1 then id 2, the first
      strictly newer than the second. */
  predicate SeedShape(seeds: seq<Blog>) {
    |seeds| == 2 && seeds[0].id == 1 && seeds[1].id == 2 && seeds[0].date > seeds[1].date
  }

  /** The list an empty store is seeded with. `loaded` is the clock reading
      when the module was evaluated, not the time of the call. */
  function Seeds(loaded: Timestamp): (r: seq<Blog>)
    ensures SeedShape(r)
    ensures UniqueIds(r)
    ensures r[0].date == loaded - DayMillis && r[1].date == loaded - 2 * DayMillis
  {
    [Seed1(loaded), Seed2(loaded)]
  }
}
