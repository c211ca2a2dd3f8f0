/**
 * `populate_notification_pages.py`: seed the `NotificationPageMapping`
 * table with a fixed list of domains and their notification pages, using
 * `get_or_create` so that an existing mapping is never overwritten.
 */
module PopulatePages {
  import opened Stores

  /** One entry of the fixed list: a domain and the page to map it to. */
  datatype Seed = Seed(domain: string, pageUrl: string)

  /** `notification_mappings`. */
  const Seeds: seq<Seed> := [
    Seed("cusrinagar.edu.in", "https://www.cusrinagar.edu.in/Notification/" + "NotificationListPartial"),
    Seed("nta.ac.in", "https://www.nta.ac.in/NoticeBoardArchive"),
    Seed("jeemain.nta.nic.in", "https://jeemain.nta.nic.in/"),
    Seed("neet.nta.nic.in", "https://neet.nta.nic.in/")
  ]

  /** The table after `get_or_create` has run for each seed in order. */
  function Seeded(pages: map<string, string>, seeds: seq<Seed>): map<string, string> {
    if seeds == [] then pages
    else
      var before := Seeded(pages, seeds[..|seeds| - 1]);
      var s := seeds[|seeds| - 1];
      if s.domain in before then before else before[s.domain := s.pageUrl]
  }

  /** The seeds name pairwise different domains. */
  predicate DistinctDomains(seeds: seq<Seed>) {
    forall i, j :: 0 <= i < j < |seeds| ==> seeds[i].domain != seeds[j].domain
  }

  lemma SeedsAreDistinct()
    ensures DistinctDomains(Seeds)
  {
    assert |Seeds[0].domain| == 17 && |Seeds[1].domain| == 9 && |Seeds[2].domain| == 18 && |Seeds[3].domain| == 15;
  }

  /** `populate_mappings()`: one `get_or_create` per seed, reporting whether each created its mapping. */
  method PopulateMappings(mappings: PageMappings) returns (created: seq<bool>)
    modifies mappings
    ensures mappings.pages == Seeded(old(mappings.pages), Seeds)
    ensures |created| == |Seeds|
    ensures forall k :: 0 <= k < |Seeds| ==> (created[k] <==> Seeds[k].domain !in old(mappings.pages))
  {
    SeedsAreDistinct();
    created := [];
    var i := 0;
    while i < |Seeds|
      invariant 0 <= i <= |Seeds| && |created| == i
      invariant mappings.pages == Seeded(old(mappings.pages), Seeds[..i])
      invariant forall k :: 0 <= k < i ==> (created[k] <==> Seeds[k].domain !in old(mappings.pages))
    {
      var s := Seeds[i];
      assert Seeds[..i + 1][..i] == Seeds[..i];
      SeededKeys(old(mappings.pages), Seeds[..i], s.domain);
      var c := mappings.GetOrCreate(s.domain, s.pageUrl);
      created := created + [c];
      i := i + 1;
    }
    assert Seeds[..|Seeds|] == Seeds;
  }

  /**
   * The keys after seeding are the keys before plus the seeds' domains;
   * a key that was present keeps its value.
   */
  lemma {:induction false} SeededKeys(pages: map<string, string>, seeds: seq<Seed>, d: string)
    ensures d in Seeded(pages, seeds) <==> d in pages || exists k :: 0 <= k < |seeds| && seeds[k].domain == d
    ensures d in pages ==> Seeded(pages, seeds)[d] == pages[d]
    decreases |seeds|
  {
    if seeds != [] {
      var n := |seeds| - 1;
      SeededKeys(pages, seeds[..n], d);
      if exists k :: 0 <= k < n && seeds[..n][k].domain == d {
        var k :| 0 <= k < n && seeds[..n][k].domain == d;
        assert seeds[k].domain == d;
      }
      if exists k :: 0 <= k < |seeds| && seeds[k].domain == d {
        var k :| 0 <= k < |seeds| && seeds[k].domain == d;
        if k < n {
          assert seeds[..n][k].domain == d;
        }
      }
    }
  }

  /** After a run every seeded domain has a mapping, and an existing mapping is left as it was. */
  lemma SeedingCoversAndKeeps(pages: map<string, string>)
    ensures forall k :: 0 <= k < |Seeds| ==> Seeds[k].domain in Seeded(pages, Seeds)
    ensures forall d :: d in pages ==> d in Seeded(pages, Seeds) && Seeded(pages, Seeds)[d] == pages[d]
  {
    forall k | 0 <= k < |Seeds|
      ensures Seeds[k].domain in Seeded(pages, Seeds)
    {
      SeededKeys(pages, Seeds, Seeds[k].domain);
    }
    forall d | d in pages
      ensures d in Seeded(pages, Seeds) && Seeded(pages, Seeds)[d] == pages[d]
    {
      SeededKeys(pages, Seeds, d);
    }
  }

  /** A domain outside the list is untouched: present with the same page, or still absent. */
  lemma SeedingLeavesOthers(pages: map<string, string>, d: string)
    requires forall k :: 0 <= k < |Seeds| ==> Seeds[k].domain != d
    ensures d in Seeded(pages, Seeds) <==> d in pages
    ensures d in pages ==> Seeded(pages, Seeds)[d] == pages[d]
  {
    SeededKeys(pages, Seeds, d);
  }

  /** Once every seeded domain is mapped, seeding changes nothing. */
  lemma {:induction false} SeededOfCovered(pages: map<string, string>, seeds: seq<Seed>)
    requires forall k :: 0 <= k < |seeds| ==> seeds[k].domain in pages
    ensures Seeded(pages, seeds) == pages
    decreases |seeds|
  {
    if seeds != [] {
      var n := |seeds| - 1;
      SeededOfCovered(pages, seeds[..n]);
    }
  }

  /** A second run creates nothing and leaves the table as the first run left it. */
  lemma SeedingIsIdempotent(pages: map<string, string>)
    ensures Seeded(Seeded(pages, Seeds), Seeds) == Seeded(pages, Seeds)
    ensures forall k :: 0 <= k < |Seeds| ==> Seeds[k].domain in Seeded(pages, Seeds)
  {
    SeedingCoversAndKeeps(pages);
    SeededOfCovered(Seeded(pages, Seeds), Seeds);
  }
}
