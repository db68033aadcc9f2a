/** The home page's resort search: one box matched against name or location. */
module Home {
  import opened Text
  import opened Seqs

  datatype Resort = Resort(id: nat, name: string, location: string)

  /** The `resorts` list; image links are not part of this model. */
  const Resorts := [
    Resort(1, "Phoenix Pyeongchang", "Gangwon"),
    Resort(2, "Seorak Sorano", "Gangwon"),
    Resort(3, "Jeju Pinnacle", "Jeju"),
    Resort(4, "Geoje Marina", "Gyeongsang"),
    Resort(5, "Yangpyeong Valley", "Gyeonggi"),
    Resort(6, "Baegam Lake", "Gyeonggi")
  ]

  predicate Matches(r: Resort, query: string) {
    Contains(ToLower(r.name), ToLower(query)) || Contains(ToLower(r.location), ToLower(query))
  }

  /** `filteredResorts`. */
  function FilteredResorts(resorts: seq<Resort>, query: string): (r: seq<Resort>)
    ensures IsSubsequence(r, resorts)
    ensures forall i :: 0 <= i < |r| ==> Matches(r[i], query)
    ensures forall i :: 0 <= i < |resorts| && !(resorts[i] in r) ==> !Matches(resorts[i], query)
  {
    Filter(resorts, (x: Resort) => Matches(x, query))
  }

  /** An empty search shows all six resorts. */
  lemma EverythingByDefault()
    ensures FilteredResorts(Resorts, "") == Resorts
    ensures |FilteredResorts(Resorts, "")| == 6
  {
    forall x: Resort
      ensures Matches(x, "")
    {
      ContainsEmpty(ToLower(x.name));
    }
    FilterKeepsAll(Resorts, (x: Resort) => Matches(x, ""));
  }

  /** A query that contains the previous one never shows more: its results
      are a subsequence of the previous results. */
  lemma NarrowerQueryNarrowsResults(resorts: seq<Resort>, query: string, narrower: string)
    requires Contains(narrower, query)
    ensures IsSubsequence(FilteredResorts(resorts, narrower), FilteredResorts(resorts, query))
  {
    ContainsLower(narrower, query);
    forall x: Resort | Matches(x, narrower)
      ensures Matches(x, query)
    {
      if Contains(ToLower(x.name), ToLower(narrower)) {
        ContainsTransitive(ToLower(x.name), ToLower(narrower), ToLower(query));
      } else {
        ContainsTransitive(ToLower(x.location), ToLower(narrower), ToLower(query));
      }
    }
    FilterMonotone(resorts, (x: Resort) => Matches(x, narrower), (x: Resort) => Matches(x, query));
  }

  /** Typing more characters at the end of the search box never adds results. */
  lemma TypingMoreNarrows(resorts: seq<Resort>, query: string, more: string)
    ensures IsSubsequence(FilteredResorts(resorts, query + more), FilteredResorts(resorts, query))
  {
    ContainsPiece("", query, more);
    assert "" + query + more == query + more;
    NarrowerQueryNarrowsResults(resorts, query, query + more);
  }
}
