/** The map page's location list: a region filter and a name/address search
    over the golf and resort locations, and the highlight of the selected one. */
module MapView {
  import opened Wrappers
  import opened Text
  import opened Seqs

  datatype LocationKind = Resort | Golf

  /** A location; its coordinates and image, which only place and decorate
      the marker, are not part of this model. */
  datatype Location = Location(id: nat, name: string, kind: LocationKind, description: string,
                               address: string, region: string)

  /** The `locations` table. */
  const Locations := [
    Location(1, "Phoenix Pyeongchang", Resort, "평창 피닉스파크는 스키와 골프를 모두 즐길 수 있는 사계절 종합 리조트입니다.", "강원도 평창군 봉평면 태기로 174", "강원"),
    Location(2, "Seorak Sorano", Resort, "설악 소라노는 동해의 아름다운 전망과 함께하는 프리미엄 리조트입니다.", "강원도 속초시 대포항길 186", "강원"),
    Location(3, "Jeju Pinnacle", Resort, "제주 피너클은 한라산과 서귀포 바다를 모두 조망할 수 있는 럭셔리 리조트입니다.", "제주특별자치도 서귀포시 중문관광로 72번길", "제주"),
    Location(4, "Geoje Marina", Resort, "거제 마리나는 남해의 절경과 요트 체험을 함께 즐길 수 있는 해양 리조트입니다.", "경상남도 거제시 장목면 마리나길 123", "경상"),
    Location(5, "Yangpyeong Valley", Golf, "양평 밸리는 수도권 최고의 자연 경관을 자랑하는 프리미엄 골프 리조트입니다.", "경기도 양평군 옥천면 골프장길 227", "경기"),
    Location(6, "Baegam Lake", Golf, "백암 레이크는 자연 친화적 설계와 최고급 시설을 갖춘 골프 클럽입니다.", "경기도 용인시 처인구 백암면 고안로 223", "경기")
  ]

  /** The filter's predicate: the region selector, then the search box
      against name or address. */
  predicate Matches(l: Location, region: string, query: string) {
    && (region == "all" || l.region == region)
    && (Contains(ToLower(l.name), ToLower(query)) || Contains(ToLower(l.address), ToLower(query)))
  }

  /** `filteredLocations`. */
  function FilteredLocations(locs: seq<Location>, region: string, query: string): (r: seq<Location>)
    ensures IsSubsequence(r, locs)
    ensures forall i :: 0 <= i < |r| ==> Matches(r[i], region, query)
    ensures forall i :: 0 <= i < |locs| && Matches(locs[i], region, query) ==> locs[i] in r
    ensures region != "all" ==> forall i :: 0 <= i < |r| ==> r[i].region == region
  {
    Filter(locs, (l: Location) => Matches(l, region, query))
  }

  /** All regions with an empty search shows every location. */
  lemma EverythingByDefault(locs: seq<Location>)
    ensures FilteredLocations(locs, "all", "") == locs
  {
    forall l: Location
      ensures Matches(l, "all", "")
    {
      ContainsEmpty(ToLower(l.name));
    }
    FilterKeepsAll(locs, (l: Location) => Matches(l, "all", ""));
  }

  /** The search never reads the description. */
  lemma SearchIgnoresDescription(l: Location, description: string, region: string, query: string)
    ensures Matches(l.(description := description), region, query) == Matches(l, region, query)
  {
  }

  /** A marker or card is highlighted when its id is the selected location's. */
  predicate IsHighlighted(selected: Option<Location>, l: Location) {
    selected.Some? && selected.value.id == l.id
  }

  /** Location ids are distinct, so among the table's locations exactly the
      selected one is highlighted, and none before a selection. */
  lemma HighlightIsTheSelection(selected: Location, l: Location)
    requires selected in Locations && l in Locations
    ensures IsHighlighted(Some(selected), l) <==> l == selected
    ensures !IsHighlighted(None, l)
  {
  }
}
