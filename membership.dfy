/** The membership card page: a keyed lookup of the route's membership id in
    a fixed table, with a "not found" page for every other key. */
module Membership {
  import opened Wrappers

  datatype Benefit = Benefit(id: nat, title: string, description: string)

  datatype MembershipRecord = MembershipRecord(
    id: string, name: string, kind: string, startDate: string, endDate: string,
    status: string, benefits: seq<Benefit>)

  /** The six benefits both sample memberships carry. */
  const Benefits := [
    Benefit(1, "전용 체크인/체크아웃", "VIP 전용 카운터에서 신속한 체크인/체크아웃 서비스를 제공합니다."),
    Benefit(2, "프리미엄 라운지 이용", "24시간 운영되는 프리미엄 라운지에서 음료와 스낵을 무료로 이용하실 수 있습니다."),
    Benefit(3, "스파 무료 이용", "월 2회 스파 트리트먼트를 무료로 이용하실 수 있습니다."),
    Benefit(4, "발렛 파킹 서비스", "무료 발렛 파킹 서비스를 제공해 드립니다."),
    Benefit(5, "조식 무료 제공", "투숙 시 최대 4인까지 조식이 무료로 제공됩니다."),
    Benefit(6, "미니바 무료", "객실 내 미니바를 무료로 이용하실 수 있습니다.")
  ]

  /** `membershipsData`. */
  const MembershipsData: map<string, MembershipRecord> := map[
    "M1234567" := MembershipRecord("M1234567", "김한화", "Premium", "2024-03-20", "2034-03-19", "active", Benefits),
    "1" := MembershipRecord("1", "이한화", "Premium", "2024-03-21", "2034-03-20", "active", Benefits)
  ]

  /** Every record is filed under its own id. */
  lemma RecordsFiledUnderTheirIds()
    ensures forall k :: k in MembershipsData ==> MembershipsData[k].id == k
    ensures MembershipsData.Keys == {"M1234567", "1"}
  {
  }

  datatype LookupResult = Found(record: MembershipRecord) | NotFound

  /** `membershipId || ''`: an absent or empty route parameter becomes the empty key. */
  function RouteKey(membershipId: Option<string>): (k: string)
    ensures membershipId.Some? && membershipId.value != "" ==> k == membershipId.value
    ensures k == "" <==> membershipId.None? || membershipId.value == ""
  {
    membershipId.GetOr("")
  }

  /** `membershipsData[membershipId || ''] || null`. */
  function Lookup(membershipId: Option<string>): (r: LookupResult)
    ensures r.Found? <==> RouteKey(membershipId) in MembershipsData
    ensures r.Found? ==> r.record.id == RouteKey(membershipId)
  {
    RecordsFiledUnderTheirIds();
    var key := RouteKey(membershipId);
    if key in MembershipsData then Found(MembershipsData[key]) else NotFound
  }

  /** The two sample ids resolve to their own records; `UNKNOWN`, the empty
      id and a missing parameter reach the not-found page. */
  lemma LookupExamples()
    ensures Lookup(Some("M1234567")).Found? && Lookup(Some("M1234567")).record.name == "김한화"
    ensures Lookup(Some("1")).Found? && Lookup(Some("1")).record.id == "1"
    ensures Lookup(Some("UNKNOWN")) == NotFound
    ensures Lookup(Some("")) == NotFound
    ensures Lookup(None) == NotFound
  {
  }
}
