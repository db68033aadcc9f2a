/** The status badge of both contract detail views: `statusLabels` and
    `statusColors`, identical in the staff and the customer view. */
module StatusDisplay {
  import opened ContractStore

  /** `statusLabels[s]`. */
  function StatusLabel(s: Status): (r: string)
    ensures r != ""
    ensures r == "계약최종완료" <==> s == Completed
  {
    match s
    case NotStarted => "미진행"
    case InProgress => "진행중"
    case Completed => "계약최종완료"
    case OnHold => "보류"
  }

  /** `statusColors[s]`: the badge's CSS classes. */
  function StatusColor(s: Status): (r: string)
    ensures r != ""
    ensures r == "bg-green-500 text-white" <==> s == Completed
  {
    match s
    case NotStarted => "bg-muted text-muted-foreground"
    case InProgress => "bg-primary text-primary-foreground"
    case Completed => "bg-green-500 text-white"
    case OnHold => "bg-yellow-500 text-white"
  }

  /** Both tables are defined for every status, and no two statuses share a
      label or a colour, so the badge always tells the status apart. */
  lemma BadgeDistinguishesStatus(s: Status, t: Status)
    ensures StatusLabel(s) != ""
    ensures StatusColor(s) != ""
    ensures StatusLabel(s) == StatusLabel(t) <==> s == t
    ensures StatusColor(s) == StatusColor(t) <==> s == t
  {
  }
}
