/**
 * The status tables and navigation target of components/goals/GoalCard.tsx.
 *
 * The status is handled as the string the switch statements inspect, so
 * values outside the three the type declares reach the default branch.
 */
module GoalCard {

  datatype Goal = Goal(id: string, title: string, category: string, dueDate: string, status: string)

  const KnownStatuses: set<string> := {"completed", "in-progress", "missed"}

  const CompletedColor: string := "#10B981"
  const InProgressColor: string := "#3B82F6"
  const MissedColor: string := "#EF4444"
  const UnknownColor: string := "#6B7280"

  /** getStatusColor */
  function StatusColor(status: string): (color: string)
    ensures status == "completed" ==> color == CompletedColor
    ensures status == "in-progress" ==> color == InProgressColor
    ensures status == "missed" ==> color == MissedColor
    ensures status !in KnownStatuses ==> color == UnknownColor
  {
    match status
    case "completed" => CompletedColor
    case "in-progress" => InProgressColor
    case "missed" => MissedColor
    case _ => UnknownColor
  }

  /** getStatusText */
  function StatusText(status: string): (text: string)
    ensures status == "completed" ==> text == "Completed"
    ensures status == "in-progress" ==> text == "In Progress"
    ensures status == "missed" ==> text == "Missed"
    ensures status !in KnownStatuses ==> text == "Unknown"
  {
    match status
    case "completed" => "Completed"
    case "in-progress" => "In Progress"
    case "missed" => "Missed"
    case _ => "Unknown"
  }

  /** The three known statuses are told apart by colour and by label, and neither is the fallback. */
  lemma KnownStatusesDistinct(s1: string, s2: string)
    requires s1 in KnownStatuses && s2 in KnownStatuses && s1 != s2
    ensures StatusColor(s1) != StatusColor(s2) && StatusText(s1) != StatusText(s2)
    ensures StatusColor(s1) != UnknownColor && StatusText(s1) != "Unknown"
  {
  }

  /** The two tables fall back together: the grey colour goes with the label "Unknown" and only with it. */
  lemma FallbacksAgree(status: string)
    ensures StatusColor(status) == UnknownColor <==> StatusText(status) == "Unknown"
    ensures StatusText(status) == "Unknown" <==> status !in KnownStatuses
  {
  }

  /** The detail route of a goal. */
  function GoalPath(id: string): (path: string)
    ensures |path| == |"/goals/"| + |id|
    ensures path[..|"/goals/"|] == "/goals/" && path[|"/goals/"|..] == id
  {
    "/goals/" + id
  }

  /** Different goals lead to different detail routes. */
  lemma GoalPathInjective(id1: string, id2: string)
    requires GoalPath(id1) == GoalPath(id2)
    ensures id1 == id2
  {
  }

  /** What the card derives from its goal for display and navigation. */
  datatype CardView = CardView(
    statusLabel: string,
    badgeTextColor: string,
    badgeBackground: string,   // the status colour with alpha suffix "20"
    progressColor: string,
    cardPressRoute: string,
    detailsPressRoute: string)

  function Card(goal: Goal): (v: CardView)
    ensures v.statusLabel == StatusText(goal.status)
    ensures v.badgeTextColor == StatusColor(goal.status)
    ensures v.progressColor == v.badgeTextColor
    ensures v.badgeBackground == v.badgeTextColor + "20"
    ensures v.cardPressRoute == v.detailsPressRoute
    ensures v.cardPressRoute == GoalPath(goal.id)
  {
    var color := StatusColor(goal.status);
    CardView(StatusText(goal.status), color, color + "20", color, GoalPath(goal.id), GoalPath(goal.id))
  }
}
