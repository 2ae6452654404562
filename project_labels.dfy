/**
 * The label and colour maps for a project's status and priority. The card,
 * the project list and the detail page each carry their own copy of the
 * status switches with the same cases; the detail page alone has the
 * priority text.
 */
module ProjectLabels {
  import opened Types

  /** The display names of `ProjectStatuses`, position by position. */
  const StatusLabels: seq<string> := ["规划中", "进行中", "已完成", "暂停中"]

  const StatusColors: seq<string> := ["success", "processing", "default", "warning"]
  const PriorityColors: seq<string> := ["red", "orange", "blue", "green", "default"]

  /** `getStatusColor`: planning and every unknown status share `default`. */
  function StatusColor(status: string): (r: string)
    ensures r in StatusColors
    ensures r == "default" <==> status !in ["completed", "in-progress", "on-hold"]
  {
    match status
    case "completed" => "success"
    case "in-progress" => "processing"
    case "planning" => "default"
    case "on-hold" => "warning"
    case _ => "default"
  }

  /** `getStatusText`: the four known statuses get their labels, anything else is shown as is. */
  function StatusText(status: string): (r: string)
    ensures forall k :: 0 <= k < 4 && status == ProjectStatuses[k] ==> r == StatusLabels[k]
    ensures status !in ProjectStatuses ==> r == status
  {
    match status
    case "completed" => "已完成"
    case "in-progress" => "进行中"
    case "planning" => "规划中"
    case "on-hold" => "暂停中"
    case _ => status
  }

  /** Within the domain, no two statuses share a label. */
  lemma StatusTextInjective(a: string, b: string)
    requires a in ProjectStatuses && b in ProjectStatuses
    requires StatusText(a) == StatusText(b)
    ensures a == b
  {
  }

  /** `getPriorityColor`: `urgent` is recognised even though the type does not list it. */
  function PriorityColor(priority: string): (r: string)
    ensures r in PriorityColors
    ensures r == "default" <==> priority !in ["urgent", "high", "medium", "low"]
  {
    match priority
    case "urgent" => "red"
    case "high" => "orange"
    case "medium" => "blue"
    case "low" => "green"
    case _ => "default"
  }

  /** `getPriorityText` on the detail page. */
  function PriorityText(priority: string): (r: string)
    ensures priority == "urgent" ==> r == "紧急"
    ensures priority == "high" ==> r == "高"
    ensures priority == "medium" ==> r == "中"
    ensures priority == "low" ==> r == "低"
    ensures priority !in ["urgent", "high", "medium", "low"] ==> r == priority
  {
    match priority
    case "urgent" => "紧急"
    case "high" => "高"
    case "medium" => "中"
    case "low" => "低"
    case _ => priority
  }

  /** `getProgress` on the card. */
  function Progress(status: string): (r: int)
    ensures 0 <= r <= 100
    ensures r == 100 <==> status == "completed"
    ensures r == 0 <==> status !in ProjectStatuses
  {
    match status
    case "completed" => 100
    case "in-progress" => 50
    case "planning" => 10
    case "on-hold" => 30
    case _ => 0
  }
}
