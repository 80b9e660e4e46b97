/**
 * The admin dashboard's activity log (src/components/admin/AdminDashboard.tsx):
 * the recent activity of the statistics is filtered by an action and a
 * status selector, each of which may be "ALL", and each action is shown
 * with a Korean label.
 */
module AdminDashboard {
  import opened Wrappers

  datatype ActivityLog = ActivityLog(id: int, title: string, action: string, timestamp: string, status: string, category: string)

  /** A selector value: "ALL" or one value to match. */
  datatype Selector = AllValues | Only(value: string)

  predicate Matches(selector: Selector, value: string) {
    selector.AllValues? || selector.value == value
  }

  /** The filter's test: both selectors must match the log. */
  predicate Keep(actionFilter: Selector, statusFilter: Selector, log: ActivityLog) {
    Matches(actionFilter, log.action) && Matches(statusFilter, log.status)
  }

  /** `stats?.recentActivity.filter(...) || []`. */
  function FilteredLogs(recent: Option<seq<ActivityLog>>, actionFilter: Selector, statusFilter: Selector): (r: seq<ActivityLog>)
    ensures recent.None? ==> r == []
    ensures |r| <= |recent.GetOr([])|
    ensures forall log :: log in r <==> log in recent.GetOr([]) && Keep(actionFilter, statusFilter, log)
  {
    if recent.None? then [] else Filter(recent.value, actionFilter, statusFilter)
  }

  function Filter(logs: seq<ActivityLog>, actionFilter: Selector, statusFilter: Selector): (r: seq<ActivityLog>)
    ensures |r| <= |logs|
    ensures forall log :: log in r <==> log in logs && Keep(actionFilter, statusFilter, log)
    decreases |logs|
  {
    if |logs| == 0 then []
    else
      var rest := Filter(logs[1..], actionFilter, statusFilter);
      assert forall log :: log in logs <==> log == logs[0] || log in logs[1..];
      if Keep(actionFilter, statusFilter, logs[0]) then [logs[0]] + rest else rest
  }

  /** `r` keeps some of the logs of `logs`, in their order. */
  predicate Subsequence(r: seq<ActivityLog>, logs: seq<ActivityLog>)
    decreases |logs|
  {
    r == [] || (|logs| > 0 && ((r[0] == logs[0] && Subsequence(r[1..], logs[1..])) || Subsequence(r, logs[1..])))
  }

  /** Filtering keeps the logs in the order they came. */
  lemma {:induction false} FilterKeepsOrder(logs: seq<ActivityLog>, actionFilter: Selector, statusFilter: Selector)
    ensures Subsequence(Filter(logs, actionFilter, statusFilter), logs)
    decreases |logs|
  {
    if |logs| > 0 {
      FilterKeepsOrder(logs[1..], actionFilter, statusFilter);
      var rest := Filter(logs[1..], actionFilter, statusFilter);
      if Keep(actionFilter, statusFilter, logs[0]) {
        assert ([logs[0]] + rest)[1..] == rest;
      }
    }
  }

  /** With both selectors on "ALL" every log is shown. */
  lemma {:induction false} FilterAllKeepsEverything(logs: seq<ActivityLog>)
    ensures Filter(logs, AllValues, AllValues) == logs
    decreases |logs|
  {
    if |logs| > 0 {
      FilterAllKeepsEverything(logs[1..]);
      assert logs == [logs[0]] + logs[1..];
    }
  }

  /** Narrowing one selector at a time gives the same list as both at once. */
  lemma {:induction false} FilterComposes(logs: seq<ActivityLog>, actionFilter: Selector, statusFilter: Selector)
    ensures Filter(Filter(logs, actionFilter, AllValues), AllValues, statusFilter) == Filter(logs, actionFilter, statusFilter)
    decreases |logs|
  {
    if |logs| > 0 {
      FilterComposes(logs[1..], actionFilter, statusFilter);
      var rest := Filter(logs[1..], actionFilter, AllValues);
      if Keep(actionFilter, AllValues, logs[0]) {
        assert ([logs[0]] + rest)[1..] == rest;
      }
    }
  }

  /** The label and the style class of an action. */
  datatype ActionDisplay = ActionDisplay(text: string, className: string)

  /** `getActionDisplay(action)`: the three known actions get Korean labels, any other keeps its own text. */
  function ActionDisplayOf(action: string): (d: ActionDisplay)
    ensures action == "CREATE" ==> d == ActionDisplay("생성", "magazine-action magazine-action--create")
    ensures action == "UPDATE" ==> d == ActionDisplay("수정", "magazine-action magazine-action--update")
    ensures action == "DELETE" ==> d == ActionDisplay("삭제", "magazine-action magazine-action--delete")
    ensures action !in {"CREATE", "UPDATE", "DELETE"} ==> d == ActionDisplay(action, "magazine-action magazine-action--unknown")
  {
    match action
    case "CREATE" => ActionDisplay("생성", "magazine-action magazine-action--create")
    case "UPDATE" => ActionDisplay("수정", "magazine-action magazine-action--update")
    case "DELETE" => ActionDisplay("삭제", "magazine-action magazine-action--delete")
    case _ => ActionDisplay(action, "magazine-action magazine-action--unknown")
  }

  /** A known action and an unknown one spelled as its Korean label. */
  predicate LabelCollision(known: string, other: string) {
    (known == "CREATE" && other == "생성") || (known == "UPDATE" && other == "수정") || (known == "DELETE" && other == "삭제")
  }

  /**
   * Two different actions share a label only when one is a known action and
   * the other an unknown action whose text is that known action's label.
   */
  lemma ActionDisplayDistinct(a: string, b: string)
    requires a != b
    ensures ActionDisplayOf(a).text == ActionDisplayOf(b).text <==> LabelCollision(a, b) || LabelCollision(b, a)
  {
  }
}
