/** The goals page (src/pages/Objetivos.tsx): each goal's progress towards its target,
    the progress bar, the deadline line and the avatar of the member the goal belongs
    to. */
module GoalsPage {
  import opened Common
  import opened Calendar
  import opened Types
  import opened Queries
  import opened Progress

  /** `getProgress(goal.currentAmount, goal.targetAmount)`. */
  function GoalProgress(goal: Goal): JsNumber {
    RoundedPercent(goal.currentAmount, goal.targetAmount)
  }

  /** For a positive target, saving more never lowers the progress shown, a reached
      target shows a full bar, and savings between nothing and the target show a bar of
      the progress itself. */
  lemma GoalBar(goal: Goal, more: real)
    requires goal.targetAmount > 0.0 && goal.currentAmount >= 0.0 && more >= 0.0
    ensures GoalProgress(goal).value <= GoalProgress(goal.(currentAmount := goal.currentAmount + more)).value
    ensures goal.currentAmount >= goal.targetAmount ==> BarWidth(GoalProgress(goal)) == Finite(100.0)
    ensures goal.currentAmount <= goal.targetAmount ==>
              BarWidth(GoalProgress(goal)) == GoalProgress(goal) && 0.0 <= GoalProgress(goal).value <= 100.0
  {
    RoundedPercentMonotone(goal.currentAmount, goal.currentAmount + more, goal.targetAmount);
    BarWidthOfShare(goal.currentAmount, goal.targetAmount);
  }

  /** `formatDate(goal.deadline)`: 'Sem prazo' without a deadline, otherwise the locale
      month and year, which `monthYear` stands for. */
  function DeadlineLabel(deadline: Option<Date>, monthYear: Date -> string): (r: string)
    ensures deadline.None? ==> r == "Sem prazo"
    ensures deadline.Some? ==> r == monthYear(deadline.value)
  {
    match deadline
    case None => "Sem prazo"
    case Some(d) => monthYear(d)
  }

  /** `goal.memberId ? getMemberById(goal.memberId) : null`: the avatar shows only for a
      non-empty member id that some member has. */
  function GoalMember(goal: Goal, members: seq<FamilyMember>): (r: Option<FamilyMember>)
    ensures r.Some? <==> && goal.memberId.Some? && goal.memberId.value != ""
                         && exists i :: 0 <= i < |members| && members[i].id == goal.memberId.value
    ensures r.Some? ==> r.value in members && r.value.id == goal.memberId.value
    ensures r.Some? ==> exists i :: 0 <= i < |members| && members[i] == r.value
                          && forall j :: 0 <= j < i ==> members[j].id != goal.memberId.value
  {
    if goal.memberId.Some? && goal.memberId.value != "" then GetMemberById(members, goal.memberId.value)
    else None
  }
}
