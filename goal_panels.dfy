/** The goal inputs of the two budget panels. `updateGoal` is a server action;
    the panels' only observable effect through it is the list of writes they
    issue, which both classes keep as `writes`. */
module GoalPanels {
  import opened Wrappers
  import opened Records
  import opened Budgets

  /** One `updateGoal(goalId, amount)` call. */
  datatype GoalWrite = GoalWrite(goalId: int, amount: int)

  datatype Toast = Success(title: string) | Failure(title: string)

  /** `parseFloat(value) || 0`, with `None` for an input that does not parse. */
  function InputValue(parsed: Option<int>): int
  {
    parsed.GetOr(0)
  }

  /** The goals card of the budget manager: one add/withdraw input per goal,
      kept in the `goalAmount` record, and a guarded update. */
  class GoalManager {
    var goalAmount: map<int, int>
    var writes: seq<GoalWrite>
    var toasts: seq<Toast>

    /** No write ever takes a goal below zero. */
    ghost predicate Valid()
      reads this
    {
      forall i :: 0 <= i < |writes| ==> writes[i].amount >= 0
    }

    constructor()
      ensures goalAmount == map[] && writes == [] && toasts == []
      ensures Valid()
    {
      goalAmount := map[];
      writes := [];
      toasts := [];
    }

    /** `goalAmount[goal.id] || 0`: the input of a goal, 0 when absent. */
    function InputOf(goalId: int): (r: int)
      reads this
      ensures goalId !in goalAmount ==> r == 0
      ensures goalId in goalAmount ==> r == goalAmount[goalId]
    {
      if goalId in goalAmount then goalAmount[goalId] else 0
    }

    /** `isDisabled={!goalAmount[goal.id]}`. */
    predicate UpdateDisabled(goalId: int)
      reads this
    {
      InputOf(goalId) == 0
    }

    /** `handleGoalUpdate(goalId, currentAmount, amountToAdd)`: writes the new
        amount and clears that goal's input when the amount is not negative,
        otherwise only reports the error. */
    method HandleGoalUpdate(goalId: int, currentAmount: int, amountToAdd: int)
      requires Valid()
      modifies this
      ensures Valid()
      ensures GoalUpdate(currentAmount, amountToAdd).Some? ==>
                && writes == old(writes) + [GoalWrite(goalId, GoalUpdate(currentAmount, amountToAdd).value)]
                && goalAmount == old(goalAmount)[goalId := 0]
                && toasts == old(toasts) + [Success("Goal updated!")]
      ensures GoalUpdate(currentAmount, amountToAdd).None? ==>
                && writes == old(writes)
                && goalAmount == old(goalAmount)
                && toasts == old(toasts) + [Failure("Cannot withdraw more than saved.")]
      ensures GoalUpdate(currentAmount, amountToAdd).Some? ==> UpdateDisabled(goalId)
    {
      var newAmount := currentAmount + amountToAdd;
      if newAmount >= 0 {
        writes := writes + [GoalWrite(goalId, newAmount)];
        goalAmount := goalAmount[goalId := 0];
        toasts := toasts + [Success("Goal updated!")];
      } else {
        toasts := toasts + [Failure("Cannot withdraw more than saved.")];
      }
    }

    /** The input's `onChange`: stores the parsed amount under this goal only. */
    method OnAmountChange(goalId: int, parsed: Option<int>)
      modifies this
      ensures goalAmount == old(goalAmount)[goalId := InputValue(parsed)]
      ensures writes == old(writes) && toasts == old(toasts)
      ensures forall k :: k != goalId ==> InputOf(k) == old(InputOf(k))
    {
      goalAmount := goalAmount[goalId := InputValue(parsed)];
    }

    /** The Update button, enabled only while the goal has a non-zero input:
        passes that input; on success the goal's input is cleared, which
        disables the button again. */
    method ClickUpdate(g: Goal)
      requires Valid()
      requires !UpdateDisabled(g.id)
      modifies this
      ensures Valid()
      ensures GoalUpdate(g.currentAmount, old(InputOf(g.id))).Some? ==>
                && writes == old(writes) + [GoalWrite(g.id, g.currentAmount + old(InputOf(g.id)))]
                && goalAmount == old(goalAmount)[g.id := 0]
                && toasts == old(toasts) + [Success("Goal updated!")]
                && UpdateDisabled(g.id)
      ensures GoalUpdate(g.currentAmount, old(InputOf(g.id))).None? ==>
                && writes == old(writes)
                && goalAmount == old(goalAmount)
                && toasts == old(toasts) + [Failure("Cannot withdraw more than saved.")]
    {
      HandleGoalUpdate(g.id, g.currentAmount, InputOf(g.id));
    }
  }

  /** The amount the simpler goals card saves: the stored amount plus the
      shared input, unchecked. */
  function SavedAmount(g: Goal, input: int): (r: int)
    ensures r - g.currentAmount == input
  {
    g.currentAmount + input
  }

  /** Unlike `handleGoalUpdate`, the unchecked save can take a goal below zero:
      a goal holding 100 saved with input -500 is written as -400, where the
      guarded update writes nothing. */
  lemma SaveCanGoNegative(g: Goal)
    requires g.currentAmount == 100
    ensures SavedAmount(g, -500) == -400
    ensures GoalUpdate(g.currentAmount, -500).None?
  {
  }

  /** The goals card of the budget overview: a single `currentAmount` shared by
      every goal's input and Save button. */
  class SavingsCard {
    var currentAmount: int
    var writes: seq<GoalWrite>

    constructor()
      ensures currentAmount == 0 && writes == []
    {
      currentAmount := 0;
      writes := [];
    }

    /** Any goal's input `onChange` sets the one shared amount. */
    method OnAmountChange(parsed: Option<int>)
      modifies this
      ensures currentAmount == InputValue(parsed)
      ensures writes == old(writes)
    {
      currentAmount := InputValue(parsed);
    }

    /** Save on goal `g` writes `g`'s amount plus the shared input, with no check
        and without clearing the input. */
    method Save(g: Goal)
      modifies this
      ensures writes == old(writes) + [GoalWrite(g.id, SavedAmount(g, old(currentAmount)))]
      ensures currentAmount == old(currentAmount)
    {
      writes := writes + [GoalWrite(g.id, g.currentAmount + currentAmount)];
    }
  }
}
