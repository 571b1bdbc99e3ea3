/**
 * The billing page (src/pages/BillingManagement.tsx): the current and the
 * selected plan, selecting a plan card, and the update button with its toasts.
 */
module Billing {
  import opened Text
  import opened Types

  /** Each plan's capitalised name is its display name in the plan table. */
  lemma PlanDisplayName(p: Plan)
    ensures Capitalize(PlanName(p)) == DetailsOf(p).displayName
  {
    match p
    case Basic => assert Capitalize("basic") == "Basic";
    case Standard => assert Capitalize("standard") == "Standard";
    case Premium => assert Capitalize("premium") == "Premium";
  }

  const AlreadyOnPlan := "You are already on this plan"

  function UpdatedToast(p: Plan): string {
    "Successfully updated to " + Capitalize(PlanName(p)) + " plan!"
  }

  /** The two toasts never coincide. */
  lemma ToastsDiffer(p: Plan)
    ensures UpdatedToast(p) != AlreadyOnPlan
  {
    assert UpdatedToast(p)[0] == 'S' != AlreadyOnPlan[0];
  }

  /** The two-field plan state. */
  class Page {
    var currentPlan: Plan
    var selectedPlan: Plan

    /** Both start on the standard plan. */
    constructor ()
      ensures currentPlan == Standard && selectedPlan == currentPlan
    {
      currentPlan := Standard;
      selectedPlan := Standard;
    }

    /** The "Update Subscription" button is shown exactly while the selection differs. */
    predicate ShowUpdateButton()
      reads this
    {
      selectedPlan != currentPlan
    }

    /** The line under "Current Plan". */
    function CurrentPlanText(): (text: string)
      reads this
      ensures text == "You are currently on the " + DetailsOf(currentPlan).displayName + " plan."
    {
      PlanDisplayName(currentPlan);
      "You are currently on the " + Capitalize(PlanName(currentPlan)) + " plan."
    }

    /** `handlePlanSelect`: only the selection moves. */
    method PlanSelect(plan: Plan)
      modifies this
      ensures selectedPlan == plan && currentPlan == old(currentPlan)
      ensures ShowUpdateButton() <==> plan != currentPlan
    {
      selectedPlan := plan;
    }

    /** `handleUpdatePlan`: a no-op on the current plan, otherwise the selection becomes current. */
    method UpdatePlan() returns (toast: string)
      modifies this
      ensures selectedPlan == old(selectedPlan) && currentPlan == old(selectedPlan)
      ensures !ShowUpdateButton()
      ensures CurrentPlanText() == "You are currently on the " + DetailsOf(old(selectedPlan)).displayName + " plan."
      ensures old(selectedPlan) == old(currentPlan) ==> toast == AlreadyOnPlan
      ensures old(selectedPlan) != old(currentPlan) ==> toast == UpdatedToast(old(selectedPlan))
    {
      if selectedPlan == currentPlan {
        toast := AlreadyOnPlan;
        return;
      }
      currentPlan := selectedPlan;
      toast := UpdatedToast(selectedPlan);
    }
  }

  /** A second update right after the first changes nothing and only reports the plan. */
  method UpdateTwice(page: Page) returns (first: string, second: string)
    modifies page
    ensures page.currentPlan == old(page.selectedPlan) && page.selectedPlan == old(page.selectedPlan)
    ensures second == AlreadyOnPlan
    ensures old(page.selectedPlan) != old(page.currentPlan) ==> first != second
  {
    first := page.UpdatePlan();
    second := page.UpdatePlan();
    ToastsDiffer(old(page.selectedPlan));
  }
}
