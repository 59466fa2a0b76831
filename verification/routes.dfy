/**
 * Navigation route names and the helpers that fill the id placeholder of the
 * three edit routes.
 */
module Routes {
  import opened Text

  const RoutHome: string := "home"
  const RoutRegister: string := "Register"
  const RoutAccounts: string := "accounts"
  const RoutBudget: string := "budget"
  const RoutReports: string := "reports"
  const RoutLogin: string := "Login"
  const RoutSavings: string := "savings"
  const RoutSettings: string := "settings"
  const RoutAddTransaction: string := "addtransaction"
  const RoutHelp: string := "help"
  const RoutEditTransaction: string := "edittransaction"
  const RoutSplash: string := "splash"
  const RoutAddSavings: string := "add_savings"
  const RoutEditSavings: string := "edit_savings/{savingsId}"
  const RoutAddBudget: string := "add_budget"
  const RoutEditBudget: string := "edit_budget/{budgetId}"
  const RoutAddAccount: string := "add_account"
  const RoutEditAccount: string := "edit_account/{accountId}"

  /** Every route constant, in declaration order. */
  const AllRoutes: seq<string> := [
    RoutHome, RoutRegister, RoutAccounts, RoutBudget, RoutReports, RoutLogin,
    RoutSavings, RoutSettings, RoutAddTransaction, RoutHelp, RoutEditTransaction,
    RoutSplash, RoutAddSavings, RoutEditSavings, RoutAddBudget, RoutEditBudget,
    RoutAddAccount, RoutEditAccount
  ]

  const SavingsPrefix: string := "edit_savings/"
  const BudgetPrefix: string := "edit_budget/"
  const AccountPrefix: string := "edit_account/"

  /** `editSavingsRoute(savingsId)`: the savings edit route for one row. */
  function EditSavingsRoute(savingsId: int): (r: string)
    ensures |SavingsPrefix| < |r| && r[..|SavingsPrefix|] == SavingsPrefix
    ensures ParseInt(r[|SavingsPrefix|..]) == savingsId
  {
    IntToStringRoundTrip(savingsId);
    SavingsPrefix + IntToString(savingsId)
  }

  /** `editBudgetRoute(budgetId)`: the budget edit route for one row. */
  function EditBudgetRoute(budgetId: int): (r: string)
    ensures |BudgetPrefix| < |r| && r[..|BudgetPrefix|] == BudgetPrefix
    ensures ParseInt(r[|BudgetPrefix|..]) == budgetId
  {
    IntToStringRoundTrip(budgetId);
    BudgetPrefix + IntToString(budgetId)
  }

  /** `editAccountRoute(accountId)`: the account edit route for one row. */
  function EditAccountRoute(accountId: int): (r: string)
    ensures |AccountPrefix| < |r| && r[..|AccountPrefix|] == AccountPrefix
    ensures ParseInt(r[|AccountPrefix|..]) == accountId
  {
    IntToStringRoundTrip(accountId);
    AccountPrefix + IntToString(accountId)
  }

  /** `editSavingsRoute` is `ROUT_EDIT_SAVINGS` with `{savingsId}` replaced by the decimal id. */
  lemma SavingsHelperFillsTemplate(id: int)
    ensures Replace(RoutEditSavings, "{savingsId}", IntToString(id)) == EditSavingsRoute(id)
  {
    assert RoutEditSavings == SavingsPrefix + "{savingsId}";
    ReplaceAfterPlainPrefix(SavingsPrefix, "{savingsId}", IntToString(id));
  }

  /** `editBudgetRoute` is `ROUT_EDIT_BUDGET` with `{budgetId}` replaced by the decimal id. */
  lemma BudgetHelperFillsTemplate(id: int)
    ensures Replace(RoutEditBudget, "{budgetId}", IntToString(id)) == EditBudgetRoute(id)
  {
    assert RoutEditBudget == BudgetPrefix + "{budgetId}";
    ReplaceAfterPlainPrefix(BudgetPrefix, "{budgetId}", IntToString(id));
  }

  /** `editAccountRoute` is `ROUT_EDIT_ACCOUNT` with `{accountId}` replaced by the decimal id. */
  lemma AccountHelperFillsTemplate(id: int)
    ensures Replace(RoutEditAccount, "{accountId}", IntToString(id)) == EditAccountRoute(id)
  {
    assert RoutEditAccount == AccountPrefix + "{accountId}";
    ReplaceAfterPlainPrefix(AccountPrefix, "{accountId}", IntToString(id));
  }

  /** Distinct ids give distinct routes, for each helper. */
  lemma HelpersInjective(a: int, b: int)
    ensures EditSavingsRoute(a) == EditSavingsRoute(b) ==> a == b
    ensures EditBudgetRoute(a) == EditBudgetRoute(b) ==> a == b
    ensures EditAccountRoute(a) == EditAccountRoute(b) ==> a == b
  {
    if EditSavingsRoute(a) == EditSavingsRoute(b) {
      assert EditSavingsRoute(a)[|SavingsPrefix|..] == EditSavingsRoute(b)[|SavingsPrefix|..];
    }
    if EditBudgetRoute(a) == EditBudgetRoute(b) {
      assert EditBudgetRoute(a)[|BudgetPrefix|..] == EditBudgetRoute(b)[|BudgetPrefix|..];
    }
    if EditAccountRoute(a) == EditAccountRoute(b) {
      assert EditAccountRoute(a)[|AccountPrefix|..] == EditAccountRoute(b)[|AccountPrefix|..];
    }
  }

  /** Routes built by different helpers never coincide, whatever the ids. */
  lemma HelpersDisjoint(a: int, b: int)
    ensures EditSavingsRoute(a) != EditBudgetRoute(b)
    ensures EditSavingsRoute(a) != EditAccountRoute(b)
    ensures EditBudgetRoute(a) != EditAccountRoute(b)
  {
    assert EditSavingsRoute(a)[5] == 's';
    assert EditBudgetRoute(b)[5] == 'b';
    assert EditAccountRoute(b)[5] == 'a';
    assert EditBudgetRoute(a)[5] == 'b';
  }

  /** The route constants are pairwise distinct (compared case-sensitively). */
  lemma RoutesDistinct()
    ensures forall i, j :: 0 <= i < j < |AllRoutes| ==> AllRoutes[i] != AllRoutes[j]
  {
  }

  predicate EndsInDigit(s: string)
  {
    0 < |s| && IsDigit(s[|s| - 1])
  }

  lemma NoConstantEndsInDigit()
    ensures forall i :: 0 <= i < |AllRoutes| ==> !EndsInDigit(AllRoutes[i])
  {
  }

  /** A filled edit route is never one of the constants: it ends in a digit, and none of them does. */
  lemma HelperRoutesAreNotConstants(id: int)
    ensures EditSavingsRoute(id) !in AllRoutes
    ensures EditBudgetRoute(id) !in AllRoutes
    ensures EditAccountRoute(id) !in AllRoutes
  {
    NoConstantEndsInDigit();
    var digits := IntToString(id);
    assert EndsInDigit(EditSavingsRoute(id)) by {
      assert EditSavingsRoute(id)[|EditSavingsRoute(id)| - 1] == digits[|digits| - 1];
    }
    assert EndsInDigit(EditBudgetRoute(id)) by {
      assert EditBudgetRoute(id)[|EditBudgetRoute(id)| - 1] == digits[|digits| - 1];
    }
    assert EndsInDigit(EditAccountRoute(id)) by {
      assert EditAccountRoute(id)[|EditAccountRoute(id)| - 1] == digits[|digits| - 1];
    }
  }
}
