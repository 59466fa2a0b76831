/**
 * Client code and worked examples: sequences of user actions on the screens
 * and what the screens then hold, and the derived values for sample lists.
 */
module Scenarios {
  import opened Wrappers
  import opened RoomTable
  import opened Savings
  import opened Budget
  import opened Login
  import opened Auth
  import opened Text

  /** What `toDoubleOrNull` / `toFloatOrNull` give for a text that reads as `amount`. */
  function Reads(amount: real): string -> Option<real>
  {
    _ => Some(amount)
  }

  /** What they give for a text that is not a number. */
  function Rejects(): string -> Option<real>
  {
    _ => None
  }

  /** A parsed amount is saved and heads the list; an unparsable one changes nothing. */
  method SaveThenReject()
  {
    var dao := new SavingsDao();
    var screen := new SavingsScreen(dao);
    screen.EditAmount("100.0");
    screen.Save(Reads(100.0), "2025-05-01 09:00");
    var first := SavingsEntity(1, "Emergency Fund", 100.0, "2025-05-01 09:00");
    assert dao.rows == [first];
    assert screen.savingsList[0] == first && |screen.savingsList| == 1;
    screen.EditAmount("abc");
    screen.Save(Rejects(), "2025-05-01 09:01");
    assert dao.rows == [first] && screen.amountText == "abc";
  }

  /** A budget with a month is saved; one with a blank month is not. */
  method SaveBudgetThenRejectBlank()
  {
    var dao := new BudgetDao();
    var screen := new BudgetScreen(dao);
    assert !IsBlank("May 2025") by { assert "May 2025"[0] == 'M'; }
    assert IsBlank(" ") by { assert IsWhitespace(" "[0]); }
    screen.EditMonth("May 2025");
    screen.EditAmount("10000");
    screen.Save(Reads(10000.0));
    var may := BudgetEntity(1, "May 2025", 10000.0);
    assert dao.rows == [may] && screen.budgetList[0] == may;
    assert screen.monthText == "" && screen.amountText == "";
    screen.EditMonth(" ");
    screen.EditAmount("5000");
    screen.Save(Reads(5000.0));
    assert dao.rows == [may] && screen.monthText == " " && screen.amountText == "5000";
  }

  /** Three savings of 100.0, 250.5 and 49.5, listed newest first, total 400.0. */
  lemma ThreeSavingsTotal()
    ensures TotalSavings([
      SavingsEntity(3, "Vacation", 49.5, "2025-05-03 11:00"),
      SavingsEntity(2, "Emergency Fund", 250.5, "2025-05-02 10:00"),
      SavingsEntity(1, "Emergency Fund", 100.0, "2025-05-01 09:00")]) == 400.0
  {
    var third := SavingsEntity(3, "Vacation", 49.5, "2025-05-03 11:00");
    var second := SavingsEntity(2, "Emergency Fund", 250.5, "2025-05-02 10:00");
    var first := SavingsEntity(1, "Emergency Fund", 100.0, "2025-05-01 09:00");
    assert [third, second, first][..2] == [third, second];
    assert [third, second][..1] == [third];
    assert [third][..0] == [];
  }

  /** The same three savings in insertion order total the same. */
  lemma ThreeSavingsTotalInsertionOrder()
    ensures TotalSavings([
      SavingsEntity(1, "Emergency Fund", 100.0, "2025-05-01 09:00"),
      SavingsEntity(2, "Emergency Fund", 250.5, "2025-05-02 10:00"),
      SavingsEntity(3, "Vacation", 49.5, "2025-05-03 11:00")]) == 400.0
  {
    var third := SavingsEntity(3, "Vacation", 49.5, "2025-05-03 11:00");
    var second := SavingsEntity(2, "Emergency Fund", 250.5, "2025-05-02 10:00");
    var first := SavingsEntity(1, "Emergency Fund", 100.0, "2025-05-01 09:00");
    ThreeSavingsTotal();
    assert multiset([third, second, first]) == multiset([first, second, third]);
    TotalSavingsPermutation([third, second, first], [first, second, third]);
  }

  /** Budgets of 10000 and 5000 show 100% and 50%. */
  lemma TwoBudgetsPercentages()
    ensures var list := [BudgetEntity(2, "June 2025", 5000.0), BudgetEntity(1, "May 2025", 10000.0)];
      && MaxAmount(list) == 10000.0
      && Percentage(list[1].amount, MaxAmount(list)) == 100.0
      && Percentage(list[0].amount, MaxAmount(list)) == 50.0
  {
  }

  /** Showing the password twice restores the hidden field; a failed login stays put. */
  method LoginAttempt()
  {
    var screen := new LoginScreen();
    screen.TogglePasswordVisible();
    screen.TogglePasswordVisible();
    assert !screen.passwordVisible;
    assert !IsBlank("a@x.com") by { assert "a@x.com"[0] == 'a'; }
    assert !IsBlank("p1") by { assert "p1"[0] == 'p'; }
    screen.EditEmail("a@x.com");
    var effects := screen.OnLoginClick();
    assert effects == [ShowToast(EnterEmailAndPassword)];
    screen.EditPassword("p1");
    effects := screen.OnLoginClick();
    assert effects == [LoginUser("a@x.com", "p1")];
    effects := LoggedInUser(None);
    assert effects == [ShowToast(InvalidCredentials)];
  }
}
