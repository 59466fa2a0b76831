# Nest: savings, budgets, sign-in forms and routes, modelled in Dafny

Nest is an Android personal-finance app written with Jetpack Compose. Nearly all of it is
screen layout. The part with behaviour worth stating is modelled here:

- the two Room tables with auto-generated ids, `savings_table` and `budget_table`. Each has an
  `insert` and a `getAll` that returns the rows `ORDER BY id DESC`;
- the savings and budget screens as state holders. Each holds its form fields and the list it
  last read from its table. Each has a save handler that validates, inserts, re-reads the table
  and clears the form;
- the values derived from the held lists: total savings, the largest budget, each budget's
  percentage of it, the progress ring (clamped to [0, 1]) and the ring's label. The savings
  goal cards' progress ratio is modelled too;
- the register and login forms. Their buttons either show a toast or call into the auth
  view-model. The login-result callback either shows "Invalid Credentials" or navigates home;
- the navigation route names and the three `edit…Route(id)` helpers.

Modules and files:

| file | module | models |
|---|---|---|
| `wrappers.dfy` | `Wrappers` | `Option`: Kotlin's nullable results (`toDoubleOrNull`, the login result) |
| `text.dfy` | `Text` | Kotlin `isBlank` and the JVM whitespace set; the decimal form of an `Int` in a string template, with its inverse; placeholder replacement |
| `room_table.dfy` | `RoomTable` | id ordering shared by both tables: insertion order ascends, `ORDER BY id DESC` has exactly one answer |
| `routes.dfy` | `Routes` | `Routes.kt` |
| `savings.dfy` | `Savings` | `SavingsScreens.kt`: entity, DAO, screen state, total, goal progress |
| `budget.dfy` | `Budget` | `BudgetScreen.kt`: entity, DAO, screen state, maximum, percentage, ring and label |
| `auth.dfy` | `Auth` | the `User` record and the effects that the auth screens produce |
| `register.dfy` | `Register` | `RegisterScreen.kt` |
| `login.dfy` | `Login` | `LoginScreen.kt` |
| `scenarios.dfy` | `Scenarios` | client code and worked examples: saves, rejected saves, a login attempt, the savings and budget examples |

Each table is a class. It has a `rows` field holding the rows in insertion order and a `nextId`
field. Ids start at 1 and grow by one per insert, as SQLite row ids do when nothing is deleted.
`GetAll` is specified by what `ORDER BY id DESC` means: ids strictly decrease, and the result
holds the same rows as the table, each exactly once (a multiset equality).
`RoomTable.DescendingUnique` shows that this determines the result. Each screen is a class
holding its fields and a reference to its table. Every handler is a method whose postcondition
gives the new state of both objects. Button presses that change no state return the list of
`Auth.Effect`s they cause: toasts, view-model calls, success callbacks and navigation.

What the code does, where a reader might expect otherwise:

- There is no accounts table. `AccountsScreen.kt` shows fixed values.
- The percentage itself is never clamped. Only the ring's `percentage / 100` is clamped, to
  [0, 1]. The label shows the truncated, unclamped percentage.
- Storage faults are not handled anywhere in these screens.
- The savings Save handler does not validate the category.

## Model

| member | source | states |
|---|---|---|
| `Text.IsWhitespace` | app/src/main/java/com/ernest/nest/ui/screens/auth/LoginScreen.kt:143 | Kotlin's `Char.isWhitespace`: space, tab, line feed, carriage return and no-break space are whitespace; no visible ASCII character is, and none above U+3000 is |
| `Text.IsBlank` | app/src/main/java/com/ernest/nest/ui/screens/auth/RegisterScreen.kt:212 | `isBlank`: the empty string is blank, and a string holding any visible ASCII character is not |
| `Text.NatToString` | app/src/main/java/com/ernest/nest/navigation/Routes.kt:32 | the decimal form of a natural number: at least one character, digits only, no leading zero unless the number is 0 |
| `Text.IntToString` | app/src/main/java/com/ernest/nest/navigation/Routes.kt:32 | the template form of an `Int` starts with `-` exactly when the number is negative; all other characters are digits, and the last character is a digit. There are no leading zeros: a leading `0` means the whole form is `0`, and a negative number's first digit is not `0` |
| `Text.NatToStringRoundTrip` | app/src/main/java/com/ernest/nest/navigation/Routes.kt:32 | reading the decimal form of `n` back gives `n` |
| `Text.IntToStringRoundTrip` | app/src/main/java/com/ernest/nest/navigation/Routes.kt:32 | reading the signed decimal form of any `Int` back gives the same number |
| `Text.IntToStringInjective` | app/src/main/java/com/ernest/nest/navigation/Routes.kt:32 | distinct numbers have distinct decimal forms |
| `Text.ReplaceAfterPlainPrefix` | app/src/main/java/com/ernest/nest/navigation/Routes.kt:29-32 | in a template that ends with its placeholder, and whose prefix never contains the placeholder's first character, replacing the placeholder gives the prefix followed by the replacement |
| `RoomTable.ReverseIsNewestFirst` | app/src/main/java/com/ernest/nest/ui/screens/savings/SavingsScreens.kt:48 | read backwards, rows whose ids ascend in insertion order come out in strictly decreasing id order, with the same rows and none missing or repeated |
| `RoomTable.DescendingUnique` | app/src/main/java/com/ernest/nest/ui/screens/budget/BudgetScreen.kt:42 | two id-descending listings of the same rows are equal, so `ORDER BY id DESC` has exactly one answer |
| `RoomTable.NewestIsHead` | app/src/main/java/com/ernest/nest/ui/screens/savings/SavingsScreens.kt:38-48 | in an id-descending listing, the row whose id exceeds every other row's id comes first |
| `Routes.EditSavingsRoute` | app/src/main/java/com/ernest/nest/navigation/Routes.kt:32 | the route is `edit_savings/` followed by text that reads back as the id |
| `Routes.EditBudgetRoute` | app/src/main/java/com/ernest/nest/navigation/Routes.kt:41 | the route is `edit_budget/` followed by text that reads back as the id |
| `Routes.EditAccountRoute` | app/src/main/java/com/ernest/nest/navigation/Routes.kt:51 | the route is `edit_account/` followed by text that reads back as the id |
| `Routes.SavingsHelperFillsTemplate` | app/src/main/java/com/ernest/nest/navigation/Routes.kt:29-32 | replacing `{savingsId}` in `ROUT_EDIT_SAVINGS` with the decimal id gives exactly `editSavingsRoute(id)` |
| `Routes.BudgetHelperFillsTemplate` | app/src/main/java/com/ernest/nest/navigation/Routes.kt:38-41 | replacing `{budgetId}` in `ROUT_EDIT_BUDGET` with the decimal id gives exactly `editBudgetRoute(id)` |
| `Routes.AccountHelperFillsTemplate` | app/src/main/java/com/ernest/nest/navigation/Routes.kt:48-51 | replacing `{accountId}` in `ROUT_EDIT_ACCOUNT` with the decimal id gives exactly `editAccountRoute(id)` |
| `Routes.HelpersInjective` | app/src/main/java/com/ernest/nest/navigation/Routes.kt:32-51 | for each helper, distinct ids give distinct routes |
| `Routes.HelpersDisjoint` | app/src/main/java/com/ernest/nest/navigation/Routes.kt:32-51 | two different helpers never produce the same route, whatever the ids |
| `Routes.RoutesDistinct` | app/src/main/java/com/ernest/nest/navigation/Routes.kt:4-48 | the eighteen route constants are pairwise distinct, compared case-sensitively |
| `Routes.HelperRoutesAreNotConstants` | app/src/main/java/com/ernest/nest/navigation/Routes.kt:4-51 | a route built by a helper is never one of the constants, the templates included |
| `Savings.SavingsDao.constructor` | app/src/main/java/com/ernest/nest/ui/screens/savings/SavingsScreens.kt:44-49 | a new table is empty and will give out id 1 first |
| `Savings.SavingsDao.Insert` | app/src/main/java/com/ernest/nest/ui/screens/savings/SavingsScreens.kt:38-47 | inserting a row with the default id appends exactly one row with the given category, amount and timestamp. Its generated id is greater than every id already in the table |
| `Savings.SavingsDao.GetAll` | app/src/main/java/com/ernest/nest/ui/screens/savings/SavingsScreens.kt:48 | the result is newest first (ids strictly decrease) and holds every row of the table exactly once |
| `Savings.TotalSavings` | app/src/main/java/com/ernest/nest/ui/screens/savings/SavingsScreens.kt:90 | `totalSavings` of an empty list is 0; when no amount is negative, the total is non-negative and at least every single amount |
| `Savings.TotalSavingsAppend` | app/src/main/java/com/ernest/nest/ui/screens/savings/SavingsScreens.kt:90 | the total of two lists joined is the sum of their totals |
| `Savings.TotalSavingsPermutation` | app/src/main/java/com/ernest/nest/ui/screens/savings/SavingsScreens.kt:90 | `totalSavings` does not depend on the order of the list: permutations have equal totals |
| `Savings.SavingsScreen.constructor` | app/src/main/java/com/ernest/nest/ui/screens/savings/SavingsScreens.kt:78-84 | the amount starts empty, the category starts as "Emergency Fund" and the held list starts empty |
| `Savings.SavingsScreen.Load` | app/src/main/java/com/ernest/nest/ui/screens/savings/SavingsScreens.kt:87 | after the launch effect, the held list is a complete newest-first copy of the table, and the form is untouched |
| `Savings.SavingsScreen.EditAmount` | app/src/main/java/com/ernest/nest/ui/screens/savings/SavingsScreens.kt:191 | typing replaces the amount text and changes nothing else |
| `Savings.SavingsScreen.SelectCategory` | app/src/main/java/com/ernest/nest/ui/screens/savings/SavingsScreens.kt:148-154 | only one of the four listed categories can be selected, so the category is always one of them |
| `Savings.SavingsScreen.Save` | app/src/main/java/com/ernest/nest/ui/screens/savings/SavingsScreens.kt:162-173 | unparsable amount: the table, list and amount text stay unchanged. Parsed amount: one row is added with a fresh greatest id, the selected category, the amount and the timestamp. That row heads the refreshed list, and the list is the whole table newest first. The list total grows by the amount, and the amount text is cleared |
| `Savings.GoalProgress` | app/src/main/java/com/ernest/nest/ui/screens/savings/SavingsScreens.kt:247 | progress times target gives current, and progress lies in [0, 1] while 0 ≤ current ≤ target |
| `Budget.BudgetDao.constructor` | app/src/main/java/com/ernest/nest/ui/screens/budget/BudgetScreen.kt:39-43 | a new table is empty and will give out id 1 first |
| `Budget.BudgetDao.Insert` | app/src/main/java/com/ernest/nest/ui/screens/budget/BudgetScreen.kt:33-41 | inserting a row with the default id appends exactly one row with the given month and amount, duplicates allowed. Its generated id is greater than every id already in the table |
| `Budget.BudgetDao.GetAll` | app/src/main/java/com/ernest/nest/ui/screens/budget/BudgetScreen.kt:42 | the result is newest first (ids strictly decrease) and holds every row of the table exactly once |
| `Budget.MaxOfAmounts` | app/src/main/java/com/ernest/nest/ui/screens/budget/BudgetScreen.kt:82 | the result is the amount of some row, and no row's amount exceeds it |
| `Budget.MaxAmount` | app/src/main/java/com/ernest/nest/ui/screens/budget/BudgetScreen.kt:82 | `maxAmount` is 1 for an empty list; otherwise it is the amount of some row and no row's amount exceeds it |
| `Budget.Percentage` | app/src/main/java/com/ernest/nest/ui/screens/budget/BudgetScreen.kt:167 | the percentage times `maxAmount` gives 100 times the amount |
| `Budget.PercentageBounds` | app/src/main/java/com/ernest/nest/ui/screens/budget/BudgetScreen.kt:167 | when `maxAmount` is positive, every row's percentage is at most 100. A row holding the maximum gets exactly 100, and a non-negative amount gets at least 0 |
| `Budget.PercentageOverNegativeMax` | app/src/main/java/com/ernest/nest/ui/screens/budget/BudgetScreen.kt:167-201 | when every amount is negative, every percentage is at least 100 and every ring is full |
| `Budget.RingProgress` | app/src/main/java/com/ernest/nest/ui/screens/budget/BudgetScreen.kt:201 | ring progress lies in [0, 1]. It is `percentage / 100` for percentages in [0, 100], 0 below that range and 1 above it |
| `Budget.PercentLabel` | app/src/main/java/com/ernest/nest/ui/screens/budget/BudgetScreen.kt:206 | the label is an optional `-` and decimal digits followed by `%`, with no leading zero unless it is `0%`; the number reads back as the truncated percentage, and it carries a minus sign exactly when the percentage is -1 or less (a percentage between -1 and 0 shows as `0%`) |
| `Budget.Truncate` | app/src/main/java/com/ernest/nest/ui/screens/budget/BudgetScreen.kt:206 | `toInt` rounds toward zero: the result lies within less than 1 of the value, on the zero side |
| `Budget.RingOfRow` | app/src/main/java/com/ernest/nest/ui/screens/budget/BudgetScreen.kt:199-210 | with a positive maximum and a non-negative amount, the ring is exactly `amount / maxAmount`. The row holding the maximum shows a full ring labelled "100%" |
| `Budget.BudgetScreen.constructor` | app/src/main/java/com/ernest/nest/ui/screens/budget/BudgetScreen.kt:74-76 | both fields start empty and the held list starts empty |
| `Budget.BudgetScreen.Load` | app/src/main/java/com/ernest/nest/ui/screens/budget/BudgetScreen.kt:78-80 | after the launch effect, the held list is a complete newest-first copy of the table, and the form is untouched |
| `Budget.BudgetScreen.EditMonth` | app/src/main/java/com/ernest/nest/ui/screens/budget/BudgetScreen.kt:131 | typing replaces the month text and changes nothing else |
| `Budget.BudgetScreen.EditAmount` | app/src/main/java/com/ernest/nest/ui/screens/budget/BudgetScreen.kt:138 | typing replaces the amount text and changes nothing else |
| `Budget.BudgetScreen.Save` | app/src/main/java/com/ernest/nest/ui/screens/budget/BudgetScreen.kt:144-155 | blank month or unparsable amount: the table, list and both fields stay unchanged. Otherwise one row is added with a fresh greatest id, the month exactly as typed and the amount. That row heads the refreshed list, the list is the whole table newest first, and both fields are cleared |
| `Register.RegisterDecision` | app/src/main/java/com/ernest/nest/ui/screens/auth/RegisterScreen.kt:211-221 | at most one view-model call, made exactly when no field is blank and the passwords match. That call is `registerUser(User(username, email, role, password))` with the fields as typed, followed by `onRegisterSuccess`. With no call, the only effect is a toast: "All fields are required" if any field is blank, even when the passwords differ, and otherwise "Passwords do not match" |
| `Register.RegisterScreen.constructor` | app/src/main/java/com/ernest/nest/ui/screens/auth/RegisterScreen.kt:45-141 | all text fields start empty and both passwords start hidden (lines 45-51); the role starts as "Business person" (line 140) |
| `Register.RegisterScreen.Edit` | app/src/main/java/com/ernest/nest/ui/screens/auth/RegisterScreen.kt:107-195 | typing into one field replaces that field only |
| `Register.RegisterScreen.SelectRole` | app/src/main/java/com/ernest/nest/ui/screens/auth/RegisterScreen.kt:140-168 | only one of "Business person", "Student" or "Other" can be chosen, so the role is always one of them |
| `Register.RegisterScreen.TogglePasswordVisible` | app/src/main/java/com/ernest/nest/ui/screens/auth/RegisterScreen.kt:182 | the eye icon flips password visibility |
| `Register.RegisterScreen.ToggleConfirmPasswordVisible` | app/src/main/java/com/ernest/nest/ui/screens/auth/RegisterScreen.kt:200 | the eye icon flips confirmation visibility |
| `Register.RegisterScreen.OnRegisterClick` | app/src/main/java/com/ernest/nest/ui/screens/auth/RegisterScreen.kt:210-222 | the button does what the register decision says for the current fields; monthly income is not consulted. A registered user always carries one of the offered roles |
| `Login.LoginDecision` | app/src/main/java/com/ernest/nest/ui/screens/auth/LoginScreen.kt:142-147 | blank email or password: no view-model call, only the toast "Please enter email and password". Otherwise exactly one call, `loginUser(email, password)`, with the fields unchanged |
| `Login.LoggedInUser` | app/src/main/java/com/ernest/nest/ui/screens/auth/LoginScreen.kt:47-55 | exactly one effect. No user gives the toast "Invalid Credentials" and no navigation; a user gives navigation to `ROUT_HOME` and no toast |
| `Login.LoginScreen.constructor` | app/src/main/java/com/ernest/nest/ui/screens/auth/LoginScreen.kt:42-44 | both fields start empty and the password starts hidden |
| `Login.LoginScreen.EditEmail` | app/src/main/java/com/ernest/nest/ui/screens/auth/LoginScreen.kt:112 | typing replaces the email |
| `Login.LoginScreen.EditPassword` | app/src/main/java/com/ernest/nest/ui/screens/auth/LoginScreen.kt:123 | typing replaces the password |
| `Login.LoginScreen.TogglePasswordVisible` | app/src/main/java/com/ernest/nest/ui/screens/auth/LoginScreen.kt:131 | the eye icon flips visibility, so two toggles restore it |
| `Login.LoginScreen.OnLoginClick` | app/src/main/java/com/ernest/nest/ui/screens/auth/LoginScreen.kt:141-148 | the button does what the login decision says for the current fields |
| `Scenarios.ThreeSavingsTotal` | app/src/main/java/com/ernest/nest/ui/screens/savings/SavingsScreens.kt:90 | savings of 49.5, 250.5 and 100.0, listed newest first, total 400.0 |
| `Scenarios.ThreeSavingsTotalInsertionOrder` | app/src/main/java/com/ernest/nest/ui/screens/savings/SavingsScreens.kt:90 | the same savings in insertion order also total 400.0 |
| `Scenarios.TwoBudgetsPercentages` | app/src/main/java/com/ernest/nest/ui/screens/budget/BudgetScreen.kt:82-167 | budgets of 5000 and 10000 have a maximum of 10000 and percentages of 50 and 100 |

## Left out

- Compose rendering, layout, theming, icons, animation, previews and the showing of toasts:
  toasts are effects with their text.
- The dropdown menus' open/closed state, which only affects rendering.
- The `getInstance` singletons (`@Volatile`, `synchronized`): each screen is handed one table
  object.
- Coroutines. Each save is modelled as insert, then refresh, then clearing the fields, in one step.
  In the source the savings amount is cleared before the insert finishes. The savings category
  is read inside the coroutine, while the amount and timestamp are fixed at the click. The budget
  month is read, and both budget fields are cleared, inside the coroutine. So typing, or choosing
  another category, between the click and the insert is not modelled. The model takes every
  value at the click.
- The clock and locale formatting: the savings timestamp is a parameter. The `"%.2f"` total text
  and the `"$current / $target saved"` text are not modelled.
- `toDoubleOrNull` / `toFloatOrNull` are a parameter of the save handlers (a function from text to
  an optional number). Which texts parse is not modelled.
- Floating point. Amounts are exact reals, so rounding, NaN and infinities are not modelled.
- Budget.Percentage: requires a non-zero `maxAmount`. The source then divides by zero and gets
  NaN or an infinity; this happens only when the largest amount is exactly 0.
- Savings.GoalProgress: requires a non-zero target, because the source gets NaN or an infinity
  for target 0. The screen's three goal cards all use positive targets.
- Budget.Truncate: does not model `toInt` saturation at the 32-bit bounds, nor NaN mapping to 0.
- 32-bit `Int` ids: ids and route arguments are unbounded integers, so overflow past
  2147483647 is not modelled.
- Savings.SavingsDao.Insert and Budget.BudgetDao.Insert take the column values only. The screens
  always insert with the default id 0, so inserts with an explicit id, and the conflict abort
  they can cause, are not modelled.
- Storage faults (exceptions thrown by Room) are not modelled; the source does not handle them.
- The auth view-model, user repository and user database are not part of this model.
  `registerUser` and `loginUser` are effects, and the login result is an input to the callback.
  No credential matching is modelled. The `User` model class is not part of this model either;
  its fields are those its constructor call receives in `RegisterScreen.kt`.
- Navigation wiring in `AppNavHost.kt`, including what `onRegisterSuccess` does (navigate to
  login): `onRegisterSuccess` is the `RegisterSuccess` effect.
- The accounts, home, reports, transactions, settings, help and splash screens, which show fixed
  content; these files contain no accounts table and no user store.
