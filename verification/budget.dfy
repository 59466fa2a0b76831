/**
 * The budget feature: `budget_table` with its DAO, the screen's form state and
 * Save Budget handler, `maxAmount`, each row's percentage of it, and the
 * summary card's progress ring and label.
 */
module Budget {
  import opened Wrappers
  import opened Text
  import opened RoomTable

  /** One row of `budget_table`; months are free text and may repeat. */
  datatype BudgetEntity = BudgetEntity(id: int, month: string, amount: real)

  /** The primary key of a row. */
  function BudgetId(e: BudgetEntity): int
  {
    e.id
  }

  /** The table behind `BudgetDao`: rows in insertion order and the id the next insert receives. */
  class BudgetDao {
    var rows: seq<BudgetEntity>
    var nextId: int

    /** Generated ids start at 1, ascend in insertion order and stay below `nextId`. */
    ghost predicate Valid()
      reads this
    {
      && 1 <= nextId
      && Ascending(rows, BudgetId)
      && forall i :: 0 <= i < |rows| ==> 1 <= rows[i].id < nextId
    }

    constructor ()
      ensures Valid() && rows == [] && nextId == 1
    {
      rows, nextId := [], 1;
    }

    /** `insert` of an entity with the default id 0: the table generates a key above every key it holds. */
    method Insert(month: string, amount: real)
      requires Valid()
      modifies this
      ensures Valid()
      ensures rows == old(rows) + [BudgetEntity(old(nextId), month, amount)]
      ensures forall e :: e in old(rows) ==> e.id < old(nextId)
      ensures nextId == old(nextId) + 1
    {
      rows := rows + [BudgetEntity(nextId, month, amount)];
      nextId := nextId + 1;
    }

    /** `getAll`: `SELECT * FROM budget_table ORDER BY id DESC`. */
    method GetAll() returns (all: seq<BudgetEntity>)
      requires Valid()
      ensures Descending(all, BudgetId)
      ensures multiset(all) == multiset(rows)
    {
      all := Reverse(rows);
      ReverseIsNewestFirst(rows, BudgetId);
    }
  }

  /** The largest amount of a non-empty list. */
  function MaxOfAmounts(list: seq<BudgetEntity>): (m: real)
    requires list != []
    ensures exists i :: 0 <= i < |list| && list[i].amount == m
    ensures forall i :: 0 <= i < |list| ==> list[i].amount <= m
  {
    if |list| == 1 then list[0].amount
    else
      var m := MaxOfAmounts(list[1..]);
      if list[0].amount < m then m else list[0].amount
  }

  /** `maxAmount`: `budgetList.maxOfOrNull { it.amount } ?: 1f`. */
  function MaxAmount(list: seq<BudgetEntity>): (m: real)
    ensures list == [] ==> m == 1.0
    ensures list != [] ==> exists i :: 0 <= i < |list| && list[i].amount == m
    ensures forall i :: 0 <= i < |list| ==> list[i].amount <= m
  {
    if list == [] then 1.0 else MaxOfAmounts(list)
  }

  /** A row's `percentage`: `(amount / maxAmount) * 100`. */
  function Percentage(amount: real, maxAmount: real): (p: real)
    requires maxAmount != 0.0
    ensures p * maxAmount == amount * 100.0
  {
    (amount / maxAmount) * 100.0
  }

  /**
   * Over a list whose maximum is positive, every row's percentage is at most
   * 100, a row holding the maximum gets exactly 100, and a non-negative amount
   * gets at least 0.
   */
  lemma PercentageBounds(list: seq<BudgetEntity>, i: int)
    requires 0 <= i < |list|
    requires MaxAmount(list) > 0.0
    ensures Percentage(list[i].amount, MaxAmount(list)) <= 100.0
    ensures list[i].amount == MaxAmount(list) ==> Percentage(list[i].amount, MaxAmount(list)) == 100.0
    ensures 0.0 <= list[i].amount ==> 0.0 <= Percentage(list[i].amount, MaxAmount(list))
  {
    PercentageOfAtMostMax(list[i].amount, MaxAmount(list));
  }

  lemma PercentageOfAtMostMax(a: real, m: real)
    requires 0.0 < m && a <= m
    ensures Percentage(a, m) <= 100.0
    ensures a == m ==> Percentage(a, m) == 100.0
    ensures 0.0 <= a ==> 0.0 <= Percentage(a, m)
  {
    DivideAtMostOne(a, m);
    if a == m {
      assert a / m == 1.0;
    }
    if 0.0 <= a {
      DivideNonNegative(a, m);
    }
  }

  lemma DivideAtMostOne(a: real, m: real)
    requires 0.0 < m && a <= m
    ensures a / m <= 1.0
  {
    assert a / m * m == a;
  }

  lemma DivideNonNegative(a: real, m: real)
    requires 0.0 < m && 0.0 <= a
    ensures 0.0 <= a / m
  {
    assert a / m * m == a;
  }

  /**
   * Amounts are not checked for sign: when every amount is negative, every
   * row's percentage is at least 100, so every ring shows full.
   */
  lemma PercentageOverNegativeMax(list: seq<BudgetEntity>, i: int)
    requires 0 <= i < |list|
    requires MaxAmount(list) < 0.0
    ensures Percentage(list[i].amount, MaxAmount(list)) >= 100.0
    ensures RingProgress(Percentage(list[i].amount, MaxAmount(list))) == 1.0
  {
    var m := MaxAmount(list);
    var a := list[i].amount;
    assert a / m >= 1.0 by {
      assert a <= m;
      DivideByNegativeAtLeastOne(a, m);
    }
  }

  lemma DivideByNegativeAtLeastOne(a: real, m: real)
    requires m < 0.0 && a <= m
    ensures a / m >= 1.0
  {
    assert a / m * m == a;
  }

  /** The ring's progress: `(percentage / 100f).coerceIn(0f, 1f)`. */
  function RingProgress(percentage: real): (progress: real)
    ensures 0.0 <= progress <= 1.0
    ensures 0.0 <= percentage <= 100.0 ==> progress * 100.0 == percentage
    ensures percentage < 0.0 ==> progress == 0.0
    ensures 100.0 < percentage ==> progress == 1.0
  {
    var ratio := percentage / 100.0;
    if ratio < 0.0 then 0.0 else if ratio > 1.0 then 1.0 else ratio
  }

  /** Kotlin `Float.toInt()` on a finite value: the integer part, rounding toward zero. */
  function Truncate(x: real): (t: int)
    ensures 0.0 <= x ==> t as real <= x < t as real + 1.0
    ensures x < 0.0 ==> t as real - 1.0 < x <= t as real
  {
    if 0.0 <= x then x.Floor else -((-x).Floor)
  }

  /** The ring's label: `"${percentage.toInt()}%"`. */
  function PercentLabel(percentage: real): (shown: string)
    ensures 2 <= |shown| && shown[|shown| - 1] == '%'
    ensures ParseInt(shown[..|shown| - 1]) == Truncate(percentage)
    ensures shown[0] == '-' <==> percentage <= -1.0
    ensures forall k :: (if shown[0] == '-' then 1 else 0) <= k < |shown| - 1 ==> IsDigit(shown[k])
    ensures shown[0] == '0' ==> shown == "0%"
    ensures shown[0] == '-' ==> shown[1] != '0'
  {
    var digits := IntToString(Truncate(percentage));
    IntToStringRoundTrip(Truncate(percentage));
    assert (digits + "%")[..|digits|] == digits;
    digits + "%"
  }

  /**
   * On a list whose maximum is positive, a row with a non-negative amount needs
   * no clamping: its ring shows exactly `amount / maxAmount`. The row holding
   * the maximum shows a full ring labelled "100%".
   */
  lemma RingOfRow(list: seq<BudgetEntity>, i: int)
    requires 0 <= i < |list|
    requires MaxAmount(list) > 0.0
    requires 0.0 <= list[i].amount
    ensures RingProgress(Percentage(list[i].amount, MaxAmount(list))) * MaxAmount(list) == list[i].amount
    ensures list[i].amount == MaxAmount(list) ==>
      RingProgress(Percentage(list[i].amount, MaxAmount(list))) == 1.0
      && PercentLabel(Percentage(list[i].amount, MaxAmount(list))) == "100%"
  {
    var m := MaxAmount(list);
    var p := Percentage(list[i].amount, m);
    PercentageBounds(list, i);
    var r := RingProgress(p);
    assert r * 100.0 * m == p * m;
    if list[i].amount == m {
      assert Truncate(100.0) == 100;
      assert IntToString(100) == "100" by {
        assert NatToString(1) == "1";
        assert NatToString(10) == "10";
      }
    }
  }

  /** The budget screen: the two form fields and the list loaded from the table. */
  class BudgetScreen {
    const dao: BudgetDao
    var monthText: string
    var amountText: string
    var budgetList: seq<BudgetEntity>

    ghost predicate Valid()
      reads this, dao
    {
      dao.Valid()
    }

    /** The held list is a complete, newest-first copy of the table. */
    ghost predicate InSync()
      reads this, dao
    {
      Descending(budgetList, BudgetId) && multiset(budgetList) == multiset(dao.rows)
    }

    /** First composition: empty fields, nothing loaded yet. */
    constructor (dao: BudgetDao)
      requires dao.Valid()
      ensures Valid() && this.dao == dao
      ensures monthText == "" && amountText == "" && budgetList == []
    {
      this.dao := dao;
      monthText, amountText := "", "";
      budgetList := [];
    }

    /** The launch effect: `budgetList = dao.getAll()`. */
    method Load()
      requires Valid()
      modifies this
      ensures Valid() && InSync()
      ensures monthText == old(monthText) && amountText == old(amountText)
    {
      budgetList := dao.GetAll();
    }

    /** The month field's `onValueChange`. */
    method EditMonth(text: string)
      requires Valid()
      modifies this
      ensures Valid() && monthText == text
      ensures amountText == old(amountText) && budgetList == old(budgetList)
    {
      monthText := text;
    }

    /** The amount field's `onValueChange`. */
    method EditAmount(text: string)
      requires Valid()
      modifies this
      ensures Valid() && amountText == text
      ensures monthText == old(monthText) && budgetList == old(budgetList)
    {
      amountText := text;
    }

    /**
     * The Save Budget button. `parse` stands for `toFloatOrNull`. Unless the
     * month is non-blank and the amount parses, nothing changes; otherwise the
     * month (verbatim) and amount are inserted as one new row, which heads the
     * refreshed list, and both fields are cleared.
     */
    method Save(parse: string -> Option<real>)
      requires Valid()
      modifies this, dao
      ensures Valid()
      ensures !(!IsBlank(old(monthText)) && parse(old(amountText)).Some?) ==>
        && dao.rows == old(dao.rows) && dao.nextId == old(dao.nextId)
        && budgetList == old(budgetList)
        && monthText == old(monthText) && amountText == old(amountText)
      ensures !IsBlank(old(monthText)) && parse(old(amountText)).Some? ==>
        var row := BudgetEntity(old(dao.nextId), old(monthText), parse(old(amountText)).value);
        && dao.rows == old(dao.rows) + [row]
        && InSync()
        && budgetList[0] == row
        && monthText == "" && amountText == ""
        && dao.nextId == old(dao.nextId) + 1
    {
      var amount := parse(amountText);
      if !IsBlank(monthText) && amount.Some? {
        dao.Insert(monthText, amount.value);
        budgetList := dao.GetAll();
        monthText := "";
        amountText := "";
        ghost var row := dao.rows[|dao.rows| - 1];
        assert row in budgetList by {
          assert row in multiset(dao.rows);
        }
        forall x | x in budgetList && x != row
          ensures BudgetId(x) < BudgetId(row)
        {
          assert x in multiset(dao.rows);
          assert x in old(dao.rows) by {
            assert dao.rows == old(dao.rows) + [row];
          }
        }
        NewestIsHead(budgetList, BudgetId, row);
      }
    }
  }
}
