/**
 * The savings feature: `savings_table` with its DAO, the screen's form state
 * and Save handler, the derived total and the goal-card progress ratio.
 */
module Savings {
  import opened Wrappers
  import opened RoomTable

  /** One row of `savings_table`. */
  datatype SavingsEntity = SavingsEntity(id: int, category: string, amount: real, timestamp: string)

  /** The primary key of a row. */
  function SavingsId(e: SavingsEntity): int
  {
    e.id
  }

  /** The table behind `SavingsDao`: rows in insertion order and the id the next insert receives. */
  class SavingsDao {
    var rows: seq<SavingsEntity>
    var nextId: int

    /** Generated ids start at 1, ascend in insertion order and stay below `nextId`. */
    ghost predicate Valid()
      reads this
    {
      && 1 <= nextId
      && Ascending(rows, SavingsId)
      && forall i :: 0 <= i < |rows| ==> 1 <= rows[i].id < nextId
    }

    constructor ()
      ensures Valid() && rows == [] && nextId == 1
    {
      rows, nextId := [], 1;
    }

    /** `insert` of an entity with the default id 0: the table generates a key above every key it holds. */
    method Insert(category: string, amount: real, timestamp: string)
      requires Valid()
      modifies this
      ensures Valid()
      ensures rows == old(rows) + [SavingsEntity(old(nextId), category, amount, timestamp)]
      ensures forall e :: e in old(rows) ==> e.id < old(nextId)
      ensures nextId == old(nextId) + 1
    {
      rows := rows + [SavingsEntity(nextId, category, amount, timestamp)];
      nextId := nextId + 1;
    }

    /** `getAll`: `SELECT * FROM savings_table ORDER BY id DESC`. */
    method GetAll() returns (all: seq<SavingsEntity>)
      requires Valid()
      ensures Descending(all, SavingsId)
      ensures multiset(all) == multiset(rows)
    {
      all := Reverse(rows);
      ReverseIsNewestFirst(rows, SavingsId);
    }
  }

  /** `totalSavings`: `savingsList.sumOf { it.amount }`, summed from the front. */
  function TotalSavings(list: seq<SavingsEntity>): (total: real)
    ensures list == [] ==> total == 0.0
    ensures (forall i :: 0 <= i < |list| ==> 0.0 <= list[i].amount) ==>
      0.0 <= total && forall i :: 0 <= i < |list| ==> list[i].amount <= total
  {
    if list == [] then 0.0 else TotalSavings(list[..|list| - 1]) + list[|list| - 1].amount
  }

  lemma {:induction false} TotalSavingsAppend(a: seq<SavingsEntity>, b: seq<SavingsEntity>)
    ensures TotalSavings(a + b) == TotalSavings(a) + TotalSavings(b)
    decreases |b|
  {
    if b != [] {
      assert (a + b)[..|a + b| - 1] == a + b[..|b| - 1];
      TotalSavingsAppend(a, b[..|b| - 1]);
    } else {
      assert a + b == a;
    }
  }

  /** The total does not depend on the order of the list: any permutation sums to the same amount. */
  lemma {:induction false} TotalSavingsPermutation(a: seq<SavingsEntity>, b: seq<SavingsEntity>)
    requires multiset(a) == multiset(b)
    ensures TotalSavings(a) == TotalSavings(b)
    decreases |a|
  {
    if a != [] {
      var last := a[|a| - 1];
      assert a == a[..|a| - 1] + [last];
      assert last in multiset(b);
      var k :| 0 <= k < |b| && b[k] == last;
      var rest := b[..k] + b[k + 1..];
      assert b == b[..k] + [last] + b[k + 1..];
      calc {
        multiset(a[..|a| - 1]);
        multiset(a) - multiset{last};
        multiset(b) - multiset{last};
        multiset(rest);
      }
      TotalSavingsPermutation(a[..|a| - 1], rest);
      TotalSavingsAppend(b[..k] + [last], b[k + 1..]);
      TotalSavingsAppend(b[..k], [last]);
      TotalSavingsAppend(b[..k], b[k + 1..]);
      assert [last][..0] == [];
    } else {
      assert |b| == |multiset(b)| == 0;
    }
  }

  /** The categories offered by the dropdown, in order. */
  const Categories: seq<string> := ["Emergency Fund", "Vacation", "New Laptop", "Other"]

  /** The savings screen: form fields and the list loaded from the table. */
  class SavingsScreen {
    const dao: SavingsDao
    var amountText: string
    var selectedCategory: string
    var savingsList: seq<SavingsEntity>

    /** The table is well formed and the category is one the dropdown offers. */
    ghost predicate Valid()
      reads this, dao
    {
      dao.Valid() && selectedCategory in Categories
    }

    /** The held list is a complete, newest-first copy of the table. */
    ghost predicate InSync()
      reads this, dao
    {
      Descending(savingsList, SavingsId) && multiset(savingsList) == multiset(dao.rows)
    }

    /** First composition: empty amount, the first category, nothing loaded yet. */
    constructor (dao: SavingsDao)
      requires dao.Valid()
      ensures Valid() && this.dao == dao
      ensures amountText == "" && selectedCategory == "Emergency Fund" && savingsList == []
    {
      this.dao := dao;
      amountText := "";
      selectedCategory := Categories[0];
      savingsList := [];
    }

    /** The launch effect: `savingsList = dao.getAll()`. */
    method Load()
      requires Valid()
      modifies this
      ensures Valid() && InSync()
      ensures amountText == old(amountText) && selectedCategory == old(selectedCategory)
    {
      savingsList := dao.GetAll();
    }

    /** The amount field's `onValueChange`. */
    method EditAmount(text: string)
      requires Valid()
      modifies this
      ensures Valid() && amountText == text
      ensures selectedCategory == old(selectedCategory) && savingsList == old(savingsList)
    {
      amountText := text;
    }

    /** A dropdown item's `onClick`: only the listed categories can be chosen. */
    method SelectCategory(category: string)
      requires Valid() && category in Categories
      modifies this
      ensures Valid() && selectedCategory == category
      ensures amountText == old(amountText) && savingsList == old(savingsList)
    {
      selectedCategory := category;
    }

    /**
     * The Save button. `parse` stands for `toDoubleOrNull` and `timestamp` for
     * the formatted clock reading. An unparsable amount changes nothing; a
     * parsed one is inserted as one new row, which heads the refreshed list, and
     * the amount field is cleared.
     */
    method Save(parse: string -> Option<real>, timestamp: string)
      requires Valid()
      modifies this, dao
      ensures Valid()
      ensures selectedCategory == old(selectedCategory)
      ensures parse(old(amountText)).None? ==>
        && dao.rows == old(dao.rows) && dao.nextId == old(dao.nextId)
        && savingsList == old(savingsList) && amountText == old(amountText)
      ensures parse(old(amountText)).Some? ==>
        var row := SavingsEntity(old(dao.nextId), old(selectedCategory), parse(old(amountText)).value, timestamp);
        && dao.rows == old(dao.rows) + [row]
        && InSync()
        && savingsList[0] == row
        && TotalSavings(savingsList) == TotalSavings(old(dao.rows)) + row.amount
        && amountText == ""
        && dao.nextId == old(dao.nextId) + 1
    {
      match parse(amountText)
      case None =>
      case Some(amt) =>
        dao.Insert(selectedCategory, amt, timestamp);
        savingsList := dao.GetAll();
        amountText := "";
        ghost var row := dao.rows[|dao.rows| - 1];
        assert row in savingsList by {
          assert row in multiset(dao.rows);
        }
        forall x | x in savingsList && x != row
          ensures SavingsId(x) < SavingsId(row)
        {
          assert x in multiset(dao.rows);
          assert x in old(dao.rows) by {
            assert dao.rows == old(dao.rows) + [row];
          }
        }
        NewestIsHead(savingsList, SavingsId, row);
        TotalSavingsPermutation(savingsList, dao.rows);
        TotalSavingsAppend(old(dao.rows), [row]);
        assert [row][..0] == [];
    }
  }

  /**
   * `GoalCard`'s progress `current.toFloat() / target`: scaled back by the
   * target it gives the current amount, and it lies in [0, 1] while the goal
   * is not exceeded.
   */
  function GoalProgress(current: int, target: int): (progress: real)
    requires target != 0
    ensures progress * target as real == current as real
    ensures 0 <= current <= target ==> 0.0 <= progress <= 1.0
  {
    current as real / target as real
  }
}
