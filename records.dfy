/** The transaction record both ledgers hold, and what tells the two ledgers apart. */
module Records {

  /** One expense or income: `{ name, category, amount, date }`.
      The amount is held in integer cents (a whole number of agorot) and the
      date is the ISO text `YYYY-MM-DD` the form supplies, as stored. */
  datatype Transaction = Transaction(name: string, category: string, amount: int, date: string)

  /** Which of the two ledgers; each owns one storage key. */
  datatype Kind = Expense | Income {

    /** The storage key under which this ledger's snapshot lives. */
    function Key(): (k: string)
      ensures k == "expenses" <==> this == Expense
    {
      match this
      case Expense => "expenses"
      case Income => "incomes"
    }
  }

  /** The three sample expenses a first visit starts with. */
  function Seed(): seq<Transaction>
  {
    [ Transaction("Lunch", "Food", 1299, "2024-10-20"),
      Transaction("Uber", "Transportation", 850, "2024-10-21"),
      Transaction("Movie Ticket", "Entertainment", 1500, "2024-10-22") ]
  }

  /** The two ledgers never share a snapshot. */
  lemma KeysDiffer()
    ensures Expense.Key() != Income.Key()
  {
    assert Expense.Key()[0] == 'e' && Income.Key()[0] == 'i';
  }
}
