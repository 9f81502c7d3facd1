/** The in-memory ledger of one kind, kept in step with its snapshot in
    key-value storage: load, save, add on submit, remove by position
    (delete and edit) and remove by name. */
module Ledgers {
  import opened Wrappers
  import opened Records

  // ---------------------------------------------------------------------------
  // Removal by position: `list.splice(index, 1)`
  // ---------------------------------------------------------------------------

  /** Where `splice(index, 1)` starts on a list of length `len`: a negative
      index counts back from the end (and stops at 0), an index past the end
      stops at the end. */
  function SpliceStart(len: nat, index: int): (k: nat)
    ensures k <= len
    ensures 0 <= index <= len ==> k == index
    ensures index < 0 <= len + index ==> k == len + index
    ensures len + index < 0 ==> k == 0
    ensures len < index ==> k == len
  {
    if index < 0 then (if len + index < 0 then 0 else len + index)
    else if index > len then len
    else index
  }

  /** The list after `splice(index, 1)`: the record at the normalised start
      is dropped, if there is one there. Exactly one record goes when the
      list is not empty and the index is below its length (a negative index
      always lands on a record); otherwise nothing does. */
  function RemoveAt(s: seq<Transaction>, index: int): (r: seq<Transaction>)
    ensures |r| == if s != [] && index < |s| then |s| - 1 else |s|
    ensures multiset(r) <= multiset(s)
  {
    var k := SpliceStart(|s|, index);
    if k < |s| then
      assert s == s[..k] + [s[k]] + s[k + 1..];
      s[..k] + s[k + 1..]
    else s
  }

  /** An index shown on a row (0 <= i < |s|) removes exactly that record:
      one fewer, everything before it in place, everything after it moved
      down by one, and the removed record is the only one missing. */
  lemma RemoveAtInRange(s: seq<Transaction>, i: int)
    requires 0 <= i < |s|
    ensures |RemoveAt(s, i)| == |s| - 1
    ensures forall k :: 0 <= k < i ==> RemoveAt(s, i)[k] == s[k]
    ensures forall k :: i <= k < |s| - 1 ==> RemoveAt(s, i)[k] == s[k + 1]
    ensures multiset(RemoveAt(s, i)) + multiset{s[i]} == multiset(s)
  {
    assert s == s[..i] + [s[i]] + s[i + 1..];
  }

  /** An index at or past the end removes nothing. */
  lemma RemoveAtPastEnd(s: seq<Transaction>, i: int)
    requires |s| <= i
    ensures RemoveAt(s, i) == s
  {
  }

  /** A negative index within the length removes the record that many places
      from the end; one further back removes the first record (if any). */
  lemma RemoveAtNegative(s: seq<Transaction>, i: int)
    requires i < 0 && s != []
    ensures -|s| <= i ==> RemoveAt(s, i) == s[..|s| + i] + s[|s| + i + 1..]
    ensures i < -|s| ==> RemoveAt(s, i) == s[1..]
  {
  }

  // ---------------------------------------------------------------------------
  // Removal by name: `list.filter(t => t.name !== name)`
  // ---------------------------------------------------------------------------

  /** The records whose name differs from `n`, in their original order. */
  function WithoutName(s: seq<Transaction>, n: string): (r: seq<Transaction>)
    ensures |r| <= |s|
    ensures forall t :: t in r ==> t in s && t.name != n
  {
    if s == [] then []
    else (if s[0].name == n then [] else [s[0]]) + WithoutName(s[1..], n)
  }

  /** Removing by name distributes over concatenation: what is kept from the
      front stays in front of what is kept from the back, so the survivors
      keep their relative order. */
  lemma {:induction false} WithoutNameAppend(a: seq<Transaction>, b: seq<Transaction>, n: string)
    ensures WithoutName(a + b, n) == WithoutName(a, n) + WithoutName(b, n)
  {
    if a == [] {
      assert a + b == b;
    } else {
      assert (a + b)[0] == a[0];
      assert (a + b)[1..] == a[1..] + b;
      WithoutNameAppend(a[1..], b, n);
    }
  }

  /** Every record with another name survives as often as it occurred, and
      no record named `n` survives: all records sharing the name go together. */
  lemma {:induction false} WithoutNameCounts(s: seq<Transaction>, n: string, t: Transaction)
    ensures multiset(WithoutName(s, n))[t] == if t.name == n then 0 else multiset(s)[t]
  {
    if s != [] {
      WithoutNameCounts(s[1..], n, t);
      assert s == [s[0]] + s[1..];
    }
  }

  /** A list with no record named `n` is left exactly as it is. */
  lemma {:induction false} WithoutNameAbsent(s: seq<Transaction>, n: string)
    requires forall t :: t in s ==> t.name != n
    ensures WithoutName(s, n) == s
  {
    if s != [] {
      assert s[0] in s;
      assert forall t :: t in s[1..] ==> t in s;
      WithoutNameAbsent(s[1..], n);
    }
  }

  /** Deleting the same name twice changes nothing the second time. */
  lemma WithoutNameIdempotent(s: seq<Transaction>, n: string)
    ensures WithoutName(WithoutName(s, n), n) == WithoutName(s, n)
  {
    WithoutNameAbsent(WithoutName(s, n), n);
  }

  // ---------------------------------------------------------------------------
  // Storage and the ledger
  // ---------------------------------------------------------------------------

  /** Durable key-value storage: each key holds a snapshot of a whole list of
      records. The serialized text form is not modelled. */
  class Storage {
    var data: map<string, seq<Transaction>>

    constructor (initial: map<string, seq<Transaction>>)
      ensures data == initial
    {
      data := initial;
    }
  }

  /** One ledger: the list of records of one kind, and the storage it
      shares with the other ledger, in which it owns the key `kind.Key()`. */
  class Ledger {
    const kind: Kind
    const store: Storage
    var items: seq<Transaction>

    /** The snapshot under this ledger's key is the list in memory. */
    predicate Synced()
      reads this, store
    {
      kind.Key() in store.data && store.data[kind.Key()] == items
    }

    /** `let expenses = [];` / `let incomes = [];` before anything is loaded. */
    constructor (kind: Kind, store: Storage)
      ensures this.kind == kind && this.store == store && items == []
    {
      this.kind := kind;
      this.store := store;
      items := [];
    }

    /** Rewrites the whole snapshot from the list; other keys are untouched. */
    method Save()
      modifies store
      ensures store.data == old(store.data)[kind.Key() := items]
      ensures Synced()
    {
      store.data := store.data[kind.Key() := items];
    }

    /** Loads the list from its snapshot. With a snapshot present the list
        becomes that snapshot. With none, the expense ledger starts from the
        three seed records and the income ledger keeps the list it has (empty
        at start-up); either way that list is then written as the snapshot. */
    method Load()
      modifies this, store
      ensures kind.Key() in old(store.data) ==> items == old(store.data)[kind.Key()]
      ensures kind.Key() !in old(store.data) ==>
                items == (if kind == Expense then Seed() else old(items))
      ensures store.data == old(store.data)[kind.Key() := items]
      ensures Synced()
    {
      var key := kind.Key();
      if key in store.data {
        items := store.data[key];
        if kind == Expense {
          Save();
        }
      } else {
        if kind == Expense {
          items := Seed();
        }
        Save();
      }
    }

    /** The submit handler. A blank name, category or date, or an amount
        that is not a number (`None`), rejects the submission and changes
        nothing; otherwise the new record is appended and the snapshot
        rewritten. `added` tells which notice the user sees. */
    method Submit(name: string, category: string, amount: Option<int>, date: string)
      returns (added: bool)
      modifies this, store
      ensures added <==> name != "" && category != "" && amount.Some? && date != ""
      ensures added ==> items == old(items) + [Transaction(name, category, amount.value, date)]
      ensures added ==> store.data == old(store.data)[kind.Key() := items]
      ensures !added ==> items == old(items) && store.data == old(store.data)
    {
      if name == "" || category == "" || amount.None? || date == "" {
        return false;
      }
      items := items + [Transaction(name, category, amount.value, date)];
      Save();
      added := true;
    }

    /** Delete by position: `splice(index, 1)`, then the snapshot is rewritten. */
    method DeleteAt(index: int)
      modifies this, store
      ensures items == RemoveAt(old(items), index)
      ensures store.data == old(store.data)[kind.Key() := items]
    {
      items := RemoveAt(items, index);
      Save();
    }

    /** Edit by position: the record at `index` is returned to pre-fill the
        form and removed exactly as a delete at `index` would. Reading a
        position that holds no record fails before anything is removed, so
        then nothing changes and nothing is returned. */
    method EditAt(index: int) returns (prefill: Option<Transaction>)
      modifies this, store
      ensures 0 <= index < |old(items)| ==>
                prefill == Some(old(items)[index]) &&
                items == RemoveAt(old(items), index) &&
                store.data == old(store.data)[kind.Key() := items]
      ensures !(0 <= index < |old(items)|) ==>
                prefill == None && items == old(items) && store.data == old(store.data)
    {
      if !(0 <= index < |items|) {
        return None;
      }
      prefill := Some(items[index]);
      DeleteAt(index);
    }

    /** Delete by name: every record with that name goes, then the snapshot
        is rewritten. */
    method DeleteByName(name: string)
      modifies this, store
      ensures items == WithoutName(old(items), name)
      ensures store.data == old(store.data)[kind.Key() := items]
    {
      items := WithoutName(items, name);
      Save();
    }
  }

  /** Saving and then loading gives back the same list, for either kind. */
  method SaveThenLoad(l: Ledger)
    modifies l, l.store
    ensures l.items == old(l.items)
    ensures l.store.data == old(l.store.data)[l.kind.Key() := l.items]
  {
    l.Save();
    l.Load();
  }

  /** The operations that change a ledger, as the page invokes them. */
  datatype Action =
    | LoadAction
    | SaveAction
    | SubmitAction(name: string, category: string, amount: Option<int>, date: string)
    | DeleteAtAction(index: int)
    | EditAtAction(index: int)
    | DeleteByNameAction(name: string)

  /** Whatever one ledger does, the other ledger's list stays in step with
      its snapshot: the two keys differ, and each operation writes only its
      own ledger's key. */
  method ActionLeavesOtherLedger(l: Ledger, other: Ledger, action: Action)
    requires l.store == other.store && l.kind != other.kind
    requires other.Synced()
    modifies l, l.store
    ensures other.Synced()
    ensures other.items == old(other.items)
  {
    KeysDiffer();
    match action
    case LoadAction => l.Load();
    case SaveAction => l.Save();
    case SubmitAction(name, category, amount, date) =>
      var _ := l.Submit(name, category, amount, date);
    case DeleteAtAction(index) => l.DeleteAt(index);
    case EditAtAction(index) =>
      var _ := l.EditAt(index);
    case DeleteByNameAction(name) => l.DeleteByName(name);
  }
}
