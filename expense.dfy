/**
 * The expense screen of the mobile app: a list of expense records in
 * component state, a form, and the submit (add or edit), delete and search
 * operations that replace the list.
 */
module ExpenseLedger {
  import opened Options
  import opened Text
  import opened Sequences

  datatype ExpenseItem = ExpenseItem(
    id: int, category: string, description: string, supplier: string, amount: real, date: string)

  /**
   * `formData`. It has an `id` only when it was loaded from an item by the
   * Edit button. The amount 0 stands for both the empty string and the number 0,
   * which the guard treats alike.
   */
  datatype ExpenseForm = ExpenseForm(
    id: Option<int>, category: string, description: string, supplier: string, amount: real, date: string)

  const EmptyForm: ExpenseForm := ExpenseForm(None, "", "", "", 0.0, "")

  /** The guard of handleSubmit: every field truthy. */
  predicate Complete(f: ExpenseForm) {
    f.category != "" && f.description != "" && f.supplier != "" && f.amount != 0.0 && f.date != ""
  }

  /** The id a new expense gets: one more than the last record's, or 1 for an empty list. */
  function NextId(items: seq<ExpenseItem>): (n: int)
    ensures IdsIncreasing(items) ==> forall k :: 0 <= k < |items| ==> items[k].id < n
  {
    if |items| == 0 then 1 else items[|items| - 1].id + 1
  }

  /** The record add mode appends: `{ ...formData, id: newId, amount }`, so the new id wins. */
  function Appended(f: ExpenseForm, items: seq<ExpenseItem>): ExpenseItem {
    ExpenseItem(NextId(items), f.category, f.description, f.supplier, f.amount, f.date)
  }

  /** The record edit mode puts in place of a match: `{ ...selectedExpense, ...formData, amount }`. */
  function Replacement(f: ExpenseForm, chosen: ExpenseItem): ExpenseItem -> ExpenseItem {
    (e: ExpenseItem) => ExpenseItem(f.id.GetOr(chosen.id), f.category, f.description, f.supplier, f.amount, f.date)
  }

  function HasId(id: int): ExpenseItem -> bool {
    (e: ExpenseItem) => e.id == id
  }

  function HasOtherId(id: int): ExpenseItem -> bool {
    (e: ExpenseItem) => e.id != id
  }

  /** The search predicate: the lower-cased query in the lower-cased description. */
  function MatchesQuery(query: string): ExpenseItem -> bool {
    (e: ExpenseItem) => Includes(ToLower(e.description), ToLower(query))
  }

  /** The search keeps an expense exactly when the query occurs, case aside, in its description. */
  lemma MatchesQueryIff(e: ExpenseItem, query: string)
    ensures MatchesQuery(query)(e) <==> exists i :: OccursAt(ToLower(query), ToLower(e.description), i)
  {
    assert MatchesQuery(query)(e) == Includes(ToLower(e.description), ToLower(query));
    IncludesIff(ToLower(e.description), ToLower(query));
  }

  /** Ids strictly increase along the list; the initial list has 1, 2. */
  ghost predicate IdsIncreasing(items: seq<ExpenseItem>) {
    forall i, j :: 0 <= i < j < |items| ==> items[i].id < items[j].id
  }

  /** Strictly increasing ids are pairwise distinct. */
  lemma IncreasingIdsAreUnique(items: seq<ExpenseItem>)
    requires IdsIncreasing(items)
    ensures forall i, j :: 0 <= i < |items| && 0 <= j < |items| && i != j ==> items[i].id != items[j].id
  {
  }

  /** Appending with last id + 1 keeps the ids increasing, and the new id is not in the list. */
  lemma AppendKeepsIdsIncreasing(items: seq<ExpenseItem>, f: ExpenseForm)
    requires IdsIncreasing(items)
    ensures IdsIncreasing(items + [Appended(f, items)])
    ensures forall k :: 0 <= k < |items| ==> items[k].id < Appended(f, items).id
  {
  }

  /** A record whose id is below every id of an increasing list can go in front of it. */
  lemma PrependKeepsIdsIncreasing(x: ExpenseItem, rest: seq<ExpenseItem>)
    requires IdsIncreasing(rest)
    requires forall k :: 0 <= k < |rest| ==> x.id < rest[k].id
    ensures IdsIncreasing([x] + rest)
  {
    var r := [x] + rest;
    forall i, j | 0 <= i < j < |r| ensures r[i].id < r[j].id {
      assert r[j] == rest[j - 1];
      if i > 0 {
        assert r[i] == rest[i - 1];
      }
    }
  }

  /** Deleting by id keeps the ids increasing. */
  lemma {:induction false} DeleteKeepsIdsIncreasing(items: seq<ExpenseItem>, id: int)
    requires IdsIncreasing(items)
    ensures IdsIncreasing(Filter(items, HasOtherId(id)))
  {
    if items != [] {
      var tail := items[1..];
      assert IdsIncreasing(tail) by {
        forall i, j | 0 <= i < j < |tail| ensures tail[i].id < tail[j].id {
          assert tail[i] == items[i + 1] && tail[j] == items[j + 1];
        }
      }
      DeleteKeepsIdsIncreasing(tail, id);
      var rest := Filter(tail, HasOtherId(id));
      assert Filter(items, HasOtherId(id)) == (if HasOtherId(id)(items[0]) then [items[0]] else []) + rest;
      if HasOtherId(id)(items[0]) {
        forall k | 0 <= k < |rest| ensures items[0].id < rest[k].id {
          var j :| 0 <= j < |tail| && tail[j] == rest[k];
          assert tail[j] == items[j + 1];
        }
        PrependKeepsIdsIncreasing(items[0], rest);
      } else {
        assert Filter(items, HasOtherId(id)) == rest;
      }
    }
  }

  /** Replacing the records with the selected id by one carrying that id leaves every id in place. */
  lemma EditKeepsIds(items: seq<ExpenseItem>, f: ExpenseForm, chosen: ExpenseItem)
    requires f.id == Some(chosen.id)
    ensures var r := MapWhere(items, HasId(chosen.id), Replacement(f, chosen));
      forall k :: 0 <= k < |items| ==> r[k].id == items[k].id
  {
  }

  class ExpenseScreen {
    var history: seq<ExpenseItem>
    var form: ExpenseForm
    var selected: Option<ExpenseItem>
    var showForm: bool
    var searchQuery: string

    /** Ids increase along the list, and the form carries exactly the selected item's id. */
    ghost predicate Valid()
      reads this
    {
      IdsIncreasing(history) && form.id == if selected.Some? then Some(selected.value.id) else None
    }

    /** The state after a submit or a cancel: empty form, nothing selected, form closed. */
    ghost predicate FormCleared()
      reads this
    {
      form == EmptyForm && selected == None && !showForm
    }

    /** The screen as first rendered, with its two initial records. */
    constructor ()
      ensures Valid() && FormCleared() && searchQuery == ""
      ensures history == [
        ExpenseItem(1, "Feed", "Purchase of pig feed", "Farm Supply Co.", 5000.0, "2024-01-15"),
        ExpenseItem(2, "Equipment", "New tractor repair", "Machinery Inc.", 3000.0, "2024-01-13")]
    {
      history := [
        ExpenseItem(1, "Feed", "Purchase of pig feed", "Farm Supply Co.", 5000.0, "2024-01-15"),
        ExpenseItem(2, "Equipment", "New tractor repair", "Machinery Inc.", 3000.0, "2024-01-13")];
      form := EmptyForm;
      selected := None;
      showForm := false;
      searchQuery := "";
    }

    /**
     * The Add Expense button: only show the form. A selection made by Edit
     * stays, so a submit after it still edits that record.
     */
    method OpenForm()
      requires Valid()
      modifies this`showForm
      ensures Valid()
      ensures showForm
    {
      showForm := true;
    }

    /** The search box's `onChangeText`: the query becomes the typed text, and the list shows what matches it. */
    method SetSearchQuery(q: string)
      modifies this`searchQuery
      ensures searchQuery == q
    {
      searchQuery := q;
    }

    /** `handleEdit`: select the item and load it, id included, into the form. */
    method HandleEdit(item: ExpenseItem)
      requires Valid()
      modifies this`selected, this`form, this`showForm
      ensures Valid()
      ensures selected == Some(item) && showForm
      ensures form == ExpenseForm(Some(item.id), item.category, item.description, item.supplier, item.amount, item.date)
    {
      selected := Some(item);
      form := ExpenseForm(Some(item.id), item.category, item.description, item.supplier, item.amount, item.date);
      showForm := true;
    }

    /** The form's inputs: each change keeps the other keys of `formData`, the id among them. */
    method FillForm(category: string, description: string, supplier: string, amount: real, date: string)
      requires Valid()
      modifies this`form
      ensures Valid()
      ensures form == ExpenseForm(old(form).id, category, description, supplier, amount, date)
    {
      form := ExpenseForm(form.id, category, description, supplier, amount, date);
    }

    /**
     * `handleSubmit`: refuse an incomplete form; with a selection, replace the
     * records carrying its id; without one, append a record with the next id.
     * Either way the form is then cleared.
     */
    method HandleSubmit() returns (ok: bool)
      requires Valid()
      modifies this`history, this`form, this`selected, this`showForm
      ensures Valid()
      ensures ok == Complete(old(form))
      ensures !ok ==> unchanged(this)
      ensures ok && old(selected).Some? ==>
        && history == MapWhere(old(history), HasId(old(selected).value.id), Replacement(old(form), old(selected).value))
        && |history| == |old(history)|
        && (forall k :: 0 <= k < |history| ==> history[k].id == old(history)[k].id)
        && (forall k :: 0 <= k < |history| && old(history)[k].id != old(selected).value.id ==>
              history[k] == old(history)[k])
      ensures ok && old(selected).None? ==> history == old(history) + [Appended(old(form), old(history))]
      ensures ok && old(selected).None? ==> history[|history| - 1].id == NextId(old(history))
      ensures ok ==> FormCleared()
    {
      if !Complete(form) {
        return false;
      }
      if selected.Some? {
        EditKeepsIds(history, form, selected.value);
        history := MapWhere(history, HasId(selected.value.id), Replacement(form, selected.value));
      } else {
        AppendKeepsIdsIncreasing(history, form);
        var newId := if |history| > 0 then history[|history| - 1].id + 1 else 1;
        history := history + [ExpenseItem(newId, form.category, form.description, form.supplier, form.amount, form.date)];
      }
      form := EmptyForm;
      selected := None;
      showForm := false;
      ok := true;
    }

    /** The Cancel button: close the form, drop the selection, empty the form. */
    method Cancel()
      requires Valid()
      modifies this`form, this`selected, this`showForm
      ensures Valid() && FormCleared()
    {
      showForm := false;
      selected := None;
      form := EmptyForm;
    }

    /** The confirmed branch of `handleDelete`: drop every record with the id. */
    method HandleDelete(id: int)
      requires Valid()
      modifies this`history
      ensures Valid()
      ensures history == Filter(old(history), HasOtherId(id))
      ensures forall k :: 0 <= k < |history| ==> history[k].id != id && history[k] in old(history)
      ensures forall k :: 0 <= k < |old(history)| && old(history)[k].id != id ==> old(history)[k] in history
    {
      DeleteKeepsIdsIncreasing(history, id);
      history := Filter(history, HasOtherId(id));
    }

    /** `filteredExpenses`: the records whose description contains the query, case aside, in list order. */
    function FilteredExpenses(): (r: seq<ExpenseItem>)
      reads this
      ensures forall k :: 0 <= k < |r| ==> r[k] in history && MatchesQuery(searchQuery)(r[k])
      ensures forall k :: 0 <= k < |history| && MatchesQuery(searchQuery)(history[k]) ==> history[k] in r
    {
      Filter(history, MatchesQuery(searchQuery))
    }
  }

  /** Delete then add: the new id follows the last one, so it never repeats. */
  method SubmitScenario()
  {
    var screen := new ExpenseScreen();
    var initial := screen.history;
    screen.HandleDelete(2);
    assert initial[1..] == [initial[1]] && [initial[1]][1..] == [];
    assert screen.history == [initial[0]];
    screen.FillForm("Labor", "Harvest help", "Day crew", 450.0, "2024-02-03");
    var ok := screen.HandleSubmit();
    assert ok && screen.history[|screen.history| - 1].id == 2;
    IncreasingIdsAreUnique(screen.history);
  }

  /** Typing "Purchase" in the search box keeps the feed record, whose description starts with it. */
  method SearchScenario()
  {
    var screen := new ExpenseScreen();
    screen.SetSearchQuery("Purchase");
    var feed := screen.history[0];
    IncludesLoweredPrefix("Purchase", feed.description);
    assert feed in screen.FilteredExpenses();
  }
}
