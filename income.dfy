/**
 * The income screen of the mobile app: a list of income records kept in
 * component state, a form, and the add, edit, delete and search operations
 * that replace the list.
 */
module IncomeLedger {
  import opened Options
  import opened Text
  import opened Sequences
  import Calendar

  datatype IncomeItem = IncomeItem(
    id: int, category: string, description: string, customer: string, amount: real, date: string)

  /** The form's date: none yet, a string carried over from an item, or a Date chosen in the picker. */
  datatype FormDate = Unset | DateText(text: string) | Picked(instant: Calendar.Instant)

  /** `newIncome`. It has an `id` only when it was loaded from an item for editing. */
  datatype IncomeForm = IncomeForm(
    id: Option<int>, category: string, description: string, customer: string, amount: real, date: FormDate)

  /** The form's empty defaults: empty strings, amount 0, no date. */
  const EmptyForm: IncomeForm := IncomeForm(None, "", "", "", 0.0, Unset)

  /** A truthy date: a Date object, or a non-empty string. */
  predicate DateGiven(d: FormDate) {
    match d
    case Unset => false
    case DateText(t) => t != ""
    case Picked(_) => true
  }

  /** The guard of addIncome and editIncome: every field truthy, so "" and an amount of 0 count as missing. */
  predicate Complete(f: IncomeForm) {
    f.category != "" && f.description != "" && f.customer != "" && f.amount != 0.0 && DateGiven(f.date)
  }

  /** The stored date as the screen computes it: `date.toString().split('T')[0]`. */
  function StoredDateAsWritten(d: FormDate): (r: string)
    ensures 'T' !in r
    ensures !d.Picked? ==> r == StoredDate(d)
  {
    match d
    case Unset => ""
    case DateText(t) => BeforeFirst(t, 'T')
    case Picked(i) => BeforeFirst(Calendar.ToDateString(i), 'T')
  }

  /**
   * The stored date as intended: a string is cut at its first 'T' as before,
   * a picked Date is written with `toISOString().split('T')[0]`, as the
   * expense screen and the date fields do. (No date at all is never stored:
   * the guard rejects it.)
   */
  function StoredDate(d: FormDate): (r: string)
    ensures d.DateText? && 'T' !in d.text ==> r == d.text
    ensures d.DateText? ==> |r| <= |d.text| && r == d.text[..|r|] && 'T' !in r
    ensures d.Picked? ==> r == Calendar.IsoDate(d.instant)
  {
    match d
    case Unset => ""
    case DateText(t) => BeforeFirst(t, 'T')
    case Picked(i) => Calendar.IsoStringDatePart(i); BeforeFirst(Calendar.ToIsoString(i), 'T')
  }

  /** A picked date is never stored as its calendar date; on a Tuesday or a Thursday it is stored empty. */
  lemma PickedDateStoredWrongly(i: Calendar.Instant)
    ensures StoredDateAsWritten(Picked(i)) == Calendar.DateStringBeforeT(i)
    ensures StoredDateAsWritten(Picked(i)) != StoredDate(Picked(i))
    ensures Calendar.Weekday(i) == 2 || Calendar.Weekday(i) == 4 ==> StoredDateAsWritten(Picked(i)) == ""
  {
    Calendar.DateStringSplitAtT(i);
    Calendar.DateStringNeverIsoDate(i);
  }

  /** Tuesday 16 January 2024, chosen in the picker, is stored as the empty string instead of "2024-01-16". */
  lemma TuesdayStoredEmpty()
    ensures StoredDateAsWritten(Picked(Calendar.Instant(2024, 1, 16, 0, 0, 0, 0))) == ""
    ensures StoredDate(Picked(Calendar.Instant(2024, 1, 16, 0, 0, 0, 0))) == "2024-01-16"
  {
    var i := Calendar.Instant(2024, 1, 16, 0, 0, 0, 0);
    assert Calendar.Weekday(i) == 2;
    PickedDateStoredWrongly(i);
    Calendar.IsoDateExample();
  }

  /** The record addIncome appends: `{ id, ...newIncome, amount, date }`, so a form id wins over `id`. */
  function NewIncome(f: IncomeForm, count: nat): IncomeItem {
    IncomeItem(f.id.GetOr(count + 1), f.category, f.description, f.customer, f.amount, StoredDate(f.date))
  }

  /** The record editIncome puts in place of a match: `{ ...item, ...newIncome, amount, date }`. */
  function Overlay(f: IncomeForm): IncomeItem -> IncomeItem {
    (item: IncomeItem) =>
      IncomeItem(f.id.GetOr(item.id), f.category, f.description, f.customer, f.amount, StoredDate(f.date))
  }

  function HasId(id: int): IncomeItem -> bool {
    (item: IncomeItem) => item.id == id
  }

  function HasOtherId(id: int): IncomeItem -> bool {
    (item: IncomeItem) => item.id != id
  }

  /** The search predicate: the lower-cased query in the lower-cased category, description or customer. */
  function MatchesQuery(query: string): IncomeItem -> bool {
    (item: IncomeItem) =>
      var q := ToLower(query);
      Includes(ToLower(item.category), q) || Includes(ToLower(item.description), q)
      || Includes(ToLower(item.customer), q)
  }

  /** An item is kept by the search exactly when the query occurs, case aside, in one of its three texts. */
  lemma {:induction false} MatchesQueryIff(item: IncomeItem, query: string)
    ensures MatchesQuery(query)(item) <==>
      (exists i :: OccursAt(ToLower(query), ToLower(item.category), i))
      || (exists i :: OccursAt(ToLower(query), ToLower(item.description), i))
      || (exists i :: OccursAt(ToLower(query), ToLower(item.customer), i))
  {
    assert MatchesQuery(query)(item) == (Includes(ToLower(item.category), ToLower(query))
      || Includes(ToLower(item.description), ToLower(query)) || Includes(ToLower(item.customer), ToLower(query)));
    IncludesIff(ToLower(item.category), ToLower(query));
    IncludesIff(ToLower(item.description), ToLower(query));
    IncludesIff(ToLower(item.customer), ToLower(query));
  }

  /** An empty search keeps every item, in order. */
  lemma EmptySearchKeepsAll(items: seq<IncomeItem>)
    ensures Filter(items, MatchesQuery("")) == items
  {
    forall i | 0 <= i < |items| ensures MatchesQuery("")(items[i]) {
    }
    FilterKeepsAll(items, MatchesQuery(""));
  }

  /** The ids are 1, 2, ..., n in list order, as in the initial list. */
  ghost predicate NumberedFromOne(items: seq<IncomeItem>) {
    forall k :: 0 <= k < |items| ==> items[k].id == k + 1
  }

  /** Without deletions, `length + 1` continues the numbering and is a fresh id. */
  lemma AddContinuesNumbering(items: seq<IncomeItem>, f: IncomeForm)
    requires NumberedFromOne(items) && f.id.None?
    ensures NumberedFromOne(items + [NewIncome(f, |items|)])
    ensures forall k :: 0 <= k < |items| ==> items[k].id != NewIncome(f, |items|).id
  {
  }

  /** After a deletion, `length + 1` can be an id already in the list. */
  lemma AddAfterDeleteRepeatsId(f: IncomeForm)
    requires f.id.None?
    ensures var items := [IncomeItem(1, "a", "b", "c", 1.0, "d"), IncomeItem(2, "a", "b", "c", 1.0, "d")];
            var left := Filter(items, HasOtherId(1));
            left == [items[1]] && NewIncome(f, |left|).id == left[0].id
  {
    var items := [IncomeItem(1, "a", "b", "c", 1.0, "d"), IncomeItem(2, "a", "b", "c", 1.0, "d")];
    assert items[1..][1..] == [];
    assert Filter(items[1..], HasOtherId(1)) == [items[1]];
  }

  class IncomeScreen {
    var history: seq<IncomeItem>
    var form: IncomeForm
    var selected: Option<IncomeItem>
    var showForm: bool
    var editMode: bool
    var searchQuery: string

    /** The form carries an id exactly when an item is selected for editing, and it is that item's id. */
    ghost predicate Valid()
      reads this
    {
      form.id == if selected.Some? then Some(selected.value.id) else None
    }

    /** The state resetForm leaves: empty form, no selection, form closed, not editing. */
    ghost predicate FormCleared()
      reads this
    {
      form == EmptyForm && selected == None && !showForm && !editMode
    }

    /** The screen as first rendered, with its two initial records. */
    constructor ()
      ensures Valid() && FormCleared() && searchQuery == ""
      ensures history == [
        IncomeItem(1, "Pig Sales", "50 pigs sold to local market", "Local Market Co.", 15000.0, "2024-01-15"),
        IncomeItem(2, "Manure Sales", "Organic fertilizer sales", "Garden Center", 800.0, "2024-01-13")]
    {
      history := [
        IncomeItem(1, "Pig Sales", "50 pigs sold to local market", "Local Market Co.", 15000.0, "2024-01-15"),
        IncomeItem(2, "Manure Sales", "Organic fertilizer sales", "Garden Center", 800.0, "2024-01-13")];
      form := EmptyForm;
      selected := None;
      showForm := false;
      editMode := false;
      searchQuery := "";
    }

    /** The Add button: open the form for a new record. */
    method OpenAddForm()
      modifies this`showForm, this`editMode
      ensures showForm && !editMode
    {
      showForm := true;
      editMode := false;
    }

    /** The search box's `onChangeText`: the query becomes the typed text, and the list shows what matches it. */
    method SetSearchQuery(q: string)
      modifies this`searchQuery
      ensures searchQuery == q
    {
      searchQuery := q;
    }

    /** A row's Edit button: select the item and load it, id included, into the form. */
    method BeginEdit(item: IncomeItem)
      modifies this`selected, this`form, this`showForm, this`editMode
      ensures Valid()
      ensures selected == Some(item) && showForm && editMode
      ensures form == IncomeForm(Some(item.id), item.category, item.description, item.customer,
                                 item.amount, DateText(item.date))
    {
      selected := Some(item);
      form := IncomeForm(Some(item.id), item.category, item.description, item.customer,
                         item.amount, DateText(item.date));
      showForm := true;
      editMode := true;
    }

    /** The form's inputs: each change keeps the other keys of `newIncome`, the id among them. */
    method FillForm(category: string, description: string, customer: string, amount: real, date: FormDate)
      requires Valid()
      modifies this`form
      ensures Valid()
      ensures form == IncomeForm(old(form).id, category, description, customer, amount, date)
    {
      form := IncomeForm(form.id, category, description, customer, amount, date);
    }

    /** `addIncome`: refuse an incomplete form, otherwise append one record and reset the form. */
    method AddIncome() returns (ok: bool)
      requires Valid()
      modifies this`history, this`form, this`selected, this`showForm, this`editMode
      ensures Valid()
      ensures ok == Complete(old(form))
      ensures !ok ==> unchanged(this)
      ensures ok ==> history == old(history) + [NewIncome(old(form), |old(history)|)] && FormCleared()
      ensures ok && old(selected).None? ==> history[|history| - 1].id == |old(history)| + 1
    {
      if !Complete(form) {
        return false;
      }
      var id := |history| + 1;
      history := history + [IncomeItem(form.id.GetOr(id), form.category, form.description, form.customer,
                                       form.amount, StoredDate(form.date))];
      ResetForm();
      ok := true;
    }

    /**
     * `editIncome`: refuse without a selection or with an incomplete form;
     * otherwise overlay the form on every record with the selected id.
     */
    method EditIncome() returns (ok: bool)
      requires Valid()
      modifies this`history, this`form, this`selected, this`showForm, this`editMode
      ensures Valid()
      ensures ok == (old(selected).Some? && Complete(old(form)))
      ensures !ok ==> unchanged(this)
      ensures ok ==> history == MapWhere(old(history), HasId(old(selected).value.id), Overlay(old(form)))
      ensures ok ==> |history| == |old(history)|
      ensures ok ==> forall k :: 0 <= k < |history| ==>
        if old(history)[k].id == old(selected).value.id then history[k] == Overlay(old(form))(old(history)[k])
        else history[k] == old(history)[k]
      ensures ok ==> forall k :: 0 <= k < |history| ==> history[k].id == old(history)[k].id
      ensures ok ==> FormCleared()
    {
      if selected.None? || !Complete(form) {
        return false;
      }
      history := MapWhere(history, HasId(selected.value.id), Overlay(form));
      ResetForm();
      ok := true;
    }

    /** The confirmed branch of `deleteIncome`: drop every record with the id. */
    method DeleteIncome(id: int)
      modifies this`history
      ensures history == Filter(old(history), HasOtherId(id))
      ensures forall k :: 0 <= k < |history| ==> history[k].id != id && history[k] in old(history)
      ensures forall k :: 0 <= k < |old(history)| && old(history)[k].id != id ==> old(history)[k] in history
    {
      history := Filter(history, HasOtherId(id));
    }

    /** `resetForm`: empty defaults, no selection, form closed, edit mode off. */
    method ResetForm()
      modifies this`form, this`selected, this`showForm, this`editMode
      ensures Valid() && FormCleared()
    {
      form := EmptyForm;
      selected := None;
      showForm := false;
      editMode := false;
    }

    /** `filteredIncome`: the records the search keeps, in list order. */
    function FilteredIncome(): (r: seq<IncomeItem>)
      reads this
      ensures forall k :: 0 <= k < |r| ==> r[k] in history && MatchesQuery(searchQuery)(r[k])
      ensures forall k :: 0 <= k < |history| && MatchesQuery(searchQuery)(history[k]) ==> history[k] in r
      ensures searchQuery == "" ==> r == history
    {
      if searchQuery == "" then EmptySearchKeepsAll(history); Filter(history, MatchesQuery(searchQuery))
      else Filter(history, MatchesQuery(searchQuery))
    }
  }

  /** Adding to the initial list: an incomplete form is refused, a complete one gets id 3. */
  method AddScenario()
  {
    var screen := new IncomeScreen();
    screen.OpenAddForm();
    var ok := screen.AddIncome();
    assert !ok && |screen.history| == 2;
    screen.FillForm("Egg Sales", "Eggs", "Bakery", 120.0, DateText("2024-02-01"));
    ok := screen.AddIncome();
    assert ok && |screen.history| == 3 && screen.history[2].id == 3;
  }

  /** Editing the first record: an amount of 0 is refused, a new amount replaces the old one. */
  method EditScenario()
  {
    var screen := new IncomeScreen();
    var first := screen.history[0];
    screen.BeginEdit(first);
    screen.FillForm(first.category, first.description, first.customer, 0.0, DateText(first.date));
    var ok := screen.EditIncome();
    assert !ok;
    screen.FillForm(first.category, first.description, first.customer, 16000.0, DateText(first.date));
    ok := screen.EditIncome();
    assert ok && screen.history[0].amount == 16000.0 && screen.history[0].id == 1;
  }

  /** Typing "Manure" in the search box keeps the manure record, whose category starts with it. */
  method SearchScenario()
  {
    var screen := new IncomeScreen();
    screen.SetSearchQuery("Manure");
    var manure := screen.history[1];
    IncludesLoweredPrefix("Manure", manure.category);
    assert manure in screen.FilteredIncome();
  }
}
