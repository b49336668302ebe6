/**
 * The two ingredient forms, adding and editing. Each holds the form data as a plain
 * object that field changes replace key by key; submission is refused when the name or
 * the unit is empty or the quantity is at most zero, and otherwise hands over the form
 * data as it stands.
 */
module IngredientForms {
  import opened Wrappers
  import opened Strings
  import opened JsValues
  import opened IngredientTypes
  import opened IngredientOptions

  /** The submit guard: an empty name, an empty unit or a quantity at most zero blocks. */
  predicate SubmitBlocked(form: Record)
  {
    !Truthy(Get(form, "name")) || !Truthy(Get(form, "unit")) || AtMostZero(Get(form, "quantity"))
  }

  /** What the form hands over on submit: nothing when blocked, else the form data itself. */
  function Submission(form: Record): (submitted: Option<Record>)
    ensures submitted.None? <==> SubmitBlocked(form)
    ensures submitted.Some? ==> submitted.value == form
  {
    if SubmitBlocked(form) then None else Some(form)
  }

  /** The quantity box: an emptied box reads 0, anything else through `parseInt`. */
  function QuantityInput(text: string): (n: Number)
    ensures text == "" ==> n == Num(0.0)
    ensures text != "" ==> n == ParseInt(text)
  {
    if text == "" then Num(0.0) else ParseInt(text)
  }

  /** An emptied quantity box always blocks submission, whatever else the form holds. */
  lemma EmptiedQuantityBlocks(form: Record)
    ensures SubmitBlocked(form["quantity" := JNum(QuantityInput(""))])
  {
    var f := form["quantity" := JNum(QuantityInput(""))];
    assert Get(f, "quantity") == Some(JNum(Num(0.0)));
  }

  /** A typed negative integer blocks submission. */
  lemma NegativeQuantityBlocks(form: Record, ds: string)
    requires |ds| >= 1 && forall i :: 0 <= i < |ds| ==> IsDigit(ds[i])
    ensures SubmitBlocked(form["quantity" := JNum(QuantityInput("-" + ds))])
  {
    ParseIntOfMinus(ds);
    assert LeadingDigits(ds) != [];
    var f := form["quantity" := JNum(QuantityInput("-" + ds))];
    assert Get(f, "quantity") == Some(JNum(ParseUnsigned(true, ds)));
  }

  /** The box shows the quantity's text; typing an integer's text back gives that integer. */
  lemma QuantityReadsBack(q: int)
    ensures QuantityInput(IntToString(q)) == Num(q as real)
    ensures QuantityInput("") == Num(0.0)
  {
    ParseIntOfIntToString(q);
    IntToStringNonEmpty(q);
  }

  lemma IntToStringNonEmpty(q: int)
    ensures IntToString(q) != ""
  {
  }

  /**
   * A text with no leading digit (".5" say) reads as NaN, and NaN is not at most zero: with
   * a name and a unit, the form is handed over with a quantity that is not a number.
   */
  lemma NonNumericQuantityPasses(form: Record)
    requires Truthy(Get(form, "name")) && Truthy(Get(form, "unit"))
    ensures QuantityInput(".5") == NaN
    ensures Submission(form["quantity" := JNum(QuantityInput(".5"))]).Some?
  {
    NoLeadingDigitIsNaN(".5");
    var f := form["quantity" := JNum(NaN)];
    assert Get(f, "quantity") == Some(JNum(NaN));
    assert Get(f, "name") == Get(form, "name") && Get(f, "unit") == Get(form, "unit");
  }

  /** A text starting with neither a digit, a sign nor whitespace reads as NaN. */
  lemma NoLeadingDigitIsNaN(text: string)
    requires text != [] && !IsDigit(text[0]) && !IsJsWhitespace(text[0])
    requires text[0] != '-' && text[0] != '+'
    ensures QuantityInput(text) == NaN
  {
    assert TrimStart(text) == text;
    assert LeadingDigits(text) == [];
  }

  /** The add form's first contents: empty name and notes, one of the first unit, in the first category. */
  function InitialForm(now: int): (form: Record)
    ensures Get(form, "name") == Some(JStr("")) && Get(form, "notes") == Some(JStr(""))
    ensures Get(form, "quantity") == Some(JNum(Num(1.0)))
    ensures Get(form, "category") == Some(JStr(CategoryLabel(CategoryOptions[0])))
    ensures Get(form, "unit") == Some(JStr(UnitLabel(UnitOptions[0])))
  {
    map[
      "id" := JStr(""),
      "user_id" := JStr(""),
      "created_at" := JDate(now),
      "updated_at" := JDate(now),
      "name" := JStr(""),
      "category" := JStr(CategoryLabel(CategoryOptions[0])),
      "quantity" := JNum(Num(1.0)),
      "unit" := JStr(UnitLabel(UnitOptions[0])),
      "expiration_date" := JDate(now),
      "notes" := JStr("")
    ]
  }

  /**
   * The initial add form is a well-formed ingredient object (野菜, one 個, expiring now), and
   * it is blocked only by its empty name: typing any name makes it submittable.
   */
  lemma InitialFormShape(now: int, name: string)
    requires name != ""
    ensures FromObject(InitialForm(now)) ==
              Some(Ingredient("", "", "", Num(1.0), Piece, now, now, now, None, Vegetable, Some(""), None))
    ensures SubmitBlocked(InitialForm(now))
    ensures !SubmitBlocked(InitialForm(now)["name" := JStr(name)])
  {
    var i := Ingredient("", "", "", Num(1.0), Piece, now, now, now, None, Vegetable, Some(""), None);
    FromObjectOfFields(InitialForm(now), i);
    var f := InitialForm(now)["name" := JStr(name)];
    assert Get(f, "unit") == Get(InitialForm(now), "unit");
    assert Get(f, "quantity") == Get(InitialForm(now), "quantity");
  }

  /** The edit form's unit choices: all seven units, in declaration order. */
  const EditUnitChoices: seq<Unit> := [Piece, Gram, Milliliter, Bunch, Stick, Sheet, Pack]

  /** The edit form's category choices: only vegetables, meat and fish. */
  const EditCategoryChoices: seq<Category> := [Vegetable, Meat, Fish]

  /** The edit form offers every unit but only three of the eight categories. */
  lemma EditChoices()
    ensures EditUnitChoices == UnitOptions && ListsEachOnce(EditUnitChoices, AllUnits)
    ensures forall c :: c in EditCategoryChoices <==> c == Vegetable || c == Meat || c == Fish
    ensures Grain !in EditCategoryChoices && Fruit !in EditCategoryChoices
  {
    UnitOptionsExact();
  }

  /**
   * The key under which both ingredient dialogs read a submitted form's date: they pass
   * `new Date(formData.expirationDate)` on to the ingredient store.
   */
  const SubmittedDateKey: string := "expirationDate"

  /**
   * The add form keeps its date under `expiration_date`, and its date box writes that key
   * too; the dialog reads `expirationDate`, so neither the initial date nor a typed one is
   * ever submitted.
   */
  lemma AddFormDateNotSubmitted(now: int, typed: JsValue)
    ensures Get(InitialForm(now), "expiration_date") == Some(JDate(now))
    ensures Get(InitialForm(now), SubmittedDateKey).None?
    ensures Get(InitialForm(now)["expiration_date" := typed], "expiration_date") == Some(typed)
    ensures Get(InitialForm(now)["expiration_date" := typed], SubmittedDateKey).None?
  {
    assert SubmittedDateKey !in InitialForm(now);
  }

  /**
   * The edit form's date box writes `expirationDate`, the key the dialog reads, so an edited
   * date is submitted. The ingredient's object form keeps its date under `expiration_date`
   * only, so the box starts empty and an unedited form submits no date.
   */
  lemma EditFormDateSubmittedOnlyWhenEdited(i: Ingredient, typed: JsValue)
    ensures DateField(ToObject(i), "expiration_date") == Some(i.expiration_date)
    ensures Get(ToObject(i), SubmittedDateKey).None?
    ensures Get(ToObject(i)["expirationDate" := typed], SubmittedDateKey) == Some(typed)
  {
    RequiredKeys(i);
    OptionalKeys(i);
    ToObjectFields(i);
  }

  class AddNewIngredientForm {
    var formData: Record

    /** The form opens with the initial contents, dated with the current instant. */
    constructor (now: int)
      ensures formData == InitialForm(now)
    {
      formData := InitialForm(now);
    }

    /** A field change sets that key to the value and keeps every other key. */
    method HandleChange(field: string, value: JsValue)
      modifies this
      ensures formData == old(formData)[field := value]
      ensures Get(formData, field) == Some(value)
      ensures forall k :: k != field ==> Get(formData, k) == Get(old(formData), k)
    {
      formData := formData[field := value];
    }

    /** Submission: the current form data, unless the guard blocks it. Nothing changes. */
    method HandleSubmit() returns (submitted: Option<Record>)
      ensures submitted.None? <==> SubmitBlocked(formData)
      ensures submitted.Some? ==> submitted.value == formData
    {
      if !Truthy(Get(formData, "name")) || !Truthy(Get(formData, "unit")) || AtMostZero(Get(formData, "quantity")) {
        return None;
      }
      return Some(formData);
    }
  }

  class EditIngredientForm {
    var formData: Record

    /** The form opens holding the ingredient being edited. */
    constructor (ingredient: Ingredient)
      ensures formData == ToObject(ingredient)
    {
      formData := ToObject(ingredient);
    }

    /** A field change sets that key to the value and keeps every other key. */
    method HandleChange(field: string, value: JsValue)
      modifies this
      ensures formData == old(formData)[field := value]
      ensures Get(formData, field) == Some(value)
      ensures forall k :: k != field ==> Get(formData, k) == Get(old(formData), k)
    {
      formData := formData[field := value];
    }

    /** Submission under the same guard as the add form. Nothing changes. */
    method HandleSubmit() returns (submitted: Option<Record>)
      ensures submitted == Submission(formData)
    {
      if !Truthy(Get(formData, "name")) || !Truthy(Get(formData, "unit")) || AtMostZero(Get(formData, "quantity")) {
        return None;
      }
      return Some(formData);
    }
  }
}
