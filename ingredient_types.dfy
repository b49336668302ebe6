/**
 * The ingredient vocabulary shared by every other module: the closed `Unit`,
 * `IngredientCategory` and status enumerations with their literal spellings, the
 * `Ingredient` record, and `CreateIngredientInput`.
 */
module IngredientTypes {
  import opened Wrappers
  import opened JsValues

  /** `Unit`: exactly seven spellings. */
  datatype Unit = Piece | Gram | Milliliter | Bunch | Stick | Sheet | Pack

  /** The units in declaration order. */
  const AllUnits: seq<Unit> := [Piece, Gram, Milliliter, Bunch, Stick, Sheet, Pack]

  function UnitLabel(u: Unit): string
  {
    match u
    case Piece => "個"
    case Gram => "g"
    case Milliliter => "ml"
    case Bunch => "束"
    case Stick => "本"
    case Sheet => "枚"
    case Pack => "パック"
  }

  /** Reading a unit back from its spelling: defined exactly on the seven spellings. */
  function UnitFromLabel(s: string): (r: Option<Unit>)
    ensures forall u :: UnitLabel(u) == s <==> r == Some(u)
  {
    if s == "個" then Some(Piece)
    else if s == "g" then Some(Gram)
    else if s == "ml" then Some(Milliliter)
    else if s == "束" then Some(Bunch)
    else if s == "本" then Some(Stick)
    else if s == "枚" then Some(Sheet)
    else if s == "パック" then Some(Pack)
    else None
  }

  /** `IngredientCategory`: exactly eight spellings. */
  datatype Category = Vegetable | Fruit | Meat | Fish | Egg | Grain | FrozenFood | Other

  /** The categories in declaration order. */
  const AllCategories: seq<Category> := [Vegetable, Fruit, Meat, Fish, Egg, Grain, FrozenFood, Other]

  function CategoryLabel(c: Category): string
  {
    match c
    case Vegetable => "野菜"
    case Fruit => "果物"
    case Meat => "肉"
    case Fish => "魚"
    case Egg => "卵"
    case Grain => "雑穀"
    case FrozenFood => "冷凍食品"
    case Other => "その他"
  }

  /** Reading a category back from its spelling: defined exactly on the eight spellings. */
  function CategoryFromLabel(s: string): (r: Option<Category>)
    ensures forall c :: CategoryLabel(c) == s <==> r == Some(c)
  {
    if s == "野菜" then Some(Vegetable)
    else if s == "果物" then Some(Fruit)
    else if s == "肉" then Some(Meat)
    else if s == "魚" then Some(Fish)
    else if s == "卵" then Some(Egg)
    else if s == "雑穀" then Some(Grain)
    else if s == "冷凍食品" then Some(FrozenFood)
    else if s == "その他" then Some(Other)
    else None
  }

  /** The optional `status` field: one of three spellings. */
  datatype Status = Active | Used | Expired

  function StatusLabel(s: Status): string
  {
    match s
    case Active => "active"
    case Used => "used"
    case Expired => "expired"
  }

  function StatusFromLabel(s: string): (r: Option<Status>)
    ensures forall st :: StatusLabel(st) == s <==> r == Some(st)
  {
    if s == "active" then Some(Active)
    else if s == "used" then Some(Used)
    else if s == "expired" then Some(Expired)
    else None
  }

  /**
   * `Ingredient`: `used_at`, `notes` and `status` are optional, every other field is
   * required. Dates are millisecond timestamps.
   */
  datatype Ingredient = Ingredient(
    id: string,
    user_id: string,
    name: string,
    quantity: Number,
    unit: Unit,
    expiration_date: int,
    created_at: int,
    updated_at: int,
    used_at: Option<int>,
    category: Category,
    notes: Option<string>,
    status: Option<Status>)

  /**
   * `CreateIngredientInput`: `Omit<Ingredient, 'id' | 'createdAt'>`. The key
   * `createdAt` does not exist on `Ingredient` (its field is `created_at`), so only
   * `id` is removed and the creation timestamp stays required.
   */
  datatype CreateIngredientInput = CreateIngredientInput(
    user_id: string,
    name: string,
    quantity: Number,
    unit: Unit,
    expiration_date: int,
    created_at: int,
    updated_at: int,
    used_at: Option<int>,
    category: Category,
    notes: Option<string>,
    status: Option<Status>)

  function WithId(c: CreateIngredientInput, id: string): Ingredient
  {
    Ingredient(id, c.user_id, c.name, c.quantity, c.unit, c.expiration_date, c.created_at,
               c.updated_at, c.used_at, c.category, c.notes, c.status)
  }

  /** Dropping the identifier loses nothing else: putting it back restores the ingredient. */
  function OmitId(i: Ingredient): (c: CreateIngredientInput)
    ensures WithId(c, i.id) == i
    ensures c.created_at == i.created_at
  {
    CreateIngredientInput(i.user_id, i.name, i.quantity, i.unit, i.expiration_date, i.created_at,
                          i.updated_at, i.used_at, i.category, i.notes, i.status)
  }

  function OptionalDate(key: string, d: Option<int>): Record
  {
    if d.Some? then map[key := JDate(d.value)] else map[]
  }

  function OptionalString(key: string, s: Option<string>): Record
  {
    if s.Some? then map[key := JStr(s.value)] else map[]
  }

  /** The required fields of the run-time object. */
  function RequiredFields(i: Ingredient): Record
  {
    map[
      "id" := JStr(i.id),
      "user_id" := JStr(i.user_id),
      "name" := JStr(i.name),
      "quantity" := JNum(i.quantity),
      "unit" := JStr(UnitLabel(i.unit)),
      "expiration_date" := JDate(i.expiration_date),
      "created_at" := JDate(i.created_at),
      "updated_at" := JDate(i.updated_at),
      "category" := JStr(CategoryLabel(i.category))
    ]
  }

  /** The optional fields of the run-time object, each present only when set. */
  function OptionalFields(i: Ingredient): Record
  {
    OptionalDate("used_at", i.used_at)
    + OptionalString("notes", i.notes)
    + OptionalString("status", if i.status.Some? then Some(StatusLabel(i.status.value)) else None)
  }

  /** The plain object an ingredient is at run time: optional fields absent when unset. */
  function ToObject(i: Ingredient): Record
  {
    RequiredFields(i) + OptionalFields(i)
  }

  function StringField(r: Record, key: string): Option<string>
  {
    if key in r && r[key].JStr? then Some(r[key].str) else None
  }

  function DateField(r: Record, key: string): Option<int>
  {
    if key in r && r[key].JDate? then Some(r[key].time) else None
  }

  /**
   * The interface as a shape check: every required key is present with the right kind
   * and spelling, each optional key is absent or well formed.
   */
  function FromObject(r: Record): Option<Ingredient>
  {
    var id := StringField(r, "id");
    var userId := StringField(r, "user_id");
    var name := StringField(r, "name");
    var unit := if StringField(r, "unit").Some? then UnitFromLabel(StringField(r, "unit").value) else None;
    var category := if StringField(r, "category").Some? then CategoryFromLabel(StringField(r, "category").value) else None;
    var status := if StringField(r, "status").Some? then StatusFromLabel(StringField(r, "status").value) else None;
    var expiration := DateField(r, "expiration_date");
    var created := DateField(r, "created_at");
    var updated := DateField(r, "updated_at");
    if id.Some? && userId.Some? && name.Some? && unit.Some? && category.Some?
       && "quantity" in r && r["quantity"].JNum?
       && expiration.Some? && created.Some? && updated.Some?
       && ("used_at" !in r || DateField(r, "used_at").Some?)
       && ("notes" !in r || StringField(r, "notes").Some?)
       && ("status" !in r || status.Some?)
    then
      Some(Ingredient(id.value, userId.value, name.value, r["quantity"].num, unit.value,
                      expiration.value, created.value, updated.value, DateField(r, "used_at"),
                      category.value, StringField(r, "notes"), status))
    else None
  }

  /** Every ingredient's run-time object passes the shape check and reads back as itself. */
  lemma FromObjectToObject(i: Ingredient)
    ensures FromObject(ToObject(i)) == Some(i)
  {
    ToObjectFields(i);
    FromObjectOfFields(ToObject(i), i);
  }

  /** Any object whose fields read back as `i`'s values is accepted as `i`. */
  lemma FromObjectOfFields(r: Record, i: Ingredient)
    requires StringField(r, "id") == Some(i.id)
    requires StringField(r, "user_id") == Some(i.user_id)
    requires StringField(r, "name") == Some(i.name)
    requires "quantity" in r && r["quantity"] == JNum(i.quantity)
    requires StringField(r, "unit") == Some(UnitLabel(i.unit))
    requires StringField(r, "category") == Some(CategoryLabel(i.category))
    requires DateField(r, "expiration_date") == Some(i.expiration_date)
    requires DateField(r, "created_at") == Some(i.created_at)
    requires DateField(r, "updated_at") == Some(i.updated_at)
    requires DateField(r, "used_at") == i.used_at
    requires StringField(r, "notes") == i.notes
    requires StringField(r, "status") == (if i.status.Some? then Some(StatusLabel(i.status.value)) else None)
    requires ("used_at" in r <==> i.used_at.Some?) && ("notes" in r <==> i.notes.Some?)
    requires "status" in r <==> i.status.Some?
    ensures FromObject(r) == Some(i)
  {
    assert UnitFromLabel(UnitLabel(i.unit)) == Some(i.unit);
    assert CategoryFromLabel(CategoryLabel(i.category)) == Some(i.category);
    if i.status.Some? {
      assert StatusFromLabel(StatusLabel(i.status.value)) == Some(i.status.value);
    }
  }

  /** The required keys are exactly the nine listed, none of them an optional key. */
  lemma RequiredKeys(i: Ingredient)
    ensures RequiredFields(i).Keys == {"id", "user_id", "name", "quantity", "unit", "expiration_date",
                                        "created_at", "updated_at", "category"}
    ensures "used_at" !in RequiredFields(i) && "notes" !in RequiredFields(i) && "status" !in RequiredFields(i)
  {
  }

  lemma OptionalKeys(i: Ingredient)
    ensures OptionalFields(i).Keys <= {"used_at", "notes", "status"}
    ensures DateField(OptionalFields(i), "used_at") == i.used_at
    ensures "used_at" in OptionalFields(i) <==> i.used_at.Some?
    ensures StringField(OptionalFields(i), "notes") == i.notes
    ensures "notes" in OptionalFields(i) <==> i.notes.Some?
    ensures StringField(OptionalFields(i), "status") == (if i.status.Some? then Some(StatusLabel(i.status.value)) else None)
    ensures "status" in OptionalFields(i) <==> i.status.Some?
  {
  }

  /** Each field of the run-time object reads back as the ingredient's own value. */
  lemma ToObjectFields(i: Ingredient)
    ensures var r := ToObject(i);
            && StringField(r, "id") == Some(i.id)
            && StringField(r, "user_id") == Some(i.user_id)
            && StringField(r, "name") == Some(i.name)
            && "quantity" in r && r["quantity"] == JNum(i.quantity)
            && StringField(r, "unit") == Some(UnitLabel(i.unit))
            && StringField(r, "category") == Some(CategoryLabel(i.category))
            && DateField(r, "expiration_date") == Some(i.expiration_date)
            && DateField(r, "created_at") == Some(i.created_at)
            && DateField(r, "updated_at") == Some(i.updated_at)
            && DateField(r, "used_at") == i.used_at
            && StringField(r, "notes") == i.notes
            && StringField(r, "status") == (if i.status.Some? then Some(StatusLabel(i.status.value)) else None)
            && ("used_at" in r <==> i.used_at.Some?) && ("notes" in r <==> i.notes.Some?)
            && ("status" in r <==> i.status.Some?)
  {
    RequiredKeys(i);
    OptionalKeys(i);
    var q := RequiredFields(i);
    var o := OptionalFields(i);
    var r := ToObject(i);
    assert forall k :: k in q && k !in o ==> r[k] == q[k];
    assert forall k :: k in o ==> r[k] == o[k];
  }

  /** The optional fields are exactly the keys that may be missing from the object. */
  lemma ToObjectKeys(i: Ingredient)
    ensures forall k :: (k in ["id", "user_id", "name", "quantity", "unit", "expiration_date",
                               "created_at", "updated_at", "category"]) ==> k in ToObject(i)
    ensures "used_at" in ToObject(i) <==> i.used_at.Some?
    ensures "notes" in ToObject(i) <==> i.notes.Some?
    ensures "status" in ToObject(i) <==> i.status.Some?
  {
  }
}

/** The option lists the forms offer for the two enumerations. */
module IngredientOptions {
  import opened IngredientTypes

  /** `UnitOptions`: every unit, in declaration order. */
  const UnitOptions: seq<Unit> := [Piece, Gram, Milliliter, Bunch, Stick, Sheet, Pack]

  /** `CategoryOptions`: every category, in an order of its own. */
  const CategoryOptions: seq<Category> := [Vegetable, Meat, Fish, Grain, FrozenFood, Fruit, Egg, Other]

  /** Each element of `xs` occurs exactly once in it, and every value of the enumeration occurs. */
  ghost predicate ListsEachOnce<T>(xs: seq<T>, all: seq<T>)
  {
    && |xs| == |all|
    && (forall i, j :: 0 <= i < j < |xs| ==> xs[i] != xs[j])
    && (forall x :: x in all ==> x in xs)
  }

  lemma UnitOptionsExact()
    ensures ListsEachOnce(UnitOptions, AllUnits)
    ensures UnitOptions == AllUnits && |UnitOptions| == 7
    ensures forall u: Unit :: u in UnitOptions
    ensures UnitLabel(UnitOptions[0]) == "個"
  {
    forall u: Unit ensures u in UnitOptions {
      match u
      case Piece => assert UnitOptions[0] == u;
      case Gram => assert UnitOptions[1] == u;
      case Milliliter => assert UnitOptions[2] == u;
      case Bunch => assert UnitOptions[3] == u;
      case Stick => assert UnitOptions[4] == u;
      case Sheet => assert UnitOptions[5] == u;
      case Pack => assert UnitOptions[6] == u;
    }
  }

  lemma CategoryOptionsExact()
    ensures ListsEachOnce(CategoryOptions, AllCategories)
    ensures |CategoryOptions| == 8
    ensures forall c: Category :: c in CategoryOptions
    ensures CategoryLabel(CategoryOptions[0]) == "野菜"
    ensures CategoryOptions != AllCategories
  {
    forall c: Category ensures c in CategoryOptions {
      match c
      case Vegetable => assert CategoryOptions[0] == c;
      case Meat => assert CategoryOptions[1] == c;
      case Fish => assert CategoryOptions[2] == c;
      case Grain => assert CategoryOptions[3] == c;
      case FrozenFood => assert CategoryOptions[4] == c;
      case Fruit => assert CategoryOptions[5] == c;
      case Egg => assert CategoryOptions[6] == c;
      case Other => assert CategoryOptions[7] == c;
    }
    assert CategoryOptions[1] != AllCategories[1];
  }
}
