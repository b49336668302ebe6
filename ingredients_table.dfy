/**
 * The ingredient table: each row's category colour and expiry highlight, the selection
 * cart driven by the row checkboxes, and the edit dialog opened by a row click.
 */
module IngredientsTable {
  import opened Wrappers
  import opened IngredientTypes

  const Green: string := "bg-green-100/80"
  const Yellow: string := "bg-yellow-100/80"
  const Red: string := "bg-red-100/80"
  const Blue: string := "bg-blue-100/80"
  const Gray: string := "bg-gray-100/80"

  /** The badge colour of a category spelling; any spelling without a case of its own is gray. */
  function CategoryColor(category: string): (color: string)
    ensures color in {Green, Yellow, Red, Blue, Gray}
    ensures color == Green <==> category == "野菜"
    ensures color == Yellow <==> category == "果物" || category == "卵"
    ensures color == Red <==> category == "肉"
    ensures color == Blue <==> category == "魚" || category == "冷凍食品"
  {
    match category
    case "野菜" => Green
    case "果物" => Yellow
    case "肉" => Red
    case "魚" => Blue
    case "卵" => Yellow
    case "冷凍食品" => Blue
    case "その他" => Gray
    case _ => Gray
  }

  /** Over the eight categories: grains have no case of their own and share gray with "other". */
  lemma CategoryColors()
    ensures CategoryColor(CategoryLabel(Vegetable)) == Green
    ensures CategoryColor(CategoryLabel(Fruit)) == Yellow && CategoryColor(CategoryLabel(Egg)) == Yellow
    ensures CategoryColor(CategoryLabel(Meat)) == Red
    ensures CategoryColor(CategoryLabel(Fish)) == Blue && CategoryColor(CategoryLabel(FrozenFood)) == Blue
    ensures CategoryColor(CategoryLabel(Grain)) == Gray && CategoryColor(CategoryLabel(Other)) == Gray
  {
  }

  /** The expiry cell is red exactly when the expiration instant is strictly before now. */
  function ExpiryClass(expiration: int, now: int): (cls: string)
    ensures cls == "text-red-500" <==> expiration < now
    ensures cls == "" <==> expiration >= now
  {
    if expiration < now then "text-red-500" else ""
  }

  /** The selection without the ingredients that have `id`, the others in their order. */
  function Unselect(items: seq<Ingredient>, id: string): (rest: seq<Ingredient>)
    ensures |rest| <= |items|
    ensures forall x :: x in rest <==> x in items && x.id != id
  {
    if items == [] then []
    else if items[0].id != id then [items[0]] + Unselect(items[1..], id)
    else Unselect(items[1..], id)
  }

  /**
   * Unselecting keeps the other ingredients in their order and with their repetitions:
   * unselecting from a concatenation unselects from each part.
   */
  lemma {:induction false} UnselectAppend(a: seq<Ingredient>, b: seq<Ingredient>, id: string)
    ensures Unselect(a + b, id) == Unselect(a, id) + Unselect(b, id)
    decreases |a|
  {
    if a == [] {
      assert a + b == b;
    } else {
      assert (a + b)[1..] == a[1..] + b;
      UnselectAppend(a[1..], b, id);
    }
  }

  /** Whether some selected ingredient has the id. */
  predicate HasId(items: seq<Ingredient>, id: string)
  {
    exists i :: 0 <= i < |items| && items[i].id == id
  }

  /** Unchecking right after checking an unselected ingredient restores the selection. */
  lemma {:induction false} UncheckUndoesCheck(items: seq<Ingredient>, x: Ingredient)
    requires !HasId(items, x.id)
    ensures Unselect(items + [x], x.id) == items
    decreases |items|
  {
    if items == [] {
      assert [x][1..] == [];
    } else {
      assert (items + [x])[1..] == items[1..] + [x];
      assert items[0].id != x.id;
      assert !HasId(items[1..], x.id) by {
        forall i | 0 <= i < |items[1..]| ensures items[1..][i].id != x.id {
          assert items[1..][i] == items[i + 1];
        }
      }
      UncheckUndoesCheck(items[1..], x);
    }
  }

  class IngredientsTable {
    /** The selection cart (state shared with the cart page). */
    var selectedIngredients: seq<Ingredient>
    var isOpen: bool
    var selectedIngredient: Option<Ingredient>

    /** The table as first shown with a given cart: no dialog. */
    constructor (cart: seq<Ingredient>)
      ensures selectedIngredients == cart && !isOpen && selectedIngredient.None?
    {
      selectedIngredients := cart;
      isOpen := false;
      selectedIngredient := None;
    }

    /** A row's checkbox is checked iff some selected ingredient has the row's id. */
    function IsChecked(ingredient: Ingredient): (checked: bool)
      reads this
      ensures checked <==> exists i :: 0 <= i < |selectedIngredients| && selectedIngredients[i].id == ingredient.id
    {
      HasId(selectedIngredients, ingredient.id)
    }

    /** The edit dialog is rendered while an ingredient is held, and open per `isOpen`. */
    predicate DialogRendered()
      reads this
    {
      selectedIngredient.Some?
    }

    /**
     * A checkbox change: checking appends the ingredient at the end; unchecking removes
     * every selected ingredient with its id. The dialog state does not change.
     */
    method OnCheckedChange(ingredient: Ingredient, checked: bool)
      modifies this
      ensures checked ==> selectedIngredients == old(selectedIngredients) + [ingredient]
      ensures !checked ==> selectedIngredients == Unselect(old(selectedIngredients), ingredient.id)
      ensures IsChecked(ingredient) == checked
      ensures isOpen == old(isOpen) && selectedIngredient == old(selectedIngredient)
    {
      if checked {
        selectedIngredients := selectedIngredients + [ingredient];
        assert selectedIngredients[|selectedIngredients| - 1] == ingredient;
      } else {
        selectedIngredients := Unselect(selectedIngredients, ingredient.id);
      }
    }

    /**
     * A click on a row: outside the checkbox cell it opens the dialog on the row's
     * ingredient; inside it nothing happens. The cart does not change.
     */
    method OnRowClick(ingredient: Ingredient, insideCheckboxCell: bool)
      modifies this
      ensures !insideCheckboxCell ==> isOpen && selectedIngredient == Some(ingredient)
      ensures insideCheckboxCell ==> isOpen == old(isOpen) && selectedIngredient == old(selectedIngredient)
      ensures selectedIngredients == old(selectedIngredients)
    {
      if !insideCheckboxCell {
        selectedIngredient := Some(ingredient);
        isOpen := true;
      }
    }

    /** Closing the dialog: closed, and no ingredient held. */
    method OnClose()
      modifies this
      ensures !isOpen && selectedIngredient.None? && !DialogRendered()
      ensures selectedIngredients == old(selectedIngredients)
    {
      isOpen := false;
      selectedIngredient := None;
    }

    /** A successful edit resets the dialog exactly as closing does. */
    method OnIngredientUpdated()
      modifies this
      ensures !isOpen && selectedIngredient.None? && !DialogRendered()
      ensures selectedIngredients == old(selectedIngredients)
    {
      OnClose();
    }
  }
}
