/**
 * The recipe list page: the loaded recipes, shown ten to a page, with guarded page
 * changes and deletion after confirmation. The page state is a class whose handlers
 * update its fields; the slice, the page count and the footer texts are functions of it.
 */
module RecipePages {
  import opened Wrappers
  import opened Strings

  /** A stored recipe; only its id matters to the page. */
  datatype Recipe = Recipe(id: string, details: string)

  const ItemsPerPage: nat := 10

  const LoadFailedMessage: string := "レシピの取得に失敗しました。後でもう一度お試しください。"
  const DeleteFailedMessage: string := "レシピの削除に失敗しました。後でもう一度お試しください。"

  /** How `slice` reads an index: negative ones count from the end; both are clamped to the length. */
  function SliceIndex(i: int, length: nat): (k: nat)
    ensures k <= length
    ensures 0 <= i ==> k == Min(i, length)
  {
    if i < 0 then (if length + i > 0 then length + i else 0)
    else if i < length then i else length
  }

  /** `s.slice(start, end)`. */
  function Slice<T>(s: seq<T>, start: int, end: int): (r: seq<T>)
    ensures 0 <= start <= end <= |s| ==> r == s[start..end]
    ensures |r| <= |s|
  {
    var from := SliceIndex(start, |s|);
    var to := SliceIndex(end, |s|);
    if from < to then s[from..to] else []
  }

  /** The recipes shown on page `page`: from `(page - 1) * 10` up to ten of them. */
  function PageSlice(all: seq<Recipe>, page: int): (shown: seq<Recipe>)
    ensures page >= 1 ==> |shown| <= ItemsPerPage
    ensures page >= 1 && (page - 1) * ItemsPerPage <= |all| ==>
              shown == all[(page - 1) * ItemsPerPage .. Min((page - 1) * ItemsPerPage + ItemsPerPage, |all|)]
    ensures page >= 1 && (page - 1) * ItemsPerPage >= |all| ==> shown == []
  {
    var start := (page - 1) * ItemsPerPage;
    Slice(all, start, Min(start + ItemsPerPage, |all|))
  }

  /** `Math.ceil(n / 10)` for a count `n`. */
  function TotalPages(n: nat): (pages: nat)
    ensures (pages - 1) * ItemsPerPage < n <= pages * ItemsPerPage || (n == 0 && pages == 0)
  {
    (n + ItemsPerPage - 1) / ItemsPerPage
  }

  /** The recipes with another id, in their order. */
  function WithoutId(all: seq<Recipe>, id: string): (rest: seq<Recipe>)
    ensures |rest| <= |all|
    ensures forall r :: r in rest <==> r in all && r.id != id
  {
    if all == [] then []
    else if all[0].id != id then [all[0]] + WithoutId(all[1..], id)
    else WithoutId(all[1..], id)
  }

  /** Removing an id keeps the other recipes in order: removing from a concatenation removes from each part. */
  lemma {:induction false} WithoutIdAppend(a: seq<Recipe>, b: seq<Recipe>, id: string)
    ensures WithoutId(a + b, id) == WithoutId(a, id) + WithoutId(b, id)
    decreases |a|
  {
    if a == [] {
      assert a + b == b;
    } else {
      assert (a + b)[1..] == a[1..] + b;
      WithoutIdAppend(a[1..], b, id);
    }
  }

  /** A list without the id is left as it is. */
  lemma {:induction false} WithoutAbsentId(all: seq<Recipe>, id: string)
    requires forall r :: r in all ==> r.id != id
    ensures WithoutId(all, id) == all
    decreases |all|
  {
    if all != [] {
      assert all[0] in all;
      assert forall r :: r in all[1..] ==> r in all;
      WithoutAbsentId(all[1..], id);
    }
  }

  /** The page a deletion leaves: moved back to the new last page (or 1) when beyond it and not on page 1. */
  function PageAfterDelete(page: int, remaining: nat): (p: int)
    ensures page > TotalPages(remaining) && page > 1 ==> p == (if TotalPages(remaining) == 0 then 1 else TotalPages(remaining))
    ensures !(page > TotalPages(remaining) && page > 1) ==> p == page
  {
    var pages := TotalPages(remaining);
    if page > pages && page > 1 then (if pages == 0 then 1 else pages) else page
  }

  /** Whatever the page a deletion happens on, the page it leaves shows recipes, unless none remain, when it is page 1. */
  lemma PageAfterDeleteShowsRecipes(all: seq<Recipe>, page: int)
    requires 1 <= page
    ensures var p := PageAfterDelete(page, |all|);
            1 <= p && (|all| == 0 ==> p == 1) && (|all| > 0 ==> PageSlice(all, p) != [])
  {
    var pages := TotalPages(|all|);
    var p := PageAfterDelete(page, |all|);
    if |all| > 0 {
      assert (p - 1) * ItemsPerPage < |all|;
      assert all[(p - 1) * ItemsPerPage] in PageSlice(all, p);
    }
  }

  /** The footer text: the range shown out of the total, or a notice that there is nothing. */
  function RangeLabel(total: int, page: int): (text: string)
    ensures total <= 0 ==> text == "表示するレシピがありません"
    ensures total > 0 ==> text == IntToString(total) + " 件中 " + IntToString(RangeFirst(page))
                                   + "-" + IntToString(RangeLast(total, page)) + " 件を表示"
  {
    if total > 0 then
      IntToString(total) + " 件中 " + IntToString(RangeFirst(page)) + "-" + IntToString(RangeLast(total, page)) + " 件を表示"
    else "表示するレシピがありません"
  }

  function RangeFirst(page: int): int { (page - 1) * ItemsPerPage + 1 }

  function RangeLast(total: int, page: int): int { Min(page * ItemsPerPage, total) }

  /** With an up-to-date total, the footer's range counts exactly the recipes on the page. */
  lemma RangeMatchesSlice(all: seq<Recipe>, page: int)
    requires 1 <= page <= TotalPages(|all|)
    ensures RangeFirst(page) <= RangeLast(|all|, page)
    ensures |PageSlice(all, page)| == RangeLast(|all|, page) - RangeFirst(page) + 1
  {
  }

  /** The page indicator shows `page / pages`, with 1 for the page count when there is none. */
  function PageIndicator(total: nat, page: int): (text: string)
    ensures TotalPages(total) == 0 ==> text == "ページ " + IntToString(page) + " / 1"
    ensures TotalPages(total) > 0 ==> text == "ページ " + IntToString(page) + " / " + IntToString(TotalPages(total))
  {
    "ページ " + IntToString(page) + " / " + IntToString(if TotalPages(total) == 0 then 1 else TotalPages(total))
  }

  function PrevDisabled(page: int): bool { page == 1 }

  function NextDisabled(total: nat, page: int): bool { page >= TotalPages(total) || TotalPages(total) == 0 }

  /** The page-change guard accepts a page iff it lies between 1 and the page count. */
  function PageAccepted(total: nat, page: int): (ok: bool)
    ensures ok <==> 1 <= page <= TotalPages(total)
  {
    !(page < 1 || page > TotalPages(total))
  }

  /** An enabled "next" button asks for a page the guard accepts. */
  lemma NextEnabledIsAccepted(total: nat, page: int)
    requires page >= 1 && !NextDisabled(total, page)
    ensures PageAccepted(total, page + 1)
  {
  }

  /** On a page within range, an enabled "previous" button asks for a page the guard accepts. */
  lemma PrevEnabledIsAccepted(total: nat, page: int)
    requires 1 <= page <= TotalPages(total) && !PrevDisabled(page)
    ensures PageAccepted(total, page - 1)
  {
  }

  class RecipesPage {
    var allRecipes: seq<Recipe>
    var displayedRecipes: seq<Recipe>
    var totalItems: nat
    var currentPage: int
    var loading: bool
    var error: Option<string>

    /** The page is never below 1. */
    predicate Valid()
      reads this
    {
      currentPage >= 1
    }

    /** The first render: nothing loaded, page 1, loading. */
    constructor ()
      ensures Valid()
      ensures allRecipes == [] && displayedRecipes == [] && totalItems == 0 && currentPage == 1
      ensures loading && error.None?
    {
      allRecipes := [];
      displayedRecipes := [];
      totalItems := 0;
      currentPage := 1;
      loading := true;
      error := None;
    }

    /** The initial load: the fetched recipes and their count, or the error message; loading ends. */
    method LoadRecipes(fetched: Result<seq<Recipe>, string>)
      requires Valid()
      modifies this
      ensures Valid()
      ensures fetched.Success? ==> allRecipes == fetched.value && totalItems == |fetched.value| && error == old(error)
      ensures fetched.Failure? ==> allRecipes == old(allRecipes) && totalItems == old(totalItems)
                                   && error == Some(LoadFailedMessage)
      ensures !loading
      ensures currentPage == old(currentPage) && displayedRecipes == old(displayedRecipes)
    {
      loading := true;
      if fetched.Success? {
        allRecipes := fetched.value;
        totalItems := |fetched.value|;
      } else {
        error := Some(LoadFailedMessage);
      }
      loading := false;
    }

    /** The effect that runs after the recipes or the page change: it shows the page's slice. */
    method RefreshDisplayed()
      requires Valid()
      modifies this
      ensures Valid()
      ensures displayedRecipes == PageSlice(allRecipes, currentPage) && |displayedRecipes| <= ItemsPerPage
      ensures allRecipes == old(allRecipes) && totalItems == old(totalItems) && currentPage == old(currentPage)
      ensures loading == old(loading) && error == old(error)
    {
      var start := (currentPage - 1) * ItemsPerPage;
      var end := Min(start + ItemsPerPage, |allRecipes|);
      displayedRecipes := Slice(allRecipes, start, end);
    }

    /** Moves to `page` only when the guard accepts it; nothing else changes. */
    method HandlePageChange(page: int)
      requires Valid()
      modifies this
      ensures Valid()
      ensures currentPage == (if PageAccepted(totalItems, page) then page else old(currentPage))
      ensures allRecipes == old(allRecipes) && displayedRecipes == old(displayedRecipes)
      ensures totalItems == old(totalItems) && loading == old(loading) && error == old(error)
    {
      if page < 1 || page > TotalPages(totalItems) {
        return;
      }
      currentPage := page;
    }

    /**
     * Deletion of the recipes with `id`: only when `confirmed`; `deleted` is the outcome of
     * the deletion request (`None` when it succeeded). On success the recipes with that id
     * are removed and the page moved back if it is now beyond the last one; the total is
     * not updated. On failure only the error message is set.
     */
    method ConfirmDeleteRecipe(id: string, confirmed: bool, deleted: Option<string>)
      requires Valid()
      modifies this
      ensures Valid()
      ensures totalItems == old(totalItems) && displayedRecipes == old(displayedRecipes) && loading == old(loading)
      ensures !confirmed ==> allRecipes == old(allRecipes) && currentPage == old(currentPage) && error == old(error)
      ensures confirmed && deleted.Some? ==>
                allRecipes == old(allRecipes) && currentPage == old(currentPage) && error == Some(DeleteFailedMessage)
      ensures confirmed && deleted.None? ==>
                && allRecipes == WithoutId(old(allRecipes), id)
                && currentPage == PageAfterDelete(old(currentPage), |allRecipes|)
                && error == old(error)
    {
      if confirmed {
        if deleted.Some? {
          error := Some(DeleteFailedMessage);
        } else {
          var updated := WithoutId(allRecipes, id);
          allRecipes := updated;
          var newTotalPages := TotalPages(|updated|);
          if currentPage > newTotalPages && currentPage > 1 {
            currentPage := if newTotalPages == 0 then 1 else newTotalPages;
          }
        }
      }
    }
  }

  /**
   * The total is only set on load: after deleting the only recipe on page 2 of eleven, the
   * page moves back to 1, yet the page count still says 2 and "next" stays enabled, leading
   * to an empty page.
   */
  lemma StaleTotalAfterDelete(first: seq<Recipe>, last: Recipe)
    requires |first| == 10 && forall r :: r in first ==> r.id != last.id
    ensures var remaining := WithoutId(first + [last], last.id);
            && remaining == first
            && PageAfterDelete(2, |remaining|) == 1
            && !NextDisabled(11, 1)
            && PageAccepted(11, 2)
            && PageSlice(remaining, 2) == []
  {
    WithoutIdAppend(first, [last], last.id);
    WithoutAbsentId(first, last.id);
    assert [last][1..] == [];
  }
}
