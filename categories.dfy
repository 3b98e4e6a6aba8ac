/**
 * The categories page: the category list loaded from the API, filtered by a
 * lower-cased, stripped search text and laid out four cards to a row.
 */
module Categories {
  import opened Wrappers
  import opened Text
  import opened Seqs
  import opened Grid
  import opened QtWidgets
  import ConfirmDeleteDialog

  /** A category dict; None is a missing key. */
  datatype Category = Category(id: Field, name: Option<string>, description: Option<string>)

  /** `self.search_input.text().lower().strip()`. */
  function SearchText(input: string): (t: string)
    ensures t == Strip(Lower(input))
    ensures t == [] <==> IsBlank(Lower(input))
  {
    Strip(Lower(input))
  }

  /** `not search_text or search_text in name or search_text in description`, both lower-cased. */
  predicate Matches(searchText: string, c: Category) {
    || searchText == []
    || Contains(searchText, Lower(c.name.GetOr("")))
    || Contains(searchText, Lower(c.description.GetOr("")))
  }

  function Keeps(searchText: string): Category -> bool {
    c => Matches(searchText, c)
  }

  /** A search of nothing but whitespace lists every category, in order. */
  lemma {:induction false} BlankSearchKeepsAll(categories: seq<Category>, input: string)
    requires IsBlank(Lower(input))
    ensures Filter(categories, Keeps(SearchText(input))) == categories
  {
    if categories != [] {
      BlankSearchKeepsAll(categories[..|categories| - 1], input);
    }
  }

  /** The filtered list keeps exactly the matching categories, in their original order. */
  lemma FilterSpec(categories: seq<Category>, searchText: string, x: Category)
    ensures x in Filter(categories, Keeps(searchText)) <==> x in categories && Matches(searchText, x)
    ensures Subsequence(Filter(categories, Keeps(searchText)), categories)
  {
    FilterMembership(categories, Keeps(searchText), x);
    FilterIsSubsequence(categories, Keeps(searchText));
  }

  /** The `get_categories` result: a dict (with or without `categories`), a list, anything else, or an exception. */
  datatype CategoriesResponse =
    | DictResponse(categories: Option<seq<Category>>)
    | ListResponse(list: seq<Category>)
    | OtherResponse
    | Failed

  /** `result.get('categories', [])` for a dict, the list itself, `[]` otherwise. */
  function NormaliseCategories(r: CategoriesResponse): (categories: seq<Category>)
    requires !r.Failed?
    ensures r.DictResponse? ==> categories == r.categories.GetOr([])
    ensures r.ListResponse? ==> categories == r.list
    ensures r.OtherResponse? ==> categories == []
  {
    match r
    case DictResponse(c) => c.GetOr([])
    case ListResponse(l) => l
    case OtherResponse => []
  }

  datatype DeleteOutcome = DeleteCancelled | DeleteRequest(categoryId: int)

  /** `delete_category(id, name)`: the user must type the category's name; `attempts` are the texts at each press of Delete. */
  function DeleteCategory(categoryId: int, categoryName: string, attempts: seq<string>): (o: DeleteOutcome)
    ensures o.DeleteRequest? <==> exists i | 0 <= i < |attempts| :: Strip(attempts[i]) == categoryName
    ensures o.DeleteRequest? ==> o.categoryId == categoryId && Strip(categoryName) == categoryName
  {
    if ConfirmDeleteDialog.SessionConfirms(categoryName, attempts) then
      ConfirmDeleteDialog.OnlyStrippedTextConfirms(categoryName, attempts);
      DeleteRequest(categoryId)
    else DeleteCancelled
  }

  class Page {
    var allCategories: seq<Category>
    var search: string
    var cards: seq<Cell<Category>>
    var noCategoriesLabel: bool

    /** The grid shows the matching categories in order, and the empty message exactly when none match. */
    predicate Displayed()
      reads this
    {
      && cards == Cells(Filter(allCategories, Keeps(SearchText(search))))
      && (noCategoriesLabel <==> cards == [])
    }

    /** `__init__`: an empty list and search box, then the first `load_categories()` with `response`. */
    constructor (response: CategoriesResponse)
      ensures search == []
      ensures !response.Failed? ==> allCategories == NormaliseCategories(response) && Displayed()
      ensures response.Failed? ==> allCategories == [] && cards == [] && !noCategoriesLabel
    {
      allCategories := [];
      search := [];
      cards := [];
      noCategoriesLabel := false;
      new;
      LoadCategories(response);
    }

    /** `filter_categories()`. */
    method FilterCategories()
      modifies this
      ensures allCategories == old(allCategories) && search == old(search)
      ensures Displayed()
    {
      var filtered := FilterLoop(allCategories, Keeps(SearchText(search)));
      var cells := PlaceCards(filtered);
      cards, noCategoriesLabel := cells, filtered == [];
    }

    /** `load_categories()`: replace the list and redisplay; on an exception nothing changes. */
    method LoadCategories(response: CategoriesResponse)
      modifies this
      ensures search == old(search)
      ensures !response.Failed? ==> allCategories == NormaliseCategories(response) && Displayed()
      ensures response.Failed? ==>
        allCategories == old(allCategories) && cards == old(cards) && noCategoriesLabel == old(noCategoriesLabel)
    {
      if !response.Failed? {
        allCategories := NormaliseCategories(response);
        FilterCategories();
      }
    }

    /** The user edits the search box (`textChanged` runs `filter_categories`). */
    method SetSearch(text: string)
      modifies this
      ensures search == text && allCategories == old(allCategories) && Displayed()
    {
      search := text;
      FilterCategories();
    }
  }
}
