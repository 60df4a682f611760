/** The search sheet of `src/components/customer/searchProduct.tsx` as a
    state machine. The 800 ms debounce timer is a single pending query:
    typing replaces it, and `FirePending` is the timer going off with the
    reply of the product search as input. */
module SearchProduct {
  import opened Wrappers
  import opened JsStrings
  import opened CartSlice

  /** What the dropdown under the input shows. */
  datatype Dropdown = Hidden | Searching | Results(items: seq<Product>) | NoProductsFound | Blank

  class SearchBox {
    var searchQuery: string
    var searchResults: seq<Product>
    var isLoading: bool
    var isDropdownOpen: bool
    var isSheetOpen: bool
    /** The query the debounce timer will search for, if one is set. */
    var pending: Option<string>

    /** A scheduled search is always for a non-blank query. */
    predicate Valid()
      reads this
    {
      pending.Some? ==> !IsBlank(pending.value)
    }

    constructor ()
      ensures Valid()
      ensures searchQuery == "" && searchResults == [] && !isLoading && !isDropdownOpen && !isSheetOpen && pending.None?
    {
      searchQuery := "";
      searchResults := [];
      isLoading := false;
      isDropdownOpen := false;
      isSheetOpen := false;
      pending := None;
    }

    /** `handleInputChange`: store the text, show the spinner, cancel the
      pending search, open the dropdown for a non-empty text, and either
      schedule a search (non-blank text) or clear the results. A blank
      text leaves the spinner on. */
    method HandleInputChange(value: string)
      modifies this
      ensures Valid()
      ensures searchQuery == value && isLoading && isDropdownOpen == (|value| > 0)
      ensures !IsBlank(value) ==> pending == Some(value) && searchResults == old(searchResults)
      ensures IsBlank(value) ==> pending.None? && searchResults == []
      ensures isSheetOpen == old(isSheetOpen)
    {
      searchQuery := value;
      isLoading := true;
      pending := None;
      isDropdownOpen := |value| > 0;
      if !IsBlank(value) {
        pending := Some(value);
      } else {
        searchResults := [];
      }
    }

    /** `searchProducts(query)` given the reply's `data` (`None` for a null
      reply or one without data): a blank query only clears the results;
      otherwise the results are the data, or nothing, and loading ends. */
    method SearchProducts(query: string, data: Option<seq<Product>>)
      modifies this
      requires Valid()
      ensures Valid()
      ensures IsBlank(query) ==> searchResults == [] && isLoading == old(isLoading)
      ensures !IsBlank(query) ==> searchResults == (if data.Some? then data.value else []) && !isLoading
      ensures searchQuery == old(searchQuery) && isDropdownOpen == old(isDropdownOpen)
      ensures isSheetOpen == old(isSheetOpen) && pending == old(pending)
    {
      if IsBlank(query) {
        searchResults := [];
        return;
      }
      searchResults := if data.Some? then data.value else [];
      isLoading := false;
    }

    /** The debounce timer going off: the pending search runs. */
    method FirePending(data: Option<seq<Product>>)
      modifies this
      requires Valid() && pending.Some?
      ensures Valid() && pending.None?
      ensures searchResults == (if data.Some? then data.value else []) && !isLoading
      ensures searchQuery == old(searchQuery) && isDropdownOpen == old(isDropdownOpen) && isSheetOpen == old(isSheetOpen)
    {
      var query := pending.value;
      pending := None;
      SearchProducts(query, data);
    }

    /** `handleSearchSubmit`: with a non-blank query, navigate to the
      product page for the trimmed, encoded query, then close the sheet
      and the dropdown and empty the input; the results and any pending
      search are left alone. A blank query changes nothing. */
    method HandleSearchSubmit(encode: string -> string) returns (navigation: Option<string>)
      modifies this
      requires Valid()
      ensures Valid()
      ensures IsBlank(old(searchQuery)) ==>
        (navigation.None? && searchQuery == old(searchQuery) &&
         isSheetOpen == old(isSheetOpen) && isDropdownOpen == old(isDropdownOpen))
      ensures !IsBlank(old(searchQuery)) ==>
        (navigation == Some("/product?keyword=" + encode(Trim(old(searchQuery)))) &&
         searchQuery == "" && !isSheetOpen && !isDropdownOpen)
      ensures searchResults == old(searchResults) && pending == old(pending) && isLoading == old(isLoading)
    {
      TrimEmptyIffBlank(searchQuery);
      navigation := None;
      var trimmed := Trim(searchQuery);
      if trimmed != "" {
        navigation := Some("/product?keyword=" + encode(trimmed));
        isSheetOpen := false;
        searchQuery := "";
        isDropdownOpen := false;
      }
    }

    /** `handleSheetOpenChange(open)`: opening only opens; closing also
      empties the query and results, closes the dropdown and cancels the
      pending search. */
    method HandleSheetOpenChange(open: bool)
      modifies this
      requires Valid()
      ensures Valid()
      ensures isSheetOpen == open
      ensures open ==>
        (searchQuery == old(searchQuery) && searchResults == old(searchResults) &&
         isDropdownOpen == old(isDropdownOpen) && pending == old(pending))
      ensures !open ==> searchQuery == "" && searchResults == [] && !isDropdownOpen && pending.None?
      ensures isLoading == old(isLoading)
    {
      isSheetOpen := open;
      if !open {
        searchQuery := "";
        searchResults := [];
        isDropdownOpen := false;
        pending := None;
      }
    }

    /** Focusing the input reopens the dropdown when there is text. */
    method HandleFocus()
      modifies this
      requires Valid()
      ensures Valid()
      ensures isDropdownOpen == (old(isDropdownOpen) || |searchQuery| > 0)
      ensures searchQuery == old(searchQuery) && searchResults == old(searchResults) && isLoading == old(isLoading)
      ensures isSheetOpen == old(isSheetOpen) && pending == old(pending)
    {
      if |searchQuery| > 0 {
        isDropdownOpen := true;
      }
    }

    /** Following a result link closes the dropdown and the sheet and
      empties the input. */
    method HandleResultClick()
      modifies this
      requires Valid()
      ensures Valid()
      ensures !isDropdownOpen && !isSheetOpen && searchQuery == ""
      ensures searchResults == old(searchResults) && isLoading == old(isLoading) && pending == old(pending)
    {
      isDropdownOpen := false;
      isSheetOpen := false;
      searchQuery := "";
    }

    /** What the dropdown shows: nothing when closed, the spinner while
      loading, the results when there are some, "No products found" for
      a non-blank query, and nothing otherwise. */
    function View(): (d: Dropdown)
      reads this
      ensures d == Hidden <==> !isDropdownOpen
      ensures d == Searching <==> isDropdownOpen && isLoading
      ensures d.Results? <==> isDropdownOpen && !isLoading && searchResults != []
      ensures d.Results? ==> d.items == searchResults
      ensures d == Blank <==> isDropdownOpen && !isLoading && searchResults == [] && IsBlank(searchQuery)
      ensures d == NoProductsFound <==> isDropdownOpen && !isLoading && searchResults == [] && !IsBlank(searchQuery)
    {
      if !isDropdownOpen then Hidden
      else if isLoading then Searching
      else if |searchResults| > 0 then Results(searchResults)
      else if Trim(searchQuery) != "" && !isLoading then (TrimEmptyIffBlank(searchQuery); NoProductsFound)
      else (TrimEmptyIffBlank(searchQuery); Blank)
    }
  }

  /** Typing a non-blank query and letting the timer go off shows the
      reply's products with the spinner off. */
  method TypeAndWait(box: SearchBox, query: string, data: seq<Product>)
    modifies box
    requires box.Valid() && !IsBlank(query)
    ensures box.searchQuery == query && box.searchResults == data && !box.isLoading
    ensures box.isDropdownOpen && box.View() == (if data == [] then NoProductsFound else Results(data))
  {
    box.HandleInputChange(query);
    box.FirePending(Some(data));
    assert query != [];
  }
}
