// components/AutocompleteInput.tsx: a text field whose drop-down offers the
// suggestions matching what has been typed.  The field's `value` belongs to
// the parent (onValueChange writes it back), so here it is a field of the
// component object, next to the `isOpen` flag.

module Autocomplete {
  import opened Types
  import opened Util
  import opened Inventory

  /** The per-suggestion test: contains the input, ignoring case, and is not
      the input itself. */
  function Matches(input: string): string -> bool {
    (s: string) => Contains(ToLower(s), ToLower(input)) && s != input
  }

  /** filteredSuggestions: all suggestions while the field is empty,
      otherwise those that match. */
  function FilteredSuggestions(suggestions: seq<string>, input: string): (r: seq<string>)
    ensures input == "" ==> r == suggestions
    ensures input != "" ==> forall i :: 0 <= i < |r| ==> r[i] != input && Contains(ToLower(r[i]), ToLower(input))
  {
    if input == "" then suggestions else Filter(suggestions, Matches(input))
  }

  /** With text typed, the list is the matching suggestions in their order,
      and every matching suggestion is on it. */
  lemma FilteredSuggestionsExact(suggestions: seq<string>, input: string, x: string)
    requires input != ""
    ensures IsSubsequence(FilteredSuggestions(suggestions, input), suggestions)
    ensures x in FilteredSuggestions(suggestions, input)
        <==> x in suggestions && x != input && Contains(ToLower(x), ToLower(input))
  {
    FilterIsSubsequence(suggestions, Matches(input));
    FilterMembership(suggestions, Matches(input), x);
  }

  /** A suggestion that differs from the typed text only in letter case is
      still offered. */
  lemma CaseVariantOffered(suggestions: seq<string>, input: string, x: string)
    requires input != "" && x in suggestions && x != input
    requires ToLower(x) == ToLower(input)
    ensures x in FilteredSuggestions(suggestions, input)
  {
    ContainsAt(ToLower(x), ToLower(input), 0);
    FilterMembership(suggestions, Matches(input), x);
  }

  /** Every name the borrow form suggests, whatever has been typed, is one
      handleBorrow accepts. */
  lemma SuggestedBorrowersAccepted(history: seq<HistoryRecord>, input: string, x: string)
    requires x in FilteredSuggestions(BorrowersOf(history), input)
    ensures x != ""
  {
    if input != "" {
      FilterMembership(BorrowersOf(history), Matches(input), x);
    }
    var k :| 0 <= k < |history| && Present(history[k].borrower) && history[k].borrower.value == x;
  }

  class AutocompleteInput {
    const suggestions: seq<string>
    var value: string
    var isOpen: bool

    constructor (suggestions: seq<string>, value: string)
      ensures this.suggestions == suggestions && this.value == value && !isOpen
    {
      this.suggestions := suggestions;
      this.value := value;
      isOpen := false;
    }

    /** The suggestions for the current value. */
    function Offered(): (r: seq<string>)
      reads this`value
      ensures value != "" ==> value !in r
    {
      FilteredSuggestions(suggestions, value)
    }

    /** The drop-down is rendered only while open and non-empty. */
    predicate DropdownShown()
      reads this`value, this`isOpen
    {
      isOpen && |Offered()| > 0
    }

    /** The toggle button exists only when there is something to suggest. */
    predicate ToggleShown() {
      |suggestions| > 0
    }

    /** handleSelect: the value becomes the chosen suggestion and the list
        closes. */
    method Select(suggestion: string)
      modifies this`value, this`isOpen
      ensures value == suggestion && !isOpen && !DropdownShown()
    {
      value := suggestion;
      isOpen := false;
    }

    /** onChange: the typed text becomes the value and the list opens. */
    method Change(text: string)
      modifies this`value, this`isOpen
      ensures value == text && isOpen
      ensures DropdownShown() <==> |FilteredSuggestions(suggestions, text)| > 0
    {
      value := text;
      isOpen := true;
    }

    /** onFocus. */
    method Focus()
      modifies this`isOpen
      ensures isOpen
    {
      isOpen := true;
    }

    /** The toggle button, which is only rendered when ToggleShown(). */
    method Toggle()
      requires ToggleShown()
      modifies this`isOpen
      ensures isOpen == !old(isOpen)
    {
      isOpen := !isOpen;
    }
  }
}
