/** The demo spelling checker of the home page (SpellingCard): the text
    typed, whether a check has been made, and the demo misspellings the
    last check found in the text. */
module Spelling {
  import opened Text
  import Seqs

  datatype DemoError = DemoError(word: string, suggestion: string)

  const DemoErrors: seq<DemoError> := [
    DemoError("recieve", "receive"),
    DemoError("occured", "occurred"),
    DemoError("seperate", "separate")
  ]

  /** The entry's misspelled word occurs in the lower-cased text. */
  function FoundIn(input: string): DemoError -> bool {
    (e: DemoError) => Contains(ToLower(input), e.word)
  }

  /** The demo entries a check of `input` reports, in their order. */
  function Found(input: string): seq<DemoError> {
    Seqs.Filter(DemoErrors, FoundIn(input))
  }

  /** A check reports a demo entry exactly when its misspelled word occurs in
      the lower-cased text, and keeps the order of the demo list. */
  lemma FoundSpec(input: string, e: DemoError)
    ensures e in Found(input) <==> e in DemoErrors && Contains(ToLower(input), e.word)
    ensures Seqs.IsSubsequence(Found(input), DemoErrors)
  {
    Seqs.FilterMembership(DemoErrors, FoundIn(input), e);
    Seqs.FilterIsSubsequence(DemoErrors, FoundIn(input));
  }

  /** Matching ignores letter case: a misspelling typed in any case is
      found. */
  lemma FoundInAnyCase(input: string, typed: string, i: int, e: DemoError)
    requires e in DemoErrors && OccursAt(input, typed, i) && ToLower(typed) == e.word
    ensures e in Found(input)
  {
    OccursToLower(input, typed, i);
    ContainsIffOccurs(ToLower(input), e.word);
    FoundSpec(input, e);
  }

  /** Two texts that differ only in letter case find the same entries. */
  lemma FoundIgnoresCase(a: string, b: string)
    requires ToLower(a) == ToLower(b)
    ensures Found(a) == Found(b)
  {
  }

  /** What the card shows under the button. */
  datatype Display = Nothing | NoErrors | Errors(found: seq<DemoError>)

  class SpellingCard {
    var input: string
    var results: seq<DemoError>
    var checked: bool

    /** The results are always taken from the demo list in order, and once
        checked they are those of the text shown, which is not blank. */
    predicate Valid()
      reads this
    {
      && Seqs.IsSubsequence(results, DemoErrors)
      && (checked ==> Trim(input) != [] && results == Found(input))
    }

    /** Nothing when unchecked; otherwise the "No spelling errors found!"
        line exactly when no entry was found, else the entries. */
    function Shown(): (d: Display)
      reads this
      ensures d == Nothing <==> !checked
      ensures d == NoErrors <==> checked && results == []
      ensures d.Errors? ==> d.found == results && results != []
    {
      if !checked then Nothing
      else if results == [] then NoErrors
      else Errors(results)
    }

    constructor ()
      ensures Valid()
      ensures input == [] && results == [] && !checked
    {
      input, results, checked := [], [], false;
    }

    /** The text area's onChange: the new text, and the last check no
        longer shown. */
    method Edit(text: string)
      requires Valid()
      modifies this
      ensures Valid()
      ensures input == text && !checked && results == old(results)
      ensures Shown() == Nothing
    {
      input := text;
      checked := false;
    }

    /** handleCheck: nothing for a blank text; otherwise the found entries
        are shown. */
    method Check()
      requires Valid()
      modifies this
      ensures Valid()
      ensures input == old(input)
      ensures Trim(input) == [] ==> checked == old(checked) && results == old(results)
      ensures Trim(input) != [] ==> checked && results == Found(input)
    {
      if Trim(input) != [] {
        checked := true;
        var found := Found(input);
        Seqs.FilterIsSubsequence(DemoErrors, FoundIn(input));
        results := if |found| > 0 then found else [];
      }
    }
  }
}
