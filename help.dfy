/** The help and support page (HelpSupportPage): the FAQ search, the
    suggestion picked for the query, the FAQ accordion with its "advanced
    explanation" panel, and the micro-flow modal of the quick actions. The
    answers, advanced explanations and suggestion texts are display text and
    are not modelled. */
module Help {
  import opened Text
  import Seqs
  import opened Options

  /** A FAQ entry: its id and the text the search looks at. */
  datatype Faq = Faq(id: int, title: string, keywords: string)

  const Faqs: seq<Faq> := [
    Faq(1, "How are my pronunciation scores calculated?", "pronunciation score accuracy rating speaking voice"),
    Faq(2, "Why isn't my microphone being detected?", "audio microphone not detected recording input sound"),
    Faq(3, "Why do tasks keep repeating?", "task recommendation repetitive spaced repetition review"),
    Faq(4, "My progress isn't saving", "session progress lost save data sync"),
    Faq(5, "The AI feedback seems wrong", "ai feedback wrong inaccurate correction suggestion"),
    Faq(6, "The time limit feels too short", "timer time limit countdown too fast timed task")
  ]

  // ---------------------------------------------------------------
  // Search
  // ---------------------------------------------------------------

  /** `query.toLowerCase().trim()`. */
  function Query(query: string): string {
    Trim(ToLower(query))
  }

  /** The lower-cased title and keywords that the search splits into words. */
  function Haystack(f: Faq): string {
    ToLower(f.title + " " + f.keywords)
  }

  /** Some word of the FAQ's text contains the query. */
  function MatchesQuery(q: string): Faq -> bool {
    (f: Faq) => SomeWordContains(SplitWords(Haystack(f)), q)
  }

  /** `filtered`: every FAQ for a blank query, otherwise the FAQs one of
      whose words contains the query. */
  function Filtered(query: string): seq<Faq> {
    var q := Query(query);
    if q == [] then Faqs else Seqs.Filter(Faqs, MatchesQuery(q))
  }

  /** The query is blank exactly when the typed text is all white space. */
  lemma QueryBlankIffAllSpace(query: string)
    ensures Query(query) == [] <==> AllSpace(query)
  {
    TrimEmptyIffAllSpace(ToLower(query));
    forall i | 0 <= i < |query| ensures IsSpace(ToLower(query)[i]) <==> IsSpace(query[i]) {
      LowerCharSpace(query[i]);
    }
  }

  /** An empty or white-space query shows all six FAQs in their order. */
  lemma BlankQueryShowsAll(query: string)
    requires AllSpace(query)
    ensures Filtered(query) == Faqs && |Filtered(query)| == 6
  {
    QueryBlankIffAllSpace(query);
  }

  /** For any other query the FAQs shown keep their relative order, and a
      FAQ is shown exactly when the query has no white space and occurs in
      its lower-cased title and keywords. */
  lemma FilteredSpec(query: string, f: Faq)
    requires !AllSpace(query)
    ensures Seqs.IsSubsequence(Filtered(query), Faqs)
    ensures f in Filtered(query) <==>
      f in Faqs && NoSpace(Query(query)) && Contains(Haystack(f), Query(query))
  {
    QueryBlankIffAllSpace(query);
    var q := Query(query);
    Seqs.FilterIsSubsequence(Faqs, MatchesQuery(q));
    Seqs.FilterMembership(Faqs, MatchesQuery(q), f);
    SomeWordContainsIff(Haystack(f), q);
  }

  /** A query with white space inside it matches no FAQ: the words of a
      split contain none. */
  lemma InnerSpaceMatchesNothing(query: string)
    requires !AllSpace(query) && !NoSpace(Query(query))
    ensures Filtered(query) == []
  {
    QueryBlankIffAllSpace(query);
    var q := Query(query);
    forall i | 0 <= i < |Faqs| ensures !MatchesQuery(q)(Faqs[i]) {
      SomeWordContainsIff(Haystack(Faqs[i]), q);
    }
    Seqs.FilterNone(Faqs, MatchesQuery(q));
  }

  /** Letter case does not matter to the search. */
  lemma SearchIgnoresCase(a: string, b: string)
    requires ToLower(a) == ToLower(b)
    ensures Filtered(a) == Filtered(b)
  {
  }

  // ---------------------------------------------------------------
  // Suggestion
  // ---------------------------------------------------------------

  /** The keys of the suggestion table in declaration order, which is the
      order `Object.keys` lists them in. */
  const SuggestionKeys: seq<string> := ["pronunciation", "mic", "progress", "task", "ai", "timer", "score"]

  /** The index of the first key that `q` contains, or `|keys|`. */
  function FirstContained(keys: seq<string>, q: string): (i: nat)
    ensures i <= |keys|
    ensures i < |keys| ==> Contains(q, keys[i])
    ensures forall j :: 0 <= j < i ==> !Contains(q, keys[j])
  {
    if keys == [] then 0
    else if Contains(q, keys[0]) then 0
    else 1 + FirstContained(keys[1..], q)
  }


  /** `suggestionKey`: the first key, in declaration order, that occurs in
      the query. */
  function SuggestionKey(query: string): (key: Option<string>)
    ensures key.Some? ==> key.value in SuggestionKeys && Contains(Query(query), key.value)
    ensures key.None? <==> forall k :: k in SuggestionKeys ==> !Contains(Query(query), k)
  {
    var i := FirstContained(SuggestionKeys, Query(query));
    if i < |SuggestionKeys| then Some(SuggestionKeys[i]) else None
  }

  /** The key found comes before every other key the query contains. */
  lemma SuggestionIsFirst(query: string, j: nat)
    requires j < |SuggestionKeys| && Contains(Query(query), SuggestionKeys[j])
    ensures SuggestionKey(query).Some?
    ensures exists i :: 0 <= i <= j && SuggestionKeys[i] == SuggestionKey(query).value
  {
    var i := FirstContained(SuggestionKeys, Query(query));
    assert SuggestionKeys[i] == SuggestionKey(query).value;
  }

  /** A blank query has no suggestion: no key is empty. */
  lemma BlankQueryNoSuggestion(query: string)
    requires AllSpace(query)
    ensures SuggestionKey(query) == None
  {
    QueryBlankIffAllSpace(query);
    forall k | k in SuggestionKeys ensures !Contains([], k) {
      if Contains([], k) {
        ContainsInEmpty(k);
      }
    }
  }

  // ---------------------------------------------------------------
  // The page
  // ---------------------------------------------------------------

  /** The four quick actions that open the micro-flow modal. */
  datatype Action = CheckMicrophone | SyncProgress | RecalibrateLevel | ReportIssue

  class HelpPage {
    var query: string
    /** The FAQ whose answer is shown, and the one whose advanced panel is. */
    var openId: Option<int>
    var advancedId: Option<int>
    var activeFlow: Option<Action>
    var flowProgress: int
    var flowDone: bool
    /** The two-second timer that marks the flow done, while it is pending. */
    var doneTimer: bool
    /** The 30 ms timers that fill the progress bar; they are never cleared. */
    var progressTimers: nat

    /** The progress bar is empty or full, the flow is marked done only
        while it is shown, and the done timer is pending only for a shown
        flow that is not done yet. */
    predicate Valid()
      reads this
    {
      && (flowProgress == 0 || flowProgress == 100)
      && (flowDone ==> activeFlow.Some?)
      && (doneTimer ==> activeFlow.Some? && !flowDone)
    }

    /** The advanced explanation of FAQ `id` is on screen. */
    predicate ShowsAdvanced(id: int)
      reads this
    {
      openId == Some(id) && advancedId == Some(id)
    }

    constructor ()
      ensures Valid()
      ensures query == [] && openId == None && advancedId == None
      ensures activeFlow == None && flowProgress == 0 && !flowDone
      ensures !doneTimer && progressTimers == 0
    {
      query, openId, advancedId := [], None, None;
      activeFlow, flowProgress, flowDone := None, 0, false;
      doneTimer, progressTimers := false, 0;
    }

    /** Typing in the search box, or its clear button with the empty text. */
    method SetQuery(text: string)
      requires Valid()
      modifies this
      ensures Valid() && query == text
      ensures openId == old(openId) && advancedId == old(advancedId)
      ensures activeFlow == old(activeFlow) && flowProgress == old(flowProgress) && flowDone == old(flowDone)
      ensures doneTimer == old(doneTimer) && progressTimers == old(progressTimers)
    {
      query := text;
    }

    /** A click on the header of FAQ `id`: an open FAQ closes and hides its
        advanced panel; a closed one opens in place of any other. The
        advanced panel of another FAQ is left as it was. */
    method ToggleFaq(id: int)
      requires Valid()
      modifies this
      ensures Valid()
      ensures old(openId) == Some(id) ==> openId == None && advancedId == None
      ensures old(openId) != Some(id) ==> openId == Some(id) && advancedId == old(advancedId)
      ensures forall other :: other != id ==> !ShowsAdvanced(other)
      ensures query == old(query) && activeFlow == old(activeFlow) && flowProgress == old(flowProgress)
      ensures flowDone == old(flowDone) && doneTimer == old(doneTimer) && progressTimers == old(progressTimers)
    {
      var isOpen := openId == Some(id);
      openId := if isOpen then None else Some(id);
      if isOpen {
        advancedId := None;
      }
    }

    /** "Show / Hide advanced explanation", inside the open FAQ. */
    method ToggleAdvanced(id: int)
      requires Valid() && openId == Some(id)
      modifies this
      ensures Valid()
      ensures ShowsAdvanced(id) <==> !old(ShowsAdvanced(id))
      ensures openId == old(openId)
      ensures query == old(query) && activeFlow == old(activeFlow) && flowProgress == old(flowProgress)
      ensures flowDone == old(flowDone) && doneTimer == old(doneTimer) && progressTimers == old(progressTimers)
    {
      advancedId := if advancedId == Some(id) then None else Some(id);
    }

    /** openFlow: the done timer of an earlier flow is cleared, the modal
        shows the action with an empty bar, a timer to fill the bar is set
        and the done timer is armed again. */
    method OpenFlow(a: Action)
      requires Valid()
      modifies this
      ensures Valid()
      ensures activeFlow == Some(a) && flowProgress == 0 && !flowDone
      ensures doneTimer && progressTimers == old(progressTimers) + 1
      ensures query == old(query) && openId == old(openId) && advancedId == old(advancedId)
    {
      activeFlow := Some(a);
      flowProgress := 0;
      flowDone := false;
      progressTimers := progressTimers + 1;
      doneTimer := true;
    }

    /** closeFlow (backdrop, Cancel or Done): the done timer is cleared and
        the modal closed with an empty bar. A pending bar timer still fires. */
    method CloseFlow()
      requires Valid()
      modifies this
      ensures Valid()
      ensures activeFlow == None && flowProgress == 0 && !flowDone && !doneTimer
      ensures progressTimers == old(progressTimers)
      ensures query == old(query) && openId == old(openId) && advancedId == old(advancedId)
    {
      doneTimer := false;
      activeFlow := None;
      flowProgress := 0;
      flowDone := false;
    }

    /** A bar timer fires: the bar is full, whether or not the modal is open. */
    method ProgressTimerFires()
      requires Valid() && progressTimers > 0
      modifies this
      ensures Valid()
      ensures flowProgress == 100 && progressTimers == old(progressTimers) - 1
      ensures activeFlow == old(activeFlow) && flowDone == old(flowDone) && doneTimer == old(doneTimer)
      ensures query == old(query) && openId == old(openId) && advancedId == old(advancedId)
    {
      flowProgress := 100;
      progressTimers := progressTimers - 1;
    }

    /** The done timer fires: the shown flow is marked done. */
    method DoneTimerFires()
      requires Valid() && doneTimer
      modifies this
      ensures Valid()
      ensures flowDone && !doneTimer && activeFlow == old(activeFlow) && activeFlow.Some?
      ensures flowProgress == old(flowProgress) && progressTimers == old(progressTimers)
      ensures query == old(query) && openId == old(openId) && advancedId == old(advancedId)
    {
      flowDone := true;
      doneTimer := false;
    }
  }
}
