/** The practice test's static question bank (`allQuestions`), the mapping
    from the level in the route to a difficulty label (`levelLabels`), and
    the order-preserving selection of the questions of one difficulty. */
module QuestionBank {
  import opened Text
  import Seqs
  import opened Options

  datatype Kind = MultipleChoice | FillBlank | Audio


  /** A bank entry. The prompt, the spoken text of audio questions and the
      explanation are display text and are not modelled. */
  datatype Question = Question(
    id: int,
    kind: Kind,
    category: string,
    difficulty: string,
    options: Option<seq<string>>,
    correctAnswer: string,
    blanks: Option<seq<string>>)

  const Beginner: seq<Question> := [
    Question(1, MultipleChoice, "Grammar", "Beginner", Some(["go", "goes", "going", "gone"]), "goes", None),
    Question(2, FillBlank, "Vocabulary", "Beginner", None, "cold", Some(["cold", "warm", "cool"])),
    Question(3, MultipleChoice, "Reading", "Beginner", Some(["Sad", "Feeling pleasure", "Angry", "Tired"]), "Feeling pleasure", None),
    Question(4, Audio, "Listening", "Beginner", Some(["A weekend trip", "A daily morning routine", "A cooking recipe", "A sports event"]), "A daily morning routine", None),
    Question(5, FillBlank, "Grammar", "Beginner", None, "are", Some(["are", "is", "was"]))
  ]

  const Intermediate: seq<Question> := [
    Question(6, MultipleChoice, "Grammar", "Intermediate", Some(["She don't like coffee in the morning.", "She doesn't likes coffee in the morning.", "She doesn't like coffee in the morning.", "She not like coffee in the morning."]), "She doesn't like coffee in the morning.", None),
    Question(7, FillBlank, "Grammar", "Intermediate", None, "had", Some(["had", "have", "has"])),
    Question(8, Audio, "Listening", "Intermediate", Some(["Scientists disagree about climate change.", "Climate change requires urgent action to address its effects.", "Sea levels have always been rising naturally.", "Extreme weather events are decreasing over time."]), "Climate change requires urgent action to address its effects.", None),
    Question(9, MultipleChoice, "Vocabulary", "Intermediate", Some(["Approval", "Ignorance", "Hostility", "Confusion"]), "Approval", None),
    Question(10, FillBlank, "Reading", "Intermediate", None, "managed", Some(["managed", "failed", "refused"]))
  ]

  const Advanced: seq<Question> := [
    Question(11, FillBlank, "Vocabulary", "Advanced", None, "impact", Some(["impact", "effect", "influence"])),
    Question(12, Audio, "Listening", "Advanced", Some(["Enthusiastic and hopeful", "Sarcastic and frustrated", "Neutral and informative", "Cheerful and optimistic"]), "Sarcastic and frustrated", None),
    Question(13, MultipleChoice, "Reading", "Advanced", Some(["Introduce a new character", "Highlight contrasting ideas for emphasis", "Provide comic relief", "Summarize the main argument"]), "Highlight contrasting ideas for emphasis", None),
    Question(14, FillBlank, "Grammar", "Advanced", None, "reviewed", Some(["reviewed", "reviewing", "review"])),
    Question(15, MultipleChoice, "Vocabulary", "Advanced", Some(["Exacerbate", "Mitigate", "Proliferate", "Corroborate"]), "Mitigate", None)
  ]

  const Expert: seq<Question> := [
    Question(16, MultipleChoice, "Vocabulary", "Expert", Some(["Eloquent", "Incendiary", "Mundane", "Benevolent"]), "Incendiary", None),
    Question(17, FillBlank, "Grammar", "Expert", None, "did she pass", Some(["did she pass", "she passed", "she did pass"])),
    Question(18, Audio, "Listening", "Expert", Some(["Appeal to authority", "Correlation mistaken for causation", "Straw man argument", "Ad hominem attack"]), "Correlation mistaken for causation", None),
    Question(19, MultipleChoice, "Reading", "Expert", Some(["The blending of genetic traits in organisms", "The mixing of cultural identities and practices", "The combination of different literary genres", "The merging of historical timelines in narratives"]), "The mixing of cultural identities and practices", None),
    Question(20, FillBlank, "Vocabulary", "Expert", None, "cogent", Some(["cogent", "specious", "tepid"]))
  ]

  /** `allQuestions`, in declaration order. */
  function Bank(): seq<Question> {
    Beginner + Intermediate + Advanced + Expert
  }

  // ---------------------------------------------------------------
  // Data invariants of the bank
  // ---------------------------------------------------------------

  /** Neither leading nor trailing white space, and no upper-case letter:
      what `trim().toLowerCase()` leaves unchanged. */
  predicate Normalized(s: string) {
    (s == [] || (!IsSpace(s[0]) && !IsSpace(s[|s| - 1])))
    && forall i :: 0 <= i < |s| ==> !('A' <= s[i] <= 'Z')
  }

  /** A choice question offers its answer among its options; a fill-in
      question lists its answer among its hints and stores it normalised. */
  predicate WellFormed(q: Question) {
    match q.kind
    case FillBlank => q.options.None? && q.blanks.Some? && q.correctAnswer in q.blanks.value && Normalized(q.correctAnswer)
    case _ => q.options.Some? && q.blanks.None? && q.correctAnswer in q.options.value
  }

  predicate AllWellFormed(qs: seq<Question>) {
    forall k :: 0 <= k < |qs| ==> WellFormed(qs[k])
  }

  /** Every entry of the bank is well formed, and the ids are 1 to 20 in
      order, so no two entries share an id. */
  lemma BankInvariant()
    ensures AllWellFormed(Bank())
    ensures |Bank()| == 20 && forall k :: 0 <= k < 20 ==> Bank()[k].id == k + 1
  {
    BlockWellFormed(Beginner);
    BlockWellFormed(Intermediate);
    BlockWellFormed(Advanced);
    BlockWellFormed(Expert);
    assert AllWellFormed(Beginner + Intermediate);
    assert AllWellFormed(Beginner + Intermediate + Advanced);
  }

  /** The bank entries are well formed block by block. */
  lemma BlockWellFormed(block: seq<Question>)
    requires block in [Beginner, Intermediate, Advanced, Expert]
    ensures AllWellFormed(block)
  {
    forall k | 0 <= k < |block| ensures WellFormed(block[k]) {
      var q := block[k];
      if q.kind == FillBlank {
        NormalizedAnswer(q.correctAnswer);
      }
    }
  }

  /** The fill-in answers of the bank are lower-case words separated by
      single blanks. */
  lemma NormalizedAnswer(s: string)
    requires s in ["cold", "are", "had", "managed", "impact", "reviewed", "did she pass", "cogent"]
    ensures Normalized(s)
  {
  }

  /** A normalised string is its own `trim().toLowerCase()`. */
  lemma NormalizedFixed(s: string)
    requires Normalized(s)
    ensures ToLower(Trim(s)) == s
  {
    TrimStartOfTrimmed(s);
    TrimEndOfTrimmed(s);
  }

  // ---------------------------------------------------------------
  // levelLabels and the difficulty filter
  // ---------------------------------------------------------------

  /** The value `levelLabels[level] || "Beginner"` can take: a label, or a
      non-string value inherited from `Object.prototype`. */
  datatype LabelValue = Label(s: string) | Inherited

  /** The own keys of `levelLabels`. */
  const Labels: map<string, string> :=
    map["beginner" := "Beginner", "intermediate" := "Intermediate", "advanced" := "Advanced", "expert" := "Expert"]

  /** Keys every plain object inherits from `Object.prototype`, with a
      function or object value. */
  const PrototypeKeys: set<string> := {
    "constructor", "__proto__", "hasOwnProperty", "isPrototypeOf", "propertyIsEnumerable",
    "toLocaleString", "toString", "valueOf",
    "__defineGetter__", "__defineSetter__", "__lookupGetter__", "__lookupSetter__"
  }

  /** The label as the page computes it from the route's `level`: a missing
      or empty level gives "Beginner", an own key its label, an inherited key
      its (truthy, non-string) inherited value, anything else "Beginner". */
  function LevelLabelAsWritten(level: Option<string>): (l: LabelValue)
    ensures level.Some? && level.value in Labels ==> l == Label(Labels[level.value])
    ensures level.Some? && level.value in PrototypeKeys ==> l == Inherited
  {
    match level
    case None => Label("Beginner")
    case Some(k) =>
      if k == "" then Label("Beginner")
      else if k in Labels then Label(Labels[k])
      else if k in PrototypeKeys then Inherited
      else Label("Beginner")
  }

  /** The label as intended: the four known levels map to their labels and
      every other level, or none, to "Beginner". */
  function LevelLabel(level: Option<string>): (name: string)
    ensures level.Some? && level.value in Labels ==> name == Labels[level.value]
    ensures !(level.Some? && level.value in Labels) ==> name == "Beginner"
    ensures name in Labels.Values
  {
    assert Labels["beginner"] == "Beginner";
    match level
    case None => "Beginner"
    case Some(k) => if k in Labels then Labels[k] else "Beginner"
  }

  /** The two agree on every level but the inherited keys. */
  lemma LevelLabelAgrees(level: Option<string>)
    requires !(level.Some? && level.value in PrototypeKeys)
    ensures LevelLabelAsWritten(level) == Label(LevelLabel(level))
  {
  }

  /** `q.difficulty === levelLabel`: strictly equal only to a string. */
  function Matches(l: LabelValue): Question -> bool {
    (q: Question) => l.Label? && q.difficulty == l.s
  }

  /** The session's questions: `allQuestions.filter(q => q.difficulty === levelLabel)`. */
  function Select(l: LabelValue): seq<Question> {
    Seqs.Filter(Bank(), Matches(l))
  }

  /** Every bank entry of the label is selected, and nothing is reordered. */
  lemma SelectSpec(l: LabelValue, q: Question)
    ensures q in Select(l) <==> q in Bank() && l.Label? && q.difficulty == l.s
    ensures Seqs.IsSubsequence(Select(l), Bank())
  {
    Seqs.FilterMembership(Bank(), Matches(l), q);
    Seqs.FilterIsSubsequence(Bank(), Matches(l));
  }

  /** Each of the four labels selects its block of five questions; any
      other label, and an inherited value, selects nothing. */
  lemma SelectBlocks(l: LabelValue)
    ensures Select(l) ==
      if l == Label("Beginner") then Beginner
      else if l == Label("Intermediate") then Intermediate
      else if l == Label("Advanced") then Advanced
      else if l == Label("Expert") then Expert
      else []
  {
    BlockDifficulties();
    FilterBlocks(Beginner, Intermediate, Advanced, Expert, "Beginner", "Intermediate", "Advanced", "Expert", l);
  }

  /** Filtering four blocks of four different difficulties by one label. */
  lemma FilterBlocks(b0: seq<Question>, b1: seq<Question>, b2: seq<Question>, b3: seq<Question>,
                     n0: string, n1: string, n2: string, n3: string, l: LabelValue)
    requires forall k :: 0 <= k < |b0| ==> b0[k].difficulty == n0
    requires forall k :: 0 <= k < |b1| ==> b1[k].difficulty == n1
    requires forall k :: 0 <= k < |b2| ==> b2[k].difficulty == n2
    requires forall k :: 0 <= k < |b3| ==> b3[k].difficulty == n3
    requires n0 != n1 && n0 != n2 && n0 != n3 && n1 != n2 && n1 != n3 && n2 != n3
    ensures Seqs.Filter(b0 + b1 + b2 + b3, Matches(l)) ==
      if l == Label(n0) then b0
      else if l == Label(n1) then b1
      else if l == Label(n2) then b2
      else if l == Label(n3) then b3
      else []
  {
    FilterFour(b0, b1, b2, b3, Matches(l));
    BlockFilter(b0, n0, l);
    BlockFilter(b1, n1, l);
    BlockFilter(b2, n2, l);
    BlockFilter(b3, n3, l);
    if l == Label(n0) {
      assert b0 + [] + [] + [] == b0;
    } else if l == Label(n1) {
      assert [] + b1 + [] + [] == b1;
    } else if l == Label(n2) {
      assert [] + [] + b2 + [] == b2;
    } else if l == Label(n3) {
      assert [] + [] + [] + b3 == b3;
    }
  }

  /** Filtering four blocks in a row filters each block. */
  lemma FilterFour(b0: seq<Question>, b1: seq<Question>, b2: seq<Question>, b3: seq<Question>,
                   p: Question -> bool)
    ensures Seqs.Filter(b0 + b1 + b2 + b3, p) ==
      Seqs.Filter(b0, p) + Seqs.Filter(b1, p) + Seqs.Filter(b2, p) + Seqs.Filter(b3, p)
  {
    Seqs.FilterAppend(b0 + b1 + b2, b3, p);
    Seqs.FilterAppend(b0 + b1, b2, p);
    Seqs.FilterAppend(b0, b1, p);
  }

  /** The bank is declared in four blocks of one difficulty each. */
  lemma BlockDifficulties()
    ensures forall k :: 0 <= k < |Beginner| ==> Beginner[k].difficulty == "Beginner"
    ensures forall k :: 0 <= k < |Intermediate| ==> Intermediate[k].difficulty == "Intermediate"
    ensures forall k :: 0 <= k < |Advanced| ==> Advanced[k].difficulty == "Advanced"
    ensures forall k :: 0 <= k < |Expert| ==> Expert[k].difficulty == "Expert"
  {
  }

  /** A block of one difficulty is kept whole by its label and dropped by
      every other. */
  lemma BlockFilter(block: seq<Question>, name: string, l: LabelValue)
    requires forall k :: 0 <= k < |block| ==> block[k].difficulty == name
    ensures Seqs.Filter(block, Matches(l)) == if l == Label(name) then block else []
  {
    if l == Label(name) {
      Seqs.FilterAll(block, Matches(l));
    } else {
      Seqs.FilterNone(block, Matches(l));
    }
  }

  /** With the intended label every level gets five questions. */
  lemma FiveQuestionsPerLevel(level: Option<string>)
    ensures |Select(Label(LevelLabel(level)))| == 5
  {
    var name := LevelLabel(level);
    LabelNames(name);
    SelectBlocks(Label(name));
    assert |Beginner| == |Intermediate| == |Advanced| == |Expert| == 5;
  }

  /** The labels are the four difficulty names. */
  lemma LabelNames(name: string)
    requires name in Labels.Values
    ensures name == "Beginner" || name == "Intermediate" || name == "Advanced" || name == "Expert"
  {
    var k :| k in Labels && Labels[k] == name;
  }

  /** As written, an inherited key such as "constructor" selects no
      question, so the page shows "No questions available" instead of the
      beginner questions. */
  lemma InheritedLevelSelectsNothing()
    ensures LevelLabelAsWritten(Some("constructor")) == Inherited
    ensures Select(LevelLabelAsWritten(Some("constructor"))) == []
    ensures |Select(Label(LevelLabel(Some("constructor"))))| == 5
  {
    assert "constructor" in PrototypeKeys;
    SelectBlocks(Inherited);
    FiveQuestionsPerLevel(Some("constructor"));
  }
}
