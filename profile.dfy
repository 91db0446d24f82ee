/** The profile page (ProfilePage): the displayed name and level, the edit
    dialog with its draft name and level, and the three quick-setting
    switches. The avatar upload, the charts, the toasts and the logout are
    not modelled. */
module Profile {
  import opened Text

  /** The values the dialog's level selector offers. */
  const Levels: set<string> := {"Beginner", "Intermediate", "Advanced", "Expert"}

  /** The name saveEdit stores: the trimmed draft, or the previous name when
      the draft is blank. */
  function SavedName(draft: string, previous: string): (name: string)
    ensures Trim(draft) != [] ==> name == Trim(draft)
    ensures Trim(draft) == [] ==> name == previous
  {
    var t := Trim(draft);
    if t != [] then t else previous
  }

  /** A name that is neither blank nor padded with white space stays so
      through any save. */
  lemma SavedNameStaysTrimmed(draft: string, previous: string)
    requires previous != [] && Trim(previous) == previous
    ensures SavedName(draft, previous) != []
    ensures Trim(SavedName(draft, previous)) == SavedName(draft, previous)
  {
    TrimIdempotent(draft);
  }

  /** Saving the name the dialog was opened with keeps it. */
  lemma SavedNameUnedited(previous: string)
    requires previous != [] && Trim(previous) == previous
    ensures SavedName(previous, previous) == previous
  {
  }

  /** Saving white space around a name stores the bare name. */
  lemma SavedNameIgnoresPadding(before: string, name: string, after: string, previous: string)
    requires AllSpace(before) && AllSpace(after)
    requires name != [] && !IsSpace(name[0]) && !IsSpace(name[|name| - 1])
    ensures SavedName(before + name + after, previous) == name
  {
    TrimPadded(before, name, after);
  }

  /** The three quick settings. */
  datatype Setting = Notifications | PronunciationFeedback | AutoGrammarCheck

  class ProfilePage {
    var name: string
    var level: string
    var editOpen: bool
    var draftName: string
    var draftLevel: string
    var notifs: bool
    var pronounce: bool
    var grammar: bool

    /** The name shown is never blank nor padded, and the level is one the
        selector offers. */
    predicate Valid()
      reads this
    {
      && name != [] && Trim(name) == name
      && level in Levels && draftLevel in Levels
    }

    /** The value of one quick setting. */
    function SettingValue(s: Setting): bool
      reads this
    {
      match s
      case Notifications => notifs
      case PronunciationFeedback => pronounce
      case AutoGrammarCheck => grammar
    }

    constructor ()
      ensures Valid()
      ensures name == "Alex Johnson" && level == "Intermediate" && !editOpen
      ensures draftName == name && draftLevel == level
      ensures notifs && pronounce && !grammar
    {
      name, level := "Alex Johnson", "Intermediate";
      editOpen := false;
      draftName, draftLevel := "Alex Johnson", "Intermediate";
      notifs, pronounce, grammar := true, true, false;
      new;
      TrimStartOfTrimmed(name);
      TrimEndOfTrimmed(name);
    }

    /** openEdit: the drafts start from what is shown and the dialog opens. */
    method OpenEdit()
      requires Valid()
      modifies this
      ensures Valid()
      ensures editOpen && draftName == name && draftLevel == level
      ensures name == old(name) && level == old(level)
      ensures notifs == old(notifs) && pronounce == old(pronounce) && grammar == old(grammar)
    {
      draftName := name;
      draftLevel := level;
      editOpen := true;
    }

    /** Typing in the name field. */
    method EditName(text: string)
      requires Valid()
      modifies this
      ensures Valid()
      ensures draftName == text
      ensures name == old(name) && level == old(level) && editOpen == old(editOpen) && draftLevel == old(draftLevel)
      ensures notifs == old(notifs) && pronounce == old(pronounce) && grammar == old(grammar)
    {
      draftName := text;
    }

    /** Picking an option of the level selector. */
    method EditLevel(choice: string)
      requires Valid() && choice in Levels
      modifies this
      ensures Valid()
      ensures draftLevel == choice
      ensures name == old(name) && level == old(level) && editOpen == old(editOpen) && draftName == old(draftName)
      ensures notifs == old(notifs) && pronounce == old(pronounce) && grammar == old(grammar)
    {
      draftLevel := choice;
    }

    /** saveEdit: the name becomes the trimmed draft unless it is blank, the
        level becomes the draft level, and the dialog closes. Saving an
        unedited draft changes nothing that is shown. */
    method SaveEdit()
      requires Valid()
      modifies this
      ensures Valid()
      ensures name == SavedName(old(draftName), old(name)) && level == old(draftLevel) && !editOpen
      ensures old(draftName) == old(name) && old(draftLevel) == old(level) ==>
        name == old(name) && level == old(level)
      ensures draftName == old(draftName) && draftLevel == old(draftLevel)
      ensures notifs == old(notifs) && pronounce == old(pronounce) && grammar == old(grammar)
    {
      SavedNameStaysTrimmed(draftName, name);
      name := SavedName(draftName, name);
      level := draftLevel;
      editOpen := false;
    }

    /** Cancel, the backdrop and the close button: the dialog closes and
        nothing shown changes. */
    method CancelEdit()
      requires Valid()
      modifies this
      ensures Valid()
      ensures !editOpen && name == old(name) && level == old(level)
      ensures draftName == old(draftName) && draftLevel == old(draftLevel)
      ensures notifs == old(notifs) && pronounce == old(pronounce) && grammar == old(grammar)
    {
      editOpen := false;
    }

    /** A quick-setting switch: it and only it changes. */
    method ToggleSetting(s: Setting)
      requires Valid()
      modifies this
      ensures Valid()
      ensures SettingValue(s) == !old(SettingValue(s))
      ensures forall o :: o != s ==> SettingValue(o) == old(SettingValue(o))
      ensures name == old(name) && level == old(level) && editOpen == old(editOpen)
      ensures draftName == old(draftName) && draftLevel == old(draftLevel)
    {
      match s
      case Notifications => notifs := !notifs;
      case PronunciationFeedback => pronounce := !pronounce;
      case AutoGrammarCheck => grammar := !grammar;
    }
  }
}
