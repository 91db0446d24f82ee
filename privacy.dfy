/** The privacy and security page (PrivacyPage): the section accordion, the
    security toggles, the data export that runs from "idle" through
    "preparing" to "ready", and the account-deletion dialog that is armed by
    typing DELETE. The exported file, the toasts and the labels' subtitles
    are not modelled. */
module Privacy {
  import opened Text
  import opened Options


  // ---------------------------------------------------------------
  // Security toggles
  // ---------------------------------------------------------------

  datatype ToggleItem = ToggleItem(name: string, enabled: bool)

  const InitialToggles: seq<ToggleItem> := [
    ToggleItem("Two-factor authentication", false),
    ToggleItem("Login activity alerts", true),
    ToggleItem("Share anonymised data", true),
    ToggleItem("Personalised learning", true)
  ]

  /** The list with entry `i` switched the other way. */
  function Flip(ts: seq<ToggleItem>, i: nat): (r: seq<ToggleItem>)
    requires i < |ts|
  {
    ts[i := ts[i].(enabled := !ts[i].enabled)]
  }

  /** A flip changes entry `i`'s switch and nothing else: not its name,
      not the other entries, not the length of the list. */
  lemma FlipOnlyEntry(ts: seq<ToggleItem>, i: nat)
    requires i < |ts|
    ensures |Flip(ts, i)| == |ts|
    ensures Flip(ts, i)[i].enabled == !ts[i].enabled && Flip(ts, i)[i].name == ts[i].name
    ensures forall j :: 0 <= j < |ts| && j != i ==> Flip(ts, i)[j] == ts[j]
  {
  }

  /** Flipping the same entry twice gives back the list. */
  lemma FlipTwice(ts: seq<ToggleItem>, i: nat)
    requires i < |ts|
    ensures Flip(Flip(ts, i), i) == ts
  {
    assert Flip(Flip(ts, i), i)[i] == ts[i];
  }

  /** Flips of two entries can be done in either order. */
  lemma FlipsCommute(ts: seq<ToggleItem>, i: nat, j: nat)
    requires i < |ts| && j < |ts|
    ensures Flip(Flip(ts, i), j) == Flip(Flip(ts, j), i)
  {
  }

  // ---------------------------------------------------------------
  // Export
  // ---------------------------------------------------------------

  datatype ExportState = Idle | Preparing | Ready

  const ExportDuration := 2000

  /** The percentage a frame shows `elapsed` milliseconds after the export
      started: the elapsed share of two seconds, rounded half up, at most 100. */
  function ExportPercent(elapsed: nat): (pct: int)
    ensures 0 <= pct <= 100
    ensures pct == 100 <==> elapsed * 200 >= 199 * ExportDuration
  {
    var rounded := (elapsed * 100 * 2 + ExportDuration) / (2 * ExportDuration);
    if rounded < 100 then rounded else 100
  }

  /** With a clock that does not go back, the bar never shrinks. */
  lemma ExportPercentMonotone(e1: nat, e2: nat)
    requires e1 <= e2
    ensures ExportPercent(e1) <= ExportPercent(e2)
  {
    DivMonotone(e1 * 200 + ExportDuration, e2 * 200 + ExportDuration);
  }

  /** Division by the positive constant of the export is monotone. */
  lemma DivMonotone(a: nat, b: nat)
    requires a <= b
    ensures a / 4000 <= b / 4000
  {
    assert (a / 4000) * 4000 <= a <= b < (b / 4000 + 1) * 4000;
  }

  // ---------------------------------------------------------------
  // Delete confirmation
  // ---------------------------------------------------------------

  const ConfirmWord := "DELETE"

  /** What the confirmation box holds after `text` is typed into it. */
  function ConfirmText(text: string): (r: string)
    ensures |r| == |text|
    ensures forall i :: 0 <= i < |text| ==> r[i] == UpperChar(text[i])
    ensures ToUpper(r) == r
  {
    ToUpperIdempotent(text);
    ToUpper(text)
  }

  /** The Delete button is enabled by DELETE typed in any mix of letter case,
      and by nothing else. */
  lemma ConfirmAnyCase(text: string)
    ensures ConfirmText(text) == ConfirmWord <==>
      |text| == 6 && forall i :: 0 <= i < 6 ==> text[i] == ConfirmWord[i] || text[i] == "delete"[i]
  {
    if |text| == 6 && forall i :: 0 <= i < 6 ==> text[i] == ConfirmWord[i] || text[i] == "delete"[i] {
      assert ConfirmText(text) == ConfirmWord;
    }
    if ConfirmText(text) == ConfirmWord {
      forall i | 0 <= i < 6 ensures text[i] == ConfirmWord[i] || text[i] == "delete"[i] {
        assert UpperChar(text[i]) == ConfirmWord[i];
      }
    }
  }

  // ---------------------------------------------------------------
  // The page
  // ---------------------------------------------------------------

  class PrivacyPage {
    var openSection: Option<string>
    var toggles: seq<ToggleItem>
    var exportState: ExportState
    var exportProgress: int
    var confirmDelete: bool
    var deleteConfirmText: string

    /** The bar is within [0, 100], empty when idle, below 100 while
        preparing and full when ready; the confirmation text is upper case
        and is empty whenever the dialog is closed. */
    predicate Valid()
      reads this
    {
      && 0 <= exportProgress <= 100
      && (exportState == Idle ==> exportProgress == 0)
      && (exportState == Preparing ==> exportProgress < 100)
      && (exportState == Ready ==> exportProgress == 100)
      && ToUpper(deleteConfirmText) == deleteConfirmText
      && (!confirmDelete ==> deleteConfirmText == [])
      && |toggles| == |InitialToggles|
    }

    /** The Delete button of the dialog is enabled. */
    predicate CanDelete()
      reads this
    {
      deleteConfirmText == ConfirmWord
    }

    /** The page opens with "Data We Collect" open, the initial toggles, no
        export and no dialog. */
    constructor ()
      ensures Valid()
      ensures openSection == Some("data") && toggles == InitialToggles
      ensures exportState == Idle && exportProgress == 0
      ensures !confirmDelete && deleteConfirmText == []
    {
      openSection := Some("data");
      toggles := InitialToggles;
      exportState, exportProgress := Idle, 0;
      confirmDelete, deleteConfirmText := false, [];
    }

    /** A click on a section header: the open one closes, another opens in
        its place, so at most one is open. */
    method ToggleSection(id: string)
      requires Valid()
      modifies this
      ensures Valid()
      ensures old(openSection) == Some(id) ==> openSection == None
      ensures old(openSection) != Some(id) ==> openSection == Some(id)
      ensures toggles == old(toggles) && exportState == old(exportState) && exportProgress == old(exportProgress)
      ensures confirmDelete == old(confirmDelete) && deleteConfirmText == old(deleteConfirmText)
    {
      openSection := if openSection == Some(id) then None else Some(id);
    }

    /** flipToggle: a copy of the list with entry `i` switched. */
    method FlipToggle(i: nat)
      requires Valid() && i < |toggles|
      modifies this
      ensures Valid()
      ensures toggles == Flip(old(toggles), i)
      ensures openSection == old(openSection) && exportState == old(exportState) && exportProgress == old(exportProgress)
      ensures confirmDelete == old(confirmDelete) && deleteConfirmText == old(deleteConfirmText)
    {
      var next := new ToggleItem[|toggles|](j requires 0 <= j < |toggles| reads this => toggles[j]);
      next[i] := next[i].(enabled := !next[i].enabled);
      assert next[..] == Flip(toggles, i);
      toggles := next[..];
    }

    /** startExport: nothing unless idle; from idle, preparing with an
        empty bar. */
    method StartExport()
      requires Valid()
      modifies this
      ensures Valid()
      ensures old(exportState) != Idle ==> exportState == old(exportState) && exportProgress == old(exportProgress)
      ensures old(exportState) == Idle ==> exportState == Preparing && exportProgress == 0
      ensures openSection == old(openSection) && toggles == old(toggles)
      ensures confirmDelete == old(confirmDelete) && deleteConfirmText == old(deleteConfirmText)
    {
      if exportState != Idle {
        return;
      }
      exportState := Preparing;
      exportProgress := 0;
    }

    /** One animation frame of a running export, `elapsed` milliseconds
        after it started: the bar shows the percentage, and the export is
        ready once it reaches 100. */
    method ExportTick(elapsed: nat)
      requires Valid() && exportState == Preparing
      modifies this
      ensures Valid()
      ensures exportProgress == ExportPercent(elapsed)
      ensures exportState == (if exportProgress == 100 then Ready else Preparing)
      ensures openSection == old(openSection) && toggles == old(toggles)
      ensures confirmDelete == old(confirmDelete) && deleteConfirmText == old(deleteConfirmText)
    {
      var pct := ExportPercent(elapsed);
      exportProgress := pct;
      if pct >= 100 {
        exportState := Ready;
      }
    }

    /** doDownload, offered once the export is ready: back to idle with an
        empty bar. */
    method Download()
      requires Valid() && exportState == Ready
      modifies this
      ensures Valid()
      ensures exportState == Idle && exportProgress == 0
      ensures openSection == old(openSection) && toggles == old(toggles)
      ensures confirmDelete == old(confirmDelete) && deleteConfirmText == old(deleteConfirmText)
    {
      exportState := Idle;
      exportProgress := 0;
    }

    /** "Delete account": the dialog opens. */
    method OpenDelete()
      requires Valid()
      modifies this
      ensures Valid()
      ensures confirmDelete && deleteConfirmText == old(deleteConfirmText)
      ensures openSection == old(openSection) && toggles == old(toggles)
      ensures exportState == old(exportState) && exportProgress == old(exportProgress)
    {
      confirmDelete := true;
    }

    /** Typing in the dialog's box: the text is kept upper-cased. */
    method TypeConfirm(text: string)
      requires Valid() && confirmDelete
      modifies this
      ensures Valid()
      ensures deleteConfirmText == ConfirmText(text) && confirmDelete
      ensures CanDelete() <==> ConfirmText(text) == ConfirmWord
      ensures openSection == old(openSection) && toggles == old(toggles)
      ensures exportState == old(exportState) && exportProgress == old(exportProgress)
    {
      deleteConfirmText := ConfirmText(text);
    }

    /** The backdrop, the close button and Cancel: the dialog closes and the
        text is cleared. */
    method CloseDelete()
      requires Valid()
      modifies this
      ensures Valid()
      ensures !confirmDelete && deleteConfirmText == [] && !CanDelete()
      ensures openSection == old(openSection) && toggles == old(toggles)
      ensures exportState == old(exportState) && exportProgress == old(exportProgress)
    {
      confirmDelete := false;
      deleteConfirmText := [];
    }

    /** handleDelete, reachable only through the enabled Delete button:
        the request is made and the dialog closes with the text cleared. */
    method ConfirmDeletion()
      requires Valid() && confirmDelete && CanDelete()
      modifies this
      ensures Valid()
      ensures !confirmDelete && deleteConfirmText == []
      ensures openSection == old(openSection) && toggles == old(toggles)
      ensures exportState == old(exportState) && exportProgress == old(exportProgress)
    {
      confirmDelete := false;
      deleteConfirmText := [];
    }
  }
}
