/** The four-box code input of the sign-up page (OtpBoxInput): the value is
    a string of at most four digits, box `i` shows its `i`-th character, and
    the handlers rebuild the value after a keystroke, a Backspace or a paste. */
module OtpInput {
  import opened Text
  import Seqs

  const Boxes := 4

  /** A value the boxes can hold. */
  predicate IsCode(value: string) {
    IsDigits(value) && |value| <= Boxes
  }

  /** `char.replace(/\D/g, "").slice(-1)`: the last digit typed, if any. */
  function LastDigit(typed: string): (d: string)
    ensures |d| <= 1 && IsDigits(d)
    ensures d == [] <==> Digits(typed) == []
    ensures d != [] ==>
              exists i ::
                0 <= i < |typed| && typed[i] == d[0] &&
                forall j :: i < j < |typed| ==> !IsDigit(typed[j])
  {
    var ds := Digits(typed);
    if ds == [] then []
    else
      LastDigitPosition(typed);
      [ds[|ds| - 1]]
  }

  predicate NotBlank(c: char) { c != ' ' }

  /** The slots after a keystroke in box `index`: the value padded with
      blanks to four boxes, with the box overwritten by the digit or a blank. */
  function Slots(value: string, index: nat, d: string): (s: seq<char>)
    requires IsCode(value) && index < Boxes && |d| <= 1
    ensures |s| == Boxes
  {
    (value + Blanks(Boxes - |value|))[index := if d != [] then d[0] else ' ']
  }

  /** handleChange: a digit overwrites (or appends in) its box; typing no
      digit blanks the box, and removing blanks shifts later digits left. */
  method HandleChange(value: string, index: nat, typed: string) returns (next: string)
    requires IsCode(value) && index < Boxes
    ensures IsCode(next)
    ensures var d := LastDigit(typed);
      if d != [] then
        next == if index < |value| then value[index := d[0]] else value + d
      else
        next == if index < |value| then value[..index] + value[index + 1..] else value
  {
    var d := LastDigit(typed);
    // (value + "    ").split("").slice(0, 4), then arr[index] = digit || " "
    var padded := value + Blanks(Boxes - |value|);
    var arr := new char[Boxes](j requires 0 <= j < Boxes => padded[j]);
    arr[index] := if d != [] then d[0] else ' ';
    assert arr[..] == Slots(value, index, d) by {
      forall j | 0 <= j < Boxes ensures arr[j] == Slots(value, index, d)[j] {
        if j != index {
          assert arr[j] == padded[j];
        }
      }
    }
    // arr.join("").trimEnd().replace(/ /g, ""): the blanks are the only white
    // space in the slots, so the trim is subsumed by removing every blank
    next := Compact(arr);
    SlotsKept(value, index, d);
  }

  /** `arr.join("").replace(/ /g, "")`: the slots without their blanks, in order. */
  method Compact(arr: array<char>) returns (next: string)
    ensures next == Seqs.Filter(arr[..], NotBlank)
    ensures ' ' !in next
  {
    next := "";
    var i := 0;
    while i < arr.Length
      invariant 0 <= i <= arr.Length
      invariant next == Seqs.Filter(arr[..i], NotBlank)
    {
      assert Seqs.Filter(arr[..i + 1], NotBlank) ==
        next + if arr[i] != ' ' then [arr[i]] else [] by {
        assert arr[..i + 1] == arr[..i] + [arr[i]];
        Seqs.FilterAppend(arr[..i], [arr[i]], NotBlank);
      }
      if arr[i] != ' ' {
        next := next + [arr[i]];
      }
      i := i + 1;
    }
    assert arr[..i] == arr[..];
  }

  /** What survives the removal of blanks from the slots. */
  lemma SlotsKept(value: string, index: nat, d: string)
    requires IsCode(value) && index < Boxes && |d| <= 1 && IsDigits(d)
    ensures var kept := Seqs.Filter(Slots(value, index, d), NotBlank);
      && IsCode(kept)
      && (d != [] ==> kept == if index < |value| then value[index := d[0]] else value + d)
      && (d == [] ==> kept == if index < |value| then value[..index] + value[index + 1..] else value)
  {
    if index < |value| {
      SlotsKeptInside(value, index, d);
    } else {
      SlotsKeptBeyond(value, index, d);
    }
  }

  /** A keystroke in a box that holds a digit. */
  lemma SlotsKeptInside(value: string, index: nat, d: string)
    requires IsCode(value) && index < |value| && |d| <= 1 && IsDigits(d)
    ensures var kept := Seqs.Filter(Slots(value, index, d), NotBlank);
      kept == if d != [] then value[index := d[0]] else value[..index] + value[index + 1..]
  {
    var c := if d != [] then d[0] else ' ';
    var pre, post, tail := value[..index], value[index + 1..], Blanks(Boxes - |value|);
    InsideLayout(value, index, c);
    assert Slots(value, index, d) == pre + [c] + post + tail;
    FilterAround(pre, c, post, tail);
  }

  /** The slots of a keystroke inside the value: the digits before the box,
      the box, the digits after it, and the blank padding. */
  lemma InsideLayout(value: string, index: nat, c: char)
    requires IsCode(value) && index < |value|
    ensures (value + Blanks(Boxes - |value|))[index := c] ==
      value[..index] + [c] + value[index + 1..] + Blanks(Boxes - |value|)
    ensures value[index := c] == value[..index] + [c] + value[index + 1..]
  {
  }

  /** Removing blanks around one slot keeps the digits on either side. */
  lemma FilterAround(pre: string, c: char, post: string, tail: string)
    requires IsDigits(pre) && IsDigits(post)
    requires forall j :: 0 <= j < |tail| ==> tail[j] == ' '
    ensures Seqs.Filter(pre + [c] + post + tail, NotBlank) ==
      pre + (if c != ' ' then [c] else []) + post
  {
    assert Seqs.Filter(pre + [c] + post + tail, NotBlank) == Seqs.Filter(pre + [c] + post, NotBlank) by {
      Seqs.FilterNone(tail, NotBlank);
      Seqs.FilterAppend(pre + [c] + post, tail, NotBlank);
    }
    Seqs.FilterAll(pre, NotBlank);
    Seqs.FilterAll(post, NotBlank);
    Seqs.FilterAppend(pre + [c], post, NotBlank);
    Seqs.FilterAppend(pre, [c], NotBlank);
    assert Seqs.Filter([c], NotBlank) == if c != ' ' then [c] else [];
  }

  /** A keystroke in an empty box. */
  lemma SlotsKeptBeyond(value: string, index: nat, d: string)
    requires IsCode(value) && |value| <= index < Boxes && |d| <= 1 && IsDigits(d)
    ensures Seqs.Filter(Slots(value, index, d), NotBlank) == value + d
  {
    var c := if d != [] then d[0] else ' ';
    var gap, tail := Blanks(index - |value|), Blanks(Boxes - index - 1);
    var front := value + gap;
    var mid := front + [c];
    assert Slots(value, index, d) == mid + tail;
    assert Seqs.Filter(front, NotBlank) == value by {
      Seqs.FilterAll(value, NotBlank);
      Seqs.FilterNone(gap, NotBlank);
      Seqs.FilterAppend(value, gap, NotBlank);
    }
    assert Seqs.Filter(mid + tail, NotBlank) == Seqs.Filter(mid, NotBlank) by {
      Seqs.FilterNone(tail, NotBlank);
      Seqs.FilterAppend(mid, tail, NotBlank);
    }
    Seqs.FilterAppend(front, [c], NotBlank);
    if d != [] {
      assert Seqs.Filter([c], NotBlank) == [c] == d;
    } else {
      assert Seqs.Filter([c], NotBlank) == [];
    }
  }

  /** `n` blank slots. */
  function Blanks(n: nat): (s: seq<char>)
    ensures |s| == n && forall j :: 0 <= j < n ==> s[j] == ' '
  {
    seq(n, _ => ' ')
  }

  /** handleKeyDown for Backspace: in an empty box past the first, the
      previous box is cleared; otherwise the box itself is cleared. Clearing
      a slot beyond the end of the value leaves it as it is. */
  method Backspace(value: string, index: nat) returns (next: string)
    requires IsCode(value) && index < Boxes
    ensures IsCode(next)
    ensures |value| - 1 <= |next| <= |value|
    ensures next ==
      if index < |value| then value[..index] + value[index + 1..]
      else if index == |value| && index > 0 then value[..index - 1]
      else value
  {
    var k := if index >= |value| && index > 0 then index - 1 else index;
    if k < |value| {
      next := ClearChar(value, k);
      assert k == |value| - 1 ==> value[k + 1..] == [];
    } else {
      // the write lands past the end of the array and joins as nothing
      next := value;
    }
  }

  /** `arr = value.split(""); arr[k] = ""; arr.join("")`: the value without
      its `k`-th character. */
  method ClearChar(value: string, k: nat) returns (next: string)
    requires k < |value|
    ensures next == value[..k] + value[k + 1..]
    ensures |next| == |value| - 1
  {
    var arr := new string[|value|](j requires 0 <= j < |value| => [value[j]]);
    arr[k] := "";
    next := "";
    var i := 0;
    while i < arr.Length
      invariant 0 <= i <= arr.Length == |value|
      invariant forall j :: 0 <= j < arr.Length ==> arr[j] == if j == k then "" else [value[j]]
      invariant next == if i <= k then value[..i] else value[..k] + value[k + 1..i]
    {
      if i < k {
        assert arr[i] == [value[i]];
        assert value[..i + 1] == value[..i] + [value[i]];
      } else if i == k {
        assert arr[i] == "";
        assert value[k + 1..i + 1] == [];
      } else {
        assert arr[i] == [value[i]];
        assert value[k + 1..i + 1] == value[k + 1..i] + [value[i]];
      }
      next := next + arr[i];
      i := i + 1;
    }
    assert value[k + 1..|value|] == value[k + 1..];
  }

  /** handlePaste: the first four digits of the clipboard text. */
  function Paste(clipboard: string): (code: string)
    ensures IsCode(code)
    ensures code <= Digits(clipboard)
    ensures |code| == if |Digits(clipboard)| < Boxes then |Digits(clipboard)| else Boxes
  {
    var d := Digits(clipboard);
    if |d| <= Boxes then d else d[..Boxes]
  }
}
