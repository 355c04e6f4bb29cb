/** The six-slot code entry shared by the two OTP confirmation screens:
    one text box per digit, written one character at a time. */
module OtpEntry {

  const CodeLength: nat := 6

  type Buffer = seq<string>

  /** Where focus goes after an input event. */
  datatype Focus = Stay | FocusBox(index: nat) | DismissKeyboard

  /** `new Array(6).fill('')`. */
  function Empty(): (b: Buffer)
    ensures |b| == 6 && forall i :: 0 <= i < 6 ==> b[i] == ""
  {
    ["", "", "", "", "", ""]
  }

  /** Six slots, none holding more than one character. */
  predicate WellFormed(b: Buffer) {
    |b| == CodeLength && forall i :: 0 <= i < |b| ==> |b[i]| <= 1
  }

  /** The change handlers' buffer update: text longer than one character is
      ignored, otherwise it replaces just the slot at `index`. */
  function Write(b: Buffer, text: string, index: nat): (r: Buffer)
    requires index < |b|
    ensures |r| == |b|
    ensures |text| > 1 ==> r == b
    ensures |text| <= 1 ==> r[index] == text
    ensures forall i :: 0 <= i < |b| && i != index ==> r[i] == b[i]
  {
    if |text| > 1 then b else b[index := text]
  }

  lemma WritePreservesWellFormed(b: Buffer, text: string, index: nat)
    requires WellFormed(b) && index < |b|
    ensures WellFormed(Write(b, text, index))
  {
  }

  /** Backspace in an empty box moves focus to the previous box. */
  function KeyPress(b: Buffer, key: string, index: nat): (f: Focus)
    requires index < |b|
    ensures f.FocusBox? <==> key == "Backspace" && b[index] == "" && index > 0
    ensures f.FocusBox? ==> f.index == index - 1
    ensures !f.FocusBox? ==> f == Stay
  {
    if key == "Backspace" && b[index] == "" && index > 0 then FocusBox(index - 1) else Stay
  }

  /** `code.join('')`. */
  function Join(b: Buffer): string {
    if b == [] then "" else Join(b[..|b| - 1]) + b[|b| - 1]
  }

  /** Every slot holds exactly one character. */
  predicate Complete(b: Buffer) {
    forall i :: 0 <= i < |b| ==> |b[i]| == 1
  }

  /** With slots of at most one character, the joined code is as long as
      the slot count exactly when every slot is filled. */
  lemma {:induction false} JoinFullIffComplete(b: Buffer)
    requires forall i :: 0 <= i < |b| ==> |b[i]| <= 1
    ensures |Join(b)| <= |b|
    ensures |Join(b)| == |b| <==> Complete(b)
  {
    if b != [] {
      var init := b[..|b| - 1];
      JoinFullIffComplete(init);
      if Complete(b) {
        assert Complete(init);
      }
      if |Join(b)| == |b| {
        assert |Join(init)| == |init| && |b[|b| - 1]| == 1;
        forall i | 0 <= i < |b| ensures |b[i]| == 1 {
          if i < |b| - 1 {
            assert b[i] == init[i];
          }
        }
      }
    }
  }

  /** Any sequence of writes from the empty buffer stays well formed. */
  function Replay(writes: seq<(string, nat)>): (b: Buffer)
    ensures WellFormed(b)
  {
    if writes == [] then Empty()
    else
      var b := Replay(writes[..|writes| - 1]);
      var (text, index) := writes[|writes| - 1];
      if index < |b| then Write(b, text, index) else b
  }
}
