/**
  The pump-ID text field's edit rule: the delegate builds the text the edit
  would produce and stores it only while it has at most six characters;
  reaching exactly six also ends editing.
 */
module PumpIDEdit {
  import opened Wrappers

  /** The number of characters of a pump ID. */
  const PumpIDLength: nat := 6

  /** The edited range lies inside the current text, so it can be converted. */
  predicate Convertible(text: string, location: nat, length: nat)
  {
    location + length <= |text|
  }

  /** The text with the range replaced: the text before it, the replacement, the text after it. */
  function Replaced(text: string, location: nat, length: nat, replacement: string): (t: string)
    requires Convertible(text, location, length)
    ensures |t| == |text| - length + |replacement|
    ensures t[..location] == text[..location]
    ensures t[location..location + |replacement|] == replacement
    ensures t[location + |replacement|..] == text[location + length..]
  {
    text[..location] + replacement + text[location + length..]
  }

  /**
    What the delegate does with one edit: the field's new text, the answer
    it gives (true lets the text system apply the edit itself), and whether
    the field resigns first responder.
   */
  datatype EditResult = EditResult(text: Option<string>, allowDefault: bool, endsEditing: bool)

  function Edit(text: Option<string>, location: nat, length: nat, replacement: string): (r: EditResult)
    ensures r.allowDefault <==> text.None? || !Convertible(text.value, location, length)
    ensures r.allowDefault ==> r.text == text && !r.endsEditing
    ensures !r.allowDefault ==>
      var t := Replaced(text.value, location, length, replacement);
      && (|t| <= PumpIDLength ==> r.text == Some(t))
      && (|t| > PumpIDLength ==> r.text == text)
      && (r.endsEditing <==> |t| == PumpIDLength)
  {
    if text.None? || !Convertible(text.value, location, length) then
      EditResult(text, true, false)
    else
      var newText := Replaced(text.value, location, length, replacement);
      if |newText| >= PumpIDLength then
        if |newText| == PumpIDLength then EditResult(Some(newText), false, true)
        else EditResult(text, false, false)
      else
        EditResult(Some(newText), false, false)
  }

  /** One edit keeps a field of at most six characters at most six characters long. */
  lemma EditKeepsBound(text: string, location: nat, length: nat, replacement: string)
    requires |text| <= PumpIDLength
    ensures var r := Edit(Some(text), location, length, replacement);
      r.text.Some? && |r.text.value| <= PumpIDLength
  {
  }

  /** An edit the user makes: an NSRange and its replacement. */
  datatype EditRequest = EditRequest(location: nat, length: nat, replacement: string)

  /** The field's text after the delegate has handled a series of edits. */
  function ApplyEdits(text: Option<string>, edits: seq<EditRequest>): Option<string>
    decreases edits
  {
    if edits == [] then text
    else ApplyEdits(Edit(text, edits[0].location, edits[0].length, edits[0].replacement).text, edits[1..])
  }

  /** However many edits are typed or pasted, a field that starts at six characters or fewer never exceeds six. */
  lemma {:induction false} EditsNeverExceedSix(text: string, edits: seq<EditRequest>)
    requires |text| <= PumpIDLength
    ensures ApplyEdits(Some(text), edits).Some?
    ensures |ApplyEdits(Some(text), edits).value| <= PumpIDLength
    decreases edits
  {
    if edits != [] {
      var e := edits[0];
      EditKeepsBound(text, e.location, e.length, e.replacement);
      EditsNeverExceedSix(Edit(Some(text), e.location, e.length, e.replacement).text.value, edits[1..]);
    }
  }
}
