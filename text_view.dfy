/** The single-line query field's own behaviour (`SingleLineTextView` in
    ComfyNotes/Components/SearchBar.swift): which keys it consumes and how it
    rewrites pasted text (each LF becomes a space). */
module SingleLineTextView {
  import opened Wrappers

  const UpArrowKey: UInt16 := 126
  const DownArrowKey: UInt16 := 125
  const ReturnKey: UInt16 := 36
  const KeypadEnterKey: UInt16 := 76

  /** Where `keyDown` sends a key: one of the three session callbacks, or the
      text view's default handling (`super.keyDown`), which edits the text. */
  datatype KeyRoute = ToArrowUp | ToArrowDown | ToReturn | ToTextEditing

  function RouteKey(keyCode: UInt16): (r: KeyRoute)
    ensures r == ToTextEditing <==> keyCode !in {UpArrowKey, DownArrowKey, ReturnKey, KeypadEnterKey}
    ensures r == ToArrowUp <==> keyCode == UpArrowKey
    ensures r == ToArrowDown <==> keyCode == DownArrowKey
    ensures r == ToReturn <==> keyCode == ReturnKey || keyCode == KeypadEnterKey
  {
    if keyCode == UpArrowKey then ToArrowUp
    else if keyCode == DownArrowKey then ToArrowDown
    else if keyCode == ReturnKey || keyCode == KeypadEnterKey then ToReturn
    else ToTextEditing
  }

  /** The clipboard text after `replacingOccurrences(of: "\n", with: " ")`:
      each LF becomes a space. Other line terminators (CR, U+0085, U+2028,
      U+2029) are kept, as in the app. */
  function SingleLine(s: string): (r: string)
    ensures |r| == |s|
    ensures '\n' !in r
    ensures forall i :: 0 <= i < |s| ==> r[i] == if s[i] == '\n' then ' ' else s[i]
  {
    if s == [] then []
    else [if s[0] == '\n' then ' ' else s[0]] + SingleLine(s[1..])
  }

  /** Text without an LF is pasted unchanged. */
  lemma SingleLineKeepsSingleLines(s: string)
    requires '\n' !in s
    ensures SingleLine(s) == s
  {
  }

  lemma SingleLineIdempotent(s: string)
    ensures SingleLine(SingleLine(s)) == SingleLine(s)
  {
    SingleLineKeepsSingleLines(SingleLine(s));
  }
}
