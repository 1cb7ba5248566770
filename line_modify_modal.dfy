/**
 * The submit handler of the line-modification form: the submitted colour must be
 * one of the palette's values; if it is not, the handler gives up without
 * dispatching or closing; if it is, it dispatches one `modifyLine` for the line
 * being edited and then closes the form.
 */
module LineModifyModal {

  import opened Wrappers

  /** The line being edited (`ModifyLine`). */
  datatype ModifyLine = ModifyLine(id: int, name: string, color: string)

  /** The payload of `modifyLine`. */
  datatype LineInfo = LineInfo(lineId: int, name: string, color: string)

  /** What a submit does, in order: dispatch `modifyLine(lineInfo)`, then call `onClose`. */
  datatype Effect = DispatchModifyLine(lineInfo: LineInfo) | Close

  /** Array destructuring: position `i` of the submitted values, or `undefined` past the end. */
  function ValueAt(values: seq<string>, i: nat): (v: Option<string>)
    ensures v.Some? <==> i < |values|
    ensures v.Some? ==> v.value == values[i]
  {
    if i < |values| then Some(values[i]) else None
  }

  /** The palette check: only a present value that is one of the palette's values passes. */
  predicate IsPaletteColor(palette: set<string>, v: Option<string>) {
    v.Some? && v.value in palette
  }

  /** `onSubmitModifyLine` with the submitted values `[name, color]`. */
  function OnSubmitModifyLine(palette: set<string>, line: ModifyLine, inputValues: seq<string>): (effects: seq<Effect>)
    ensures effects == [] <==> !(|inputValues| >= 2 && inputValues[1] in palette)
    ensures effects != [] ==> |effects| == 2 && effects[0].DispatchModifyLine? && effects[1] == Close
    ensures effects != [] ==> effects[0].lineInfo.lineId == line.id
    ensures effects != [] ==> effects[0].lineInfo.color == inputValues[1] && effects[0].lineInfo.color in palette
    ensures effects != [] ==> effects[0].lineInfo.name == inputValues[0]
  {
    var name, color := ValueAt(inputValues, 0), ValueAt(inputValues, 1);
    if !IsPaletteColor(palette, color) then []
    else
      // `color` is present, so `name` is too, and `String(name)` of a string is the string itself.
      var lineInfo := LineInfo(line.id, name.value, color.value);
      [DispatchModifyLine(lineInfo), Close]
  }
}
