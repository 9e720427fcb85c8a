/** The drawing action creators of src/actions/drawing.js. */
module DrawingActions {

  /** The two drawing actions; a start action has exactly the fields type,
      interaction and sourceName. */
  datatype DrawingAction =
    | Start(interaction: string, sourceName: string)
    | End

  /** `startDrawing(sourceName, drawingType)`: a `DRAWING.START` action.
      The first argument goes to `sourceName` and the second to
      `interaction`, the reverse of the order the fields are listed in. */
  function StartDrawing(sourceName: string, drawingType: string): (a: DrawingAction)
    ensures a.Start? && a.interaction == drawingType && a.sourceName == sourceName
  {
    Start(drawingType, sourceName)
  }

  /** `endDrawing()`: a `DRAWING.END` action with no other field. */
  function EndDrawing(): (a: DrawingAction)
    ensures a.End?
  {
    End
  }

  /** Two start actions are equal exactly when both arguments are, so the
      action determines the source name and the drawing type it was made
      from. */
  lemma StartDrawingInjective(s1: string, t1: string, s2: string, t2: string)
    ensures StartDrawing(s1, t1) == StartDrawing(s2, t2) <==> s1 == s2 && t1 == t2
  {
  }
}
