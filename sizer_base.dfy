/**
 * The property surface of `SizerBase` as a class whose setters update its
 * fields in place (UWP branch). Each method is tied to the function of
 * `SizerSpec` that gives the new state, through `Model()`.
 */
module SizerControl {
  import opened Wrappers
  import opened SizerSpec

  class SizerBase {
    /** The private `_cursorToUse`. */
    var cursorToUse: CursorShape
    var cursor: Option<CursorShape>
    var dragIncrement: real
    var keyboardIncrement: real
    var orientation: Orientation

    ghost function Model(): SizerState
      reads this
    {
      SizerState(cursorToUse, cursor, dragIncrement, keyboardIncrement, orientation)
    }

    /** `_cursorToUse` follows `Orientation`. */
    ghost predicate Valid()
      reads this
    {
      Consistent(Model())
    }

    /** The field initialiser and the registered defaults; defaults do not
        run the change callback. */
    constructor ()
      ensures Valid()
      ensures Model() == Defaults()
    {
      cursorToUse := InitialCursorToUse;
      cursor := None;
      dragIncrement := DefaultDragIncrement;
      keyboardIncrement := DefaultKeyboardIncrement;
      orientation := DefaultOrientation;
    }

    /** `OnOrientationPropertyChanged`, UWP branch. */
    method OnOrientationPropertyChanged()
      modifies this`cursorToUse, this`cursor
      ensures Valid()
      ensures Model() == OrientationChanged(old(Model()))
    {
      cursorToUse := if orientation == Vertical then SizeWestEast else SizeNorthSouth;
      cursor := Some(cursorToUse);
    }

    method GetOrientation() returns (o: Orientation)
      ensures o == Model().orientation
    {
      o := orientation;
    }

    method SetOrientation(o: Orientation)
      requires Valid()
      modifies this
      ensures Valid()
      ensures Model() == SizerSpec.SetOrientation(old(Model()), o)
    {
      if o != orientation {
        orientation := o;
        OnOrientationPropertyChanged();
      }
    }

    method GetCursor() returns (c: Option<CursorShape>)
      ensures c == Model().cursor
    {
      c := cursor;
    }

    method SetCursor(c: CursorShape)
      modifies this`cursor
      ensures Model() == SizerSpec.SetCursor(old(Model()), c)
    {
      cursor := Some(c);
    }

    method GetDragIncrement() returns (x: real)
      ensures x == Model().dragIncrement
    {
      x := dragIncrement;
    }

    method SetDragIncrement(x: real)
      modifies this`dragIncrement
      ensures Model() == SizerSpec.SetDragIncrement(old(Model()), x)
    {
      dragIncrement := x;
    }

    method GetKeyboardIncrement() returns (x: real)
      ensures x == Model().keyboardIncrement
    {
      x := keyboardIncrement;
    }

    method SetKeyboardIncrement(x: real)
      modifies this`keyboardIncrement
      ensures Model() == SizerSpec.SetKeyboardIncrement(old(Model()), x)
    {
      keyboardIncrement := x;
    }
  }
}
