/** The new-category form (`CategoryDialog`): one text field, cleared when the
    dialog closes, submitted trimmed and only when something is left after trimming. */
module CategoryForm {
  import opened Strings

  /** What the form asks its parent to do, in order. */
  datatype Callback = OnSave(name: string) | OnClose

  class CategoryDialog {
    var name: string
    /** The `open` prop of the last render. */
    var renderedOpen: bool

    constructor (open: bool)
      ensures name == "" && renderedOpen == open
    {
      name, renderedOpen := "", open;
    }

    /** `setName`, on every keystroke. */
    method SetName(v: string)
      modifies this`name
      ensures name == v
    {
      name := v;
    }

    /** A render: when the dialog has just been closed the name is cleared;
        otherwise it is kept. */
    method Rerender(open: bool)
      modifies this
      ensures !open && old(renderedOpen) ==> name == ""
      ensures open || !old(renderedOpen) ==> name == old(name)
      ensures renderedOpen == open
    {
      if open != renderedOpen && !open {
        name := "";
      }
      renderedOpen := open;
    }

    /** `disabled={!name.trim()}` on the save button. */
    function SaveDisabled(): (b: bool)
      reads this
      ensures b <==> AllSpace(name)
    {
      TrimEmptyIff(name);
      Trim(name) == ""
    }

    /** `handleSubmit`: with something left after trimming, save the trimmed name
        and close; otherwise do nothing at all. The save button is disabled exactly
        when nothing would be done. */
    method Submit() returns (callbacks: seq<Callback>)
      ensures callbacks == [] <==> SaveDisabled()
      ensures callbacks == [] <==> AllSpace(name)
      ensures callbacks != [] ==>
                && |callbacks| == 2 && callbacks[0].OnSave? && callbacks[1] == OnClose
                && callbacks[0].name == Trim(name)
                && callbacks[0].name != "" && Trimmed(callbacks[0].name)
    {
      TrimEmptyIff(name);
      TrimSpec(name);
      var trimmed := Trim(name);
      if trimmed != "" {
        callbacks := [OnSave(trimmed), OnClose];
      } else {
        callbacks := [];
      }
    }
  }

  /** Submitting a name and reopening the dialog: after a save the parent closes
      the dialog, which clears the field; a blank name is neither saved nor cleared. */
  method SubmitThenReopen(typed: string) returns (saved: seq<Callback>, shown: string)
    ensures saved == [] <==> AllSpace(typed)
    ensures saved != [] ==> shown == ""
    ensures saved == [] ==> shown == typed
  {
    var dialog := new CategoryDialog(true);
    dialog.SetName(typed);
    saved := dialog.Submit();
    if saved != [] {
      dialog.Rerender(false);
      dialog.Rerender(true);
    }
    shown := dialog.name;
  }
}
