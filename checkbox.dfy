/** The `check-box` element: a toggle that announces every change. */
module Checkboxes {
  import opened Events

  /** The keys that toggle the box. */
  predicate TogglesOn(code: string) {
    code == "Enter" || code == "Space"
  }

  class CustomCheckbox {
    var checked: bool
    /** Events dispatched by the box, oldest first. */
    var log: seq<Notification>

    constructor ()
      ensures !checked && log == []
    {
      checked, log := false, [];
    }

    /** A click or change: negate `checked` and dispatch one check event; the default is prevented. */
    method Toggle() returns (prevented: bool)
      modifies this
      ensures checked == !old(checked) && log == old(log) + [Check] && prevented
    {
      checked := !checked;
      log := log + [Check];
      prevented := true;
    }

    /** Enter and Space toggle; any other key does nothing. */
    method OnKeyDown(code: string) returns (prevented: bool)
      modifies this
      ensures TogglesOn(code) ==> checked == !old(checked) && log == old(log) + [Check] && prevented
      ensures !TogglesOn(code) ==> checked == old(checked) && log == old(log) && !prevented
    {
      prevented := false;
      if code == "Enter" || code == "Space" {
        prevented := Toggle();
      }
    }
  }

  /** Toggling twice restores `checked` and announces both changes. */
  method ToggleTwice(b: CustomCheckbox)
    modifies b
    ensures b.checked == old(b.checked) && b.log == old(b.log) + [Check, Check]
  {
    var p := b.Toggle();
    p := b.Toggle();
  }
}
