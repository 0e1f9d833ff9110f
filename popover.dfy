// The open/closed logic of the Solarium popovers (the reactive `open` prop
// follows SolariumPopover.tsx; SolariumPopover2.tsx reads it once): an internal open
// state used only when the parent does not control `open`, the open and
// close actions that always notify the parent, the wrapper that routes the
// underlying popover's requests to them, Escape-to-close, and the parts
// that refuse to render outside their provider.
module Popover {
  import opened Wrappers

  /**
   * The popover context: `openProp` is the parent's `open` prop (None when
   * undefined, which makes the popover uncontrolled), `uncontrolledOpen` the
   * internal signal, `notified` the values passed to `onOpenChange` so far
   * (it stays empty when the parent gives no callback).
   */
  class PopoverLogic {
    var openProp: Option<bool>
    var uncontrolledOpen: bool
    var notified: seq<bool>
    const hasCallback: bool

    /** The internal state starts at `defaultOpen`, or closed. */
    constructor (defaultOpen: Option<bool>, openProp: Option<bool>, hasCallback: bool)
      ensures uncontrolledOpen == defaultOpen.UnwrapOr(false)
      ensures this.openProp == openProp && this.hasCallback == hasCallback && notified == []
    {
      uncontrolledOpen := defaultOpen.UnwrapOr(false);
      this.openProp := openProp;
      this.hasCallback := hasCallback;
      notified := [];
    }

    /** `isOpen`: the controlled prop when defined, else the internal state. */
    function IsOpen(): (r: bool)
      reads this
      ensures openProp.Some? ==> r == openProp.value
      ensures openProp.None? ==> r == uncontrolledOpen
    {
      openProp.UnwrapOr(uncontrolledOpen)
    }

    /** The parent re-renders with a new `open` prop; the internal state is kept. */
    method SetOpenProp(p: Option<bool>)
      modifies this
      ensures openProp == p
      ensures uncontrolledOpen == old(uncontrolledOpen) && notified == old(notified)
    {
      openProp := p;
    }

    /**
     * `open`: an uncontrolled popover opens; a controlled one stays as its
     * parent says; the parent is told `true` either way.
     */
    method Open()
      modifies this
      ensures openProp.None? ==> uncontrolledOpen && IsOpen()
      ensures openProp.Some? ==> uncontrolledOpen == old(uncontrolledOpen) && IsOpen() == old(IsOpen())
      ensures notified == old(notified) + (if hasCallback then [true] else [])
      ensures openProp == old(openProp)
    {
      if openProp.None? {
        uncontrolledOpen := true;
      }
      if hasCallback {
        notified := notified + [true];
      }
    }

    /** `close`: the mirror image of `Open`, telling the parent `false`. */
    method Close()
      modifies this
      ensures openProp.None? ==> !uncontrolledOpen && !IsOpen()
      ensures openProp.Some? ==> uncontrolledOpen == old(uncontrolledOpen) && IsOpen() == old(IsOpen())
      ensures notified == old(notified) + (if hasCallback then [false] else [])
      ensures openProp == old(openProp)
    {
      if openProp.None? {
        uncontrolledOpen := false;
      }
      if hasCallback {
        notified := notified + [false];
      }
    }

    /** The wrapper's `onOpenChange`: a request to open goes to `Open`, a request to close to `Close`. */
    method RequestOpenChange(open: bool)
      modifies this
      ensures openProp.None? ==> IsOpen() == open
      ensures openProp.Some? ==> IsOpen() == old(IsOpen()) && uncontrolledOpen == old(uncontrolledOpen)
      ensures notified == old(notified) + (if hasCallback then [open] else [])
      ensures openProp == old(openProp)
    {
      if open {
        Open();
      } else {
        Close();
      }
    }

    /**
     * A keydown while the content's listener is installed, which it is only
     * while the popover is open: Escape closes; any other key, or any key
     * while closed, changes nothing.
     */
    method KeyDown(key: string)
      modifies this
      ensures old(IsOpen()) && key == "Escape" ==>
        notified == old(notified) + (if hasCallback then [false] else []) &&
        (openProp.None? ==> !IsOpen()) &&
        (openProp.Some? ==> uncontrolledOpen == old(uncontrolledOpen))
      ensures !(old(IsOpen()) && key == "Escape") ==>
        uncontrolledOpen == old(uncontrolledOpen) && notified == old(notified)
      ensures openProp == old(openProp)
    {
      if IsOpen() && key == "Escape" {
        Close();
      }
    }
  }

  /** The parts that read the popover context. */
  datatype Part = Wrapper | Trigger | Content

  /** The error a part throws outside its provider. */
  function ContextError(part: Part): string
  {
    match part
    case Wrapper => "PopoverWrapper must be used within MorphingPopoverContext"
    case Trigger => "SolariumPopoverTrigger must be used within SolariumPopover"
    case Content => "SolariumPopoverContent must be used within SolariumPopover"
  }

  /** Reading the context: inside the provider the part renders; outside it throws. */
  function UseContext(part: Part, insideProvider: bool): (r: Result<(), string>)
    ensures r.Ok? <==> insideProvider
    ensures r.Err? ==> r.error == ContextError(part)
  {
    if insideProvider then Ok(()) else Err(ContextError(part))
  }
}
