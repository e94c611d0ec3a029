/**
 * `ResizePlugin`: the drag state machine, the toolbar handlers and the overlay
 * positioning, as a class whose methods take the browser events as parameters.
 * The `onChange` callback is a ghost count of its calls.
 */
module Plugin {
  import opened Wrappers
  import opened Geometry
  import opened Clamp
  import opened Drag
  import opened NumberText
  import opened StyleText
  import opened StyleCommit
  import opened Toolbar

  /**
   * The plugin's options. `onChange` says whether a callback was given; passing no
   * options at all behaves as `NoOptions`.
   */
  datatype Options = Options(keepAspectRatio: bool, constraints: Constraints, onChange: bool)

  const NoOptions := Options(false, NoConstraints, false)

  /** The `#editor-resizer` overlay: its inline position and size. */
  class Overlay {
    var left: real
    var top: real
    var width: real
    var height: real

    constructor ()
    {
    }

    function Placement(): Box
      reads this
    {
      Box(left, top, width, height)
    }
  }

  /**
   * The element being resized (`ResizeElement`): the fields the plugin writes on it.
   * `styles` holds the `_styles_<type>` properties, keyed by `<type>`.
   */
  class Target {
    var originSize: Option<Size>
    var cssText: string
    var styles: map<string, Fragment>
    var widthAttr: Option<real>
    var heightAttr: Option<real>

    /** A target that has never been attached to a plugin. */
    constructor (cssText: string)
      ensures originSize.None? && this.cssText == cssText && styles == map[]
      ensures widthAttr.None? && heightAttr.None?
    {
      originSize := None;
      this.cssText := cssText;
      styles := map[];
      widthAttr := None;
      heightAttr := None;
    }
  }

  class ResizePlugin {
    const target: Target
    const options: Options
    var resizer: Overlay?
    /** `startResizePosition`: present exactly while a drag is in progress. */
    var session: Option<Session>
    /** How many times `onChange` has been called. */
    ghost var notifications: nat

    /** After construction the target always has an origin size. */
    ghost predicate Valid()
      reads this, target
    {
      target.originSize.Some?
    }

    /**
     * Attaches to `target`. Its origin size is recorded from its client size unless one
     * is already recorded; the overlay found in the container (`existing`) is reused,
     * otherwise a new one is made; the overlay is then positioned.
     */
    constructor (target: Target, existing: Overlay?, options: Options, g: Layout)
      modifies target`originSize, existing
      ensures Valid()
      ensures this.target == target && this.options == options
      ensures target.originSize == if old(target.originSize).Some? then old(target.originSize) else Some(g.client)
      ensures existing != null ==> resizer == existing
      ensures existing == null ==> resizer != null && fresh(resizer)
      ensures resizer != null && resizer.Placement() == Project(g)
      ensures session.None? && notifications == 0
    {
      this.target := target;
      this.options := options;
      session := None;
      notifications := 0;
      new;
      if target.originSize.None? {
        target.originSize := Some(g.client);
      }
      InitResizer(existing);
      PositionResizerToTarget(g);
    }

    /** Reuses the overlay already in the container, or makes one. */
    method InitResizer(existing: Overlay?)
      modifies this`resizer
      ensures existing != null ==> resizer == existing
      ensures existing == null ==> resizer != null && fresh(resizer)
    {
      var overlay := existing;
      if overlay == null {
        overlay := new Overlay();
      }
      resizer := overlay;
    }

    /**
     * Places the overlay over the target, relative to the editor. Only the overlay
     * changes, and with no overlay nothing does.
     */
    method PositionResizerToTarget(g: Layout)
      modifies resizer
      ensures resizer != null ==> resizer.Placement() == Project(g)
    {
      if resizer == null {
        return;
      }
      var left := g.target.left - g.editor.left;
      var top := g.target.top - g.editor.top;
      resizer.left := left;
      resizer.top := top;
      resizer.width := g.client.width;
      resizer.height := g.client.height;
    }

    /** `options?.onChange(target)`. */
    method NotifyChange()
      modifies this`notifications
      ensures notifications == old(notifications) + if options.onChange then 1 else 0
    {
      if options.onChange {
        notifications := notifications + 1;
      }
    }

    /**
     * `_setStylesForToolbar`: rewrites the target's style text, remembers the fragment
     * for the group, repositions the overlay and notifies once.
     */
    method SetStylesForToolbar(group: string, styles: Fragment, g: Layout)
      modifies target`cssText, target`styles, resizer, this`notifications
      ensures target.cssText == CommitText(old(target.cssText), Remembered(old(target.styles), group), styles)
      ensures target.styles == old(target.styles)[group := styles]
      ensures resizer != null ==> resizer.Placement() == Project(g)
      ensures notifications == old(notifications) + if options.onChange then 1 else 0
    {
      var previous := Remembered(target.styles, group);
      target.cssText := RemoveFirst(StripSpaces(target.cssText), ToText(previous)) + (";" + ToText(styles));
      target.styles := target.styles[group := styles];
      PositionResizerToTarget(g);
      NotifyChange();
    }

    /** `toolbarInputChange`: commits `width: N%;` when the field's text is a non-zero number. */
    method ToolbarInputChange(t: InputTarget, g: Layout)
      modifies target`cssText, target`styles, resizer, this`notifications
      ensures InputCommand(t).None? ==>
        target.cssText == old(target.cssText) && target.styles == old(target.styles) &&
        notifications == old(notifications) && (resizer != null ==> unchanged(resizer))
      ensures InputCommand(t).Some? ==> var c := InputCommand(t).value;
        target.cssText == CommitText(old(target.cssText), Remembered(old(target.styles), c.group), c.styles) &&
        target.styles == old(target.styles)[c.group := c.styles] &&
        (resizer != null ==> resizer.Placement() == Project(g)) &&
        notifications == old(notifications) + if options.onChange then 1 else 0
    {
      var number := ToNumber(t.value);
      if Truthy(t.dataType) && number.Some? && number.value != 0 {
        SetStylesForToolbar(t.dataType.value, Defined(WidthPercent(number.value)), g);
      }
    }

    /** `toolbarClick`: a `btn` with a `data-type` commits its `data-styles`. */
    method ToolbarClick(t: ClickTarget, g: Layout)
      modifies target`cssText, target`styles, resizer, this`notifications
      ensures ClickCommand(t).None? ==>
        target.cssText == old(target.cssText) && target.styles == old(target.styles) &&
        notifications == old(notifications) && (resizer != null ==> unchanged(resizer))
      ensures ClickCommand(t).Some? ==> var c := ClickCommand(t).value;
        target.cssText == CommitText(old(target.cssText), Remembered(old(target.styles), c.group), c.styles) &&
        target.styles == old(target.styles)[c.group := c.styles] &&
        (resizer != null ==> resizer.Placement() == Project(g)) &&
        notifications == old(notifications) + if options.onChange then 1 else 0
    {
      if Truthy(t.dataType) && "btn" in t.classes {
        var styles := if t.dataStyles.Some? then Defined(t.dataStyles.value) else Undefined;
        SetStylesForToolbar(t.dataType.value, styles, g);
      }
    }

    /**
     * `startResize`: a primary-button press on the handle opens a session holding the
     * pointer position and the target's client size; any other press changes nothing.
     */
    method StartResize(classes: set<string>, which: int, x: real, y: real, client: Size)
      modifies this`session
      ensures session == if "handler" in classes && which == 1 then Some(Session(x, y, client.width, client.height))
                         else old(session)
    {
      if "handler" in classes && which == 1 {
        session := Some(Session(x, y, client.width, client.height));
      }
    }

    /** `endResize`: every mouseup closes the session and notifies once. */
    method EndResize()
      modifies this`session, this`notifications
      ensures session.None?
      ensures notifications == old(notifications) + if options.onChange then 1 else 0
    {
      session := None;
      NotifyChange();
    }

    /**
     * `resizing`: without a session nothing changes. With one, the width attribute is
     * set to the dragged width, the height attribute to the dragged height unless the
     * aspect ratio is kept, and the overlay is repositioned. There is no notification.
     */
    method Resizing(x: real, y: real, alt: bool, g: Layout)
      requires Valid()
      requires alt && session.Some? ==> target.originSize.value.width != 0.0
      modifies target`widthAttr, target`heightAttr, resizer
      ensures Valid()
      ensures session.None? ==>
        target.widthAttr == old(target.widthAttr) && target.heightAttr == old(target.heightAttr) &&
        (resizer != null ==> unchanged(resizer))
      ensures session.Some? ==>
        var r := DragSize(session.value, x, y, alt, target.originSize.value, options.constraints);
        target.widthAttr == Some(r.width) &&
        target.heightAttr == (if options.keepAspectRatio then old(target.heightAttr) else Some(r.height)) &&
        (resizer != null ==> resizer.Placement() == Project(g))
    {
      if session.None? {
        return;
      }
      var size := DraggedSize(session.value, x, y, alt, target.originSize.value, options.constraints);
      var width, height := size.width, size.height;
      target.widthAttr := Some(width);
      if !options.keepAspectRatio {
        target.heightAttr := Some(height);
      }
      PositionResizerToTarget(g);
    }
  }

  /**
   * The size computation of `resizing`, step by step: start size plus pointer travel,
   * the Alt re-derivation of the height, then each axis raised to its minimum and
   * lowered to its maximum if one is configured.
   */
  method DraggedSize(start: Session, x: real, y: real, alt: bool, origin: Size, k: Constraints)
    returns (size: Size)
    requires alt ==> origin.width != 0.0
    ensures size == DragSize(start, x, y, alt, origin, k)
  {
    var deltaX := x - start.left;
    var deltaY := y - start.top;
    var width := start.width;
    var height := start.height;
    width := width + deltaX;
    height := height + deltaY;

    if alt {
      var rate := origin.height / origin.width;
      height := rate * width;
      assert height == (origin.height / origin.width) * (start.width + (x - start.left));
      assert height == CandidateSize(start, x, y, alt, origin).height;
    } else {
      assert height == CandidateSize(start, x, y, alt, origin).height;
    }
    assert width == CandidateSize(start, x, y, alt, origin).width;

    var minWidth := k.minWidth.GetOr(DefaultMinimum);
    var minHeight := k.minHeight.GetOr(DefaultMinimum);

    if width < minWidth {
      width := minWidth;
    }
    if k.maxWidth.Some? && width > k.maxWidth.value {
      width := k.maxWidth.value;
    }

    if height < minHeight {
      height := minHeight;
    }
    if k.maxHeight.Some? && height > k.maxHeight.value {
      height := k.maxHeight.value;
    }
    size := Size(width, height);
  }

  /**
   * A 200x100 image is attached, dragged 50 to the right in two moves and released;
   * then the percentage field receives `0`. The drag writes 250x100 and notifies once,
   * at release; the `0` changes nothing.
   */
  method WidenThenIgnoreZero()
  {
    var image := new Target("");
    var g := Layout(Rect(10.0, 20.0), Rect(0.0, 0.0), Size(200.0, 100.0));
    var plugin := new ResizePlugin(image, null, Options(false, NoConstraints, true), g);
    assert image.originSize == Some(Size(200.0, 100.0));

    plugin.StartResize({"handler"}, 1, 0.0, 0.0, Size(200.0, 100.0));
    plugin.Resizing(20.0, 0.0, false, g);
    plugin.Resizing(50.0, 0.0, false, g);
    assert plugin.notifications == 0;
    plugin.EndResize();
    assert image.widthAttr == Some(250.0) && image.heightAttr == Some(100.0);
    assert plugin.notifications == 1 && plugin.session.None?;

    plugin.ToolbarInputChange(InputTarget(Some("width"), "0"), g);
    assert image.cssText == "" && plugin.notifications == 1;
  }
}
