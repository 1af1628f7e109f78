/**
 * The part of a DOM element that the cache reads and writes: its attributes and
 * its background image. A missing attribute reads as null (`None`).
 */
module Dom {
  import opened Wrappers

  const SrcAttr := "src"
  const OldSrcAttr := "data-old-src"
  const OldBackgroundAttr := "data-old-background"

  /** A snapshot of an element: the attribute map and the `background-image`
      style value (the empty string when the element has none). */
  datatype ElementView = ElementView(attrs: map<string, string>, backgroundImage: string)
  {
    /** `getAttribute(name)`. */
    function Get(name: string): (r: Option<string>)
      ensures r.Some? <==> name in attrs
      ensures r.Some? ==> r.value == attrs[name]
    {
      if name in attrs then Some(attrs[name]) else None
    }

    /** The attribute is present and holds a non-empty string (JavaScript truthiness). */
    predicate Truthy(name: string) {
      name in attrs && attrs[name] != ""
    }

    function Set(name: string, value: string): (r: ElementView)
      ensures r.Get(name) == Some(value)
      ensures forall n :: n != name ==> r.Get(n) == Get(n)
      ensures r.backgroundImage == backgroundImage
    {
      ElementView(attrs[name := value], backgroundImage)
    }

    function Remove(name: string): (r: ElementView)
      ensures r.Get(name) == None
      ensures forall n :: n != name ==> r.Get(n) == Get(n)
      ensures r.backgroundImage == backgroundImage
    {
      ElementView(attrs - {name}, backgroundImage)
    }

    function SetBackground(style: string): (r: ElementView)
      ensures r.attrs == attrs && r.backgroundImage == style
    {
      ElementView(attrs, style)
    }
  }

  /** An element whose attributes and style the cache changes in place. */
  class Element {
    var attrs: map<string, string>
    var backgroundImage: string

    function View(): ElementView
      reads this
    {
      ElementView(attrs, backgroundImage)
    }

    constructor (v: ElementView)
      ensures View() == v
    {
      attrs := v.attrs;
      backgroundImage := v.backgroundImage;
    }

    /** Replaces the element's state by `v`; every change the cache makes to an
        element goes through here. */
    method Assign(v: ElementView)
      modifies this
      ensures View() == v
    {
      attrs := v.attrs;
      backgroundImage := v.backgroundImage;
    }
  }
}
