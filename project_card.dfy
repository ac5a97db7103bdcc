/**
 * The `project-card` custom element of js/project-card.js: which
 * attributes it observes, how it decodes them into typed props with
 * defaults, which sections its rendering has, and when it re-renders.
 */
module ProjectCard {
  import opened Wrappers
  import opened Text
  import opened Items

  /** `ProjectCard.observedAttributes`. */
  function ObservedAttributes(): (names: seq<string>)
    ensures |names| == 8
    ensures forall i, j :: 0 <= i < j < |names| ==> names[i] != names[j]
  {
    ["title", "img-src", "img-alt", "description", "href", "link-text", "date", "tags"]
  }

  /** The decoded props (`_props`). */
  datatype Props = Props(
    title: string,
    imgSrc: string,
    imgAlt: string,
    description: string,
    href: string,
    linkText: string,
    date: string,
    tags: seq<string>)

  /** `this.getAttribute(name) || d`: a missing or empty attribute gives `d`. */
  function AttrOr(attrs: map<string, string>, name: string, d: string): (v: string)
    ensures name in attrs && attrs[name] != [] ==> v == attrs[name]
    ensures !(name in attrs && attrs[name] != []) ==> v == d
  {
    OrElse(if name in attrs then attrs[name] else "", d)
  }

  /** The `tags` attribute split on commas, trimmed and without empties:
      the same list `parseTags` gives, and none when it is missing. */
  function CardTags(attrs: map<string, string>): (tags: seq<string>)
    ensures CleanTags(tags)
    ensures "tags" !in attrs ==> tags == []
    ensures "tags" in attrs ==> tags == ParseTags(attrs["tags"])
  {
    var raw := if "tags" in attrs then attrs["tags"] else "";
    assert TagTokens(raw) == ParseTags(raw);
    TagTokens(raw)
  }

  /** `_props`: title, href and link text always have a value; the tags are
      the comma-separated pieces of the `tags` attribute, trimmed and
      without empties, and none when it is missing. */
  function PropsOf(attrs: map<string, string>): (p: Props)
    ensures p.title == AttrOr(attrs, "title", "Untitled") && p.imgSrc == AttrOr(attrs, "img-src", "")
    ensures p.imgAlt == AttrOr(attrs, "img-alt", "") && p.description == AttrOr(attrs, "description", "")
    ensures p.href == AttrOr(attrs, "href", "#") && p.linkText == AttrOr(attrs, "link-text", "Learn more")
    ensures p.date == AttrOr(attrs, "date", "")
    ensures p.title != [] && p.href != [] && p.linkText != []
    ensures CleanTags(p.tags)
    ensures "tags" !in attrs ==> p.tags == []
    ensures "tags" in attrs ==> p.tags == ParseTags(attrs["tags"])
  {
    var tags := CardTags(attrs);
    Props(
      AttrOr(attrs, "title", "Untitled"),
      AttrOr(attrs, "img-src", ""),
      AttrOr(attrs, "img-alt", ""),
      AttrOr(attrs, "description", ""),
      AttrOr(attrs, "href", "#"),
      AttrOr(attrs, "link-text", "Learn more"),
      AttrOr(attrs, "date", ""),
      tags)
  }

  /** The sections of the rendered card (the HTML text and styles are not
      modelled). */
  datatype Figure = Figure(src: string, alt: string)
  datatype Link = Link(href: string, text: string)
  datatype View = View(
    figure: Option<Figure>,
    title: string,
    description: string,
    date: Option<string>,
    tagList: Option<seq<string>>,
    link: Link)

  /** `render()`: the figure only with an image, the date block only with a
      date, the tag list only with at least one tag (one span per tag, in
      order), and always the title, description and link. */
  function Render(p: Props): (v: View)
    ensures v.figure.Some? <==> p.imgSrc != []
    ensures v.figure.Some? ==> v.figure.value == Figure(p.imgSrc, p.imgAlt)
    ensures v.date.Some? <==> p.date != []
    ensures v.date.Some? ==> v.date.value == p.date
    ensures v.tagList.Some? <==> |p.tags| > 0
    ensures v.tagList.Some? ==> v.tagList.value == p.tags
    ensures v.title == p.title && v.description == p.description
    ensures v.link == Link(p.href, p.linkText)
  {
    View(
      if p.imgSrc != [] then Some(Figure(p.imgSrc, p.imgAlt)) else None,
      p.title,
      p.description,
      if p.date != [] then Some(p.date) else None,
      if |p.tags| > 0 then Some(p.tags) else None,
      Link(p.href, p.linkText))
  }

  /** A `project-card` element. */
  class CardElement {
    var attributes: map<string, string>
    /** Whether `attachShadow` has run. */
    var shadowAttached: bool
    /** The rendered shadow content, if any. */
    var view: Option<View>

    /** The constructor attaches an open shadow root; nothing is rendered yet. */
    constructor ()
      ensures attributes == map[] && shadowAttached && view == None
    {
      attributes := map[];
      shadowAttached := true;
      view := None;
    }

    method RenderView()
      modifies this`view
      ensures view == Some(Render(PropsOf(attributes)))
    {
      view := Some(Render(PropsOf(attributes)));
    }

    /** `connectedCallback()`. */
    method ConnectedCallback()
      modifies this`view
      ensures view == Some(Render(PropsOf(attributes)))
    {
      RenderView();
    }

    /** `attributeChangedCallback()`: re-renders only with a shadow root. */
    method AttributeChangedCallback()
      modifies this`view
      ensures view == if shadowAttached then Some(Render(PropsOf(attributes))) else old(view)
    {
      if shadowAttached {
        RenderView();
      }
    }

    /** `setAttribute(name, value)` as the browser runs it: the callback
        fires for observed attributes only. */
    method SetAttribute(name: string, value: string)
      modifies this`attributes, this`view
      ensures attributes == old(attributes)[name := value]
      ensures name in ObservedAttributes() && shadowAttached ==> view == Some(Render(PropsOf(attributes)))
      ensures !(name in ObservedAttributes() && shadowAttached) ==> view == old(view)
    {
      attributes := attributes[name := value];
      if name in ObservedAttributes() {
        AttributeChangedCallback();
      }
    }
  }
}
