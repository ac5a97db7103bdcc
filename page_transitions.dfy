/**
 * The same-document navigation of js/page-transitions.js: which clicks are
 * intercepted, which navigation links are marked as the current page, and
 * how a transition falls back to an ordinary page load. URLs are taken
 * already parsed.
 */
module PageTransitions {
  import opened Wrappers
  import opened Text

  /** A parsed URL: what `new URL(href)` exposes. */
  datatype Url = Url(href: string, origin: string, pathname: string, hash: string)

  /** The anchor a click landed in. `url` is `None` when it has no href. */
  datatype Anchor = Anchor(url: Option<Url>, target: string, rel: Option<string>)

  datatype Click = Click(
    button: int,
    ctrlKey: bool,
    metaKey: bool,
    shiftKey: bool,
    anchor: Option<Anchor>)  // `event.target.closest('a')`

  /** `location.origin` and `location.pathname`. */
  datatype Location = Location(origin: string, pathname: string)

  /** A primary-button click with none of ctrl, meta and shift held. */
  predicate PlainClick(c: Click) {
    c.button == 0 && !c.ctrlKey && !c.metaKey && !c.shiftKey
  }

  /** The link opens in another browsing context or is marked external. */
  predicate OpensElsewhere(a: Anchor) {
    a.target == "_blank" || (a.rel.Some? && Contains(a.rel.value, "external"))
  }

  /** A link to a fragment of the page already shown. */
  predicate SamePageHash(u: Url, here: Location) {
    u.pathname == here.pathname && u.hash != []
  }

  /** `handleNavigationClick(event)`: the URL it transitions to after
      `preventDefault()`, or `None` when the browser handles the click. */
  function InterceptedUrl(c: Click, here: Location): (r: Option<Url>)
    ensures r.Some? <==>
      && PlainClick(c)
      && c.anchor.Some? && c.anchor.value.url.Some?
      && c.anchor.value.url.value.origin == here.origin
      && !OpensElsewhere(c.anchor.value)
      && !SamePageHash(c.anchor.value.url.value, here)
    ensures r.Some? ==> r == c.anchor.value.url
  {
    if !PlainClick(c) then None
    else if c.anchor.None? || c.anchor.value.url.None? then None
    else
      var a := c.anchor.value;
      var u := a.url.value;
      if u.origin != here.origin then None
      else if OpensElsewhere(a) then None
      else if SamePageHash(u, here) then None
      else Some(u)
  }

  /** A click with a modifier key or another button is never intercepted,
      whatever it lands on. */
  lemma ModifiedClickPassesThrough(c: Click, here: Location)
    requires c.button != 0 || c.ctrlKey || c.metaKey || c.shiftKey
    ensures InterceptedUrl(c, here) == None
  {
  }

  /** A link whose rel contains "external" anywhere is left to the browser,
      whatever else the click and the link are. */
  lemma ExternalRelPassesThrough(c: Click, here: Location)
    requires c.anchor.Some? && c.anchor.value.rel.Some?
    requires Contains(c.anchor.value.rel.value, "external")
    ensures InterceptedUrl(c, here) == None
  {
  }

  /** `rel` is searched as text, so "nofollow external" counts as external. */
  lemma NofollowExternalPassesThrough(u: Url, here: Location)
    ensures InterceptedUrl(Click(0, false, false, false,
      Some(Anchor(Some(u), "", Some("nofollow external")))), here) == None
  {
    assert OccursAt("nofollow external", "external", 9);
    ExternalRelPassesThrough(Click(0, false, false, false,
      Some(Anchor(Some(u), "", Some("nofollow external")))), here);
  }

  /** `currentPath.split('/').pop() || 'index.html'`. */
  function CurrentPage(pathname: string): (page: string)
    ensures page != []
    ensures '/' !in page
    ensures LastPiece(pathname, '/') != [] ==> page == LastPiece(pathname, '/')
    ensures LastPiece(pathname, '/') == [] ==> page == "index.html"
  {
    OrElse(LastPiece(pathname, '/'), "index.html")
  }

  /** The match test of `updateActiveNavigation`, all three disjuncts as
      written. */
  predicate LinkMatches(page: string, linkPath: string)
    ensures linkPath == page ==> LinkMatches(page, linkPath)
    ensures LinkMatches(page, linkPath) && linkPath != page ==> {page, linkPath} == {"", "index.html"}
  {
    || linkPath == page
    || (page == "" && linkPath == "index.html")
    || (page == "index.html" && linkPath == "")
  }

  /** The `currentPage === ''` disjunct is dead: the current page is never
      empty, so the test reduces to the other two. */
  lemma EmptyPageDisjunctDead(pathname: string, linkPath: string)
    ensures !(CurrentPage(pathname) == "" && linkPath == "index.html")
    ensures LinkMatches(CurrentPage(pathname), linkPath) <==>
      linkPath == CurrentPage(pathname) || (CurrentPage(pathname) == "index.html" && linkPath == "")
  {
  }

  /** A link to the site root is current on the home page and vice versa. */
  lemma RootAndIndexMatch()
    ensures CurrentPage("/") == "index.html"
    ensures LinkMatches(CurrentPage("/"), LastPiece("/index.html", '/'))
    ensures LinkMatches(CurrentPage("/index.html"), LastPiece("/", '/'))
  {
    assert LastPiece("/", '/') == [] by {
      assert Split("/", '/') == [""] + Split("", '/');
    }
    assert LastPiece("/index.html", '/') == "index.html" by {
      IndexHtmlHasNoSlash();
      assert IndexOf("/index.html", '/') == 0;
      assert "/index.html"[1..] == "index.html";
      assert Split("/index.html", '/') == [""] + ["index.html"];
    }
  }

  lemma IndexHtmlHasNoSlash()
    ensures '/' !in "index.html"
  {
    var s := "index.html";
    forall j | 0 <= j < |s| ensures s[j] != '/' {
    }
  }

  /** A `.site-nav a` element: its index among the document's elements and
      its parsed href. */
  datatype NavLink = NavLink(element: nat, url: Url)

  function LinkPage(l: NavLink): string {
    LastPiece(l.url.pathname, '/')
  }

  /** Whether some link among `links` standing for element `e` matches `page`. */
  predicate IsMarked(e: nat, links: seq<NavLink>, page: string) {
    if links == [] then false
    else
      var last := links[|links| - 1];
      IsMarked(e, links[..|links| - 1], page) || (last.element == e && LinkMatches(page, LinkPage(last)))
  }

  /** An element is marked exactly when one of the links standing for it
      matches the current page. */
  lemma {:induction false} IsMarkedIff(e: nat, links: seq<NavLink>, page: string)
    ensures IsMarked(e, links, page) <==>
      exists k :: 0 <= k < |links| && links[k].element == e && LinkMatches(page, LinkPage(links[k]))
  {
    if links != [] {
      var init := links[..|links| - 1];
      IsMarkedIff(e, init, page);
      if IsMarked(e, links, page) && !IsMarked(e, init, page) {
        assert links[|links| - 1].element == e;
      }
      if k :| 0 <= k < |links| && links[k].element == e && LinkMatches(page, LinkPage(links[k])) {
        if k < |links| - 1 {
          assert init[k] == links[k];
        }
      }
    }
  }

  /** What a fetch of the target page gave: a network failure, or a response
      with its ok flag, the inner HTML of its `<main>` (if it has one) and
      the text of its `<title>` (if it has one). */
  datatype PageFetch = Unreachable | Fetched(ok: bool, main: Option<string>, title: Option<string>)

  /** The transition can go ahead: an ok response with a `<main>`. */
  predicate Usable(f: PageFetch) {
    f.Fetched? && f.ok && f.main.Some?
  }

  class Browser {
    /** URLs pushed onto the session history by this script. */
    var history: seq<string>
    /** A full page load the script asked for (`location.href = url`). */
    var fullNavigation: Option<string>
    /** The inner HTML of the document's `<main>`, if it has one. */
    var main: Option<string>
    var title: string
    /** For every element of the document, whether it has aria-current="page". */
    const marks: array<bool>
    const navLinks: seq<NavLink>

    ghost predicate Valid()
      reads this
    {
      forall k :: 0 <= k < |navLinks| ==> navLinks[k].element < marks.Length
    }

    constructor (marks: array<bool>, navLinks: seq<NavLink>, main: Option<string>, title: string)
      requires forall k :: 0 <= k < |navLinks| ==> navLinks[k].element < marks.Length
      ensures Valid()
      ensures this.marks == marks && this.navLinks == navLinks
      ensures this.main == main && this.title == title
      ensures history == [] && fullNavigation == None
    {
      this.marks := marks;
      this.navLinks := navLinks;
      this.main := main;
      this.title := title;
      history := [];
      fullNavigation := None;
    }

    /** `updateActiveNavigation()` for the location's pathname: every earlier
        marker is removed, then exactly the matching nav links are marked. */
    method UpdateActiveNavigation(pathname: string)
      requires Valid()
      modifies marks
      ensures forall e :: 0 <= e < marks.Length ==>
        (marks[e] <==> IsMarked(e, navLinks, CurrentPage(pathname)))
    {
      var page := CurrentPage(pathname);
      for e := 0 to marks.Length
        invariant forall x :: 0 <= x < e ==> !marks[x]
      {
        marks[e] := false;
      }
      for k := 0 to |navLinks|
        invariant forall x :: 0 <= x < marks.Length ==> (marks[x] <==> IsMarked(x, navLinks[..k], page))
      {
        assert navLinks[..k + 1][..k] == navLinks[..k];
        var link := navLinks[k];
        var linkPath := LastPiece(link.url.pathname, '/');
        if LinkMatches(page, linkPath) {
          marks[link.element] := true;
        }
      }
      assert navLinks[..|navLinks|] == navLinks;
    }

    /** `transitionToPage(url, pushState)`, given what fetching `url` gave. */
    method TransitionToPage(url: Url, pushState: bool, fetched: PageFetch)
      requires Valid()
      modifies this, marks
      ensures Valid()
      ensures !Usable(fetched) ==>
        && fullNavigation == Some(url.href)
        && history == old(history) && main == old(main) && title == old(title)
        && marks[..] == old(marks[..])
      ensures Usable(fetched) ==>
        && fullNavigation == old(fullNavigation)
        && history == old(history) + (if pushState then [url.href] else [])
        && main == (if old(main).Some? then fetched.main else None)
        && title == (if fetched.title.Some? then OrElse(fetched.title.value, old(title)) else old(title))
        && forall e :: 0 <= e < marks.Length ==>
             (marks[e] <==> IsMarked(e, navLinks, CurrentPage(url.pathname)))
    {
      if !fetched.Fetched? || !fetched.ok {
        fullNavigation := Some(url.href);
        return;
      }
      if fetched.main.None? {
        fullNavigation := Some(url.href);
        return;
      }
      var newTitle := if fetched.title.Some? then OrElse(fetched.title.value, title) else title;
      if pushState {
        history := history + [url.href];
      }
      // updatePageContent
      if main.Some? {
        main := fetched.main;
      }
      title := newTitle;
      UpdateActiveNavigation(url.pathname);
    }

    /** `handleNavigationClick(event)`. */
    method HandleNavigationClick(c: Click, here: Location, fetched: PageFetch)
      requires Valid()
      modifies this, marks
      ensures Valid()
      ensures InterceptedUrl(c, here).None? ==>
        history == old(history) && fullNavigation == old(fullNavigation)
        && main == old(main) && title == old(title) && marks[..] == old(marks[..])
      ensures InterceptedUrl(c, here).Some? && Usable(fetched) ==>
        var url := InterceptedUrl(c, here).value;
        && history == old(history) + [url.href]
        && fullNavigation == old(fullNavigation)
        && main == (if old(main).Some? then fetched.main else None)
        && title == (if fetched.title.Some? then OrElse(fetched.title.value, old(title)) else old(title))
        && forall e :: 0 <= e < marks.Length ==>
             (marks[e] <==> IsMarked(e, navLinks, CurrentPage(url.pathname)))
      ensures InterceptedUrl(c, here).Some? && !Usable(fetched) ==>
        history == old(history) && fullNavigation == Some(InterceptedUrl(c, here).value.href)
        && main == old(main) && title == old(title) && marks[..] == old(marks[..])
    {
      var target := InterceptedUrl(c, here);
      if target.Some? {
        TransitionToPage(target.value, true, fetched);
      }
    }

    /** `handlePopState(event)`: `state` is `event.state`, whose `url` is
        `None` when missing or empty. It never pushes. */
    method HandlePopState(state: Option<Option<Url>>, fetched: PageFetch)
      requires Valid()
      modifies this, marks
      ensures Valid()
      ensures history == old(history)
      ensures !(state.Some? && state.value.Some?) ==>
        fullNavigation == old(fullNavigation) && main == old(main)
        && title == old(title) && marks[..] == old(marks[..])
      ensures state.Some? && state.value.Some? && !Usable(fetched) ==>
        fullNavigation == Some(state.value.value.href)
        && main == old(main) && title == old(title) && marks[..] == old(marks[..])
      ensures state.Some? && state.value.Some? && Usable(fetched) ==>
        && fullNavigation == old(fullNavigation)
        && main == (if old(main).Some? then fetched.main else None)
        && title == (if fetched.title.Some? then OrElse(fetched.title.value, old(title)) else old(title))
        && forall e :: 0 <= e < marks.Length ==>
             (marks[e] <==> IsMarked(e, navLinks, CurrentPage(state.value.value.pathname)))
    {
      if state.Some? && state.value.Some? {
        TransitionToPage(state.value.value, false, fetched);
      }
    }
  }
}
