/**
 * The projects page loader of js/data-loading.js: seeding the local key
 * with sample projects, loading from either backend, and rendering each
 * item as a `project-card` element's attribute set.
 */
module DataLoading {
  import opened Wrappers
  import opened Text
  import opened Items
  import opened JsonBin
  import opened Crud

  /** The attributes `renderProjects` sets on the card for `it`. */
  function CardAttributes(it: Item): (attrs: map<string, string>)
    ensures "title" in attrs && attrs["title"] == OrElse(it.title, "Untitled")
    ensures "img-alt" in attrs && attrs["img-alt"] == it.imgAlt
    ensures "description" in attrs && attrs["description"] == it.description
    ensures "href" in attrs && attrs["href"] == OrElse(it.href, "#")
    ensures "link-text" in attrs && attrs["link-text"] == OrElse(it.linkText, "Learn more")
    ensures "img-src" in attrs <==> it.imgSrc != []
    ensures "img-src" in attrs ==> attrs["img-src"] == it.imgSrc
    ensures "date" in attrs <==> it.date != []
    ensures "date" in attrs ==> attrs["date"] == it.date
    ensures "tags" in attrs <==> it.tags.Some?
    ensures "tags" in attrs ==> attrs["tags"] == Join(it.tags.value, ',')
    ensures attrs.Keys <= {"title", "img-src", "img-alt", "description", "href", "link-text", "date", "tags"}
  {
    var base := map[
      "title" := OrElse(it.title, "Untitled"),
      "img-alt" := it.imgAlt,
      "description" := it.description,
      "href" := OrElse(it.href, "#"),
      "link-text" := OrElse(it.linkText, "Learn more")];
    var withImg := if it.imgSrc != [] then base["img-src" := it.imgSrc] else base;
    var withDate := if it.date != [] then withImg["date" := it.date] else withImg;
    if it.tags.Some? then withDate["tags" := Join(it.tags.value, ',')] else withDate
  }

  /** The three sample projects the local key is seeded with. */
  function SampleProjects(): (items: seq<Item>)
    ensures |items| == 3
    ensures forall i :: 0 <= i < |items| ==> ValidateItem(items[i]).None?
    ensures forall i :: 0 <= i < |items| ==> items[i].tags.Some? && |items[i].tags.value| == 3
  {
    [ Item("Blackjack AI", "images/blackjack.jpeg", "Blackjack clip art",
           "RL agent using Monte Carlo and Q-Learning.",
           "https://github.com/MaximPodgore/Blackjack-AI", "View repo", "2025-03-14",
           Some(["AI", "Reinforcement", "Visualization"])),
      Item("RippleEdits for graphRAG", "images/snet.jpeg", "SingularityNET logo",
           "Benchmark for knowledge edits in RAG systems.",
           "https://github.com/MaximPodgore/RippleEdits", "Project repo", "2025-07-22",
           Some(["Benchmark", "RAG", "Research"])),
      Item("Portfolio Refresh", "images/profile.jpg", "Profile image",
           "Performance-first portfolio with view transitions.",
           "index.html", "Open site", "2025-11-02",
           Some(["Performance", "View Transitions", "Semantic HTML"])) ]
  }

  /** `seedLocalStorage()`: writes the samples only when the key is empty. */
  method SeedLocalStorage(store: ProjectStore)
    modifies store`local
    ensures old(store.local).Missing? ==> store.local == Value(SampleProjects())
    ensures !old(store.local).Missing? ==> store.local == old(store.local)
  {
    if !store.local.Missing? {
      return;
    }
    store.local := Value(SampleProjects());
  }

  const LOCAL_ALERT := "Failed to load local data. See console for details."
  const REMOTE_ALERT := "Failed to load remote data. If the bin is private, set your master key."

  /** The `#project-list` element and the page's alert. */
  class ProjectList {
    /** Whether the page has the list element at all. */
    const present: bool
    /** The attribute set of each card in the list, in order. */
    var cards: seq<map<string, string>>
    /** The last alert shown. */
    var alert: Option<string>

    constructor (present: bool)
      ensures this.present == present && cards == [] && alert == None
    {
      this.present := present;
      cards := [];
      alert := None;
    }

    /** `renderProjects(items)`: clears the list, then appends one card per
        item in order; a null items value renders nothing. */
    method RenderProjects(items: Option<seq<Item>>)
      modifies this`cards
      ensures !present ==> cards == old(cards)
      ensures present ==> |cards| == |items.GetOr([])|
      ensures present ==> forall i :: 0 <= i < |cards| ==> cards[i] == CardAttributes(items.GetOr([])[i])
    {
      if !present {
        return;
      }
      cards := [];
      var xs := items.GetOr([]);
      for i := 0 to |xs|
        invariant |cards| == i
        invariant forall k :: 0 <= k < i ==> cards[k] == CardAttributes(xs[k])
      {
        cards := cards + [CardAttributes(xs[i])];
      }
    }

    /** `loadLocal()`: unlike the CRUD read, an unparsable value is reported. */
    method LoadLocal(stored: Stored)
      modifies this
      ensures !present ==> cards == old(cards)
      ensures stored.Corrupt? ==> alert == Some(LOCAL_ALERT) && cards == old(cards)
      ensures !stored.Corrupt? ==> alert == old(alert)
      ensures !stored.Corrupt? && present ==>
        && |cards| == |ReadLocal(stored)|
        && forall i :: 0 <= i < |cards| ==> cards[i] == CardAttributes(ReadLocal(stored)[i])
    {
      match stored
      case Corrupt =>
        alert := Some(LOCAL_ALERT);
      case Missing =>
        RenderProjects(Some([]));
      case Value(items) =>
        RenderProjects(Some(items));
    }

    /** `loadRemote()`, given the GET's response. */
    method LoadRemote(res: Response)
      modifies this
      ensures !present ==> cards == old(cards)
      ensures ReadRemote(res).Failure? ==> alert == Some(REMOTE_ALERT) && cards == old(cards)
      ensures ReadRemote(res).Success? ==> alert == old(alert)
      ensures ReadRemote(res).Success? && present ==>
        var items := ReadRemote(res).value;
        && |cards| == |items|
        && forall i :: 0 <= i < |cards| ==> cards[i] == CardAttributes(items[i])
    {
      var r := ReadRemote(res);
      if r.Failure? {
        alert := Some(REMOTE_ALERT);
        return;
      }
      RenderProjects(Some(r.value));
    }
  }
}
