/**
 * How the projects page loader (js/data-loading.js) and the `project-card`
 * element (js/project-card.js) fit together: the attributes the loader
 * writes for an item are the ones the card observes, and decoding them
 * gives the item back.
 */
module CardBinding {
  import opened Wrappers
  import opened Text
  import opened Items
  import opened DataLoading
  import opened ProjectCard

  /** Every attribute the loader sets is observed, so each one re-renders. */
  lemma CardAttributesObserved(it: Item)
    ensures forall name :: name in CardAttributes(it) ==> name in ObservedAttributes()
  {
  }

  /** Round trip between the loader and the card: decoding the attributes
      written for an item gives the item's fields with the same defaults,
      and gives back its tags whenever they are clean (as every collected
      item's are). */
  lemma CardRoundTrip(it: Item)
    requires it.tags.Some? ==> CleanTags(it.tags.value)
    ensures PropsOf(CardAttributes(it)) == Props(
      OrElse(it.title, "Untitled"),
      it.imgSrc,
      it.imgAlt,
      it.description,
      OrElse(it.href, "#"),
      OrElse(it.linkText, "Learn more"),
      it.date,
      it.tags.GetOr([]))
  {
    var attrs := CardAttributes(it);
    if it.tags.Some? {
      TagsRoundTrip(it.tags.value);
    }
  }

  /** What the page shows for an item: an image exactly when it has one, a
      date exactly when it has one, and its tags, in order, exactly when it
      has at least one. */
  lemma ItemView(it: Item)
    requires it.tags.Some? ==> CleanTags(it.tags.value)
    ensures var v := Render(PropsOf(CardAttributes(it)));
      && (v.figure.Some? <==> it.imgSrc != [])
      && (v.date.Some? <==> it.date != [])
      && (v.tagList.Some? <==> it.tags.Some? && it.tags.value != [])
      && (v.tagList.Some? ==> v.tagList.value == it.tags.value)
  {
    CardRoundTrip(it);
  }

  /** A collected form item shows exactly the tags it was collected with. */
  lemma CollectedItemView(f: Form)
    ensures Render(PropsOf(CardAttributes(CollectItem(f)))).tagList.GetOr([])
         == CollectItem(f).tags.value
  {
    ItemView(CollectItem(f));
  }
}
