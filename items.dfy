/**
 * The item codec of js/crud.js: turning the create/update form into an
 * item, checking its required fields, parsing the tag list and the index.
 */
module Items {
  import opened Wrappers
  import opened Text
  import opened Errors

  /** One project entry. Text fields absent from a stored record are read as
      the empty string (both are falsy); `tags` is `None` when the record's
      `tags` is not an array. */
  datatype Item = Item(
    title: string,
    imgSrc: string,
    imgAlt: string,
    description: string,
    href: string,
    linkText: string,
    date: string,
    tags: Option<seq<string>>)

  /** A tag as the parser produces it: non-empty, trimmed, comma-free. */
  predicate CleanTag(t: string) {
    t != [] && Trimmed(t) && ',' !in t
  }

  predicate CleanTags(ts: seq<string>) {
    forall i :: 0 <= i < |ts| ==> CleanTag(ts[i])
  }

  /** `xs.map(s => s.trim())`. */
  function TrimAll(xs: seq<string>): (ys: seq<string>)
    ensures |ys| == |xs|
  {
    if xs == [] then [] else [Trim(xs[0])] + TrimAll(xs[1..])
  }

  /** Each string is trimmed in place. */
  lemma {:induction false} TrimAllAt(xs: seq<string>)
    ensures forall i :: 0 <= i < |xs| ==> TrimAll(xs)[i] == Trim(xs[i])
  {
    if xs != [] {
      TrimAllAt(xs[1..]);
    }
  }

  /** Strings already trimmed pass the map unchanged. */
  lemma {:induction false} TrimAllKeeps(xs: seq<string>)
    requires forall i :: 0 <= i < |xs| ==> Trimmed(xs[i])
    ensures TrimAll(xs) == xs
  {
    if xs != [] {
      TrimTrimmed(xs[0]);
      TrimAllKeeps(xs[1..]);
    }
  }

  /** `xs.filter(Boolean)` on strings: drops the empty ones, keeps the order. */
  function DropEmpty(xs: seq<string>): (ys: seq<string>)
    ensures |ys| <= |xs|
  {
    if xs == [] then []
    else (if xs[0] == [] then [] else [xs[0]]) + DropEmpty(xs[1..])
  }

  /** What survives the filter is non-empty and comes from the input. */
  lemma {:induction false} DropEmptyAt(xs: seq<string>)
    ensures forall i :: 0 <= i < |DropEmpty(xs)| ==> DropEmpty(xs)[i] != [] && DropEmpty(xs)[i] in xs
  {
    if xs != [] {
      DropEmptyAt(xs[1..]);
    }
  }

  lemma {:induction false} DropEmptyAppend(a: seq<string>, b: seq<string>)
    ensures DropEmpty(a + b) == DropEmpty(a) + DropEmpty(b)
  {
    if a != [] {
      assert (a + b)[1..] == a[1..] + b;
      DropEmptyAppend(a[1..], b);
    } else {
      assert a + b == b;
    }
  }

  /** A list without empty strings passes the filter unchanged. */
  lemma {:induction false} DropEmptyKeeps(xs: seq<string>)
    requires forall i :: 0 <= i < |xs| ==> xs[i] != []
    ensures DropEmpty(xs) == xs
  {
    if xs != [] {
      DropEmptyKeeps(xs[1..]);
    }
  }

  /** `s.split(',').map(t => t.trim()).filter(Boolean)`: every token is
      trimmed, non-empty and comma-free. */
  function TagTokens(s: string): (ts: seq<string>)
    ensures CleanTags(ts)
  {
    var pieces := Split(s, ',');
    SplitPiecesFree(s, ',');
    var ts := DropEmpty(TrimAll(pieces));
    TrimAllAt(pieces);
    DropEmptyAt(TrimAll(pieces));
    assert forall i :: 0 <= i < |ts| ==> CleanTag(ts[i]) by {
      forall i | 0 <= i < |ts| ensures CleanTag(ts[i]) {
        var j :| 0 <= j < |pieces| && ts[i] == Trim(pieces[j]);
        assert ',' !in pieces[j];
        TrimKeepsOut(pieces[j], ',');
      }
    }
    ts
  }

  /** Tokens keep their order: the tags of `a + "," + b` are those of `a`
      followed by those of `b`. */
  lemma TagTokensAppend(a: string, b: string)
    ensures TagTokens(a + [','] + b) == TagTokens(a) + TagTokens(b)
  {
    var pa, pb := Split(a, ','), Split(b, ',');
    SplitAppend(a, b, ',');
    TrimAllAppend(pa, pb);
    DropEmptyAppend(TrimAll(pa), TrimAll(pb));
  }

  lemma {:induction false} TrimAllAppend(a: seq<string>, b: seq<string>)
    ensures TrimAll(a + b) == TrimAll(a) + TrimAll(b)
  {
    if a != [] {
      assert (a + b)[1..] == a[1..] + b;
      TrimAllAppend(a[1..], b);
    } else {
      assert a + b == b;
    }
  }

  /** A comma-free piece yields its trimmed self, or nothing when it is blank. */
  lemma TagTokensOfPiece(p: string)
    requires ',' !in p
    ensures TagTokens(p) == if AllSpace(p) then [] else [Trim(p)]
  {
    TrimEmpty(p);
    assert Split(p, ',') == [p];
    assert TrimAll([p]) == [Trim(p)];
    assert DropEmpty([Trim(p)])
      == (if Trim(p) == [] then [] else [Trim(p)]) + DropEmpty([]);
  }

  /** `parseTags(str)` (js/crud.js): the empty string gives no tags, and the
      early return for it agrees with the split-trim-filter chain. */
  function ParseTags(s: string): (ts: seq<string>)
    ensures s == [] ==> ts == []
    ensures CleanTags(ts)
    ensures ts == TagTokens(s)
  {
    if s == [] then
      assert Split(s, ',') == [""];
      assert TrimAll([""]) == [""];
      []
    else TagTokens(s)
  }

  /** Round trip: joining clean tags with ',' and parsing again gives them back. */
  lemma TagsRoundTrip(ts: seq<string>)
    requires CleanTags(ts)
    ensures ParseTags(Join(ts, ',')) == ts
  {
    if ts != [] {
      SplitJoin(ts, ',');
      TrimAllKeeps(ts);
      DropEmptyKeeps(ts);
    }
  }

  /** The create/update form: FormData entries by field name. */
  datatype Form = Form(fields: map<string, string>)

  /** `(fd.get(name) || '').toString()`: a missing field reads as empty. */
  function Field(f: Form, name: string): string {
    if name in f.fields then f.fields[name] else ""
  }

  /** `collectItem(form)`. */
  function CollectItem(f: Form): (it: Item)
    ensures Trimmed(it.title) && Trimmed(it.imgSrc) && Trimmed(it.imgAlt)
    ensures Trimmed(it.description) && Trimmed(it.href) && Trimmed(it.date)
    ensures Trimmed(it.linkText) && it.linkText != []
    ensures AllSpace(Field(f, "linkText")) ==> it.linkText == "Learn more"
    ensures it.title == [] <==> AllSpace(Field(f, "title"))
    ensures it.imgSrc == [] <==> AllSpace(Field(f, "imgSrc"))
    ensures it.href == [] <==> AllSpace(Field(f, "href"))
    ensures it.description == [] <==> AllSpace(Field(f, "description"))
    ensures it.tags.Some? && CleanTags(it.tags.value)
    ensures it.title == Trim(Field(f, "title")) && it.imgSrc == Trim(Field(f, "imgSrc"))
    ensures it.imgAlt == Trim(Field(f, "imgAlt")) && it.description == Trim(Field(f, "description"))
    ensures it.href == Trim(Field(f, "href")) && it.date == Trim(Field(f, "date"))
    ensures it.linkText == OrElse(Trim(Field(f, "linkText")), "Learn more")
    ensures it.tags == Some(ParseTags(Field(f, "tags")))
  {
    var linkText := Trim(Field(f, "linkText"));
    TrimEmpty(Field(f, "linkText"));
    TrimEmpty(Field(f, "title"));
    TrimEmpty(Field(f, "imgSrc"));
    TrimEmpty(Field(f, "href"));
    TrimEmpty(Field(f, "description"));
    var tags := ParseTags(Field(f, "tags"));
    assert CleanTags(tags);
    assert "Learn more"[0] == 'L' && "Learn more"[9] == 'e';
    assert Trimmed("Learn more");
    Item(
      Trim(Field(f, "title")),
      Trim(Field(f, "imgSrc")),
      Trim(Field(f, "imgAlt")),
      Trim(Field(f, "description")),
      Trim(Field(f, "href")),
      OrElse(linkText, "Learn more"),
      Trim(Field(f, "date")),
      Some(tags))
  }

  predicate HasRequiredFields(it: Item) {
    it.title != [] && it.imgSrc != [] && it.href != [] && it.description != []
  }

  /** `validateItem(item)`: `None` when it passes, else the error it throws. */
  function ValidateItem(it: Item): (r: Option<Error>)
    ensures r.None? <==> HasRequiredFields(it)
    ensures r.Some? ==> r.value == MissingFields
  {
    if it.title == [] || it.imgSrc == [] || it.href == [] || it.description == [] then
      Some(MissingFields)
    else None
  }

  /** imgAlt, linkText, date and tags never decide validation. */
  lemma ValidationIgnoresOptionalFields(it: Item, imgAlt: string, linkText: string,
                                        date: string, tags: Option<seq<string>>)
    ensures ValidateItem(it.(imgAlt := imgAlt, linkText := linkText, date := date, tags := tags))
         == ValidateItem(it)
  {
  }

  /** A collected form passes validation exactly when none of title, image
      URL, link URL and description is blank. */
  lemma CollectThenValidate(f: Form)
    ensures ValidateItem(CollectItem(f)).None? <==>
      !AllSpace(Field(f, "title")) && !AllSpace(Field(f, "imgSrc"))
      && !AllSpace(Field(f, "href")) && !AllSpace(Field(f, "description"))
  {
  }

  /** A JavaScript number as `Number(raw)` gives it. Doubles are modelled as
      exact reals. `Number('')` and `Number(null)` are 0, so an empty or
      missing index field addresses position 0. */
  datatype Number = NaN | Infinity(negative: bool) | Finite(value: real)

  /** `Number.isInteger(n)`. */
  predicate IsInteger(n: Number)
    ensures IsInteger(n) ==> n.Finite?
  {
    n.Finite? && n.value.Floor as real == n.value
  }

  /** Every whole number is an integer; a value half-way between two is not. */
  lemma IntegralValues(k: int)
    ensures IsInteger(Finite(k as real))
    ensures !IsInteger(Finite(k as real + 0.5))
  {
    assert (k as real + 0.5).Floor == k;
  }

  /** `getIndex(form)`, over the already converted number. */
  function GetIndex(n: Number): (r: Result<nat, Error>)
    ensures r.Success? <==> IsInteger(n) && n.value >= 0.0
    ensures r.Success? ==> r.value as real == n.value
    ensures r.Failure? ==> r.error == BadIndex
  {
    if !IsInteger(n) || n.value < 0.0 then Failure(BadIndex)
    else Success(n.value.Floor)
  }

  /** `parseIndex("3")` is 3; "-1", "abc" (NaN) and "1.5" are refused. */
  lemma GetIndexExamples()
    ensures GetIndex(Finite(3.0)) == Success(3)
    ensures GetIndex(Finite(-1.0)).Failure?
    ensures GetIndex(NaN).Failure?
    ensures GetIndex(Finite(1.5)).Failure?
  {
  }
}
