/** Title extraction. A page keeps its title in whichever property is typed
    `title`, under any property name; a database keeps it in a top-level
    `title` list. Both lists hold rich-text fragments, each with a
    `plain_text`. */
module Title {
  import opened Outcomes
  import opened Json

  const TitleKey := "title"
  const TypeKey := "type"
  const PlainTextKey := "plain_text"
  const PropertiesKey := "properties"

  /** A property descriptor whose `type` tag is `title`. */
  predicate IsTitleDescriptor(d: Json) {
    d.JObj? && Get(d.fields, TypeKey) == Some(JStr(TitleKey))
  }

  /** Properties i and j, i before j, are both typed `title`. */
  predicate TitlePair(props: Object, i: int, j: int) {
    0 <= i < j < |props| && IsTitleDescriptor(props[i].1) && IsTitleDescriptor(props[j].1)
  }

  /** The descriptors of `props` typed `title`, in property order. */
  function TitleDescriptors(props: Object): (r: seq<Json>)
    ensures |r| <= |props|
    ensures forall k :: 0 <= k < |r| ==> IsTitleDescriptor(r[k])
    ensures forall i :: 0 <= i < |props| && IsTitleDescriptor(props[i].1) ==> props[i].1 in r
  {
    if props == [] then []
    else
      var rest := TitleDescriptors(props[1..]);
      assert forall i :: 1 <= i < |props| ==> props[i] == props[1..][i - 1];
      if IsTitleDescriptor(props[0].1) then [props[0].1] + rest else rest
  }

  /** A single rich-text fragment carrying `text`. */
  function Fragments(text: string): Json {
    JArr([JObj([(PlainTextKey, JStr(text))])])
  }

  /** The title list under `title` in `o` is the one fragment `f`, an object
      whose `plain_text` is a string. */
  predicate OneFragment(o: Object, f: Object) {
    Get(o, TitleKey) == Some(JArr([JObj(f)])) && Get(f, PlainTextKey).Some? && Get(f, PlainTextKey).value.JStr?
  }

  /** The plain text of the title list under `title` in `o`. Only a list of
      exactly one fragment defines a title here; a list of any other length is
      reported as UnsupportedTitle. */
  function TitleUnder(o: Object): (r: Result<string>)
    ensures r.Ok? ==> exists f :: Get(o, TitleKey) == Some(JArr([f])) && f.JObj?
                                  && Get(f.fields, PlainTextKey) == Some(JStr(r.value))
    ensures forall f :: OneFragment(o, f) ==> r == Ok(Get(f, PlainTextKey).value.s)
    ensures Get(o, TitleKey) == Some(JArr([])) ==> r == Err(UnsupportedTitle)
  {
    match Get(o, TitleKey)
    case Some(JArr(items)) =>
      if |items| != 1 then Err(UnsupportedTitle)
      else if items[0].JObj? then
        assert items == [items[0]];
        StringAt(items[0].fields, PlainTextKey)
      else Err(StructuralError(PlainTextKey))
    case _ => Err(StructuralError(TitleKey))
  }

  /** A page's title: the first fragment of the one property typed `title`.
      A page with no title-typed property, or with two, has no title. */
  function PageTitle(properties: Json): (r: Result<string>)
    ensures r.Ok? ==> properties.JObj? && exists i :: (0 <= i < |properties.fields|
              && IsTitleDescriptor(properties.fields[i].1) && r == TitleUnder(properties.fields[i].1.fields))
    ensures (properties.JObj? && forall i :: 0 <= i < |properties.fields| ==> !IsTitleDescriptor(properties.fields[i].1))
              ==> r == Err(StructuralError(PropertiesKey))
    ensures properties.JObj? ==> forall i, j :: TitlePair(properties.fields, i, j) ==> r == Err(StructuralError(PropertiesKey))
  {
    if !properties.JObj? then Err(StructuralError(PropertiesKey))
    else
      var ds := TitleDescriptors(properties.fields);
      TwoTitleDescriptors(properties.fields);
      if |ds| != 1 then Err(StructuralError(PropertiesKey))
      else
        TitleDescriptorOrigin(properties.fields);
        TitleUnder(ds[0].fields)
  }

  /** A database's title: the first fragment of its top-level `title` list. */
  function DatabaseTitle(record: Object): (r: Result<string>)
    ensures r.Ok? ==> exists f :: Get(record, TitleKey) == Some(JArr([JObj(f)]))
                                  && Get(f, PlainTextKey) == Some(JStr(r.value))
    ensures forall f :: OneFragment(record, f) ==> r == Ok(Get(f, PlainTextKey).value.s)
  {
    TitleUnder(record)
  }

  /** The first selected descriptor is one of the properties. */
  lemma {:induction false} TitleDescriptorOrigin(props: Object)
    requires TitleDescriptors(props) != []
    ensures exists i :: 0 <= i < |props| && props[i].1 == TitleDescriptors(props)[0]
  {
    if !IsTitleDescriptor(props[0].1) {
      TitleDescriptorOrigin(props[1..]);
      var i :| 0 <= i < |props[1..]| && props[1..][i].1 == TitleDescriptors(props[1..])[0];
      assert props[i + 1] == props[1..][i];
    }
  }

  /** Two title-typed properties both show up in the selection. */
  lemma TwoTitleDescriptors(props: Object)
    ensures forall i, j :: TitlePair(props, i, j) ==> |TitleDescriptors(props)| >= 2
  {
    forall i, j | TitlePair(props, i, j)
      ensures |TitleDescriptors(props)| >= 2
    {
      assert props == props[..j] + props[j..];
      TitleDescriptorsAppend(props[..j], props[j..]);
      assert props[..j][i] == props[i];
      assert props[j..][0] == props[j];
      assert TitleDescriptors(props[..j]) != [];
      assert TitleDescriptors(props[j..]) != [];
    }
  }

  /** A one-fragment title list reads back as its text. */
  lemma FragmentsRoundTrip(o: Object, text: string)
    requires Get(o, TitleKey) == Some(Fragments(text))
    ensures TitleUnder(o) == Ok(text)
  {
  }

  lemma {:induction false} TitleDescriptorsAppend(a: Object, b: Object)
    ensures TitleDescriptors(a + b) == TitleDescriptors(a) + TitleDescriptors(b)
  {
    if a == [] {
      assert a + b == b;
    } else {
      assert (a + b)[0] == a[0] && (a + b)[1..] == a[1..] + b;
      TitleDescriptorsAppend(a[1..], b);
    }
  }

  lemma {:induction false} TitleDescriptorsOnly(props: Object, i: nat)
    requires i < |props| && IsTitleDescriptor(props[i].1)
    requires forall j :: 0 <= j < |props| && j != i ==> !IsTitleDescriptor(props[j].1)
    ensures TitleDescriptors(props) == [props[i].1]
  {
    assert props == props[..i] + [props[i]] + props[i + 1..];
    TitleDescriptorsAppend(props[..i] + [props[i]], props[i + 1..]);
    TitleDescriptorsAppend(props[..i], [props[i]]);
    NoTitleDescriptors(props[..i]);
    NoTitleDescriptors(props[i + 1..]);
  }

  lemma NoTitleDescriptors(props: Object)
    requires forall j :: 0 <= j < |props| ==> !IsTitleDescriptor(props[j].1)
    ensures TitleDescriptors(props) == []
  {
  }

  /** When exactly one property is typed `title`, the page title is read from
      it, whatever it is named and wherever it stands. */
  lemma UniqueTitleProperty(props: Object, i: nat)
    requires i < |props| && IsTitleDescriptor(props[i].1)
    requires forall j :: 0 <= j < |props| && j != i ==> !IsTitleDescriptor(props[j].1)
    ensures PageTitle(JObj(props)) == TitleUnder(props[i].1.fields)
  {
    TitleDescriptorsOnly(props, i);
  }

  /** The title property's single fragment gives the page title. */
  lemma UniqueTitleText(props: Object, i: nat, fragment: Object)
    requires i < |props| && IsTitleDescriptor(props[i].1)
    requires forall j :: 0 <= j < |props| && j != i ==> !IsTitleDescriptor(props[j].1)
    requires OneFragment(props[i].1.fields, fragment)
    ensures PageTitle(JObj(props)) == Ok(Get(fragment, PlainTextKey).value.s)
  {
    UniqueTitleProperty(props, i);
  }

  /** Renaming a property does not change the page title. */
  lemma {:induction false} TitleIgnoresPropertyNames(props: Object, i: nat, name: string)
    requires i < |props|
    ensures PageTitle(JObj(props[i := (name, props[i].1)])) == PageTitle(JObj(props))
  {
    var renamed := props[i := (name, props[i].1)];
    assert props == props[..i] + [props[i]] + props[i + 1..];
    assert renamed == props[..i] + [(name, props[i].1)] + props[i + 1..];
    TitleDescriptorsAppend(props[..i] + [props[i]], props[i + 1..]);
    TitleDescriptorsAppend(props[..i], [props[i]]);
    TitleDescriptorsAppend(props[..i] + [(name, props[i].1)], props[i + 1..]);
    TitleDescriptorsAppend(props[..i], [(name, props[i].1)]);
  }

  /** Properties of any other type (a `select`, say) do not affect the page
      title: adding one anywhere leaves it unchanged. */
  lemma {:induction false} TitleIgnoresOtherProperties(a: Object, b: Object, name: string, d: Json)
    requires !IsTitleDescriptor(d)
    ensures PageTitle(JObj(a + [(name, d)] + b)) == PageTitle(JObj(a + b))
  {
    TitleDescriptorsAppend(a + [(name, d)], b);
    TitleDescriptorsAppend(a, [(name, d)]);
    TitleDescriptorsAppend(a, b);
  }
}
