/** Metadata assembly: the flat record built from a raw page or database
    record. Each record yields `page_id`, `parent_id`, `title`, `url`,
    `created_by`, `last_edited_by` and `last_edited_time`; a page whose parent
    is a database also carries `properties`. */
module Metadata {
  import opened Outcomes
  import opened Json
  import opened Parent
  import opened Title

  const IdKey := "id"
  const UrlKey := "url"
  const ParentKey := "parent"
  const CreatedByKey := "created_by"
  const LastEditedByKey := "last_edited_by"
  const LastEditedTimeKey := "last_edited_time"

  /** Everything read from the raw record before the two user lookups:
      the users are still identifiers here. */
  datatype Draft = Draft(
    id: string,
    parent: ParentRef,
    title: string,
    url: string,
    createdById: string,
    lastEditedById: string,
    lastEditedTime: string,
    hasProperties: bool)

  /** The normalised metadata record. `hasProperties` says whether the
      `properties` key is present in it. */
  datatype Meta = Meta(
    pageId: string,
    parentId: string,
    title: string,
    url: string,
    createdBy: string,
    lastEditedBy: string,
    lastEditedTime: string,
    hasProperties: bool)

  /** The parent reference of a raw record, decoded. */
  function ParentOf(record: Object): (r: Result<ParentRef>)
    ensures r.Ok? <==> Get(record, ParentKey).Some? && Decode(Get(record, ParentKey).value).Ok?
    ensures r.Ok? ==> Decode(Get(record, ParentKey).value) == r
  {
    var raw :- Field(record, ParentKey);
    Decode(raw)
  }

  /** The `id` inside the user object under `key`. */
  function UserIdAt(record: Object, key: string): (r: Result<string>)
    ensures r.Ok? ==> exists user :: Get(record, key) == Some(JObj(user)) && Get(user, IdKey) == Some(JStr(r.value))
  {
    var user :- ObjectAt(record, key);
    StringAt(user, IdKey)
  }

  /** The fields that pages and databases read alike. */
  function Common(record: Object, parent: ParentRef, title: string, hasProperties: bool): (r: Result<Draft>)
    ensures r.Ok? ==> r.value.parent == parent && r.value.title == title && r.value.hasProperties == hasProperties
    ensures r.Ok? ==> Get(record, IdKey) == Some(JStr(r.value.id)) && Get(record, UrlKey) == Some(JStr(r.value.url))
                      && Get(record, LastEditedTimeKey) == Some(JStr(r.value.lastEditedTime))
    ensures r.Ok? ==> UserIdAt(record, CreatedByKey) == Ok(r.value.createdById)
                      && UserIdAt(record, LastEditedByKey) == Ok(r.value.lastEditedById)
  {
    var id :- StringAt(record, IdKey);
    var url :- StringAt(record, UrlKey);
    var createdById :- UserIdAt(record, CreatedByKey);
    var lastEditedById :- UserIdAt(record, LastEditedByKey);
    var lastEditedTime :- StringAt(record, LastEditedTimeKey);
    Ok(Draft(id, parent, title, url, createdById, lastEditedById, lastEditedTime, hasProperties))
  }

  /** A page: title from its title-typed property; `properties` kept exactly
      when the parent is a database. */
  function PageDraft(record: Object): (r: Result<Draft>)
    ensures r.Ok? ==> ParentOf(record) == Ok(r.value.parent) && r.value.hasProperties == r.value.parent.DatabaseParent?
    ensures r.Ok? ==> Get(record, PropertiesKey).Some? && PageTitle(Get(record, PropertiesKey).value) == Ok(r.value.title)
    ensures r.Ok? ==> Common(record, r.value.parent, r.value.title, r.value.hasProperties) == r
  {
    var parent :- ParentOf(record);
    var properties :- Field(record, PropertiesKey);
    var title :- PageTitle(properties);
    Common(record, parent, title, parent.DatabaseParent?)
  }

  /** A database: title from its top-level title list; never `properties`. */
  function DatabaseDraft(record: Object): (r: Result<Draft>)
    ensures r.Ok? ==> ParentOf(record) == Ok(r.value.parent) && !r.value.hasProperties
    ensures r.Ok? ==> DatabaseTitle(record) == Ok(r.value.title)
    ensures r.Ok? ==> Common(record, r.value.parent, r.value.title, false) == r
  {
    var parent :- ParentOf(record);
    var title :- DatabaseTitle(record);
    Common(record, parent, title, false)
  }

  /** The user identifiers looked up for a draft, in call order: created_by
      first; when the first lookup fails the second is not made. */
  function Lookups(draft: Result<Draft>, answers: seq<string>): (r: seq<string>)
    ensures draft.Err? ==> r == []
    ensures draft.Ok? ==> 1 <= |r| <= 2 && r[0] == draft.value.createdById
    ensures |r| == 2 <==> draft.Ok? && answers != []
    ensures |r| == 2 ==> r[1] == draft.value.lastEditedById
  {
    match draft
    case Err(_) => []
    case Ok(d) => if answers == [] then [d.createdById] else [d.createdById, d.lastEditedById]
  }

  /** Completes a draft with the directory's answers, consumed in call order. */
  function Resolve(draft: Result<Draft>, answers: seq<string>): (r: Result<Meta>)
    ensures draft.Err? ==> r == Err(draft.error)
    ensures draft.Ok? && |answers| < 2 ==> r == Err(UserLookupFailed)
    ensures r.Ok? ==> draft.Ok? && |answers| >= 2
    ensures r.Ok? ==> r.value.createdBy == answers[0] && r.value.lastEditedBy == answers[1]
    ensures r.Ok? ==> r.value.pageId == draft.value.id && r.value.parentId == draft.value.parent.Id()
                      && r.value.title == draft.value.title && r.value.url == draft.value.url
                      && r.value.lastEditedTime == draft.value.lastEditedTime
                      && r.value.hasProperties == draft.value.hasProperties
  {
    var d :- draft;
    if |answers| < 2 then Err(UserLookupFailed)
    else Ok(Meta(d.id, d.parent.Id(), d.title, d.url, answers[0], answers[1], d.lastEditedTime, d.hasProperties))
  }

  /** Page metadata, given the answers the user directory will give. */
  function PageMeta(record: Object, answers: seq<string>): (r: Result<Meta>)
    ensures PageDraft(record).Err? ==> r.Err?
    ensures r.Ok? ==> ParentOf(record).Ok? && r.value.parentId == ParentOf(record).value.Id()
    ensures r.Ok? ==> r.value.hasProperties == ParentOf(record).value.DatabaseParent?
    ensures r.Ok? ==> |answers| >= 2 && r.value.createdBy == answers[0] && r.value.lastEditedBy == answers[1]
  {
    match PageDraft(record)
    case Err(e) => Err(e)
    case Ok(d) =>
      assert ParentOf(record) == Ok(d.parent);
      Resolve(Ok(d), answers)
  }

  /** Database metadata, given the answers the user directory will give. */
  function DatabaseMeta(record: Object, answers: seq<string>): (r: Result<Meta>)
    ensures DatabaseDraft(record).Err? ==> r.Err?
    ensures r.Ok? ==> ParentOf(record).Ok? && r.value.parentId == ParentOf(record).value.Id()
    ensures r.Ok? ==> !r.value.hasProperties
    ensures r.Ok? ==> |answers| >= 2 && r.value.createdBy == answers[0] && r.value.lastEditedBy == answers[1]
  {
    match DatabaseDraft(record)
    case Err(e) => Err(e)
    case Ok(d) =>
      assert ParentOf(record) == Ok(d.parent);
      Resolve(Ok(d), answers)
  }

  /** What page metadata holds: the record's own id and url, the parent
      identifier from either encoding, the title of the title-typed property,
      the first answer as created_by and the second as last_edited_by, and
      `properties` exactly when the raw parent carries `database_id`. */
  lemma PageMetaFields(record: Object, answers: seq<string>, m: Meta)
    requires PageMeta(record, answers) == Ok(m)
    ensures Get(record, IdKey) == Some(JStr(m.pageId))
    ensures Get(record, UrlKey) == Some(JStr(m.url))
    ensures Get(record, LastEditedTimeKey) == Some(JStr(m.lastEditedTime))
    ensures exists p :: Get(record, ParentKey) == Some(JObj(p)) && Decode(JObj(p)).Ok?
              && Decode(JObj(p)).value.Id() == m.parentId
              && (m.hasProperties <==> Get(p, DatabaseKey).Some?)
    ensures exists props :: Get(record, PropertiesKey) == Some(props) && PageTitle(props) == Ok(m.title)
    ensures |answers| >= 2 && m.createdBy == answers[0] && m.lastEditedBy == answers[1]
  {
  }

  /** What database metadata holds: the database's own id as page_id, its
      url, the parent identifier from either encoding, its top-level title,
      the two answers in order, and never `properties`. */
  lemma DatabaseMetaFields(record: Object, answers: seq<string>, m: Meta)
    requires DatabaseMeta(record, answers) == Ok(m)
    ensures Get(record, IdKey) == Some(JStr(m.pageId))
    ensures Get(record, UrlKey) == Some(JStr(m.url))
    ensures Get(record, LastEditedTimeKey) == Some(JStr(m.lastEditedTime))
    ensures exists p :: Get(record, ParentKey) == Some(p) && Decode(p).Ok? && Decode(p).value.Id() == m.parentId
    ensures DatabaseTitle(record) == Ok(m.title)
    ensures |answers| >= 2 && m.createdBy == answers[0] && m.lastEditedBy == answers[1]
    ensures !m.hasProperties
  {
  }

  /** A page record of the shape the tests use yields metadata: string `id`,
      `url` and `last_edited_time`; user objects with a string `id`; a parent
      in either encoding; exactly one title-typed property whose title list is
      one fragment with a string `plain_text`; and two user answers. */
  lemma {:induction false} PageMetaDefined(record: Object, answers: seq<string>, raw: Json, p: ParentRef,
                        creator: Object, editor: Object, props: Object, i: nat, fragment: Object)
    requires Get(record, IdKey).Some? && Get(record, IdKey).value.JStr?
    requires Get(record, UrlKey).Some? && Get(record, UrlKey).value.JStr?
    requires Get(record, LastEditedTimeKey).Some? && Get(record, LastEditedTimeKey).value.JStr?
    requires Get(record, CreatedByKey) == Some(JObj(creator)) && Get(creator, IdKey).Some? && Get(creator, IdKey).value.JStr?
    requires Get(record, LastEditedByKey) == Some(JObj(editor)) && Get(editor, IdKey).Some? && Get(editor, IdKey).value.JStr?
    requires Get(record, ParentKey) == Some(raw) && Decode(raw) == Ok(p)
    requires Get(record, PropertiesKey) == Some(JObj(props))
    requires i < |props| && IsTitleDescriptor(props[i].1)
    requires forall j :: 0 <= j < |props| && j != i ==> !IsTitleDescriptor(props[j].1)
    requires OneFragment(props[i].1.fields, fragment)
    requires |answers| >= 2
    ensures PageMeta(record, answers) == Ok(Meta(
              Get(record, IdKey).value.s, p.Id(), Get(fragment, PlainTextKey).value.s, Get(record, UrlKey).value.s,
              answers[0], answers[1], Get(record, LastEditedTimeKey).value.s, p.DatabaseParent?))
  {
    var title := Get(fragment, PlainTextKey).value.s;
    UniqueTitleText(props, i, fragment);
    assert ParentOf(record) == Ok(p);
    assert Field(record, PropertiesKey) == Ok(JObj(props));
    CommonDefined(record, creator, editor, p, title, p.DatabaseParent?);
    var d := Common(record, p, title, p.DatabaseParent?).value;
    assert PageDraft(record) == Ok(d);
    assert PageMeta(record, answers) == Resolve(Ok(d), answers);
  }

  /** A database record of the shape the tests use yields metadata: the same
      fields as a page, with a top-level title list of one fragment instead of
      a title-typed property. */
  lemma {:induction false} DatabaseMetaDefined(record: Object, answers: seq<string>, raw: Json, p: ParentRef,
                            creator: Object, editor: Object, fragment: Object)
    requires Get(record, IdKey).Some? && Get(record, IdKey).value.JStr?
    requires Get(record, UrlKey).Some? && Get(record, UrlKey).value.JStr?
    requires Get(record, LastEditedTimeKey).Some? && Get(record, LastEditedTimeKey).value.JStr?
    requires Get(record, CreatedByKey) == Some(JObj(creator)) && Get(creator, IdKey).Some? && Get(creator, IdKey).value.JStr?
    requires Get(record, LastEditedByKey) == Some(JObj(editor)) && Get(editor, IdKey).Some? && Get(editor, IdKey).value.JStr?
    requires Get(record, ParentKey) == Some(raw) && Decode(raw) == Ok(p)
    requires OneFragment(record, fragment)
    requires |answers| >= 2
    ensures DatabaseMeta(record, answers) == Ok(Meta(
              Get(record, IdKey).value.s, p.Id(), Get(fragment, PlainTextKey).value.s, Get(record, UrlKey).value.s,
              answers[0], answers[1], Get(record, LastEditedTimeKey).value.s, false))
  {
    var title := Get(fragment, PlainTextKey).value.s;
    assert DatabaseTitle(record) == Ok(title);
    assert ParentOf(record) == Ok(p);
    CommonDefined(record, creator, editor, p, title, false);
    assert DatabaseDraft(record) == Common(record, p, title, false);
  }

  /** The shared fields are read whenever they are present with the right shape. */
  lemma {:induction false} CommonDefined(record: Object, creator: Object, editor: Object, parent: ParentRef, title: string, hasProperties: bool)
    requires Get(record, IdKey).Some? && Get(record, IdKey).value.JStr?
    requires Get(record, UrlKey).Some? && Get(record, UrlKey).value.JStr?
    requires Get(record, LastEditedTimeKey).Some? && Get(record, LastEditedTimeKey).value.JStr?
    requires Get(record, CreatedByKey) == Some(JObj(creator)) && Get(creator, IdKey).Some? && Get(creator, IdKey).value.JStr?
    requires Get(record, LastEditedByKey) == Some(JObj(editor)) && Get(editor, IdKey).Some? && Get(editor, IdKey).value.JStr?
    ensures Common(record, parent, title, hasProperties) == Ok(Draft(
              Get(record, IdKey).value.s, parent, title, Get(record, UrlKey).value.s,
              Get(creator, IdKey).value.s, Get(editor, IdKey).value.s, Get(record, LastEditedTimeKey).value.s, hasProperties))
  {
    assert UserIdAt(record, CreatedByKey) == Ok(Get(creator, IdKey).value.s);
    assert UserIdAt(record, LastEditedByKey) == Ok(Get(editor, IdKey).value.s);
  }

  /** Writing the parent in another encoding changes only parent_id (and, for
      a page, whether `properties` is present), never the title or anything
      else. */
  lemma {:induction false} ReparentPage(record: Object, answers: seq<string>, m: Meta, raw: Json, q: ParentRef)
    requires PageMeta(record, answers) == Ok(m)
    requires Decode(raw) == Ok(q)
    ensures PageMeta(Put(record, ParentKey, raw), answers)
              == Ok(m.(parentId := q.Id(), hasProperties := q.DatabaseParent?))
  {
    var moved := Put(record, ParentKey, raw);
    var d := PageDraft(record).value;
    SameOutsideParent(record, raw);
    assert Field(moved, PropertiesKey) == Field(record, PropertiesKey);
    CommonAgrees(record, moved, q, d.title, q.DatabaseParent?);
    assert Common(record, d.parent, d.title, d.hasProperties) == Ok(d);
    CommonAgrees(record, record, q, d.title, q.DatabaseParent?);
    CommonParent(record, d.parent, q, d.title, d.hasProperties, q.DatabaseParent?);
    assert PageDraft(moved) == Ok(d.(parent := q, hasProperties := q.DatabaseParent?));
  }

  /** A database's title and other fields do not depend on which parent
      encoding its record uses. */
  lemma {:induction false} ReparentDatabase(record: Object, answers: seq<string>, m: Meta, raw: Json, q: ParentRef)
    requires DatabaseMeta(record, answers) == Ok(m)
    requires Decode(raw) == Ok(q)
    ensures DatabaseMeta(Put(record, ParentKey, raw), answers) == Ok(m.(parentId := q.Id()))
  {
    var moved := Put(record, ParentKey, raw);
    var d := DatabaseDraft(record).value;
    SameOutsideParent(record, raw);
    assert DatabaseTitle(moved) == DatabaseTitle(record);
    CommonAgrees(record, moved, q, d.title, false);
    CommonParent(record, d.parent, q, d.title, false, false);
    assert DatabaseDraft(moved) == Ok(d.(parent := q));
  }

  /** Common reads only the five keys it names. */
  lemma CommonAgrees(a: Object, b: Object, parent: ParentRef, title: string, hasProperties: bool)
    requires forall key :: key in {IdKey, UrlKey, CreatedByKey, LastEditedByKey, LastEditedTimeKey} ==> Get(a, key) == Get(b, key)
    ensures Common(a, parent, title, hasProperties) == Common(b, parent, title, hasProperties)
  {
  }

  /** Common copies its parent, title and properties flag into the draft. */
  lemma CommonParent(record: Object, p: ParentRef, q: ParentRef, title: string, hp: bool, hq: bool)
    requires Common(record, p, title, hp).Ok?
    ensures Common(record, q, title, hq) == Ok(Common(record, p, title, hp).value.(parent := q, hasProperties := hq))
  {
  }

  lemma SameOutsideParent(record: Object, raw: Json)
    ensures ParentOf(Put(record, ParentKey, raw)) == Decode(raw)
    ensures forall key :: key in {IdKey, UrlKey, PropertiesKey, TitleKey, CreatedByKey, LastEditedByKey, LastEditedTimeKey}
              ==> Get(Put(record, ParentKey, raw), key) == Get(record, key)
  {
    forall key | key in {IdKey, UrlKey, PropertiesKey, TitleKey, CreatedByKey, LastEditedByKey, LastEditedTimeKey}
      ensures Get(Put(record, ParentKey, raw), key) == Get(record, key)
    {
      PutKeepsOthers(record, ParentKey, raw, key);
    }
  }
}
