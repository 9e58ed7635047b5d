/** The four exporter scenarios: two pages and two databases, each with a
    parent in the current and in the legacy encoding, and a user directory
    that answers "User One" then "User Two". */
module ExporterTests {
  import opened Outcomes
  import opened Json
  import opened Metadata
  import opened Exporter
  import opened Parent
  import opened Title

  function Users(): seq<string> {
    ["User One", "User Two"]
  }

  function User(id: string): Json {
    JObj([("id", JStr(id))])
  }

  /** The fields every scenario record shares, followed by its parent. */
  function RecordWith(id: string, url: string, parent: Json): Object {
    [("id", JStr(id)),
     ("url", JStr(url)),
     ("created_by", User("user-1")),
     ("last_edited_by", User("user-2")),
     ("last_edited_time", JStr("2023-01-01T00:00:00.000Z")),
     ("parent", parent)]
  }

  /** A page under a database, current encoding; its title property is
      called "Name" and sits beside a `select` property. */
  function PageUnderDatabase(): Object {
    RecordWith("test-page-id", "https://notion.so/test-page",
               JObj([("database_id", JStr("test-database-id"))]))
    + [("properties", JObj([
         ("Name", JObj([("type", JStr("title")), ("title", Fragments("Test Page"))])),
         ("Status", JObj([("type", JStr("select")), ("select", JObj([("name", JStr("In Progress"))]))]))]))]
  }

  /** A page under a page, legacy encoding; its title property is called
      "title". */
  function PageUnderPage(): Object {
    RecordWith("test-page-id", "https://notion.so/test-page",
               JObj([("type", JStr("page_id")), ("page_id", JStr("parent-page-id"))]))
    + [("properties", JObj([
         ("title", JObj([("type", JStr("title")), ("title", Fragments("Test Page"))]))]))]
  }

  /** A database under a database, current encoding. */
  function DatabaseUnderDatabase(): Object {
    RecordWith("test-database-id", "https://notion.so/test-database",
               JObj([("database_id", JStr("parent-database-id"))]))
    + [("title", Fragments("Test Database"))]
  }

  /** A database under a page, legacy encoding. */
  function DatabaseUnderPage(): Object {
    RecordWith("test-database-id", "https://notion.so/test-database",
               JObj([("type", JStr("page_id")), ("page_id", JStr("parent-page-id"))]))
    + [("title", Fragments("Test Database"))]
  }

  /** Every key of a scenario record looks up its own value. */
  lemma {:induction false} RecordWithLookups(id: string, url: string, parent: Json, key: string, v: Json)
    requires key !in ["id", "url", "created_by", "last_edited_by", "last_edited_time", "parent"]
    ensures var rec := RecordWith(id, url, parent) + [(key, v)];
      && Get(rec, "id") == Some(JStr(id))
      && Get(rec, "url") == Some(JStr(url))
      && Get(rec, "created_by") == Some(User("user-1"))
      && Get(rec, "last_edited_by") == Some(User("user-2"))
      && Get(rec, "last_edited_time") == Some(JStr("2023-01-01T00:00:00.000Z"))
      && Get(rec, "parent") == Some(parent)
      && Get(rec, key) == Some(v)
  {
    var rec := RecordWith(id, url, parent) + [(key, v)];
    assert DistinctKeys(rec);
    GetEntry(rec, 0);
    GetEntry(rec, 1);
    GetEntry(rec, 2);
    GetEntry(rec, 3);
    GetEntry(rec, 4);
    GetEntry(rec, 5);
    GetEntry(rec, 6);
  }

  lemma CurrentParentOf(rec: Object, x: string)
    requires Get(rec, "parent") == Some(JObj([("database_id", JStr(x))]))
    ensures ParentOf(rec) == Ok(DatabaseParent(x))
  {
  }

  lemma LegacyParentOf(rec: Object, t: string, v: string)
    requires t != "database_id" && t != "type"
    requires Get(rec, "parent") == Some(JObj([("type", JStr(t)), (t, JStr(v))]))
    ensures ParentOf(rec) == Ok(TypedParent(t, v))
  {
    DecodeEncode(TypedParent(t, v));
  }

  lemma PageUnderDatabaseTitle()
    ensures PageTitle(PageUnderDatabase()[6].1) == Ok("Test Page")
  {
  }

  lemma ScenarioCommon(id: string, url: string, parent: Json, key: string, v: Json, p: ParentRef, title: string, hp: bool)
    requires key !in ["id", "url", "created_by", "last_edited_by", "last_edited_time", "parent"]
    ensures Common(RecordWith(id, url, parent) + [(key, v)], p, title, hp)
              == Ok(Draft(id, p, title, url, "user-1", "user-2", "2023-01-01T00:00:00.000Z", hp))
  {
    var rec := RecordWith(id, url, parent) + [(key, v)];
    RecordWithLookups(id, url, parent, key, v);
    assert StringAt(rec, "id") == Ok(id);
    assert StringAt(rec, "url") == Ok(url);
    assert StringAt(rec, "last_edited_time") == Ok("2023-01-01T00:00:00.000Z");
    assert ObjectAt(rec, "created_by") == Ok([("id", JStr("user-1"))]);
    assert ObjectAt(rec, "last_edited_by") == Ok([("id", JStr("user-2"))]);
    assert UserIdAt(rec, "created_by") == Ok("user-1");
    assert UserIdAt(rec, "last_edited_by") == Ok("user-2");
  }

  lemma PageUnderDatabaseDraft()
    ensures PageDraft(PageUnderDatabase()) == Ok(Draft("test-page-id", DatabaseParent("test-database-id"),
              "Test Page", "https://notion.so/test-page", "user-1", "user-2", "2023-01-01T00:00:00.000Z", true))
  {
    var rec := PageUnderDatabase();
    var parent := rec[5].1;
    var props := rec[6].1;
    RecordWithLookups("test-page-id", "https://notion.so/test-page", parent, "properties", props);
    CurrentParentOf(rec, "test-database-id");
    PageUnderDatabaseTitle();
    ScenarioCommon("test-page-id", "https://notion.so/test-page", parent, "properties", props,
                   DatabaseParent("test-database-id"), "Test Page", true);
  }

  lemma PageUnderPageTitle()
    ensures PageTitle(PageUnderPage()[6].1) == Ok("Test Page")
  {
  }

  lemma PageUnderPageDraft()
    ensures PageDraft(PageUnderPage()) == Ok(Draft("test-page-id", TypedParent("page_id", "parent-page-id"),
              "Test Page", "https://notion.so/test-page", "user-1", "user-2", "2023-01-01T00:00:00.000Z", false))
  {
    var rec := PageUnderPage();
    var parent := rec[5].1;
    var props := rec[6].1;
    RecordWithLookups("test-page-id", "https://notion.so/test-page", parent, "properties", props);
    LegacyParentOf(rec, "page_id", "parent-page-id");
    PageUnderPageTitle();
    ScenarioCommon("test-page-id", "https://notion.so/test-page", parent, "properties", props,
                   TypedParent("page_id", "parent-page-id"), "Test Page", false);
  }

  lemma DatabaseUnderDatabaseDraft()
    ensures DatabaseDraft(DatabaseUnderDatabase()) == Ok(Draft("test-database-id", DatabaseParent("parent-database-id"),
              "Test Database", "https://notion.so/test-database", "user-1", "user-2", "2023-01-01T00:00:00.000Z", false))
  {
    var rec := DatabaseUnderDatabase();
    var parent := rec[5].1;
    RecordWithLookups("test-database-id", "https://notion.so/test-database", parent, "title", Fragments("Test Database"));
    CurrentParentOf(rec, "parent-database-id");
    FragmentsRoundTrip(rec, "Test Database");
    ScenarioCommon("test-database-id", "https://notion.so/test-database", parent, "title", Fragments("Test Database"),
                   DatabaseParent("parent-database-id"), "Test Database", false);
  }

  lemma DatabaseUnderPageDraft()
    ensures DatabaseDraft(DatabaseUnderPage()) == Ok(Draft("test-database-id", TypedParent("page_id", "parent-page-id"),
              "Test Database", "https://notion.so/test-database", "user-1", "user-2", "2023-01-01T00:00:00.000Z", false))
  {
    var rec := DatabaseUnderPage();
    var parent := rec[5].1;
    RecordWithLookups("test-database-id", "https://notion.so/test-database", parent, "title", Fragments("Test Database"));
    LegacyParentOf(rec, "page_id", "parent-page-id");
    FragmentsRoundTrip(rec, "Test Database");
    ScenarioCommon("test-database-id", "https://notion.so/test-database", parent, "title", Fragments("Test Database"),
                   TypedParent("page_id", "parent-page-id"), "Test Database", false);
  }

  method PageMetaWithDatabaseParentNewApi() returns (result: Meta, requests: seq<string>)
    ensures result.pageId == "test-page-id" && result.parentId == "test-database-id"
    ensures result.title == "Test Page" && result.url == "https://notion.so/test-page"
    ensures result.createdBy == "User One" && result.lastEditedBy == "User Two"
    ensures result.hasProperties
    ensures requests == ["user-1", "user-2"]
  {
    var exporter := new NotionExporter(Users());
    PageUnderDatabaseDraft();
    var r := exporter.GetPageMeta(PageUnderDatabase());
    result := r.value;
    requests := exporter.userRequests;
  }

  method PageMetaWithPageParentOldApi() returns (result: Meta, requests: seq<string>)
    ensures result.pageId == "test-page-id" && result.parentId == "parent-page-id"
    ensures result.title == "Test Page"
    ensures !result.hasProperties
    ensures requests == ["user-1", "user-2"]
  {
    var exporter := new NotionExporter(Users());
    PageUnderPageDraft();
    var r := exporter.GetPageMeta(PageUnderPage());
    result := r.value;
    requests := exporter.userRequests;
  }

  method DatabaseMetaWithDatabaseParentNewApi() returns (result: Meta, requests: seq<string>)
    ensures result.pageId == "test-database-id" && result.parentId == "parent-database-id"
    ensures result.title == "Test Database" && result.url == "https://notion.so/test-database"
    ensures result.createdBy == "User One" && result.lastEditedBy == "User Two"
    ensures !result.hasProperties
    ensures requests == ["user-1", "user-2"]
  {
    var exporter := new NotionExporter(Users());
    DatabaseUnderDatabaseDraft();
    var r := exporter.GetDatabaseMeta(DatabaseUnderDatabase());
    result := r.value;
    requests := exporter.userRequests;
  }

  method DatabaseMetaWithPageParentOldApi() returns (result: Meta, requests: seq<string>)
    ensures result.pageId == "test-database-id" && result.parentId == "parent-page-id"
    ensures result.title == "Test Database"
    ensures !result.hasProperties
    ensures requests == ["user-1", "user-2"]
  {
    var exporter := new NotionExporter(Users());
    DatabaseUnderPageDraft();
    var r := exporter.GetDatabaseMeta(DatabaseUnderPage());
    result := r.value;
    requests := exporter.userRequests;
  }
}
