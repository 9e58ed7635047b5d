# Notion exporter: page and database metadata

A Dafny model of the metadata step of the Notion exporter. The step turns a raw page or database record, as the Notion API returns it (a nested mapping), into one flat metadata record. That record has `page_id`, `parent_id`, `title`, `url`, `created_by`, `last_edited_by` and `last_edited_time`. A page whose parent is a database also gets a `properties` key.

The exporter's implementation, `notion_exporter/exporter.py`, is not part of this model. The behaviour modelled is the behaviour its test suite, `tests/test_exporter.py`, asserts of `NotionExporter._get_page_meta` and `NotionExporter._get_database_meta`.

Modules, leaf first:

- `Outcomes` (outcomes.dfy): the `Result` of a resolution and its `Error`s.
- `Json` (json.dfy): raw records: null, booleans, numbers, strings, lists and objects. An object is an ordered list of (key, value) entries, like a Python dict. It comes with key lookup (`Get`). Key assignment (`Put`) is used to state that a record written with another parent encoding keeps everything else.
- `Parent` (parent.dfy): the two parent encodings. The current one is `{"database_id": X}`. The legacy one is `{"type": T, T: V}`. `Decode` turns a raw reference into a `ParentRef`, and `ParentRef.Id()` gives the one `parent_id`. `Decode` undoes `Encode` for every valid `ParentRef` (`DecodeEncode`). The converse does not hold: a reference with extra keys, such as a vestigial `type`, decodes to a `ParentRef` whose encoding lacks them.
- `Title` (title.dfy): titles. For a page, the title comes from the property whose descriptor `type` is `"title"`, whatever that property is called. For a database, it comes from the top-level `title` list.
- `Metadata` (metadata.dfy): builds the record. `PageDraft` and `DatabaseDraft` read everything the record itself holds. `PageMeta` and `DatabaseMeta` then add the two user names, given the answers the user lookup will give, in order.
- `Exporter` (exporter.dfy): the `NotionExporter` object. Its `GetUser` answers from a scripted list, one answer per call, and records each identifier it is asked for. This is what the tests' mocked `_get_user` does with its `side_effect` list. `GetPageMeta` and `GetDatabaseMeta` look up `created_by` first and `last_edited_by` second. They are proved equal to `PageMeta` and `DatabaseMeta`.
- `ExporterTests` (exporter_tests.dfy): the four test scenarios, each record passed to the exporter's `GetPageMeta` or `GetDatabaseMeta`. Each states the values the test asserts.

Page metadata does not always carry `properties`. The tests assert that it is present for a page under a database (tests/test_exporter.py:50) and absent for a page under a page (tests/test_exporter.py:85). The model therefore adds `properties` to page metadata exactly when the raw parent carries `database_id`. Database metadata never has it.

## Model

| member | source | states |
|---|---|---|
| `Json.Get` | tests/test_exporter.py:15-34 | A key lookup on a record finds nothing exactly when no entry has that key. Otherwise it returns the value of an entry with that key. |
| `Parent.Decode` | tests/test_exporter.py:21-23 | A decoded parent's identifier is the string stored, in the raw reference, under the key its encoding names. If `database_id` is present, the reference decodes as a database parent, even when a `type` key is also present. A legacy parent decodes only when `database_id` is absent and `type` names its kind. |
| `Parent.Encode` | tests/test_exporter.py:62-65 | Writes a parent in its encoding: `{database_id: X}` or `{type: T, T: V}`. Keys are distinct whenever the kind is unambiguous. |
| `Parent.DecodeEncode` | tests/test_exporter.py:128-131 | Decoding undoes encoding for both encodings. This holds for every legacy kind other than `type` and `database_id`. |
| `Parent.CurrentEncoding` | tests/test_exporter.py:97-99 | A reference holding `database_id: X` yields parent id X, whatever else it carries. |
| `Parent.LegacyEncoding` | tests/test_exporter.py:128-131 | A dict `{type: T, T: V}` without `database_id` yields parent id V. |
| `Title.TitleDescriptors` | tests/test_exporter.py:24-33 | Selects the property descriptors typed `title`. Every selected descriptor is title-typed, and every title-typed descriptor is selected. |
| `Title.TitleUnder` | tests/test_exporter.py:27 | A title is read exactly from a fragment list holding one object fragment with a string `plain_text`, whatever other keys the fragment has. The title is that `plain_text`. An empty fragment list gives `UnsupportedTitle`. |
| `Title.PageTitle` | tests/test_exporter.py:25-32 | A page's title, when there is one, is read from a property typed `title`. A page with no title-typed property, or with two, has no title. |
| `Title.DatabaseTitle` | tests/test_exporter.py:100 | A database's title is the `plain_text` of the single fragment of its top-level `title` list, and such a list always gives a title. |
| `Title.FragmentsRoundTrip` | tests/test_exporter.py:100 | A title list made of one fragment with text t reads back as t. |
| `Title.UniqueTitleProperty` | tests/test_exporter.py:25-32 | When exactly one property is typed `title`, the page title is read from that property, whatever its name and position. |
| `Title.TitleIgnoresPropertyNames` | tests/test_exporter.py:66-70 | Renaming a property (`Name` versus `title`) does not change the page title. |
| `Title.TitleIgnoresOtherProperties` | tests/test_exporter.py:29-32 | Adding a property of any other type (such as the `select` typed `Status`) anywhere does not change the page title. |
| `Metadata.ParentOf` | tests/test_exporter.py:21-23 | A record's parent decodes exactly when it has a `parent` entry that `Decode` accepts. |
| `Metadata.Common` | tests/test_exporter.py:15-20 | The draft's id, url and last_edited_time are the record's own strings. Its user ids are the `id`s inside `created_by` and `last_edited_by`. |
| `Metadata.PageDraft` | tests/test_exporter.py:42-50 | A page draft takes its parent from `parent` and its title from `properties`. It keeps `properties` exactly when the parent is a database parent. |
| `Metadata.DatabaseDraft` | tests/test_exporter.py:109-116 | A database draft takes its parent from `parent` and its title from the top-level `title`. It never keeps `properties`. |
| `Metadata.PageMetaFields` | tests/test_exporter.py:44-50 | Page metadata holds: the record's id as page_id and its url; the parent id from either encoding; the title of the title-typed property; the first answer as created_by and the second as last_edited_by. It has `properties` exactly when the raw parent has `database_id`. |
| `Metadata.DatabaseMetaFields` | tests/test_exporter.py:111-116 | Database metadata holds: the database's id as page_id and its url; the parent id from either encoding; its top-level title; the two answers in order. It never has `properties`. |
| `Metadata.Lookups` | tests/test_exporter.py:40 | The user lookups made: none for a malformed record; otherwise created_by first, then last_edited_by only if the first lookup was answered. |
| `Metadata.Resolve` | tests/test_exporter.py:48-49 | A record error propagates unchanged. Without two answers the result is `UserLookupFailed`. Otherwise the first answer is created_by, the second last_edited_by, and every other field comes from the draft. |
| `Metadata.PageMeta` | tests/test_exporter.py:42-50 | Page metadata fails when the record is malformed. Its parent_id is the decoded parent's id; it has `properties` exactly for a database parent; created_by and last_edited_by are the first and second answers. |
| `Metadata.DatabaseMeta` | tests/test_exporter.py:109-116 | Database metadata fails when the record is malformed. Its parent_id is the decoded parent's id; it never has `properties`; created_by and last_edited_by are the first and second answers. |
| `Metadata.PageMetaDefined` | tests/test_exporter.py:15-34 | Every page record with the tests' shape yields metadata, with every field named. The shape is: string `id`, `url` and `last_edited_time`; user objects with a string `id`; a parent in either encoding; exactly one title-typed property whose list is one fragment with a string `plain_text`; and two answers. |
| `Metadata.DatabaseMetaDefined` | tests/test_exporter.py:91-101 | Every database record with the tests' shape yields metadata, with every field named and no `properties`. The shape is the same, with a top-level one-fragment `title` list. |
| `Metadata.ReparentPage` | tests/test_exporter.py:83-85 | Writing a page's parent in another encoding changes only parent_id and whether `properties` is present. |
| `Metadata.ReparentDatabase` | tests/test_exporter.py:144-145 | Writing a database's parent in another encoding changes only parent_id. The title does not depend on the encoding. |
| `Exporter.NotionExporter.constructor` | tests/test_exporter.py:39-40 | A new exporter holds the scripted user answers and no recorded lookups. |
| `Exporter.NotionExporter.GetUser` | tests/test_exporter.py:40 | Each call records the identifier asked for and returns the next scripted answer, consuming it. A call after the answers run out fails. |
| `Exporter.NotionExporter.Complete` | tests/test_exporter.py:48-49 | Looks up created_by, then last_edited_by. The result equals `Resolve` of the draft and the answers. The lookups recorded are `Lookups`, created_by first. |
| `Exporter.NotionExporter.GetPageMeta` | tests/test_exporter.py:42 | The result is `PageMeta` of the record and the answers. The lookups are made in order and the answers consumed in order. |
| `Exporter.NotionExporter.GetDatabaseMeta` | tests/test_exporter.py:109 | The result is `DatabaseMeta` of the record and the answers. The lookups are made in order and the answers consumed in order. |
| `ExporterTests.PageMetaWithDatabaseParentNewApi` | tests/test_exporter.py:13-50 | A page under a database (current encoding, title property `Name` beside a `select`) gives the asserted page_id, parent_id, title, url, created_by and last_edited_by. It has `properties`. It asks for user-1, then user-2. |
| `ExporterTests.PageMetaWithPageParentOldApi` | tests/test_exporter.py:54-85 | A page under a page (legacy encoding, title property `title`) gives the asserted page_id, parent_id and title. It has no `properties`. |
| `ExporterTests.DatabaseMetaWithDatabaseParentNewApi` | tests/test_exporter.py:89-116 | A database under a database (current encoding) gives the asserted page_id, parent_id, title, url, created_by and last_edited_by. It has no `properties`. |
| `ExporterTests.DatabaseMetaWithPageParentOldApi` | tests/test_exporter.py:120-145 | A database under a page (legacy encoding) gives the asserted page_id, parent_id and title. |

## Left out

- Fetching the record (`notion.pages.retrieve`, `notion.databases.retrieve`) and the async/await machinery. The fetched record is a parameter of `GetPageMeta` and `GetDatabaseMeta`.
- The body of `_get_user`, including any caching or memoization of user names. The tests replace it with a mock, so the model answers from a scripted list and has no cache. The model passes the user's `id` to the lookup; the tests do not show which argument the real method receives.
- The `NotionExporter` constructor's authentication token: configuration only.
- Titles with zero or several rich-text fragments. The model gives `UnsupportedTitle` and no title for these; it assigns no text to them.
- Pages with no title-typed property, or with several. The model gives `StructuralError` for these.
- Parents that match neither encoding, workspace parents, missing keys and values of the wrong shape. The model gives `StructuralError` for these; what the implementation raises is not modelled.
- The value of `properties`: only whether the key is present is modelled.
- Numbers are integers; floating-point values are not represented.
- An object may hold the same key twice, which no Python dict can. `Get` then reads the first entry, whereas a dict literal keeps the last value. Lemmas over all objects, such as `TitleIgnoresPropertyNames`, therefore also cover objects no dict produces; dicts are a special case of them.
- `last_edited_time` is copied from the record. The tests give it in every record but do not assert it in the output.
- The order in which the implementation reads the record's fields relative to the two user lookups. In the model, every field is read and checked before the first lookup.
- Block traversal, markdown rendering, file download and writing output. None of these is exercised by the tests.
