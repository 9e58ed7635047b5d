/** The exporter object. Its user lookup answers from a scripted list, one
    answer per call in call order, and records every identifier it is asked
    for; a call made after the answers run out fails. Fetching a page or a
    database is not modelled: the fetched record is the argument. */
module Exporter {
  import opened Outcomes
  import opened Json
  import opened Metadata

  /** What is left of `answers` after `calls` lookups. */
  function Remaining(answers: seq<string>, calls: nat): seq<string> {
    if calls >= |answers| then [] else answers[calls..]
  }

  class NotionExporter {
    /** Answers the user directory still has to give, in order. */
    var userAnswers: seq<string>
    /** Identifiers the user directory was asked for, in call order. */
    var userRequests: seq<string>

    constructor (answers: seq<string>)
      ensures userAnswers == answers && userRequests == []
    {
      userAnswers := answers;
      userRequests := [];
    }

    /** Resolves one user identifier to a display name. */
    method GetUser(userId: string) returns (r: Result<string>)
      modifies this
      ensures userRequests == old(userRequests) + [userId]
      ensures old(userAnswers) == [] ==> r == Err(UserLookupFailed) && userAnswers == []
      ensures old(userAnswers) != [] ==> r == Ok(old(userAnswers)[0]) && userAnswers == old(userAnswers)[1..]
    {
      userRequests := userRequests + [userId];
      if userAnswers == [] {
        r := Err(UserLookupFailed);
      } else {
        r := Ok(userAnswers[0]);
        userAnswers := userAnswers[1..];
      }
    }

    /** Looks up created_by, then last_edited_by, and assembles the record. */
    method Complete(draft: Result<Draft>) returns (r: Result<Meta>)
      modifies this
      ensures r == Resolve(draft, old(userAnswers))
      ensures userRequests == old(userRequests) + Lookups(draft, old(userAnswers))
      ensures userAnswers == Remaining(old(userAnswers), |Lookups(draft, old(userAnswers))|)
    {
      if draft.Err? {
        return Err(draft.error);
      }
      var d := draft.value;
      var createdBy := GetUser(d.createdById);
      if createdBy.Err? {
        return Err(createdBy.error);
      }
      var lastEditedBy := GetUser(d.lastEditedById);
      if lastEditedBy.Err? {
        return Err(lastEditedBy.error);
      }
      r := Ok(Meta(d.id, d.parent.Id(), d.title, d.url, createdBy.value, lastEditedBy.value,
                   d.lastEditedTime, d.hasProperties));
    }

    /** Metadata of a fetched page. */
    method GetPageMeta(page: Object) returns (r: Result<Meta>)
      modifies this
      ensures r == PageMeta(page, old(userAnswers))
      ensures userRequests == old(userRequests) + Lookups(PageDraft(page), old(userAnswers))
      ensures userAnswers == Remaining(old(userAnswers), |Lookups(PageDraft(page), old(userAnswers))|)
    {
      r := Complete(PageDraft(page));
    }

    /** Metadata of a fetched database. */
    method GetDatabaseMeta(database: Object) returns (r: Result<Meta>)
      modifies this
      ensures r == DatabaseMeta(database, old(userAnswers))
      ensures userRequests == old(userRequests) + Lookups(DatabaseDraft(database), old(userAnswers))
      ensures userAnswers == Remaining(old(userAnswers), |Lookups(DatabaseDraft(database), old(userAnswers))|)
    {
      r := Complete(DatabaseDraft(database));
    }
  }
}
