/**
 * The persisted tables as an object the handlers update in place: a new user
 * row is built and saved, and a redemption overwrites one row's access time
 * and saves it. Each handler is proved to leave the tables, and to answer,
 * exactly as the corresponding transition of module App says.
 */
module Server {
  import opened Wrappers
  import opened Models
  import opened Forms
  import opened Emails
  import opened App

  class Store {
    var users: map<RowId, User>
    var datafiles: seq<Datafile>
    var nextId: RowId

    /** The tables as a value. */
    function Snapshot(): State
      reads this
    {
      State(users, datafiles, nextId)
    }

    ghost predicate Valid()
      reads this
    {
      Consistent(Snapshot())
    }

    /** A store holding the given datafile rows and no users yet. */
    constructor (rows: seq<Datafile>)
      requires DatafilesKeyed(rows)
      ensures Valid()
      ensures Snapshot() == State(map[], rows, 1)
    {
      users := map[];
      datafiles := rows;
      nextId := 1;
    }

    /** Saves a new user row under the next primary key and returns it with that key. */
    method Insert(draft: User) returns (u: User)
      requires Valid()
      requires HasDatafile(datafiles, draft.datafileId) && draft.requestedAccessDate.Some?
      modifies this
      ensures Valid()
      ensures u == draft.(id := old(nextId))
      ensures users == old(users)[u.id := u]
      ensures nextId == old(nextId) + 1
      ensures datafiles == old(datafiles)
    {
      u := draft.(id := nextId);
      users := users[u.id := u];
      nextId := nextId + 1;
    }

    /** Overwrites the access time of user `id` with `now` and saves the row. */
    method StampAccess(id: RowId, now: Instant)
      requires Valid()
      requires id in users
      modifies this
      ensures Valid()
      ensures users == old(users)[id := Stamped(old(users)[id], now)]
      ensures nextId == old(nextId) && datafiles == old(datafiles)
    {
      var u := users[id];
      u := u.(accessDate := Some(now));
      users := users[id := u];
    }

    /** The access route, on the store in place. */
    method RequestAccess(slug: string, form: FormRequest, now: Instant, svc: Services)
      returns (response: Response, sent: Option<Message>)
      requires Valid()
      modifies this
      ensures Valid()
      ensures AccessOutcome(Snapshot(), response, sent) == App.RequestAccess(old(Snapshot()), slug, form, now, svc)
    {
      ghost var before := Snapshot();
      RoutesKeepStoreConsistent(before, slug, form, None, now, svc);
      var found := QueryBySlug(datafiles, slug);
      if found.None? {
        return Aborted(404, NotFoundMessage(slug)), None;
      }
      var datafile := found.value;
      if !form.submitted || Validate(form.data) != [] {
        var errors := if form.submitted then Validate(form.data) else [];
        return Rendered(RequestPage(datafile, errors)), None;
      }
      var u := Insert(NewUser(0, form.data, datafile, now));
      var link := DownloadLink(u, datafile, svc);
      var delivery := SendConfirmationEmail(u.email, u.name, datafile.name, LinkTimeHours, link, svc.mailService);
      sent := Some(delivery.sent);
      if delivery.outcome.Err? {
        response := Aborted(500, SupportMessage);
      } else {
        response := Rendered(SuccessPage(datafile));
      }
    }

    /** The download route, on the store in place. */
    method DownloadDatafile(slug: string, token: Option<string>, now: Instant, svc: Services)
      returns (response: Response)
      requires Valid()
      modifies this
      ensures Valid()
      ensures DownloadOutcome(Snapshot(), response) == App.DownloadDatafile(old(Snapshot()), slug, token, now, svc)
    {
      ghost var before := Snapshot();
      RoutesKeepStoreConsistent(before, slug, FormRequest(false, Submission("", "", "", false, [], "", "")), token, now, svc);
      if token.None? || token.value == "" {
        return Aborted(403, MissingTokenMessage);
      }
      var decoded := svc.decodeToken(token.value);
      if decoded.DecodeError? {
        return Aborted(403, InvalidTokenMessage);
      } else if decoded.OtherTokenError? {
        return Uncaught(decoded.name);
      }
      var sub := decoded.sub;
      if sub !in users {
        return Aborted(403, InvalidTokenMessage);
      }
      var found := QueryBySlug(datafiles, slug);
      if found.None? {
        return Aborted(404, NotFoundMessage(slug));
      }
      var url := GenerateLink(found.value, svc.presign);
      StampAccess(sub, now);
      response := Redirect(url, 302);
    }
  }
}
