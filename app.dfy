/**
 * The request handlers of the application, as transitions of an abstract
 * store: the datafile detail page, the access request (validate, record the
 * requester, mail a tokenised download link) and the redemption of that link
 * (check the token, look the requester and the datafile up, stamp the access
 * time, redirect to a presigned URL).
 *
 * The clock is the `now` parameter. Token encoding and decoding, building the
 * absolute download URL, the mail service and the object-store presigner are
 * the functions of a `Services` value.
 */
module App {
  import opened Wrappers
  import opened Models
  import opened Forms
  import opened Emails

  /** The validity window the confirmation email states, in hours. */
  const LinkTimeHours: int := 24

  const SupportMessage: string := "Something went wrong - please contact support@datacite.org"
  const MissingTokenMessage: string :=
    "Missing token - please check the link in your email and try again, making sure to include the ?token= parameter"
  const InvalidTokenMessage: string := "Invalid token - please check the link in your email and try again"

  function NotFoundMessage(slug: string): string
  {
    "Datafile " + slug + " does not exist"
  }

  /** The pages a handler renders. */
  datatype Page =
    | DatafileDetail(datafile: Datafile)
    | RequestPage(datafile: Datafile, errors: seq<FieldError>)
    | SuccessPage(datafile: Datafile)

  /** What a handler answers: a rendered page, an abort with a status, a redirect, or an exception it lets escape. */
  datatype Response =
    | Rendered(page: Page)
    | Aborted(code: int, message: string)
    | Redirect(location: Option<string>, code: int)
    | Uncaught(error: string)

  /** The persisted rows: users by primary key, datafiles in table order, and the next key to assign. */
  datatype State = State(users: map<RowId, User>, datafiles: seq<Datafile>, nextId: RowId)

  /** What decoding a token string yields: its subject, the decode error, or another token error. */
  datatype Decoded = Claims(sub: RowId) | DecodeError | OtherTokenError(name: string)

  /** The collaborators the handlers call but this model does not look into. */
  datatype Services = Services(
    encodeToken: AccessToken -> string,           // signs the claims into a token string
    decodeToken: string -> Decoded,               // verifies and decodes a token string
    downloadUrl: (string, string) -> string,      // absolute URL of the download route for (slug, token)
    mailService: Message -> MailReply,            // the mail service's HTTP reply to one message
    presign: PresignRequest -> PresignReply)      // the object store's presigner

  /** Some datafile row has primary key `id`. */
  ghost predicate HasDatafile(rows: seq<Datafile>, id: RowId)
  {
    exists i :: 0 <= i < |rows| && rows[i].id == id
  }

  /**
   * The store's integrity: datafile slugs and keys are unique, every user is
   * filed under its own key, below the next key to assign, references an
   * existing datafile and has its request time set.
   */
  ghost predicate Consistent(st: State)
  {
    && DatafilesKeyed(st.datafiles)
    && forall id :: id in st.users ==>
         && st.users[id].id == id
         && id < st.nextId
         && HasDatafile(st.datafiles, st.users[id].datafileId)
         && st.users[id].requestedAccessDate.Some?
  }

  // ---------------------------------------------------------------- the detail page

  /** The detail page of the datafile with this slug, or 404 when there is none. */
  function ShowDatafile(st: State, slug: string): (r: Response)
    ensures r == Aborted(404, NotFoundMessage(slug)) <==> QueryBySlug(st.datafiles, slug).None?
    ensures r.Rendered? ==> r.page.DatafileDetail? && r.page.datafile in st.datafiles && r.page.datafile.slug == slug
    ensures QueryBySlug(st.datafiles, slug).Some? ==> r == Rendered(DatafileDetail(QueryBySlug(st.datafiles, slug).value))
  {
    match QueryBySlug(st.datafiles, slug)
    case None => Aborted(404, NotFoundMessage(slug))
    case Some(d) => Rendered(DatafileDetail(d))
  }

  // ---------------------------------------------------------------- requesting access

  /** A request to the access route: whether the form was submitted, and what it carries. */
  datatype FormRequest = FormRequest(submitted: bool, data: Submission)

  /** The store after an access request, the answer, and the message sent (if any). */
  datatype AccessOutcome = AccessOutcome(state: State, response: Response, sent: Option<Message>)

  /** The user recorded for an accepted submission for datafile `d` at time `now`. */
  function NewUser(id: RowId, s: Submission, d: Datafile, now: Instant): User
  {
    User(id, s.email, s.name, s.organisation, s.contact, s.primaryUse, s.additionalInfo,
         None, Some(now), d.id)
  }

  /** The download link mailed to user `u` for datafile `d`. */
  function DownloadLink(u: User, d: Datafile, svc: Services): string
  {
    svc.downloadUrl(d.slug, svc.encodeToken(GenerateToken(u)))
  }

  /**
   * The access route. An unknown slug is 404 before the form is looked at; a
   * form that was not submitted or does not validate is shown again; an
   * accepted form records one new user, then mails the download link, and a
   * failed send is a 500 that leaves the user recorded.
   */
  function RequestAccess(st: State, slug: string, form: FormRequest, now: Instant, svc: Services): (out: AccessOutcome)
    ensures out.state.datafiles == st.datafiles
    ensures forall id :: id in st.users && id != st.nextId ==> id in out.state.users && out.state.users[id] == st.users[id]
    ensures st.users.Keys <= out.state.users.Keys <= st.users.Keys + {st.nextId}
    ensures out.sent.Some? <==> out.state != st
  {
    match QueryBySlug(st.datafiles, slug)
    case None => AccessOutcome(st, Aborted(404, NotFoundMessage(slug)), None)
    case Some(d) =>
      if !form.submitted || Validate(form.data) != [] then
        var errors := if form.submitted then Validate(form.data) else [];
        AccessOutcome(st, Rendered(RequestPage(d, errors)), None)
      else
        var u := NewUser(st.nextId, form.data, d, now);
        var saved := st.(users := st.users[u.id := u], nextId := st.nextId + 1);
        var delivery := SendConfirmationEmail(u.email, u.name, d.name, LinkTimeHours, DownloadLink(u, d, svc), svc.mailService);
        var response := if delivery.outcome.Err? then Aborted(500, SupportMessage) else Rendered(SuccessPage(d));
        AccessOutcome(saved, response, Some(delivery.sent))
  }

  // ---------------------------------------------------------------- redeeming the link

  /** The store after a download request, and the answer. */
  datatype DownloadOutcome = DownloadOutcome(state: State, response: Response)

  /** `u` with its access time overwritten by `now`. */
  function Stamped(u: User, now: Instant): User
  {
    u.(accessDate := Some(now))
  }

  /**
   * The download route. Checks run in order: a token is present and
   * non-empty (else 403), it decodes (a decode error is 403; any other token
   * error escapes), its subject is a user (else 403), the slug is a datafile
   * (else 404). Then a link is generated, the user's access time is stamped
   * whatever the link is, and the answer redirects to the link.
   */
  function DownloadDatafile(st: State, slug: string, token: Option<string>, now: Instant, svc: Services): (out: DownloadOutcome)
    ensures out.state.datafiles == st.datafiles && out.state.nextId == st.nextId
    ensures out.state.users.Keys == st.users.Keys
    ensures forall id :: id in st.users ==>
              out.state.users[id] == st.users[id] || out.state.users[id] == Stamped(st.users[id], now)
    ensures out.state != st ==> out.response.Redirect?
  {
    if token.None? || token.value == "" then
      DownloadOutcome(st, Aborted(403, MissingTokenMessage))
    else
      match svc.decodeToken(token.value)
      case DecodeError => DownloadOutcome(st, Aborted(403, InvalidTokenMessage))
      case OtherTokenError(name) => DownloadOutcome(st, Uncaught(name))
      case Claims(sub) =>
        if sub !in st.users then
          DownloadOutcome(st, Aborted(403, InvalidTokenMessage))
        else
          match QueryBySlug(st.datafiles, slug)
          case None => DownloadOutcome(st, Aborted(404, NotFoundMessage(slug)))
          case Some(d) =>
            var url := GenerateLink(d, svc.presign);
            var stamped := st.(users := st.users[sub := Stamped(st.users[sub], now)]);
            DownloadOutcome(stamped, Redirect(url, 302))
  }

  // ---------------------------------------------------------------- properties of the routes

  /** An unknown slug is 404 on the detail and access routes, before any form handling, and nothing is stored or sent. */
  lemma UnknownSlugNotFound(st: State, slug: string, form: FormRequest, now: Instant, svc: Services)
    requires QueryBySlug(st.datafiles, slug).None?
    ensures ShowDatafile(st, slug) == Aborted(404, NotFoundMessage(slug))
    ensures RequestAccess(st, slug, form, now, svc) == AccessOutcome(st, Aborted(404, NotFoundMessage(slug)), None)
  {
  }

  /** A form that was not submitted, or does not validate, is shown again with its errors; no user is created and nothing is sent. */
  lemma RejectedFormCreatesNoUser(st: State, slug: string, form: FormRequest, now: Instant, svc: Services, d: Datafile)
    requires QueryBySlug(st.datafiles, slug) == Some(d)
    requires !form.submitted || !Acceptable(form.data)
    ensures RequestAccess(st, slug, form, now, svc)
         == AccessOutcome(st, Rendered(RequestPage(d, if form.submitted then Validate(form.data) else [])), None)
    ensures form.submitted ==> Validate(form.data) != []
  {
  }

  /**
   * An accepted submission adds exactly one user, under a fresh key, with the
   * form's fields copied (the other-use text is not stored), the looked-up
   * datafile, the request time set and no access time. Exactly one
   * confirmation is sent, to the submitted address, carrying the download
   * link; the answer is the success page, or 500 when the send raised, and the
   * user stays recorded either way.
   */
  lemma AcceptedRequestRecordsOneUser(st: State, slug: string, form: FormRequest, now: Instant, svc: Services, d: Datafile)
    requires Consistent(st)
    requires QueryBySlug(st.datafiles, slug) == Some(d)
    requires form.submitted && Acceptable(form.data)
    ensures var out := RequestAccess(st, slug, form, now, svc);
            var u := out.state.users[st.nextId];
            && st.nextId !in st.users
            && out.state.users == st.users[st.nextId := u]
            && |out.state.users| == |st.users| + 1
            && u.email == form.data.email && u.name == form.data.name
            && u.organisation == form.data.organisation && u.contact == form.data.contact
            && u.primaryUse == form.data.primaryUse && u.additionalInfo == form.data.additionalInfo
            && u.datafileId == d.id
            && u.requestedAccessDate == Some(now) && u.accessDate == None
            && out.sent == Some(ConfirmationEmail(form.data.email, form.data.name, d.name, 24, DownloadLink(u, d, svc)))
            && (out.response == Aborted(500, SupportMessage) <==> SendEmail(svc.mailService(out.sent.value)).Err?)
            && (out.response != Aborted(500, SupportMessage) ==> out.response == Rendered(SuccessPage(d)))
  {
  }

  /** Two equal submissions that differ only in the other-use text leave the same store behind. */
  lemma OtherUseNotStored(st: State, slug: string, form: FormRequest, text: string, now: Instant, svc: Services)
    requires form.submitted && Acceptable(form.data) && Acceptable(form.data.(otherUse := text))
    ensures RequestAccess(st, slug, form, now, svc).state
         == RequestAccess(st, slug, form.(data := form.data.(otherUse := text)), now, svc).state
  {
  }

  /** A missing or empty token is 403 whatever the slug, the store is untouched and the token decoder is never consulted. */
  lemma MissingTokenForbidden(st: State, slug: string, token: Option<string>, now: Instant, svc: Services, svc': Services)
    requires token.None? || token.value == ""
    ensures DownloadDatafile(st, slug, token, now, svc) == DownloadOutcome(st, Aborted(403, MissingTokenMessage))
    ensures DownloadDatafile(st, slug, token, now, svc) == DownloadDatafile(st, slug, token, now, svc')
  {
  }

  /**
   * A token that fails to decode, or names no user, is 403 and changes
   * nothing, even when the slug is unknown: the token is checked before the
   * datafile.
   */
  lemma BadTokenForbiddenBeforeSlug(st: State, slug: string, token: string, now: Instant, svc: Services)
    requires token != ""
    requires svc.decodeToken(token) == DecodeError || (svc.decodeToken(token).Claims? && svc.decodeToken(token).sub !in st.users)
    ensures DownloadDatafile(st, slug, Some(token), now, svc) == DownloadOutcome(st, Aborted(403, InvalidTokenMessage))
  {
  }

  /** A token for an existing user on an unknown slug is 404 and changes nothing. */
  lemma UnknownSlugAfterTokenNotFound(st: State, slug: string, token: string, now: Instant, svc: Services)
    requires token != "" && svc.decodeToken(token).Claims? && svc.decodeToken(token).sub in st.users
    requires QueryBySlug(st.datafiles, slug).None?
    ensures DownloadDatafile(st, slug, Some(token), now, svc) == DownloadOutcome(st, Aborted(404, NotFoundMessage(slug)))
  {
  }

  /**
   * A redemption that passes every check overwrites that user's access time
   * with `now`, changes no other row, and redirects (302) to whatever link was
   * generated, also when none was. The token's user is not compared with the
   * datafile: any user's token redeems any existing datafile.
   */
  lemma RedemptionStampsOnlyThatUser(st: State, slug: string, token: string, now: Instant, svc: Services, d: Datafile)
    requires token != "" && svc.decodeToken(token).Claims?
    requires svc.decodeToken(token).sub in st.users
    requires QueryBySlug(st.datafiles, slug) == Some(d)
    ensures var sub := svc.decodeToken(token).sub;
            var out := DownloadDatafile(st, slug, Some(token), now, svc);
            && out.state == st.(users := st.users[sub := st.users[sub].(accessDate := Some(now))])
            && out.response == Redirect(GenerateLink(d, svc.presign), 302)
            && (forall id :: id in st.users && id != sub ==> out.state.users[id] == st.users[id])
  {
  }

  /** There is no one-time check: redeeming again re-stamps the access time with the later time. */
  lemma {:induction false} RepeatRedemptionRestamps(st: State, slug: string, token: string, first: Instant, second: Instant, svc: Services, d: Datafile)
    requires token != "" && svc.decodeToken(token).Claims?
    requires svc.decodeToken(token).sub in st.users
    requires QueryBySlug(st.datafiles, slug) == Some(d)
    ensures var sub := svc.decodeToken(token).sub;
            var once := DownloadDatafile(st, slug, Some(token), first, svc);
            var twice := DownloadDatafile(once.state, slug, Some(token), second, svc);
            && twice.response == once.response
            && twice.state.users[sub].accessDate == Some(second)
            && twice.state == st.(users := st.users[sub := st.users[sub].(accessDate := Some(second))])
  {
  }

  /** An access request keeps the store consistent. */
  lemma RequestAccessKeepsConsistent(st: State, slug: string, form: FormRequest, now: Instant, svc: Services)
    requires Consistent(st)
    ensures Consistent(RequestAccess(st, slug, form, now, svc).state)
  {
    var out := RequestAccess(st, slug, form, now, svc);
    if out.state != st {
      var d := QueryBySlug(st.datafiles, slug).value;
      assert HasDatafile(st.datafiles, d.id);
      var u := out.state.users[st.nextId];
      assert out.state.users == st.users[st.nextId := u];
    }
  }

  /** A download request keeps the store consistent. */
  lemma DownloadKeepsConsistent(st: State, slug: string, token: Option<string>, now: Instant, svc: Services)
    requires Consistent(st)
    ensures Consistent(DownloadDatafile(st, slug, token, now, svc).state)
  {
    var down := DownloadDatafile(st, slug, token, now, svc);
    forall id | id in down.state.users
      ensures down.state.users[id].id == id && id < down.state.nextId
      ensures HasDatafile(down.state.datafiles, down.state.users[id].datafileId)
      ensures down.state.users[id].requestedAccessDate.Some?
    {
      assert down.state.users[id].datafileId == st.users[id].datafileId;
    }
  }

  /** Both routes keep the store consistent, and neither clears an access time. */
  lemma {:induction false} RoutesKeepStoreConsistent(st: State, slug: string, form: FormRequest, token: Option<string>, now: Instant, svc: Services)
    requires Consistent(st)
    ensures Consistent(RequestAccess(st, slug, form, now, svc).state)
    ensures Consistent(DownloadDatafile(st, slug, token, now, svc).state)
    ensures forall id :: id in st.users && st.users[id].accessDate.Some? ==>
              DownloadDatafile(st, slug, token, now, svc).state.users[id].accessDate.Some?
              && RequestAccess(st, slug, form, now, svc).state.users[id].accessDate.Some?
  {
    RequestAccessKeepsConsistent(st, slug, form, now, svc);
    DownloadKeepsConsistent(st, slug, token, now, svc);
  }

  /**
   * The link that an accepted request mails redeems: when decoding gives back
   * the subject of every encoded token and encoded tokens are never empty,
   * presenting the mailed token on the same slug stamps the new user and
   * redirects.
   */
  lemma {:induction false} MailedTokenRedeems(st: State, slug: string, form: FormRequest, now: Instant, later: Instant, svc: Services, d: Datafile)
    requires Consistent(st)
    requires QueryBySlug(st.datafiles, slug) == Some(d)
    requires form.submitted && Acceptable(form.data)
    requires forall t :: svc.decodeToken(svc.encodeToken(t)) == Claims(t.identity)
    requires forall t :: svc.encodeToken(t) != ""
    ensures var out := RequestAccess(st, slug, form, now, svc);
            var u := out.state.users[st.nextId];
            var token := svc.encodeToken(GenerateToken(u));
            var redeemed := DownloadDatafile(out.state, slug, Some(token), later, svc);
            && Contains(out.sent.value.text, svc.downloadUrl(d.slug, token))
            && redeemed.state.users[st.nextId].accessDate == Some(later)
            && redeemed.response == Redirect(GenerateLink(d, svc.presign), 302)
  {
  }
}
