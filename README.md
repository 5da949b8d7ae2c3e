# Access requests for downloadable data files: a Dafny model

This project models the core of a small web service that gates downloads of
data files behind an email check. A visitor asks for access to a data file
by filling in a form. The service records the requester as a `User` row. It
mails the requester a link that carries a signed one-day token. When the
requester follows the link, the service checks the token, stamps the user's
access time and redirects to a five-minute presigned object-store URL.

The model has six modules: one per source file, a shared one, and a class-based store for the routes of `app/main.py`:

- `Wrappers` (`wrappers.dfy`): `Option` and `Result`.
- `Models` (`models.dfy`, from `app/models.py`): the `User` and `Datafile` rows, the claims of the access token, the presign request, the fail-soft `GenerateLink`, and the first-match lookup by slug.
- `Forms` (`forms.dfy`, from `app/forms.py`): the six planned-use tags, the planned-use validator with its two messages and their order, and the whole form's validation.
- `Emails` (`emails.dfy`, from `app/emails.py`): the confirmation subject, the body rendered from the four-placeholder template, and the single send whose non-2xx reply raises.
- `App` (`app.dfy`, from `app/main.py`): the detail, access and download routes as pure transitions of a `State` (users by key, datafile rows in table order, next key). The lemmas about the routes are here too.
- `Server` (`store.dfy`, from `app/main.py`): a `Store` class holding the same tables as fields. Its `RequestAccess` and `DownloadDatafile` methods build and save a user, or overwrite one user's access time, in place. Each is proved to end in exactly the state and answer that the `App` transition gives.

The clock, token signing and decoding, building the absolute download URL,
the mail service's HTTP reply and the object store's presigner are inputs:
`now`, and the five functions of an `App.Services` value.

## Model

| member | source | states |
|---|---|---|
| Models.GenerateToken | app/models.py:23-24 | the token is minted for the user's own id with a lifetime of one day (86400 seconds) |
| Models.LinkRequest | app/models.py:40-46 | the presigner is asked for `get_object` on the datafile's `filename` in bucket `pidgraph-data-dumps`, valid for 300 seconds |
| Models.GenerateLink | app/models.py:37-52 | the result is `None` exactly when the storage client raises `ClientError`, otherwise the presigned URL; the error never reaches the caller |
| Models.QueryBySlug | app/main.py:43 | a row is found exactly when some row has the slug, and it is the first row with that slug |
| Models.SlugLookupUnique | app/models.py:30 | with unique slugs, looking up a slug yields the one row that carries it |
| Forms.UseTagsAreChoiceKeys | app/forms.py:5-12 | the planned-use tags are the six keys of `use_choices`, in order, and include `other` |
| Forms.AtLeastOne | app/forms.py:20-25 | an empty selection gets exactly "At least one option must be selected."; a non-empty one with `other` and `other_use == ''` gets exactly "Please specify your other use."; every other selection passes |
| Forms.EmptySelectionNeverAsksForOther | app/forms.py:22-25 | the emptiness check comes first, so an empty selection never gets the other-use message |
| Forms.OtherUseIgnoredWithoutOther | app/forms.py:24 | a non-empty selection without `other` passes whatever `other_use` holds |
| Forms.BlankOtherUsePasses | app/forms.py:24 | the test is equality with `''`, so any non-empty whitespace-only other-use text passes when `other` is selected |
| Forms.NotChosen | app/forms.py:34 | exactly the selected values that are not among the six tags; empty exactly when every value is a tag |
| Forms.Validate | app/forms.py:28-36 | errors only ever concern email, name, organisation and the planned-use field |
| Forms.ValidateIffAcceptable | app/forms.py:28-36 | the form has no errors exactly when email, name and organisation are non-empty, the selection is non-empty, every value is a tag, and `other` comes with non-empty text |
| Forms.EmptyRequiredFieldReported | app/forms.py:20-32 | each of email, name and organisation is reported missing exactly when it is empty; the planned-use field carries the at-least-one message exactly when nothing is selected, and the other-use message exactly when `other` is selected with empty text |
| Forms.OtherWithoutTextRejected | app/forms.py:24-25 | selecting `other` with empty text is rejected with the other-use message, whatever the other fields hold |
| Forms.UnvalidatedFieldsIgnored | app/forms.py:33-36 | the contact flag and the additional information never change the validation result |
| Emails.NatToDecimal | app/emails.py:46 | `link_time` is written as a non-empty string of decimal digits without a leading zero |
| Emails.DecimalRoundTrip | app/emails.py:46 | reading the written numeral back gives the number it was written from |
| Emails.IntToDecimalReadsBack | app/emails.py:46 | an integer `link_time` is written as its digits, with a leading minus sign when negative, and those digits read back as its magnitude |
| Emails.BodyLayout | app/emails.py:4-21 | the rendered body has "Dear {name}," at index 1, and contains the datafile name, "valid for {link_time} hours" and the URL verbatim |
| Emails.SendEmail | app/emails.py:35-36 | a send returns the reply's JSON only on a 2xx status; any other status, or a transport failure, raises an HTTP error |
| Emails.ConfirmationEmail | app/emails.py:39-48 | the recipient is passed through; the subject is exactly "Your access link for the {datafile} data file"; the body greets by name and contains the datafile, the window in hours and the URL |
| Emails.SendConfirmationEmail | app/emails.py:39-49 | exactly one message is sent, and it is that confirmation; the result is the send's own result: the reply's JSON on a 2xx status, otherwise the send's error |
| App.ShowDatafile | app/main.py:41-46 | the detail route is 404 exactly when no row has the slug; otherwise it renders the detail page of the first row with that slug |
| App.RequestAccess | app/main.py:49-76 | the datafile table never changes; every other existing user is unchanged; at most one new key appears; a message is sent exactly when the store changed |
| App.DownloadDatafile | app/main.py:79-98 | the datafile table, the key counter and the set of users never change; each user is left alone or only has its access time set to now; any change comes with a redirect |
| App.UnknownSlugNotFound | app/main.py:41-53 | an unknown slug is 404 on the detail and access routes, before any form handling; nothing is stored or sent |
| App.RejectedFormCreatesNoUser | app/main.py:55-76 | an unsubmitted or invalid form re-renders the request page with its errors; no user is created and nothing is sent |
| App.AcceptedRequestRecordsOneUser | app/main.py:56-74 | a valid submission adds exactly one user under a fresh key, with the form's fields copied, the looked-up datafile, the request time set to now and no access time. One confirmation goes to the submitted address with the download link. The answer is 500 exactly when the send raised, otherwise the success page, and the user stays stored either way |
| App.OtherUseNotStored | app/main.py:58-67 | the other-use text has no effect on what is stored |
| App.MissingTokenForbidden | app/main.py:81-83 | a missing or empty token is 403 with the missing-token message, whatever the slug; the store is untouched and the decoder is not consulted |
| App.BadTokenForbiddenBeforeSlug | app/main.py:84-98 | a token that fails to decode, or whose subject is no user, is 403 and changes nothing, also on an unknown slug |
| App.UnknownSlugAfterTokenNotFound | app/main.py:90-92 | a token for an existing user on an unknown slug is 404 and changes nothing |
| App.RedemptionStampsOnlyThatUser | app/main.py:86-96 | a redemption that passes the checks sets only that user's access time to now and redirects 302 to the generated link, even when there is none. The user's datafile is never compared with the slug's |
| App.RepeatRedemptionRestamps | app/main.py:93-96 | there is no one-time check: a second redemption overwrites the access time with the later time |
| App.RequestAccessKeepsConsistent | app/main.py:58-67 | an access request keeps keys unique, users filed under their own key, and each user referencing an existing datafile with a request time |
| App.DownloadKeepsConsistent | app/main.py:93-95 | a download request keeps the store consistent: it only overwrites an existing user's access time |
| App.RoutesKeepStoreConsistent | app/main.py:58-95 | both routes keep slugs and keys unique, users filed under their own key, each user referencing an existing datafile with a request time; no access time is ever cleared |
| App.MailedTokenRedeems | app/main.py:69-96 | if decoding returns the subject of every encoded token, the mailed body contains the download URL, and following it on the same slug stamps the new user and redirects |
| Server.Store.Insert | app/main.py:58-67 | saving a new user that references an existing datafile and has its request time files it under the next key and advances the key, keeping the store consistent; nothing else changes |
| Server.Store.StampAccess | app/main.py:94-95 | only that user's access time is overwritten with now, and the store stays consistent |
| Server.Store.RequestAccess | app/main.py:49-76 | the in-place handler leaves the tables, answers and sends exactly as `App.RequestAccess`, and keeps the store consistent |
| Server.Store.DownloadDatafile | app/main.py:79-98 | the in-place handler leaves the tables and answers exactly as `App.DownloadDatafile`, and keeps the store consistent |

## Left out

- Flask routing, template rendering, the error-page handlers (app/main.py:101-113) and configuration loading (app/main.py:16-31). Each answer is a `Response` value (a page, an abort with status and message, a redirect, or an escaping exception).
- The index route (app/main.py:34-38) only renders every datafile row and has no logic to model.
- The mail service's HTTP POST (app/emails.py:24-34) is the `mailService` function: its reply is a status with a JSON body, or a failure to reach the service. The `from` header, which is built from configuration, is not modelled.
- Token signing and verification are the `encodeToken` and `decodeToken` functions. Only the decode error is caught by the download route. Any other token error, expiry included, escapes the handler as `Uncaught`, and what the framework then answers is not modelled. The one-day expiry is modelled only as the lifetime claim; the library enforces it.
- The object-store client is the `presign` function. Only `ClientError` is caught. Other exceptions of the storage client are not modelled.
- When `generate_link` returns `None`, the route still calls `redirect(None, code=302)`. The model records this as `Redirect(None, 302)`. What the framework does with an empty location is not modelled.
- Persistence is a map of users by key and a sequence of datafile rows. The auto-incremented key is a counter above every key issued. Commits, sessions and database failures are not modelled.
- The clock is the `now` parameter, an integer number of seconds.
- Forms.Validate: a required field counts as filled when it is non-empty. The library's required-data check also rejects whitespace-only text, and that is not modelled.
- The texts of the library's own messages (missing required field, value not among the choices) are not modelled, only which field failed and which values were bad.
- The form's CSRF token check is not modelled (the token is taken as valid). "Submitted" is a boolean of the request.
- Column length limits (`String(120)`, `String(24)`) are not modelled; keys are unbounded integers.
- Datafile rows are created outside this workflow. The model takes their slugs and keys to be unique from the start (`Models.DatafilesKeyed`, held by `App.Consistent`), and no route writes them.
- Two parts of the code do not fit together. The access route assigns a single `name` (app/main.py:60), while the `User` table declares `first_name` and `last_name` (app/models.py:12-13). The access route also passes a sixth argument, `datafile.landing_page` (app/main.py:71), which `Datafile` does not define and the composer (app/emails.py:39) does not accept. The model keeps a single `name` field and the five-argument composer.
- Where one might expect otherwise, the model follows the code:
  - only `DataRequired` guards the email field, with no format check;
  - an absent presigned link still stamps the user and redirects, rather than answering 500;
  - a link can be redeemed again and re-stamps the access time;
  - the email body does not contain a landing page.
