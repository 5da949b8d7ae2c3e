/**
 * The two persisted entities (`User`, `Datafile`), the access token a user is
 * issued, and the fail-soft presigned-link request for a datafile's object.
 *
 * JWT encoding and the object store's presigning are not modelled here: the
 * token is the claim set handed to the encoder, and the presigner is a
 * function parameter whose reply is either a URL or a client error.
 */
module Models {
  import opened Wrappers

  /** A point in time, in seconds; the clock itself is a parameter of every route. */
  type Instant = int

  /** The integer primary key of a row. */
  type RowId = int

  /** A requester: one row of the `users` table. */
  datatype User = User(
    id: RowId,
    email: string,
    name: string,
    organisation: string,
    contact: bool,
    primaryUse: seq<string>,
    additionalInfo: string,
    accessDate: Option<Instant>,           // nullable: set by a redemption
    requestedAccessDate: Option<Instant>,  // nullable: set when the request is recorded
    datafileId: RowId)                     // foreign key into `datafiles`

  /**
   * One row of the `datafiles` table. Name, description, size and filename
   * are non-null columns (plain strings here); the DOI is nullable.
   */
  datatype Datafile = Datafile(
    id: RowId,
    slug: string,
    name: string,
    description: string,
    size: string,
    filename: string,
    doi: Option<string>)

  /** The lifetime given to every access token: one day, in seconds. */
  const TokenLifetime: nat := 24 * 60 * 60

  /** The claims an access token is created with: whose it is and how long it lives. */
  datatype AccessToken = AccessToken(identity: RowId, expiresDelta: nat)

  /** Mints the claims of the token that lets `u` redeem a download link. */
  function GenerateToken(u: User): (t: AccessToken)
    ensures t.identity == u.id
    ensures t.expiresDelta == 86400
  {
    AccessToken(u.id, TokenLifetime)
  }

  /** The object-store bucket that holds every datafile's object. */
  const DumpBucket: string := "pidgraph-data-dumps"

  /** How long a presigned download link stays valid, in seconds. */
  const LinkLifetime: nat := 300

  /** What is asked of the object store's presigner. */
  datatype PresignRequest = PresignRequest(clientMethod: string, bucket: string, key: string, expiresIn: nat)

  /** The presigner's answer: a URL, or a `ClientError` raised by the storage client. */
  datatype PresignReply = Presigned(url: string) | ClientError(message: string)

  /** The presign request for `d`'s object. */
  function LinkRequest(d: Datafile): (p: PresignRequest)
    ensures p.clientMethod == "get_object"
    ensures p.bucket == "pidgraph-data-dumps"
    ensures p.key == d.filename
    ensures p.expiresIn == 300
  {
    PresignRequest("get_object", DumpBucket, d.filename, LinkLifetime)
  }

  /**
   * A temporary download URL for `d`'s object, or `None` when the storage
   * client reports an error: the error never reaches the caller.
   */
  function GenerateLink(d: Datafile, presign: PresignRequest -> PresignReply): (r: Option<string>)
    ensures r.None? <==> presign(LinkRequest(d)).ClientError?
    ensures r.Some? ==> r.value == presign(LinkRequest(d)).url
  {
    match presign(LinkRequest(d))
    case Presigned(url) => Some(url)
    case ClientError(_) => None
  }

  /** The `slug` column is unique, and so is the primary key. */
  ghost predicate DatafilesKeyed(rows: seq<Datafile>)
  {
    forall i, j :: 0 <= i < j < |rows| ==> rows[i].slug != rows[j].slug && rows[i].id != rows[j].id
  }

  /**
   * The first row whose slug is `slug`, as a query filtered on the slug and
   * cut to its first result returns it; `None` when no row matches.
   */
  function QueryBySlug(rows: seq<Datafile>, slug: string): (r: Option<Datafile>)
    ensures r.Some? <==> exists i :: 0 <= i < |rows| && rows[i].slug == slug
    ensures r.Some? ==> exists k :: 0 <= k < |rows| && rows[k] == r.value && r.value.slug == slug &&
                          forall j :: 0 <= j < k ==> rows[j].slug != slug
  {
    if |rows| == 0 then None
    else if rows[0].slug == slug then Some(rows[0])
    else
      var r := QueryBySlug(rows[1..], slug);
      assert forall i :: 0 < i < |rows| ==> rows[i] == rows[1..][i - 1];
      r
  }

  /** With unique slugs, a lookup finds exactly the one row that carries the slug. */
  lemma SlugLookupUnique(rows: seq<Datafile>, slug: string, i: int)
    requires DatafilesKeyed(rows)
    requires 0 <= i < |rows| && rows[i].slug == slug
    ensures QueryBySlug(rows, slug) == Some(rows[i])
  {
  }
}
