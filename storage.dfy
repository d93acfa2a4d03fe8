/** Naming of uploaded blobs and the read-only, time-limited access grant (SAS) the
    upload handlers request for them. The identifier and the clock are inputs. */
module Storage {
  import opened Wrappers
  import opened Deployment

  /** `f"{uuid}_{file.filename}"`. */
  function BlobName(id: string, fileName: string): (r: string)
    ensures |r| == |id| + 1 + |fileName|
    ensures r[..|id|] == id && r[|id|] == '_' && r[|id| + 1..] == fileName
  {
    id + "_" + fileName
  }

  predicate IsLowerHex(c: char)
  {
    '0' <= c <= '9' || 'a' <= c <= 'f'
  }

  /** The text of `str(uuid.uuid4())`: 36 characters, hyphens at 8, 13, 18 and 23,
      lower-case hexadecimal digits elsewhere. */
  predicate IsUuidText(u: string)
  {
    && |u| == 36
    && forall i :: 0 <= i < |u| ==>
         if i == 8 || i == 13 || i == 18 || i == 23 then u[i] == '-' else IsLowerHex(u[i])
  }

  /** Splits a blob name built on a 36-character identifier back into its two parts. */
  function SplitBlobName(name: string): Option<(string, string)>
  {
    if |name| >= 37 && name[36] == '_' then Some((name[..36], name[37..])) else None
  }

  lemma BlobNameRoundTrip(id: string, fileName: string)
    requires IsUuidText(id)
    ensures SplitBlobName(BlobName(id, fileName)) == Some((id, fileName))
  {
  }

  /** Two uploads of the same file name under different identifiers get different blobs. */
  lemma DistinctIdsDistinctNames(id1: string, id2: string, fileName: string)
    requires id1 != id2
    ensures BlobName(id1, fileName) != BlobName(id2, fileName)
  {
  }

  /** With canonical identifiers the blob name determines both identifier and file name. */
  lemma BlobNameInjective(id1: string, n1: string, id2: string, n2: string)
    requires IsUuidText(id1) && IsUuidText(id2)
    requires BlobName(id1, n1) == BlobName(id2, n2)
    ensures id1 == id2 && n1 == n2
  {
    BlobNameRoundTrip(id1, n1);
    BlobNameRoundTrip(id2, n2);
  }

  // ---------------------------------------------------------------------------
  // The access grant.

  /** The flags of a blob SAS permission set. */
  datatype Permission = Read | Add | Create | Write | Delete

  /** Ten minutes (`timedelta(minutes=10)`), with time counted in seconds. */
  const GrantLifetime: int := 10 * 60

  /** What `generate_blob_sas` is asked to sign; `expiry` is in seconds. */
  datatype GrantRequest = GrantRequest(
    account: string, container: string, blob: string,
    permissions: set<Permission>, expiry: int)

  predicate ReadOnly(g: GrantRequest)
  {
    Read in g.permissions && forall p :: p in g.permissions ==> p == Read
  }

  /** The grant requested for a freshly stored blob at time `now`. */
  function GrantFor(cfg: Settings, blob: string, now: int): (g: GrantRequest)
    ensures g.account == cfg.blobAccount && g.container == cfg.blobContainer && g.blob == blob
    ensures ReadOnly(g) && Write !in g.permissions && Delete !in g.permissions
    ensures g.expiry > now && g.expiry - now == GrantLifetime
  {
    GrantRequest(cfg.blobAccount, cfg.blobContainer, blob, {Read}, now + GrantLifetime)
  }

  /** `f"{blob_client.url}?{sas_token}"`. */
  function SasUrl(blobUrl: string, token: string): (r: string)
    ensures |r| == |blobUrl| + 1 + |token|
    ensures r[..|blobUrl|] == blobUrl && r[|blobUrl|] == '?' && r[|blobUrl| + 1..] == token
  {
    blobUrl + "?" + token
  }
}
