/**
  The records kept in the two MongoDB collections that each repository owns,
  and the loop that enumerates a credentials collection.

  A collection is modelled as a map from `user_id` to the one document stored
  for it: every write goes through an upsert filtered on `user_id`, so no two
  documents of a collection share a `user_id`.
 */
module Documents {

  /** `UserCredentials` (models/user_credentials.py): what `save_credentials` is given. */
  datatype UserCredentials = UserCredentials(
    token: string,
    refreshToken: string,
    tokenUri: string,
    clientId: string,
    scopes: seq<string>)

  /** A credentials document: the fields of `creds.dict()` plus `user_id`. */
  datatype CredentialDoc = CredentialDoc(
    userId: string,
    token: string,
    refreshToken: string,
    tokenUri: string,
    clientId: string,
    scopes: seq<string>)
  {
    /** The document without its `user_id`. */
    function Fields(): UserCredentials {
      UserCredentials(token, refreshToken, tokenUri, clientId, scopes)
    }
  }

  /** `doc = creds.dict(); doc.update({"user_id": user_id})`. */
  function ToDoc(userId: string, creds: UserCredentials): (d: CredentialDoc)
    ensures d.userId == userId && d.Fields() == creds
  {
    CredentialDoc(userId, creds.token, creds.refreshToken, creds.tokenUri, creds.clientId, creds.scopes)
  }

  /** Profile claims of a user (the `info` dict); values are kept as strings. */
  type Info = map<string, string>

  /** A user_info document: `{"user_id": user_id, "info": info}`. */
  datatype UserInfoDoc = UserInfoDoc(userId: string, info: Info)

  /** Each credentials document sits under its own `user_id`. */
  ghost predicate CredentialsKeyed(c: map<string, CredentialDoc>) {
    forall u :: u in c ==> c[u].userId == u
  }

  /** Each user_info document sits under its own `user_id`. */
  ghost predicate UserInfoKeyed(c: map<string, UserInfoDoc>) {
    forall u :: u in c ==> c[u].userId == u
  }

  predicate Distinct(ids: seq<string>) {
    forall i, j :: 0 <= i < j < |ids| ==> ids[i] != ids[j]
  }

  /**
    The cursor loop of `list_user_ids`: visit every document once, in the
    order the store hands them out, and append its `user_id`.
   */
  method CollectUserIds(docs: map<string, CredentialDoc>) returns (ids: seq<string>)
    requires CredentialsKeyed(docs)
    ensures forall u :: u in ids <==> u in docs
    ensures Distinct(ids) && |ids| == |docs|
  {
    ids := [];
    var unvisited := docs.Keys;
    while unvisited != {}
      invariant unvisited <= docs.Keys
      invariant forall u :: u in ids <==> u in docs && u !in unvisited
      invariant Distinct(ids)
      invariant |ids| + |unvisited| == |docs|
      decreases unvisited
    {
      var u :| u in unvisited;
      ids := ids + [docs[u].userId];
      unvisited := unvisited - {u};
    }
  }
}
