/**
  `GmailRepo` (routes/gmail/repo.py): the same persistence operations as
  `MongoRepo`, over the `gmail_credentials` and `gmail_user_info` collections
  of the shared database.
 */
module GmailRepository {
  import opened Wrappers
  import opened Documents

  class GmailRepo {
    /** The `gmail_credentials` collection. */
    var credentials: map<string, CredentialDoc>
    /** The `gmail_user_info` collection. */
    var userInfo: map<string, UserInfoDoc>

    ghost predicate Valid()
      reads this
    {
      CredentialsKeyed(credentials) && UserInfoKeyed(userInfo)
    }

    /** A repository over the two collections as they stand in the shared database. */
    constructor(credentials: map<string, CredentialDoc>, userInfo: map<string, UserInfoDoc>)
      requires CredentialsKeyed(credentials) && UserInfoKeyed(userInfo)
      ensures Valid()
      ensures this.credentials == credentials && this.userInfo == userInfo
    {
      this.credentials := credentials;
      this.userInfo := userInfo;
    }

    /** `find_one({"user_id": user_id})` on `gmail_credentials`, without `_id`. */
    function GetCredentials(userId: string): (r: Option<CredentialDoc>)
      reads this
      requires Valid()
      ensures r.Some? ==> r.value in credentials.Values && r.value.userId == userId
      ensures r.None? ==> forall d :: d in credentials.Values ==> d.userId != userId
    {
      if userId in credentials then Some(credentials[userId]) else None
    }

    /** Upsert keyed by `user_id`: one document for the user, other users untouched. */
    method SaveCredentials(userId: string, creds: UserCredentials)
      requires Valid()
      modifies this
      ensures Valid()
      ensures credentials == old(credentials)[userId := ToDoc(userId, creds)]
      ensures GetCredentials(userId) == Some(ToDoc(userId, creds))
      ensures forall u :: u != userId ==> GetCredentials(u) == old(GetCredentials(u))
      ensures userInfo == old(userInfo)
    {
      credentials := credentials[userId := ToDoc(userId, creds)];
    }

    /** `delete_one({"user_id": user_id})`: reports whether a document was there. */
    method DeleteCredentials(userId: string) returns (deleted: bool)
      requires Valid()
      modifies this
      ensures Valid()
      ensures deleted <==> old(GetCredentials(userId)).Some?
      ensures GetCredentials(userId).None?
      ensures credentials == old(credentials) - {userId}
      ensures userInfo == old(userInfo)
    {
      deleted := userId in credentials;
      credentials := credentials - {userId};
    }

    /** Upsert of `{"user_id": user_id, "info": info}` on `gmail_user_info`. */
    method SaveUserInfo(userId: string, info: Info)
      requires Valid()
      modifies this
      ensures Valid()
      ensures userInfo == old(userInfo)[userId := UserInfoDoc(userId, info)]
      ensures GetUserInfo(userId) == Some(info)
      ensures forall u :: u != userId ==> GetUserInfo(u) == old(GetUserInfo(u))
      ensures credentials == old(credentials)
    {
      userInfo := userInfo[userId := UserInfoDoc(userId, info)];
    }

    /** The `info` of the user's document, or `None` when there is no document. */
    function GetUserInfo(userId: string): (r: Option<Info>)
      reads this
      requires Valid()
      ensures r.None? <==> forall d :: d in userInfo.Values ==> d.userId != userId
      ensures forall d :: d in userInfo.Values && d.userId == userId ==> r == Some(d.info)
    {
      if userId in userInfo then Some(userInfo[userId].info) else None
    }

    /** `delete_one` on `gmail_user_info`: reports whether a document was there. */
    method DeleteUserInfo(userId: string) returns (deleted: bool)
      requires Valid()
      modifies this
      ensures Valid()
      ensures deleted <==> old(GetUserInfo(userId)).Some?
      ensures GetUserInfo(userId).None?
      ensures userInfo == old(userInfo) - {userId}
      ensures credentials == old(credentials)
    {
      deleted := userId in userInfo;
      userInfo := userInfo - {userId};
    }

    /** The `user_id` of every `gmail_credentials` document, each once. */
    method ListUserIds() returns (ids: seq<string>)
      requires Valid()
      ensures forall u :: u in ids <==> GetCredentials(u).Some?
      ensures Distinct(ids) && |ids| == |credentials|
    {
      ids := CollectUserIds(credentials);
    }
  }

  /**
    Deleting right after saving finds the record, removes it from the listing
    and leaves the user's profile document as it was.
   */
  method SaveThenDeleteCredentials(repo: GmailRepo, userId: string, creds: UserCredentials)
    returns (deleted: bool, ids: seq<string>)
    requires repo.Valid()
    modifies repo
    ensures repo.Valid()
    ensures deleted
    ensures repo.GetCredentials(userId).None? && userId !in ids
    ensures repo.GetUserInfo(userId) == old(repo.GetUserInfo(userId))
    ensures forall u :: u != userId ==> (u in ids <==> old(repo.GetCredentials(u)).Some?)
  {
    repo.SaveCredentials(userId, creds);
    deleted := repo.DeleteCredentials(userId);
    ids := repo.ListUserIds();
  }
}
