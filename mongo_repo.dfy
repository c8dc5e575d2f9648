/**
  `MongoRepo` (repositories/repo.py): credentials and profile info kept in two
  independent collections, `credentials` and `user_info`, both keyed by `user_id`.
 */
module Repositories {
  import opened Wrappers
  import opened Documents

  /** The configured fallbacks `settings.MONGO_URI` and `settings.MONGO_DB`; unset is `None`. */
  datatype Settings = Settings(mongoUri: Option<string>, mongoDb: Option<string>)

  /** The URI and database name the client is opened with. */
  datatype Connection = Connection(uri: string, dbName: Option<string>)

  /** Python truthiness of an optional string: present and non-empty. */
  predicate Truthy(v: Option<string>) {
    v.Some? && v.value != ""
  }

  /** Python's `a or b` on optional strings. */
  function Or(a: Option<string>, b: Option<string>): (r: Option<string>)
    ensures Truthy(r) <==> Truthy(a) || Truthy(b)
    ensures Truthy(a) ==> r == a
    ensures !Truthy(a) ==> r == b
  {
    if Truthy(a) then a else b
  }

  const UriMissing := "MONGO_URI must be set in settings to use MongoRepo"

  /**
    The checks of `__init__`: the explicit URI wins over the configured one,
    and construction fails with a ValueError when neither is set.
   */
  function ResolveConnection(uri: Option<string>, dbName: Option<string>, settings: Settings)
    : (r: Result<Connection, string>)
    ensures r.Failure? <==> !Truthy(uri) && !Truthy(settings.mongoUri)
    ensures r.Failure? ==> r.error == UriMissing
    ensures r.Success? ==> r.value.uri != ""
    ensures r.Success? && Truthy(uri) ==> r.value.uri == uri.value
    ensures r.Success? && !Truthy(uri) ==> r.value.uri == settings.mongoUri.value
    ensures r.Success? ==> r.value.dbName == Or(dbName, settings.mongoDb)
  {
    var u := Or(uri, settings.mongoUri);
    var db := Or(dbName, settings.mongoDb);
    if !Truthy(u) then Failure(UriMissing) else Success(Connection(u.value, db))
  }

  class MongoRepo {
    const connection: Connection
    /** The `credentials` collection. */
    var credentials: map<string, CredentialDoc>
    /** The `user_info` collection. */
    var userInfo: map<string, UserInfoDoc>

    ghost predicate Valid()
      reads this
    {
      connection.uri != "" && CredentialsKeyed(credentials) && UserInfoKeyed(userInfo)
    }

    /** A repository over the two collections as they stand in the database. */
    constructor(connection: Connection, credentials: map<string, CredentialDoc>, userInfo: map<string, UserInfoDoc>)
      requires connection.uri != ""
      requires CredentialsKeyed(credentials) && UserInfoKeyed(userInfo)
      ensures Valid()
      ensures this.connection == connection
      ensures this.credentials == credentials && this.userInfo == userInfo
    {
      this.connection := connection;
      this.credentials := credentials;
      this.userInfo := userInfo;
    }

    /** `MongoRepo(uri, db_name)`: raises ValueError when no URI is available. */
    static method Create(
      uri: Option<string>, dbName: Option<string>, settings: Settings,
      credentials: map<string, CredentialDoc>, userInfo: map<string, UserInfoDoc>)
      returns (r: Result<MongoRepo, string>)
      requires CredentialsKeyed(credentials) && UserInfoKeyed(userInfo)
      ensures r.Failure? <==> !Truthy(uri) && !Truthy(settings.mongoUri)
      ensures r.Failure? ==> r.error == UriMissing
      ensures r.Success? ==> fresh(r.value) && r.value.Valid()
      ensures r.Success? ==> r.value.connection == ResolveConnection(uri, dbName, settings).value
      ensures r.Success? ==> r.value.credentials == credentials && r.value.userInfo == userInfo
    {
      var c := ResolveConnection(uri, dbName, settings);
      if c.Failure? {
        return Failure(c.error);
      }
      var repo := new MongoRepo(c.value, credentials, userInfo);
      return Success(repo);
    }

    /** `find_one({"user_id": user_id})` on `credentials`, without `_id`. */
    function GetCredentials(userId: string): (r: Option<CredentialDoc>)
      reads this
      requires Valid()
      ensures r.Some? ==> r.value in credentials.Values && r.value.userId == userId
      ensures r.None? ==> forall d :: d in credentials.Values ==> d.userId != userId
    {
      if userId in credentials then Some(credentials[userId]) else None
    }

    /**
      `update_one({"user_id": user_id}, {"$set": doc}, upsert=True)`: the one
      document of `user_id` now holds `creds` and `user_id`; nothing else changes.
     */
    method SaveCredentials(userId: string, creds: UserCredentials)
      requires Valid()
      modifies this
      ensures Valid()
      ensures credentials == old(credentials)[userId := ToDoc(userId, creds)]
      ensures GetCredentials(userId) == Some(ToDoc(userId, creds))
      ensures forall u :: u != userId ==> GetCredentials(u) == old(GetCredentials(u))
      ensures userInfo == old(userInfo)
    {
      credentials := credentials[userId := ToDoc(userId, creds)];
    }

    /** `delete_one({"user_id": user_id})`: reports whether a document was there. */
    method DeleteCredentials(userId: string) returns (deleted: bool)
      requires Valid()
      modifies this
      ensures Valid()
      ensures deleted <==> old(GetCredentials(userId)).Some?
      ensures GetCredentials(userId).None?
      ensures credentials == old(credentials) - {userId}
      ensures userInfo == old(userInfo)
    {
      deleted := userId in credentials;
      credentials := credentials - {userId};
    }

    /** Upsert of `{"user_id": user_id, "info": info}` on `user_info`. */
    method SaveUserInfo(userId: string, info: Info)
      requires Valid()
      modifies this
      ensures Valid()
      ensures userInfo == old(userInfo)[userId := UserInfoDoc(userId, info)]
      ensures GetUserInfo(userId) == Some(info)
      ensures forall u :: u != userId ==> GetUserInfo(u) == old(GetUserInfo(u))
      ensures credentials == old(credentials)
    {
      userInfo := userInfo[userId := UserInfoDoc(userId, info)];
    }

    /** The `info` of the user's document, or `None` when there is no document. */
    function GetUserInfo(userId: string): (r: Option<Info>)
      reads this
      requires Valid()
      ensures r.None? <==> forall d :: d in userInfo.Values ==> d.userId != userId
      ensures forall d :: d in userInfo.Values && d.userId == userId ==> r == Some(d.info)
    {
      if userId in userInfo then Some(userInfo[userId].info) else None
    }

    /** `delete_one` on `user_info`: reports whether a document was there. */
    method DeleteUserInfo(userId: string) returns (deleted: bool)
      requires Valid()
      modifies this
      ensures Valid()
      ensures deleted <==> old(GetUserInfo(userId)).Some?
      ensures GetUserInfo(userId).None?
      ensures userInfo == old(userInfo) - {userId}
      ensures credentials == old(credentials)
    {
      deleted := userId in userInfo;
      userInfo := userInfo - {userId};
    }

    /** The `user_id` of every credentials document, each once; profile documents play no part. */
    method ListUserIds() returns (ids: seq<string>)
      requires Valid()
      ensures forall u :: u in ids <==> GetCredentials(u).Some?
      ensures Distinct(ids) && |ids| == |credentials|
    {
      ids := CollectUserIds(credentials);
    }
  }

  /**
    Saving twice for one user leaves one record, holding the second value, and
    the user is listed exactly once.
   */
  method SaveTwiceListsOnce(repo: MongoRepo, userId: string, first: UserCredentials, second: UserCredentials)
    returns (ids: seq<string>)
    requires repo.Valid()
    modifies repo
    ensures repo.Valid()
    ensures repo.GetCredentials(userId) == Some(ToDoc(userId, second))
    ensures userId in ids && Distinct(ids)
    ensures |repo.credentials| == |old(repo.credentials)| + (if userId in old(repo.credentials) then 0 else 1)
  {
    repo.SaveCredentials(userId, first);
    repo.SaveCredentials(userId, second);
    ids := repo.ListUserIds();
  }
}
