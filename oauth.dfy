/**
  `handle_oauth_callback` (tools/oauth.py): turns what the provider exchange
  returned into the JSON payload of the callback endpoint. The exchange itself
  and the `user_info` cookie are outside the model; the exchange's outcome is
  an input.
 */
module OAuth {
  import opened Wrappers
  import opened PyStrings
  import Documents

  /**
    A scope as it may arrive, either granted by the provider or requested by
    the caller: a string, a list or tuple of strings, or anything else
    (`None`, a missing key, another type).
   */
  datatype ScopeValue = Str(text: string) | Items(items: seq<string>) | Other

  /** The dict returned by `service.exchange_code_for_credentials`; a missing key is `None`. */
  datatype ExchangeResult = ExchangeResult(
    userId: Option<string>,
    userInfo: Option<Documents.Info>,
    scope: ScopeValue)

  /** The returned payload: `{message, user_id, user_info, scopes}`. */
  datatype Payload = Payload(
    message: string,
    userId: Option<string>,
    userInfo: Documents.Info,
    scopes: string)

  /** The string and list rules shared by the granted and the requested scope. */
  function ScopeList(v: ScopeValue): (r: seq<string>)
    ensures v.Str? ==> AllTokens(r) && Concat(r) == RemoveSpaces(v.text)
    ensures v == Str("") ==> r == []
    ensures v.Items? ==> r == v.items
    ensures v.Other? ==> r == []
  {
    match v
    case Str(text) =>
      ConcatSplit(text);
      if text != "" then Split(text) else []
    case Items(items) => items
    case Other => []
  }

  /**
    Scope normalisation: the granted scope when it is a string or a list,
    otherwise the requested scope under the same rules.
   */
  function NormalizeScopes(granted: ScopeValue, requested: ScopeValue): (r: seq<string>)
    ensures granted.Str? ==> AllTokens(r) && Concat(r) == RemoveSpaces(granted.text)
    ensures granted == Str("") ==> r == []
    ensures granted.Items? ==> r == granted.items
    ensures granted.Other? && requested.Str? ==> AllTokens(r) && Concat(r) == RemoveSpaces(requested.text)
    ensures granted.Other? && requested.Items? ==> r == requested.items
    ensures granted.Other? && requested.Other? ==> r == []
  {
    if granted.Str? || granted.Items? then ScopeList(granted) else ScopeList(requested)
  }

  /** Python truthiness of the `user_info` value: present and not the empty dict. */
  predicate Truthy(info: Option<Documents.Info>) {
    info.Some? && info.value != map[]
  }

  /**
    `handle_oauth_callback`: a failed exchange propagates its error; otherwise
    the payload carries the caller's message, the exchange's `user_id`, its
    `user_info` (or `{}`) and the normalised scopes joined with `''`.
   */
  function HandleOAuthCallback(exchanged: Result<ExchangeResult, string>, scope: ScopeValue, message: string)
    : (r: Result<Payload, string>)
    ensures exchanged.Failure? ==> r == Failure(exchanged.error)
    ensures exchanged.Success? ==> r.Success?
    ensures r.Success? ==> r.value.message == message && r.value.userId == exchanged.value.userId
    ensures r.Success? ==> r.value.userInfo == exchanged.value.userInfo.GetOr(map[])
    ensures r.Success? ==> r.value.scopes == Concat(NormalizeScopes(exchanged.value.scope, scope))
  {
    match exchanged
    case Failure(e) => Failure(e)
    case Success(result) =>
      var userInfo := if Truthy(result.userInfo) then result.userInfo.value else map[];
      var scopes := NormalizeScopes(result.scope, scope);
      Success(Payload(message, result.userId, userInfo, Concat(scopes)))
  }

  /**
    The requested scope is only a fallback: whatever it is, it does not
    matter once the provider granted a string or a list.
   */
  lemma RequestedScopeIgnoredWhenGranted(granted: ScopeValue, requested1: ScopeValue, requested2: ScopeValue)
    requires !granted.Other?
    ensures NormalizeScopes(granted, requested1) == NormalizeScopes(granted, requested2)
  {
  }

  /**
    A space-delimited scope string (the encoding of section 3.3 of RFC 6749)
    built from well-formed scope names normalises back to those names.
   */
  lemma {:induction false} ScopeStringRoundTrip(names: seq<string>, requested: ScopeValue)
    requires AllTokens(names)
    ensures NormalizeScopes(Str(Join(" ", names)), requested) == names
  {
    SplitJoin(names);
    if Join(" ", names) == "" {
      assert Split("") == [];
    }
  }

  /**
    The `scopes` field of a successful payload built from a granted scope
    string is that string with all whitespace removed.
   */
  lemma GrantedStringPayload(result: ExchangeResult, scope: ScopeValue, message: string)
    requires result.scope.Str?
    ensures HandleOAuthCallback(Success(result), scope, message).value.scopes == RemoveSpaces(result.scope.text)
  {
  }
}
