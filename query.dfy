/** The attribute dictionaries the keychain facade hands to the Security
    framework (Sources/SwiftyKeychain/Keychain.swift, `query` and `configure`).
    The `kSec*` string keys and CoreFoundation values become constructors. */
module KeychainQuery {
  import opened Wrappers

  /** The `kSec*` attribute names the facade uses. */
  datatype Key =
    | Class             // kSecClass
    | Service           // kSecAttrService
    | Account           // kSecAttrAccount
    | AccessGroup       // kSecAttrAccessGroup
    | MatchLimit        // kSecMatchLimit
    | ReturnAttributes  // kSecReturnAttributes
    | ReturnData        // kSecReturnData
    | ValueData         // kSecValueData

  type Bytes = seq<bv8>

  /** The values stored under those keys. */
  datatype Value =
    | GenericPasswordClass  // kSecClassGenericPassword
    | Text(text: string)    // a Swift String bridged to AnyObject
    | MatchLimitOne         // kSecMatchLimitOne
    | MatchLimitAll         // kSecMatchLimitAll
    | Flag(flag: bool)      // kCFBooleanTrue / kCFBooleanFalse
    | Data(bytes: Bytes)    // an encoded password

  /** `[String: AnyObject]` restricted to the keys above. */
  type Attributes = map<Key, Value>

  /** How many matches a lookup asks for. */
  datatype ResultLimit = One | All

  /** The (service, account, access group) triple that names a keychain item. */
  datatype Locator = Locator(service: string, account: Option<string>, accessGroup: Option<string>)

  /** The three keys `Configure` writes. */
  const ShapeKeys: set<Key> := {MatchLimit, ReturnAttributes, ReturnData}

  /** The text stored under `k`, if there is one. */
  function TextAt(q: Attributes, k: Key): Option<string>
  {
    if k in q && q[k].Text? then Some(q[k].text) else None
  }

  /** Reads the locator back out of an attribute dictionary: the inverse of `Query`. */
  function LocatorOf(q: Attributes): Option<Locator>
  {
    match TextAt(q, Service)
    case None => None
    case Some(service) => Some(Locator(service, TextAt(q, Account), TextAt(q, AccessGroup)))
  }

  /** The dictionary `Query` builds for `loc`: a generic-password lookup of at
      most one item that returns its attributes but not its data. */
  ghost predicate IsLookupQuery(q: Attributes, loc: Locator)
  {
    && Class in q && q[Class] == GenericPasswordClass
    && Service in q && q[Service] == Text(loc.service)
    && MatchLimit in q && q[MatchLimit] == MatchLimitOne
    && ReturnAttributes in q && q[ReturnAttributes] == Flag(true)
    && ReturnData in q && q[ReturnData] == Flag(false)
    && (Account in q <==> loc.account.Some?)
    && (loc.account.Some? ==> q[Account] == Text(loc.account.value))
    && (AccessGroup in q <==> loc.accessGroup.Some?)
    && (loc.accessGroup.Some? ==> q[AccessGroup] == Text(loc.accessGroup.value))
    && ValueData !in q
  }

  /** `configure(_:limit:returnAttributes:returnData:)`: sets the match limit
      and the two return flags of `query` and leaves every other entry as it was. */
  method Configure(query: Attributes, limit: ResultLimit := One, returnAttributes: bool, returnData: bool)
    returns (configured: Attributes)
    ensures MatchLimit in configured && configured[MatchLimit] == (if limit == One then MatchLimitOne else MatchLimitAll)
    ensures ReturnAttributes in configured && configured[ReturnAttributes] == Flag(returnAttributes)
    ensures ReturnData in configured && configured[ReturnData] == Flag(returnData)
    ensures configured.Keys == query.Keys + ShapeKeys
    ensures forall k :: k in query && k !in ShapeKeys ==> configured[k] == query[k]
  {
    configured := query;
    if limit == One {
      configured := configured[MatchLimit := MatchLimitOne];
    } else {
      configured := configured[MatchLimit := MatchLimitAll];
    }
    configured := configured[ReturnAttributes := Flag(returnAttributes)];
    configured := configured[ReturnData := Flag(returnData)];
  }

  /** `query(withService:account:accessGroup:)`: the lookup dictionary for a
      locator; the account and access-group keys are present only when given. */
  method Query(service: string, account: Option<string> := None, accessGroup: Option<string> := None)
    returns (query: Attributes)
    ensures IsLookupQuery(query, Locator(service, account, accessGroup))
    ensures LocatorOf(query) == Some(Locator(service, account, accessGroup))
  {
    query := map[];
    query := query[Class := GenericPasswordClass];
    query := query[Service := Text(service)];
    query := Configure(query, limit := One, returnAttributes := true, returnData := false);
    if account.Some? {
      query := query[Account := Text(account.value)];
    }
    if accessGroup.Some? {
      query := query[AccessGroup := Text(accessGroup.value)];
    }
  }

  /** A lookup dictionary is determined by its locator: two calls of `Query`
      with the same arguments describe the same item in the same way. */
  lemma LookupQueryUnique(q1: Attributes, q2: Attributes, loc: Locator)
    requires IsLookupQuery(q1, loc) && IsLookupQuery(q2, loc)
    ensures q1 == q2
  {
    forall k: Key ensures (k in q1 <==> k in q2) && (k in q1 ==> q1[k] == q2[k]) {
      match k
      case Class =>
      case Service =>
      case Account =>
      case AccessGroup =>
      case MatchLimit =>
      case ReturnAttributes =>
      case ReturnData =>
      case ValueData =>
    }
    assert q1.Keys == q2.Keys;
  }

  /** Distinct locators give distinct lookup dictionaries, and the locator can
      be read back from the dictionary. */
  lemma LookupQueryLocator(q: Attributes, loc: Locator)
    requires IsLookupQuery(q, loc)
    ensures LocatorOf(q) == Some(loc)
  {
  }

  /** Adding the password data, as the insert path of `save` does, does not
      change which item a dictionary names. */
  lemma LocatorIgnoresData(q: Attributes, data: Bytes)
    ensures LocatorOf(q[ValueData := Data(data)]) == LocatorOf(q)
  {
  }
}
