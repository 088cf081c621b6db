/** The two Security framework calls `save` makes, `SecItemUpdate` and
    `SecItemAdd`. The framework itself (persistence, encryption, access
    control) is outside the model: the store records each request it is
    given together with the status it answered, and that status may be any
    `OSStatus`. */
module Security {
  import opened KeychainQuery

  /** Swift's `OSStatus`, a 32-bit signed integer. */
  newtype OSStatus = x: int | -0x8000_0000 <= x < 0x8000_0000

  /** `noErr`. */
  const NoErr: OSStatus := 0

  /** A mutating call made on the keychain, with the status it returned. */
  datatype Request =
    | UpdateRequest(query: Attributes, attributesToUpdate: Attributes, status: OSStatus)
    | AddRequest(attributes: Attributes, status: OSStatus)

  /** `after` is `before` with exactly one more request at its end. */
  ghost predicate AppendedOne(before: seq<Request>, after: seq<Request>)
  {
    |after| == |before| + 1 && after[..|before|] == before
  }

  /** The platform keychain as the facade sees it. */
  class ItemStore {
    /** Every update and add request issued so far, oldest first. */
    var requests: seq<Request>

    constructor ()
      ensures requests == []
    {
      requests := [];
    }

    /** `SecItemUpdate(query, attributesToUpdate)`. */
    method Update(query: Attributes, attributesToUpdate: Attributes) returns (status: OSStatus)
      modifies this
      ensures requests == old(requests) + [UpdateRequest(query, attributesToUpdate, status)]
    {
      status :| true;
      requests := requests + [UpdateRequest(query, attributesToUpdate, status)];
    }

    /** `SecItemAdd(attributes, nil)`. */
    method Add(attributes: Attributes) returns (status: OSStatus)
      modifies this
      ensures requests == old(requests) + [AddRequest(attributes, status)]
    {
      status :| true;
      requests := requests + [AddRequest(attributes, status)];
    }
  }
}
