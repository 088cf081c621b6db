/** The `Keychain` facade (Sources/SwiftyKeychain/Keychain.swift): its error
    taxonomy, the probe `retrievePassword()` and `save`, which decides between
    doing nothing, updating the stored password and inserting a new item, and
    maps the Security framework's status to a `Result`. */
module Keychain {
  import opened Wrappers
  import opened KeychainQuery
  import opened Security

  /** `Keychain.KeychainServiceError`. */
  datatype KeychainServiceError =
    | NoPassword
    | ErrorEncodingData
    | FailureSavingNewPassword
    | UnhandledError(status: OSStatus)

  type SaveResult = Result<bool, KeychainServiceError>

  /** `retrievePassword()`. In this version of the library it is a stub that
      reports "Hello" as the stored password, whatever the keychain holds. */
  function RetrievePassword(): (r: Result<string, KeychainServiceError>)
    ensures r.Success?
  {
    Success("Hello")
  }

  /** What `save` does after encoding the password and probing the keychain. */
  datatype SavePlan =
    | Finish(result: SaveResult)  // return at once, touching nothing
    | IssueUpdate(data: Bytes)    // SecItemUpdate of the data attribute
    | IssueAdd(data: Bytes)       // SecItemAdd of a new item

  /** The decision `save` takes, given the outcome of encoding and of the probe. */
  function PlanSave(encoded: Option<Bytes>, probe: Result<string, KeychainServiceError>, password: string)
    : (plan: SavePlan)
    ensures plan.Finish? <==> encoded.None? || probe == Success(password)
    ensures plan.Finish? ==> plan.result == if encoded.None? then Failure(ErrorEncodingData) else Success(true)
    ensures plan.IssueUpdate? <==> encoded.Some? && probe.Success? && probe.value != password
    ensures plan.IssueAdd? <==> encoded.Some? && probe.Failure?
    ensures !plan.Finish? ==> plan.data == encoded.value
  {
    match encoded
    case None => Finish(Failure(ErrorEncodingData))
    case Some(data) =>
      match probe
      case Success(retrieved) =>
        if retrieved != password then IssueUpdate(data) else Finish(Success(true))
      case Failure(_) => IssueAdd(data)
  }

  /** How `save` reports the status of its update: any status but `noErr`
      is passed on verbatim inside `unhandledError`. */
  function UpdateResult(status: OSStatus): (r: SaveResult)
    ensures r.Success? <==> status == NoErr
    ensures r.Success? ==> r.value
    ensures r.Failure? ==> r.error == UnhandledError(status)
  {
    if status == NoErr then Success(true) else Failure(UnhandledError(status))
  }

  /** How `save` reports the status of its insert: any status but `noErr`
      becomes `failureSavingNewPassword`, and the status is dropped. */
  function AddResult(status: OSStatus): (r: SaveResult)
    ensures r.Success? <==> status == NoErr
    ensures r.Success? ==> r.value
    ensures r.Failure? ==> r.error == FailureSavingNewPassword
  {
    if status == NoErr then Success(true) else Failure(FailureSavingNewPassword)
  }

  /** `save(password:forAccount:accessGroup:service:)` with the outcome of the
      probe `retrievePassword()` as a parameter. The account is always given,
      so every query it builds carries an account key. `encode` stands for
      `String.data(using: .utf8)`. */
  method SaveWithProbe(store: ItemStore, encode: string -> Option<Bytes>,
                       probe: Result<string, KeychainServiceError>,
                       password: string, account: string,
                       accessGroup: Option<string> := None, service: string := "")
    returns (result: SaveResult)
    modifies store
    ensures result != Failure(NoPassword)
    ensures var plan := PlanSave(encode(password), probe, password);
      plan.Finish? ==> result == plan.result && store.requests == old(store.requests)
    ensures var plan := PlanSave(encode(password), probe, password);
      plan.IssueUpdate? ==>
        && AppendedOne(old(store.requests), store.requests)
        && var req := store.requests[|store.requests| - 1];
        && req.UpdateRequest?
        && IsLookupQuery(req.query, Locator(service, Some(account), accessGroup))
        && req.attributesToUpdate == map[ValueData := Data(plan.data)]
        && result == UpdateResult(req.status)
    ensures var plan := PlanSave(encode(password), probe, password);
      plan.IssueAdd? ==>
        && AppendedOne(old(store.requests), store.requests)
        && var req := store.requests[|store.requests| - 1];
        && req.AddRequest?
        && IsLookupQuery(req.attributes - {ValueData}, Locator(service, Some(account), accessGroup))
        && ValueData in req.attributes && req.attributes[ValueData] == Data(plan.data)
        && LocatorOf(req.attributes) == Some(Locator(service, Some(account), accessGroup))
        && result == AddResult(req.status)
  {
    var encoded := encode(password);
    if encoded.None? {
      return Failure(ErrorEncodingData);
    }
    var encodedPassword := encoded.value;

    var passwordResult := probe;
    if passwordResult.Success? {
      // a password is already stored
      var retrievedPassword := passwordResult.value;
      if retrievedPassword == password {
        return Success(true);
      }
      var updatingAttributes: Attributes := map[];
      updatingAttributes := updatingAttributes[ValueData := Data(encodedPassword)];
      var passwordQuery := Query(service, account := Some(account), accessGroup := accessGroup);
      var status := store.Update(passwordQuery, updatingAttributes);
      if status != NoErr {
        return Failure(UnhandledError(status));
      }
    } else {
      // no password stored yet
      var newPassword := Query(service, account := Some(account), accessGroup := accessGroup);
      var lookup := newPassword;
      newPassword := newPassword[ValueData := Data(encodedPassword)];
      assert newPassword - {ValueData} == lookup;
      LookupQueryLocator(lookup, Locator(service, Some(account), accessGroup));
      LocatorIgnoresData(lookup, encodedPassword);
      var status := store.Add(newPassword);
      if status != NoErr {
        return Failure(FailureSavingNewPassword);
      }
    }
    return Success(true);
  }

  /** `save(password:forAccount:accessGroup:service:)` as written, probing
      with the stub `retrievePassword()`: it returns at once when the password
      is "Hello" and otherwise always issues an update, never an insert. */
  method Save(store: ItemStore, encode: string -> Option<Bytes>,
              password: string, account: string,
              accessGroup: Option<string> := None, service: string := "")
    returns (result: SaveResult)
    modifies store
    ensures encode(password).None? ==>
      result == Failure(ErrorEncodingData) && store.requests == old(store.requests)
    ensures encode(password).Some? && password == "Hello" ==>
      result == Success(true) && store.requests == old(store.requests)
    ensures encode(password).Some? && password != "Hello" ==>
      && AppendedOne(old(store.requests), store.requests)
      && var req := store.requests[|store.requests| - 1];
      && req.UpdateRequest?
      && IsLookupQuery(req.query, Locator(service, Some(account), accessGroup))
      && req.attributesToUpdate == map[ValueData := Data(encode(password).value)]
      && result == UpdateResult(req.status)
  {
    result := SaveWithProbe(store, encode, RetrievePassword(), password, account, accessGroup, service);
  }

  /** With the stub probe the insert branch of `save` cannot be reached. */
  lemma StubProbeNeverInserts(encoded: Option<Bytes>, password: string)
    ensures !PlanSave(encoded, RetrievePassword(), password).IssueAdd?
    ensures PlanSave(encoded, RetrievePassword(), password).IssueUpdate? <==>
      encoded.Some? && password != "Hello"
  {
  }

  /** A save whose probe finds the very password being saved issues no
      request and succeeds, so saving the same password again is a no-op. */
  lemma SaveOfStoredPasswordIsNoOp(encoded: Option<Bytes>, password: string)
    requires encoded.Some?
    ensures PlanSave(encoded, Success(password), password) == Finish(Success(true))
  {
  }

  /** The update path keeps the platform's status: distinct failing statuses
      give distinct errors, and the status can be read back from the error. */
  lemma UpdateResultKeepsStatus(s1: OSStatus, s2: OSStatus)
    requires UpdateResult(s1) == UpdateResult(s2)
    ensures s1 == s2
  {
  }

  /** The insert path does not: every failing status gives the same error. */
  lemma AddResultDropsStatus(s1: OSStatus, s2: OSStatus)
    requires s1 != NoErr && s2 != NoErr
    ensures AddResult(s1) == AddResult(s2)
  {
  }
}
