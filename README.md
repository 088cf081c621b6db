# SwiftyKeychain facade, modelled in Dafny

SwiftyKeychain is a thin Swift facade over the Apple Security framework's
generic-password keychain. This project models its one source file,
`Sources/SwiftyKeychain/Keychain.swift`:

- `wrappers.dfy` (`Wrappers`): Swift's optional and `Result`.
- `query.dfy` (`KeychainQuery`): the attribute dictionaries handed to the
  Security framework. The `kSec*` keys and CoreFoundation values are
  constructors of `Key` and `Value`. `Configure` is `configure(_:limit:returnAttributes:returnData:)`.
  Swift dictionaries are values, so its `inout` parameter becomes a map in and a map out.
  `Query` is `query(withService:account:accessGroup:)`. `IsLookupQuery` states
  the dictionary `Query` builds for a locator. `LocatorOf` reads the locator back out.
- `security.dfy` (`Security`): `SecItemUpdate` and `SecItemAdd` as methods of
  an `ItemStore` class. The store records every request it receives with the
  `OSStatus` it answered. That status may be any 32-bit value.
- `keychain.dfy` (`Keychain`): `KeychainServiceError`, the stub
  `retrievePassword()`, and `save`. `PlanSave` is the decision `save` takes:
  return at once, update, or insert. `UpdateResult` and `AddResult` map the
  status of each branch to a `Result`. `SaveWithProbe` is `save` with the
  probe's outcome as a parameter. `Save` is `save` as written, probing with
  the stub.

In this version `retrievePassword()` ignores the keychain and always
reports `"Hello"`. So `save` returns at once for the password `"Hello"` and
issues an update for every other password. The insert branch is never
reached; `Keychain.StubProbeNeverInserts` states this. `SaveWithProbe`
still models the insert branch for any failing probe.

Three facts about the code shape the model:
- `save` does not check the service. It accepts `""`, its default
  (Keychain.swift:34), and builds a query for it.
- Every failing probe leads to an insert (Keychain.swift:49-57).
- `save` never returns `noPassword`, although the error enum declares it.

## Model

| member | source | states |
|---|---|---|
| KeychainQuery.Configure | Sources/SwiftyKeychain/Keychain.swift:83-91 | the match limit is one for `.one` and all for `.all`; the two return flags are exactly the booleans passed; the keys are the old keys plus these three; every other entry is unchanged |
| KeychainQuery.Query | Sources/SwiftyKeychain/Keychain.swift:62-76 | the result is the lookup query of the locator: class generic password, service exactly as given (also `""`), limit one, attributes returned, data not returned, account key present iff an account is given and then equal to it, the same for the access group, no data key; the locator reads back unchanged |
| KeychainQuery.LookupQueryUnique | Sources/SwiftyKeychain/Keychain.swift:62-76 | two dictionaries that are both the lookup query of one locator are equal, so a query is determined by its locator |
| KeychainQuery.LookupQueryLocator | Sources/SwiftyKeychain/Keychain.swift:62-76 | the locator can be read back from its lookup query, so distinct locators give distinct queries |
| KeychainQuery.LocatorIgnoresData | Sources/SwiftyKeychain/Keychain.swift:51-52 | adding the data attribute does not change the item a dictionary names |
| Security.ItemStore.Update | Sources/SwiftyKeychain/Keychain.swift:46 | exactly one update request, with the given query and attributes and the returned status, is appended to the store's requests |
| Security.ItemStore.Add | Sources/SwiftyKeychain/Keychain.swift:54 | exactly one add request, with the given attributes and the returned status, is appended to the store's requests |
| Keychain.RetrievePassword | Sources/SwiftyKeychain/Keychain.swift:27-29 | the stub probe always succeeds |
| Keychain.PlanSave | Sources/SwiftyKeychain/Keychain.swift:35-57 | an encoding failure ends with `errorEncodingData`; save returns at once iff encoding fails or the probe returns the new password itself; it updates iff the probe returns a different password; it inserts iff the probe fails; whatever is written is the encoded password |
| Keychain.UpdateResult | Sources/SwiftyKeychain/Keychain.swift:48 | success iff the status is `noErr`; a failure is `unhandledError` carrying that exact status |
| Keychain.AddResult | Sources/SwiftyKeychain/Keychain.swift:56 | success iff the status is `noErr`; a failure is `failureSavingNewPassword` |
| Keychain.SaveWithProbe | Sources/SwiftyKeychain/Keychain.swift:34-60 | on an early return no request is issued; on the update path exactly one update is issued, on the lookup query of the locator, changing only the data attribute to the encoded password, and its status decides the result; on the insert path exactly one add is issued, of the lookup query plus the data attribute, naming the same locator, and its status decides the result; `noPassword` is never returned |
| Keychain.Save | Sources/SwiftyKeychain/Keychain.swift:34-60 | with the stub probe: an encoding failure returns `errorEncodingData` and issues nothing; the password "Hello" returns success and issues nothing; any other password issues exactly one update of the data attribute on the locator's lookup query, and the status decides the result |
| Keychain.StubProbeNeverInserts | Sources/SwiftyKeychain/Keychain.swift:37-57 | with the stub probe save never inserts, and it updates iff encoding succeeds and the password is not "Hello" |
| Keychain.SaveOfStoredPasswordIsNoOp | Sources/SwiftyKeychain/Keychain.swift:38-40 | if the probe returns the password being saved, save succeeds without writing, so repeating a save is a no-op |
| Keychain.UpdateResultKeepsStatus | Sources/SwiftyKeychain/Keychain.swift:48 | the update path's result determines the status: distinct statuses give distinct results |
| Keychain.AddResultDropsStatus | Sources/SwiftyKeychain/Keychain.swift:56 | the insert path's result forgets the status: all failing statuses give the same error |

## Left out

- The Security framework itself: persistence, encryption, access control and
  how it matches items. The store records requests; the status it answers is
  left open, and no item contents are modelled.
- CoreFoundation bridging and the values of the `kSec*` constants: keys and
  values are enum constructors.
- UTF-8 encoding: `String.data(using: .utf8)` is the function parameter `encode`.
- The `shared` singleton: it holds no state.
- Keychain.PlanSave: compares the probed and the new password by code points, whereas Swift's `!=` on `String` compares by canonical equivalence, so a probe returning a canonically equivalent but differently composed password leads to an update here and to a no-op in Swift.
- Keychain.SaveWithProbe: inherits that code-point comparison from `PlanSave`; `Save` with the stub is unaffected, because no other string is canonically equivalent to `"Hello"`.
- Keychain.RetrievePassword: its contract states only that the stub succeeds; the value `"Hello"` is given by its body.
- Removal, retrieval by locator, enumeration and the not-found mapping: this
  version of the source does not have them. The test file calls an API that
  is not in this source, so its assertions are not modelled.
- Idempotence across two calls of `save`: the stub probe never observes an
  earlier save, so it is stated for a probe that returns the stored password.
