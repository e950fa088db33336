# logins extension API — a Dafny model

This project models `api.js` of the `logins` WebExtension experiment. That file gives
extensions a permission-checked view of the browser's login manager
(`Services.logins`). The model covers:

- **convert**: renames the native `nsILoginInfo` attributes to the seven public fields
  (`origin`←`hostname`, `realm`←`httpRealm`; the other five keep their names).
- **match**: an AND of equalities in which a null search value means "any".
- **accessible**: decides by URL scheme whether an extension may touch an origin:
  - `addon`: the path must be the extension id;
  - `moz-extension`: the host must be the id or the uuid;
  - anything else: the extension's host permissions decide.
- **search / store / remove**: the three operations `getAPI(context)` returns. They act on
  one shared login manager.

Modules:

- `Wrappers`: `Option` (null/undefined) and `Result` (a settled promise: `Ok` or `Err(message)`).
- `Seqs`: `filter`, `map` and one-at-a-time removal over sequences, with their lemmas.
- `Logins`: `LoginInfo` (an `nsILoginInfo`) and the class `LoginManager`. The class holds the
  stored logins as a `seq` and has `GetAllLogins`, `AddLogin` and `RemoveLogin`.
- `Api`: `FIELDS`, `Convert`, `Match`, `Accessible` and the class `LoginsApi`. The class has
  `Search`, `Check` (the closure inside `store`), `Store` and `Remove`. Each method is proved
  against the specification functions `Found`, `ResolvedOrigin` and `RemoveEach`.
- `ApiProperties`: lemmas that relate the operations to each other.

The plain objects exchanged with extensions are `map<string, Option<string>>`. An absent key
and a null value both read as `None`. Search keys outside `FIELDS` are kept. A non-null value
under such a key matches nothing, because `info[FIELDS[key]]` is then undefined.

`Services.io.newURI` is a parameter of type `string -> Option<Url>`, where `None` means it
throws. `whiteListedHosts.matches` is a predicate field of the `Context`. Whether `addLogin`
or `removeLogin` throws, and with which message, is decided by two fixed functions held by
the `LoginManager`. Each takes the current contents and the record.

In `store`, the `check` closure returns rejected promises ("Cannot parse … as a URL", "Origin does not
match …"), but `api.js:86-87` discards them. So a field that does not parse is skipped. A
field whose prePath disagrees with an origin already set leaves that origin unchanged. Neither
case ever rejects. `Check` computes the rejection, `Store` drops it, and `GivenOriginWins` and
`FormSubmitUrlBeforeRealm` state the consequence.

## Model

| member | source | states |
|---|---|---|
| `Api.ToPublic` | api.js:7-23 | The public image has exactly the seven `FIELDS` keys. `origin` is `hostname`, `realm` is `httpRealm`, and the other five are the same-named attributes, with values unchanged |
| `Api.Convert` | api.js:17-23 | The loop over `Object.keys(FIELDS)` builds exactly `ToPublic(info)` |
| `Api.NewLoginInfo` | api.js:97-99 | The login `store` builds has the resolved origin as `hostname`; every other field is the input's field of the same public name |
| `ApiProperties.ConvertIsLossless` | api.js:7-23 | Rebuilding a login from its public image gives back the same login |
| `ApiProperties.PublicRecordRoundTrip` | test/test_ext_logins.js:21-29 | A record with exactly the seven public fields is the public image of the login built from it |
| `Api.Match` | api.js:25-27 | `match(r, q)` holds iff every non-null value of `q` names a public field and equals that field of `r`'s public image. A non-null value under an unknown key never matches |
| `ApiProperties.MatchEmptyQuery` | test/test_ext_logins.js:94-97 | `match(r, {})` holds for every record |
| `ApiProperties.MatchOwnImage` | test/test_ext_logins.js:121-123 | A record matches its own public image used as a search |
| `ApiProperties.MatchWeakening` | api.js:25-27 | Dropping fields from a search never loses a match |
| `Api.Accessible` | api.js:29-47 | A null or unparsable origin is not accessible. `addon`: iff the path is the extension id. `moz-extension`: iff the host is the id or the uuid. Any other scheme: iff the host-permission matcher accepts the URL |
| `ApiProperties.AccessibleMonotone` | api.js:39-46 | With the same id and uuid, more host permissions never revoke access |
| `Api.Selected` | api.js:55-57 | The logins an operation acts on are exactly the stored ones that are accessible and match, and there are no more of them than stored logins |
| `Api.Found` | api.js:54-61 | Every search result has exactly the seven public fields, an origin accessible to the caller, and the query's value in every field the query constrains |
| `Api.ConvertAll` | api.js:58 | The loop applying `convert` to each selected login yields `map(convert)` of the selection |
| `Api.LoginsApi.Search` | api.js:54-61 | `search` returns `Found` for the current store contents and changes nothing |
| `ApiProperties.FoundInEmptyStore` | test/test_ext_logins.js:93-97 | An empty store yields no results |
| `ApiProperties.FoundMembers` | api.js:54-61 | A record is in the results iff it is the image of a stored login that is accessible and matches |
| `ApiProperties.FoundInStoreOrder` | api.js:55-58 | The results are the images, in store order, of the stored logins passing both tests, one per login |
| `ApiProperties.FoundAfterAppend` | api.js:54-61 | Appending a login adds its image at the end of a search iff it is accessible and matches |
| `ApiProperties.MorePermissionsSeeMore` | test/test_ext_logins.js:111-118 | A context with at least another's host permissions sees at least its results |
| `ApiProperties.SameAccessSameResults` | api.js:56 | Contexts that grant the same origins get the same results for the same search |
| `Api.ResolvedOrigin` | api.js:64-91 | The resolved origin is never empty |
| `Api.LoginsApi.Check` | api.js:66-84 | An origin already set is kept. Otherwise the prePath of a truthy, parsable field becomes the origin. The rejection it yields is the parse error or the mismatch, and it is absent otherwise |
| `Api.LoginsApi.Store` | api.js:63-107 | With no resolved origin: rejects "Must specify origin, formSubmitURL, or realm". With an inaccessible origin: rejects "Permission denied for <origin>". With a failing `addLogin`: rejects with its message. In all three cases the store is unchanged. Otherwise it appends exactly `NewLoginInfo(origin, info)` and resolves |
| `ApiProperties.NoOriginWithoutFields` | api.js:89-91 | Without a truthy origin, formSubmitURL or realm there is no origin |
| `ApiProperties.GivenOriginWins` | api.js:64-87 | A non-empty `origin` is the resolved origin, whatever formSubmitURL and realm hold. Since `Store` rejects only on the resolved origin (its contract), those two fields cannot cause a rejection either |
| `ApiProperties.FormSubmitUrlBeforeRealm` | api.js:77-87 | Without an origin, a parsable formSubmitURL with a non-empty prePath supplies it, whatever the realm holds |
| `ApiProperties.RealmAsLastResort` | api.js:77-91 | Without an origin and a usable formSubmitURL, the realm's prePath is the origin (none if it is empty) |
| `ApiProperties.StoreThenSearch` | test/test_ext_logins.js:146-154 | After storing a complete record with an accessible origin, a search by that origin returns the earlier results followed by a record equal to the input |
| `Api.LoginsApi.Remove` | api.js:109-119 | `remove` leaves the store and gives the result that removing the selected logins one at a time, stopping at the first error, produces |
| `Api.RemoveEach` | api.js:111-117 | Removing one record at a time never adds a record and never grows the store, and an empty selection cannot fail |
| `ApiProperties.RemoveEachOutcome` | api.js:111-117 | Removing the selected records one by one: the unselected records stay in order, the selected ones left are a suffix of the selection, and it fails iff one is left, with the store's error for the first of them |
| `ApiProperties.RemoveOutcome` | api.js:109-119 | On success, exactly the accessible matching logins are gone and a repeated search finds nothing. On failure, the earlier removals persist and the message is the store's error for the first selected login still present |
| `ApiProperties.RemoveNothingVisible` | test/test_ext_logins.js:156-160 | A context that can access no stored login removes nothing and succeeds |
| `Logins.LoginManager.GetAllLogins` | api.js:55 | Returns the stored logins in order |
| `Logins.LoginManager.AddLogin` | api.js:102 | Appends the login unless the store's add error is set, in which case the store is unchanged and the error is returned |
| `Logins.LoginManager.RemoveLogin` | api.js:114 | Deletes the first stored login equal to the argument unless the store's remove error is set, in which case the store is unchanged and the error is returned |
| `Api.LoginsApi.GetApi` | api.js:50-53 | The API object is bound to the given context, URI parser and shared login manager |
| `Seqs.Filter` | api.js:56-57 | `filter` keeps exactly the elements passing the test |
| `Seqs.MapSeq` | api.js:58 | `map` applies the function to each element, position by position |

## Left out

- The XPCOM plumbing (`Components`, `Cu.import`, the `LoginInfo` constructor lookup) and the `ExtensionAPI` base class are host glue. `getAPI(context)` is the `GetApi` constructor, with the context flattened to its extension's id, uuid and host matcher.
- URI parsing (`newURI`, `scheme`, `host`, `path`, `prePath`) and `whiteListedHosts.matches` are foreign library calls. They are uninterpreted parameters.
- The login manager's storage engine is external. Its `addLogin`/`removeLogin` failures are arbitrary functions of the contents and the record. `removeLogin` deletes the first equal stored record.
- Promises are settled synchronously: `search` returns a sequence, and `store`/`remove` return a `Result`.
- `FoundAfterAppend`, `StoreThenSearch`: the position of a new record in search results relies on the modelled store order, where `addLogin` appends and `getAllLogins` lists logins in insertion order. The native login manager does not promise that order.
- The `dump` logging at api.js:34 is left out.
- JavaScript loose equality beyond null/undefined, non-string values and inherited object keys are not modelled. Absent and null are the same `None`.
- test/test_ext_logins.js is extension-loading harness code. Its scenarios are stated as lemmas over an abstract parser and matcher, not with its concrete URLs.
