/**
  The `logins` extension API: field renaming, query matching, the origin
  authorisation check, and the `search` / `store` / `remove` operations that
  `getAPI(context)` hands to an extension.
*/
module Api {
  import opened Wrappers
  import opened Seqs
  import opened Logins

  // ---------------------------------------------------------------------------
  // Records and field renaming

  /** Public field name -> `nsILoginInfo` attribute name. */
  const FIELDS: map<string, string> := map[
    "formSubmitURL" := "formSubmitURL",
    "origin" := "hostname",
    "realm" := "httpRealm",
    "username" := "username",
    "password" := "password",
    "usernameField" := "usernameField",
    "passwordField" := "passwordField"]

  /** `Object.keys(FIELDS)`, in declaration order. */
  const FIELD_NAMES: seq<string> :=
    ["formSubmitURL", "origin", "realm", "username", "password", "usernameField", "passwordField"]

  /** A plain object handed to or returned from the extension; absent and null both read as None. */
  type PublicRecord = map<string, Option<string>>

  /** A search object: a non-null value constrains that field. */
  type Query = map<string, Option<string>>

  /** `obj[field]`. */
  function Value(obj: map<string, Option<string>>, field: string): Option<string>
  {
    if field in obj then obj[field] else None
  }

  /** JavaScript truthiness of a string-or-null: neither null nor empty. */
  predicate Truthy(v: Option<string>)
  {
    v.Some? && v.value != ""
  }

  /** `info[FIELDS[field]]`: the native attribute behind a public field name (undefined for other names). */
  function NativeValue(info: LoginInfo, field: string): Option<string>
  {
    if field in FIELDS then info.Attr(FIELDS[field]) else None
  }

  /** What `convert(info)` builds. */
  function ToPublic(info: LoginInfo): (obj: PublicRecord)
    ensures obj.Keys == FIELDS.Keys
    ensures obj["origin"] == info.hostname && obj["realm"] == info.httpRealm
    ensures obj["formSubmitURL"] == info.formSubmitURL
    ensures obj["username"] == info.username && obj["password"] == info.password
    ensures obj["usernameField"] == info.usernameField && obj["passwordField"] == info.passwordField
  {
    map field | field in FIELDS :: NativeValue(info, field)
  }

  /** `convert(info)`: copies each native attribute into its public field, one key at a time. */
  method Convert(info: LoginInfo) returns (obj: PublicRecord)
    ensures obj == ToPublic(info)
  {
    obj := map[];
    for i := 0 to |FIELD_NAMES|
      invariant forall field :: field in obj <==> field in FIELD_NAMES[..i]
      invariant forall field :: field in obj ==> obj[field] == NativeValue(info, field)
    {
      var field := FIELD_NAMES[i];
      assert FIELD_NAMES[..i + 1] == FIELD_NAMES[..i] + [field];
      obj := obj[field := NativeValue(info, field)];
    }
    assert FIELD_NAMES[..|FIELD_NAMES|] == FIELD_NAMES;
    FieldNamesAreKeys();
  }

  /** `Object.keys(FIELDS)` lists exactly the keys of `FIELDS`. */
  lemma FieldNamesAreKeys()
    ensures forall field :: field in FIELDS <==> field in FIELD_NAMES
  {
  }

  /** `logins.map(convert)`. */
  method ConvertAll(logins: seq<LoginInfo>) returns (objs: seq<PublicRecord>)
    ensures objs == MapSeq(ToPublic, logins)
  {
    objs := [];
    for i := 0 to |logins|
      invariant |objs| == i
      invariant forall k :: 0 <= k < i ==> objs[k] == ToPublic(logins[k])
    {
      var obj := Convert(logins[i]);
      objs := objs + [obj];
    }
    MapSeqPointwise(ToPublic, logins, objs);
  }

  /**
    The record `new LoginInfo(origin, info.formSubmitURL, info.realm, ...)`
    that `store` hands to the login manager.
  */
  function NewLoginInfo(origin: Option<string>, info: PublicRecord): (login: LoginInfo)
    ensures login.hostname == origin
    ensures forall field :: field in FIELDS && field != "origin" ==> NativeValue(login, field) == Value(info, field)
  {
    LoginInfo(origin, Value(info, "formSubmitURL"), Value(info, "realm"), Value(info, "username"),
              Value(info, "password"), Value(info, "usernameField"), Value(info, "passwordField"))
  }

  // ---------------------------------------------------------------------------
  // Matching

  /** `match(info, search)`: every non-null search value equals the record's field. */
  function Match(info: LoginInfo, search: Query): (matched: bool)
    ensures matched <==>
      forall field :: field in search && search[field].Some? ==>
        field in FIELDS && search[field] == ToPublic(info)[field]
  {
    forall field | field in search :: search[field] == None || search[field] == NativeValue(info, field)
  }

  // ---------------------------------------------------------------------------
  // Authorisation

  /** What `Services.io.newURI` exposes of a parsed URL. */
  datatype Url = Url(scheme: string, host: string, path: string, prePath: string)

  /** `Services.io.newURI`: None where it throws. */
  type UriParser = string -> Option<Url>

  /** `context.extension`: its id, its instance uuid, and `whiteListedHosts.matches`. */
  datatype Context = Context(id: string, uuid: string, whiteListedHosts: Url -> bool)

  /** `newURI(origin)`; a null origin does not parse. */
  function ParseOrigin(newURI: UriParser, origin: Option<string>): Option<Url>
  {
    if origin.None? then None else newURI(origin.value)
  }

  /** `accessible(context, origin)`. */
  function Accessible(context: Context, newURI: UriParser, origin: Option<string>): (accessible: bool)
    ensures ParseOrigin(newURI, origin).None? ==> !accessible
    ensures origin.None? ==> !accessible
    ensures ParseOrigin(newURI, origin).Some? && ParseOrigin(newURI, origin).value.scheme == "addon" ==>
      (accessible <==> ParseOrigin(newURI, origin).value.path == context.id)
    ensures ParseOrigin(newURI, origin).Some? && ParseOrigin(newURI, origin).value.scheme == "moz-extension" ==>
      (accessible <==> ParseOrigin(newURI, origin).value.host == context.id
                       || ParseOrigin(newURI, origin).value.host == context.uuid)
    ensures ParseOrigin(newURI, origin).Some? && ParseOrigin(newURI, origin).value.scheme != "addon"
            && ParseOrigin(newURI, origin).value.scheme != "moz-extension" ==>
      (accessible <==> context.whiteListedHosts(ParseOrigin(newURI, origin).value))
  {
    match ParseOrigin(newURI, origin)
    case None => false
    case Some(url) =>
      if url.scheme == "addon" then url.path == context.id
      else if url.scheme == "moz-extension" then url.host == context.id || url.host == context.uuid
      else context.whiteListedHosts(url)
  }

  function AccessibleTo(context: Context, newURI: UriParser): LoginInfo -> bool
  {
    (login: LoginInfo) => Accessible(context, newURI, login.hostname)
  }

  function MatchedBy(query: Query): LoginInfo -> bool
  {
    (login: LoginInfo) => Match(login, query)
  }

  /** `getAllLogins().filter(accessible).filter(match)`: the records an operation acts on. */
  function Selected(context: Context, newURI: UriParser, logins: seq<LoginInfo>, query: Query)
    : (selected: seq<LoginInfo>)
    ensures |selected| <= |logins|
    ensures forall login :: login in selected <==>
      login in logins && Accessible(context, newURI, login.hostname) && Match(login, query)
  {
    Filter(Filter(logins, AccessibleTo(context, newURI)), MatchedBy(query))
  }

  /** What `search(query)` resolves with for a store holding `logins`. */
  function Found(context: Context, newURI: UriParser, logins: seq<LoginInfo>, query: Query)
    : (found: seq<PublicRecord>)
    ensures |found| <= |logins|
    ensures forall k :: 0 <= k < |found| ==> found[k].Keys == FIELDS.Keys
    ensures forall k :: 0 <= k < |found| ==> Accessible(context, newURI, found[k]["origin"])
    ensures forall k, field :: 0 <= k < |found| && field in query && query[field].Some? ==>
      field in found[k] && found[k][field] == query[field]
  {
    var selected := Selected(context, newURI, logins, query);
    assert forall k :: 0 <= k < |selected| ==> selected[k] in selected;
    MapSeq(ToPublic, selected)
  }

  // ---------------------------------------------------------------------------
  // Origin resolution in `store`

  /** The prePath of `info[field]` when that value is truthy and parses. */
  function Candidate(newURI: UriParser, info: PublicRecord, field: string): Option<string>
  {
    if !Truthy(Value(info, field)) then None
    else match newURI(Value(info, field).value)
      case None => None
      case Some(url) => Some(url.prePath)
  }

  /**
    The origin `store` ends up with: `info.origin` when it is non-empty, else
    the first non-empty prePath among `formSubmitURL` and `realm`; None when
    there is none.
  */
  function ResolvedOrigin(newURI: UriParser, info: PublicRecord): (origin: Option<string>)
    ensures origin.Some? ==> origin.value != ""
  {
    if Truthy(Value(info, "origin")) then Value(info, "origin")
    else if Truthy(Candidate(newURI, info, "formSubmitURL")) then Candidate(newURI, info, "formSubmitURL")
    else if Truthy(Candidate(newURI, info, "realm")) then Candidate(newURI, info, "realm")
    else None
  }

  const MISSING_ORIGIN := "Must specify origin, formSubmitURL, or realm"

  function PermissionDenied(origin: string): string
  {
    "Permission denied for " + origin
  }

  function CannotParse(field: string): string
  {
    "Cannot parse " + field + " as a URL"
  }

  function OriginMismatch(field: string): string
  {
    "Origin does not match " + field
  }

  // ---------------------------------------------------------------------------
  // Removal one record at a time

  /**
    Removing `targets` in order from a store holding `logins`, stopping at the
    first removal that throws: the contents left and the error, if any.
  */
  function RemoveEach(removeError: StoreFailure, logins: seq<LoginInfo>, targets: seq<LoginInfo>)
    : (outcome: (seq<LoginInfo>, Option<string>))
    ensures |outcome.0| <= |logins|
    ensures forall login :: login in outcome.0 ==> login in logins
    ensures outcome.1.Some? ==> targets != []
    decreases |targets|
  {
    if targets == [] then (logins, None)
    else match removeError(logins, targets[0])
      case Some(e) => (logins, Some(e))
      case None => RemoveEach(removeError, RemoveFirst(logins, targets[0]), targets[1..])
  }

  // ---------------------------------------------------------------------------
  // The facade

  /** The `logins` namespace `getAPI(context)` returns, bound to the shared login manager. */
  class LoginsApi {
    const context: Context
    const newURI: UriParser
    const manager: LoginManager

    constructor GetApi(context: Context, newURI: UriParser, manager: LoginManager)
      ensures this.context == context && this.newURI == newURI && this.manager == manager
    {
      this.context := context;
      this.newURI := newURI;
      this.manager := manager;
    }

    /** `search(query)`: never rejects and changes nothing. */
    method Search(query: Query) returns (results: seq<PublicRecord>)
      ensures results == Found(context, newURI, manager.logins, query)
    {
      var all := manager.GetAllLogins();
      var hits := Selected(context, newURI, all, query);
      results := ConvertAll(hits);
    }

    /**
      The `check(field)` closure inside `store`: may set the origin from
      `info[field]`, and yields the rejection it would have returned.
    */
    method Check(info: PublicRecord, field: string, origin: Option<string>)
      returns (newOrigin: Option<string>, rejection: Option<string>)
      ensures Truthy(origin) ==> newOrigin == origin
      ensures !Truthy(origin) && Candidate(newURI, info, field).Some? ==> newOrigin == Candidate(newURI, info, field)
      ensures !Truthy(origin) && Candidate(newURI, info, field).None? ==> newOrigin == origin
      ensures Truthy(Value(info, field)) && newURI(Value(info, field).value).None? ==>
        rejection == Some(CannotParse(field))
      ensures Truthy(origin) && Candidate(newURI, info, field).Some? && Candidate(newURI, info, field) != origin ==>
        rejection == Some(OriginMismatch(field))
      ensures rejection.Some? ==> Truthy(Value(info, field))
      ensures rejection.None? ==> Candidate(newURI, info, field).Some? || !Truthy(Value(info, field))
      ensures rejection.None? && Truthy(origin) && Candidate(newURI, info, field).Some? ==>
        Candidate(newURI, info, field) == origin
      ensures rejection.None? <==>
        !Truthy(Value(info, field))
        || (Candidate(newURI, info, field).Some? && (!Truthy(origin) || Candidate(newURI, info, field) == origin))
    {
      newOrigin := origin;
      rejection := None;
      if !Truthy(Value(info, field)) {
        return;
      }
      var uri := newURI(Value(info, field).value);
      if uri.None? {
        rejection := Some(CannotParse(field));
        return;
      }
      if Truthy(origin) {
        if uri.value.prePath != origin.value {
          rejection := Some(OriginMismatch(field));
          return;
        }
      } else {
        newOrigin := Some(uri.value.prePath);
      }
    }

    /**
      `store(info)`. The rejections `check` produces are dropped, as in the
      source: only a missing origin, a denied origin or a failing `addLogin`
      reject.
    */
    method Store(info: PublicRecord) returns (result: Result<()>)
      modifies manager
      ensures ResolvedOrigin(newURI, info).None? ==>
        result == Err(MISSING_ORIGIN) && manager.logins == old(manager.logins)
      ensures ResolvedOrigin(newURI, info).Some? && !Accessible(context, newURI, ResolvedOrigin(newURI, info)) ==>
        result == Err(PermissionDenied(ResolvedOrigin(newURI, info).value)) && manager.logins == old(manager.logins)
      ensures ResolvedOrigin(newURI, info).Some? && Accessible(context, newURI, ResolvedOrigin(newURI, info)) ==>
        var login := NewLoginInfo(ResolvedOrigin(newURI, info), info);
        match manager.addError(old(manager.logins), login)
        case Some(e) => result == Err(e) && manager.logins == old(manager.logins)
        case None => result == Ok(()) && manager.logins == old(manager.logins) + [login]
    {
      var origin := Value(info, "origin");
      var discarded;
      origin, discarded := Check(info, "formSubmitURL", origin);
      origin, discarded := Check(info, "realm", origin);

      if !Truthy(origin) {
        return Err(MISSING_ORIGIN);
      }
      assert origin == ResolvedOrigin(newURI, info);

      if !Accessible(context, newURI, origin) {
        return Err(PermissionDenied(origin.value));
      }

      var login := NewLoginInfo(origin, info);
      var error := manager.AddLogin(login);
      if error.Some? {
        return Err(error.value);
      }
      return Ok(());
    }

    /**
      `remove(query)`: removes the accessible matching records one by one and
      rejects with the first error, keeping the removals already made.
    */
    method Remove(query: Query) returns (result: Result<()>)
      modifies manager
      ensures var (left, error) :=
        RemoveEach(manager.removeError, old(manager.logins), Selected(context, newURI, old(manager.logins), query));
        manager.logins == left && result == if error.None? then Ok(()) else Err(error.value)
    {
      var all := manager.GetAllLogins();
      var targets := Selected(context, newURI, all, query);
      for i := 0 to |targets|
        invariant RemoveEach(manager.removeError, old(manager.logins), targets)
               == RemoveEach(manager.removeError, manager.logins, targets[i..])
      {
        assert targets[i..][1..] == targets[i + 1..];
        var error := manager.RemoveLogin(targets[i]);
        if error.Some? {
          return Err(error.value);
        }
      }
      return Ok(());
    }
  }
}
