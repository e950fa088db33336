/** Properties of the `logins` API that relate several of its operations. */
module ApiProperties {
  import opened Wrappers
  import opened Seqs
  import opened Logins
  import opened Api

  // ---------------------------------------------------------------------------
  // convert

  /** `convert` loses nothing: rebuilding a login from its public image gives it back. */
  lemma ConvertIsLossless(login: LoginInfo)
    ensures NewLoginInfo(Value(ToPublic(login), "origin"), ToPublic(login)) == login
  {
  }

  /** A public record carrying exactly the seven fields is the image of the login built from it. */
  lemma {:induction false} PublicRecordRoundTrip(obj: PublicRecord)
    requires obj.Keys == FIELDS.Keys
    ensures ToPublic(NewLoginInfo(Value(obj, "origin"), obj)) == obj
  {
    var login := NewLoginInfo(Value(obj, "origin"), obj);
    forall field | field in FIELDS
      ensures ToPublic(login)[field] == obj[field]
    {
      if field == "origin" {
        assert ToPublic(login)["origin"] == login.hostname;
      } else {
        assert NativeValue(login, field) == Value(obj, field);
      }
    }
  }

  // ---------------------------------------------------------------------------
  // match

  /** The empty search matches every record. */
  lemma MatchEmptyQuery(login: LoginInfo)
    ensures Match(login, map[])
  {
  }

  /** Every record matches its own public image used as a search. */
  lemma MatchOwnImage(login: LoginInfo)
    ensures Match(login, ToPublic(login))
  {
  }

  /** Dropping fields from a search never loses a match. */
  lemma MatchWeakening(login: LoginInfo, query: Query, narrower: Query)
    requires forall field :: field in query ==> field in narrower && narrower[field] == query[field]
    requires Match(login, narrower)
    ensures Match(login, query)
  {
  }

  // ---------------------------------------------------------------------------
  // accessible

  /** Granting more host permissions never revokes access, and extension-internal URLs ignore them. */
  lemma AccessibleMonotone(weaker: Context, stronger: Context, newURI: UriParser, origin: Option<string>)
    requires weaker.id == stronger.id && weaker.uuid == stronger.uuid
    requires forall url :: weaker.whiteListedHosts(url) ==> stronger.whiteListedHosts(url)
    ensures Accessible(weaker, newURI, origin) ==> Accessible(stronger, newURI, origin)
  {
  }

  // ---------------------------------------------------------------------------
  // search

  /** An empty store yields no results. */
  lemma FoundInEmptyStore(context: Context, newURI: UriParser, query: Query)
    ensures Found(context, newURI, [], query) == []
  {
  }

  /** `search` returns the public images of exactly the accessible, matching stored records. */
  lemma {:induction false} FoundMembers(context: Context, newURI: UriParser, logins: seq<LoginInfo>, query: Query,
                                         obj: PublicRecord)
    ensures obj in Found(context, newURI, logins, query) <==>
      exists login :: login in logins && Accessible(context, newURI, login.hostname) && Match(login, query)
                      && obj == ToPublic(login)
  {
    var chosen := Both(AccessibleTo(context, newURI), MatchedBy(query));
    FilterFilter(logins, AccessibleTo(context, newURI), MatchedBy(query));
    MapFilterMembers(ToPublic, logins, chosen, obj);
  }

  /** Results come in store order: the images of the stored records passing both tests, one per record. */
  lemma FoundInStoreOrder(context: Context, newURI: UriParser, logins: seq<LoginInfo>, query: Query)
    ensures Found(context, newURI, logins, query)
         == MapSeq(ToPublic, Filter(logins, Both(AccessibleTo(context, newURI), MatchedBy(query))))
  {
    FilterFilter(logins, AccessibleTo(context, newURI), MatchedBy(query));
  }

  /** Appending a record adds its image to the end of a search exactly when it is accessible and matches. */
  lemma {:induction false} FoundAfterAppend(context: Context, newURI: UriParser, logins: seq<LoginInfo>,
                                             query: Query, login: LoginInfo)
    ensures Found(context, newURI, logins + [login], query)
         == Found(context, newURI, logins, query)
            + (if Accessible(context, newURI, login.hostname) && Match(login, query) then [ToPublic(login)] else [])
  {
    var accessible, matched := AccessibleTo(context, newURI), MatchedBy(query);
    var tail := if accessible(login) && matched(login) then [login] else [];
    assert Selected(context, newURI, logins + [login], query) == Selected(context, newURI, logins, query) + tail by {
      FilterAppend(logins, [login], accessible);
      FilterSingle(login, accessible);
      FilterAppend(Filter(logins, accessible), Filter([login], accessible), matched);
      FilterSingle(login, matched);
      assert Filter([], matched) == [];
    }
    MapSeqAppend(ToPublic, Selected(context, newURI, logins, query), tail);
    assert MapSeq(ToPublic, tail) == if tail == [] then [] else [ToPublic(login)];
  }

  /** A context with at least the host permissions of another sees at least its results. */
  lemma MorePermissionsSeeMore(weaker: Context, stronger: Context, newURI: UriParser, logins: seq<LoginInfo>,
                               query: Query, obj: PublicRecord)
    requires weaker.id == stronger.id && weaker.uuid == stronger.uuid
    requires forall url :: weaker.whiteListedHosts(url) ==> stronger.whiteListedHosts(url)
    requires obj in Found(weaker, newURI, logins, query)
    ensures obj in Found(stronger, newURI, logins, query)
  {
    FoundMembers(weaker, newURI, logins, query, obj);
    var login :| login in logins && Accessible(weaker, newURI, login.hostname) && Match(login, query)
                 && obj == ToPublic(login);
    AccessibleMonotone(weaker, stronger, newURI, login.hostname);
    FoundMembers(stronger, newURI, logins, query, obj);
  }

  /**
    Authorisation depends on the origin alone: contexts that grant the same
    origins get the same results for the same search.
  */
  lemma {:induction false} SameAccessSameResults(first: Context, second: Context, newURI: UriParser,
                                                 logins: seq<LoginInfo>, query: Query)
    requires forall origin :: Accessible(first, newURI, origin) == Accessible(second, newURI, origin)
    ensures Found(first, newURI, logins, query) == Found(second, newURI, logins, query)
  {
    FilterAgreeing(logins, AccessibleTo(first, newURI), AccessibleTo(second, newURI));
  }

  // ---------------------------------------------------------------------------
  // store

  /** Without a usable origin, formSubmitURL or realm, `store` has no origin and rejects. */
  lemma NoOriginWithoutFields(newURI: UriParser, info: PublicRecord)
    requires !Truthy(Value(info, "origin"))
    requires !Truthy(Value(info, "formSubmitURL")) && !Truthy(Value(info, "realm"))
    ensures ResolvedOrigin(newURI, info) == None
  {
  }

  /**
    A non-empty `origin` is used as given, whatever formSubmitURL and realm
    hold: a field that does not parse or disagrees does not cause a rejection.
  */
  lemma GivenOriginWins(newURI: UriParser, info: PublicRecord)
    requires Truthy(Value(info, "origin"))
    ensures ResolvedOrigin(newURI, info) == Value(info, "origin")
  {
  }

  /**
    Without an origin, a parsable formSubmitURL supplies it even when the realm
    points elsewhere or does not parse.
  */
  lemma FormSubmitUrlBeforeRealm(newURI: UriParser, info: PublicRecord, url: Url)
    requires !Truthy(Value(info, "origin")) && Truthy(Value(info, "formSubmitURL"))
    requires newURI(Value(info, "formSubmitURL").value) == Some(url) && url.prePath != ""
    ensures ResolvedOrigin(newURI, info) == Some(url.prePath)
  {
  }

  /** Without an origin and a usable formSubmitURL, the realm's prePath is the origin. */
  lemma RealmAsLastResort(newURI: UriParser, info: PublicRecord, url: Url)
    requires !Truthy(Value(info, "origin")) && !Truthy(Candidate(newURI, info, "formSubmitURL"))
    requires Truthy(Value(info, "realm")) && newURI(Value(info, "realm").value) == Some(url)
    ensures ResolvedOrigin(newURI, info) == if url.prePath == "" then None else Some(url.prePath)
  {
  }

  /**
    Storing a complete record with an accessible origin and then searching by
    that origin returns the earlier results followed by the record itself.
  */
  lemma {:induction false} StoreThenSearch(context: Context, newURI: UriParser, logins: seq<LoginInfo>,
                                            info: PublicRecord)
    requires info.Keys == FIELDS.Keys && Truthy(info["origin"])
    requires Accessible(context, newURI, info["origin"])
    ensures ResolvedOrigin(newURI, info) == info["origin"]
    ensures var query := map["origin" := info["origin"]];
      Found(context, newURI, logins + [NewLoginInfo(info["origin"], info)], query)
        == Found(context, newURI, logins, query) + [info]
  {
    var login := NewLoginInfo(info["origin"], info);
    PublicRecordRoundTrip(info);
    FoundAfterAppend(context, newURI, logins, map["origin" := info["origin"]], login);
  }

  // ---------------------------------------------------------------------------
  // remove

  /**
    Removing the selected records one by one from a store whose selected
    records are `targets`: the unselected records stay as they were; the
    selected ones left are a suffix of `targets`; the removal fails exactly
    when one is left, with the store's error for the first of them.
  */
  lemma {:induction false} RemoveEachOutcome(removeError: StoreFailure, p: LoginInfo -> bool,
                                              logins: seq<LoginInfo>, targets: seq<LoginInfo>)
    requires Filter(logins, p) == targets
    ensures var (left, error) := RemoveEach(removeError, logins, targets);
      && Reject(left, p) == Reject(logins, p)
      && (exists k :: 0 <= k <= |targets| && Filter(left, p) == targets[k..])
      && (error.None? <==> Filter(left, p) == [])
      && (error.Some? ==> Filter(left, p) != [] && error == removeError(left, Filter(left, p)[0]))
    decreases |targets|
  {
    if targets == [] {
      assert Filter(logins, p) == targets[0..];
    } else {
      match removeError(logins, targets[0]) {
        case Some(e) =>
          assert Filter(logins, p) == targets[0..];
        case None =>
          assert targets[0] in Filter(logins, p);
          assert targets == [targets[0]] + targets[1..];
          RemoveFirstSelected(logins, p, targets[0], targets[1..]);
          var next := RemoveFirst(logins, targets[0]);
          RemoveEachOutcome(removeError, p, next, targets[1..]);
          var left := RemoveEach(removeError, next, targets[1..]).0;
          var k :| 0 <= k <= |targets[1..]| && Filter(left, p) == targets[1..][k..];
          assert targets[1..][k..] == targets[k + 1..];
      }
    }
  }

  /**
    What `remove(query)` leaves: every record it did not select is still there
    in order; on success none of the selected records remain, and on failure
    the ones left are a suffix of the selection, the first of them being the one
    the store refused.
  */
  lemma RemoveOutcome(context: Context, newURI: UriParser, removeError: StoreFailure, logins: seq<LoginInfo>,
                      query: Query)
    ensures var chosen := Both(AccessibleTo(context, newURI), MatchedBy(query));
      var selected := Selected(context, newURI, logins, query);
      var (left, error) := RemoveEach(removeError, logins, selected);
      && Reject(left, chosen) == Reject(logins, chosen)
      && (exists k :: 0 <= k <= |selected| && Selected(context, newURI, left, query) == selected[k..])
      && (error.None? ==> left == Reject(logins, chosen) && Found(context, newURI, left, query) == [])
      && (error.Some? ==> Selected(context, newURI, left, query) != []
                          && error == removeError(left, Selected(context, newURI, left, query)[0]))
  {
    var accessible, matched := AccessibleTo(context, newURI), MatchedBy(query);
    var chosen := Both(accessible, matched);
    var selected := Selected(context, newURI, logins, query);
    FilterFilter(logins, accessible, matched);
    RemoveEachOutcome(removeError, chosen, logins, selected);
    var left := RemoveEach(removeError, logins, selected).0;
    FilterFilter(left, accessible, matched);
    if Filter(left, chosen) == [] {
      RejectNoneSelected(left, chosen);
      assert Reject(left, chosen) == left;
    }
  }

  /** A context that sees no matching record removes nothing and succeeds. */
  lemma RemoveNothingVisible(context: Context, newURI: UriParser, removeError: StoreFailure,
                             logins: seq<LoginInfo>, query: Query)
    requires forall login :: login in logins ==> !Accessible(context, newURI, login.hostname)
    ensures RemoveEach(removeError, logins, Selected(context, newURI, logins, query)) == (logins, None)
  {
    FilterEmpty(logins, AccessibleTo(context, newURI));
    assert Filter([], MatchedBy(query)) == [];
  }
}
