/**
  The browser's native login manager (`Services.logins`), the collaborator the
  facade reads and writes. Its storage engine is not modelled: whether an
  `addLogin` or `removeLogin` call throws is decided by two fixed but otherwise
  arbitrary functions of the current contents and the record.
*/
module Logins {
  import opened Wrappers
  import opened Seqs

  /** An `nsILoginInfo`: every attribute may be null. */
  datatype LoginInfo = LoginInfo(
    hostname: Option<string>,
    formSubmitURL: Option<string>,
    httpRealm: Option<string>,
    username: Option<string>,
    password: Option<string>,
    usernameField: Option<string>,
    passwordField: Option<string>)
  {
    /** `info[name]`: the attribute called `name`, or undefined (None) for any other name. */
    function Attr(name: string): Option<string>
    {
      if name == "hostname" then hostname
      else if name == "formSubmitURL" then formSubmitURL
      else if name == "httpRealm" then httpRealm
      else if name == "username" then username
      else if name == "password" then password
      else if name == "usernameField" then usernameField
      else if name == "passwordField" then passwordField
      else None
    }
  }

  /** Whether a store operation on `login` throws, and with which message, given the current contents. */
  type StoreFailure = (seq<LoginInfo>, LoginInfo) -> Option<string>

  class LoginManager {
    /** The stored logins, in enumeration order. */
    var logins: seq<LoginInfo>
    const addError: StoreFailure
    const removeError: StoreFailure

    constructor (addError: StoreFailure, removeError: StoreFailure)
      ensures logins == []
      ensures this.addError == addError && this.removeError == removeError
    {
      logins := [];
      this.addError := addError;
      this.removeError := removeError;
    }

    /** `getAllLogins()`: a snapshot of every stored login. */
    method GetAllLogins() returns (all: seq<LoginInfo>)
      ensures all == logins
    {
      all := logins;
    }

    /** `addLogin(login)`: appends `login`, unless the store refuses it. */
    method AddLogin(login: LoginInfo) returns (error: Option<string>)
      modifies this
      ensures error == addError(old(logins), login)
      ensures logins == if error.None? then old(logins) + [login] else old(logins)
    {
      error := addError(logins, login);
      if error.None? {
        logins := logins + [login];
      }
    }

    /** `removeLogin(login)`: deletes the stored login equal to `login`, unless the store refuses. */
    method RemoveLogin(login: LoginInfo) returns (error: Option<string>)
      modifies this
      ensures error == removeError(old(logins), login)
      ensures logins == if error.None? then RemoveFirst(old(logins), login) else old(logins)
    {
      error := removeError(logins, login);
      if error.None? {
        logins := RemoveFirst(logins, login);
      }
    }
  }
}
