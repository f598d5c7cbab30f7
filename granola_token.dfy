/**
 * The browser-side Granola token hook: the token kept in component state and mirrored
 * in the page's local storage under one key.
 */
module GranolaToken {
  import opened Common
  import opened Text

  const TokenStorageKey: string := "granola_access_token"

  /**
   * What the first load makes of the stored value: the value exactly as stored when it
   * has any non-space character, otherwise no token.
   */
  function LoadedToken(stored: Option<string>): (r: Option<string>)
    ensures r.Some? <==> stored.Some? && !IsBlank(stored.value)
    ensures r.Some? ==> r == stored
  {
    if stored.Some? && stored.value != "" && !IsBlank(stored.value) then stored else None
  }

  /** A token written by `setToken` reloads on the next visit as the same token. */
  lemma {:induction false} StoredTokenReloads(next: string)
    requires !IsBlank(next)
    ensures LoadedToken(Some(Trim(next))) == Some(Trim(next))
  {
    TrimOfTrimmed(Trim(next));
  }

  /** A stored value with surrounding white space is loaded untrimmed. */
  lemma LoadKeepsSurroundingSpace()
    ensures LoadedToken(Some(" t")) == Some(" t")
  {
    assert Trim(" t") != [] by {
      assert !AllSpace(" t") by { assert !IsSpace(" t"[1]); }
    }
  }

  /** The hook's state, with `storage` the page's local storage. */
  class TokenHook {
    var token: Option<string>
    var isLoading: bool
    var storage: map<string, string>

    /** A token in state always has a non-space character. */
    predicate Valid()
      reads this
    {
      token.Some? ==> !IsBlank(token.value)
    }

    /** The initial `useState` values, before the effect has read storage. */
    constructor(storage: map<string, string>)
      ensures Valid()
      ensures token == None && isLoading && this.storage == storage
    {
      token := None;
      isLoading := true;
      this.storage := storage;
    }

    /** `hasToken`: a string token with a non-space character. */
    function HasToken(): (r: bool)
      reads this
      ensures r <==> token.Some? && !IsBlank(token.value)
      ensures Valid() ==> (r <==> token.Some?)
    {
      token.Some? && !IsBlank(token.value)
    }

    /** The mount effect; `readFails` when reading local storage throws. */
    method InitialLoad(readFails: bool)
      requires Valid()
      modifies this
      ensures Valid()
      ensures !isLoading && storage == old(storage)
      ensures readFails ==> token == None
      ensures !readFails ==> token == LoadedToken(if TokenStorageKey in storage then Some(storage[TokenStorageKey]) else None)
    {
      if readFails {
        token := None;
      } else {
        var stored := if TokenStorageKey in storage then Some(storage[TokenStorageKey]) else None;
        token := LoadedToken(stored);
      }
      isLoading := false;
    }

    /**
     * `setToken`: a blank value is ignored; otherwise the trimmed value becomes the token
     * and, unless writing throws (`writeFails`), the stored value under the key.
     */
    method SetToken(next: string, writeFails: bool)
      requires Valid()
      modifies this
      ensures Valid()
      ensures isLoading == old(isLoading)
      ensures IsBlank(next) ==> token == old(token) && storage == old(storage)
      ensures !IsBlank(next) ==> token == Some(Trim(next)) && HasToken()
      ensures !IsBlank(next) && !writeFails ==> storage == old(storage)[TokenStorageKey := Trim(next)]
      ensures !IsBlank(next) && writeFails ==> storage == old(storage)
    {
      var normalized := Trim(next);
      if normalized == [] {
        return;
      }
      TrimOfTrimmed(normalized);
      token := Some(normalized);
      if !writeFails {
        storage := storage[TokenStorageKey := normalized];
      }
    }

    /** `clearToken`: the token goes, and so does the stored value unless removing it throws. */
    method ClearToken(removeFails: bool)
      requires Valid()
      modifies this
      ensures Valid()
      ensures token == None && !HasToken() && isLoading == old(isLoading)
      ensures !removeFails ==> storage == old(storage) - {TokenStorageKey}
      ensures removeFails ==> storage == old(storage)
    {
      token := None;
      if !removeFails {
        storage := storage - {TokenStorageKey};
      }
    }
  }
}
