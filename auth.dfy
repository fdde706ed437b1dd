/** The token refresh done before every call to the video platform: the
    stored tokens are loaded into a fresh OAuth client and, when they expire
    within five minutes and can be renewed, renewed and written back. */
module Auth {
  import opened Wrappers

  /** The OAuth tokens of the profile document; an absent field is `None`.
      `expiryDate` is in milliseconds since the epoch. */
  datatype Credentials = Credentials(
    accessToken: Option<string>,
    refreshToken: Option<string>,
    expiryDate: Option<int>)

  /** Five minutes, in milliseconds. */
  const RefreshMargin: int := 5 * 60 * 1000

  /** `!expiryDate || expiryDate - now < 5 * 60 * 1000`: an absent (or zero)
      expiry, an expired token and one expiring within five minutes. */
  predicate ShouldRefresh(expiryDate: Option<int>, now: int) {
    match expiryDate
    case None => true
    case Some(e) => e == 0 || e - now < RefreshMargin
  }

  /** A refresh token that is present and not the empty string. */
  predicate HasRefreshToken(c: Credentials) {
    c.refreshToken.Some? && c.refreshToken.value != ""
  }

  predicate WillRefresh(c: Credentials, now: int) {
    ShouldRefresh(c.expiryDate, now) && HasRefreshToken(c)
  }

  /** A token already past its expiry, or expiring within the margin, is due. */
  lemma DueWithinMargin(e: int, now: int)
    ensures e < now + RefreshMargin ==> ShouldRefresh(Some(e), now)
    ensures e != 0 && e >= now + RefreshMargin ==> !ShouldRefresh(Some(e), now)
  {
  }

  /** The profile collection's single document, reduced to its `tokens` field,
      with the number of `updateOne` writes issued to it. */
  class ProfileStore {
    var tokens: Option<Credentials>
    var writes: nat

    constructor (tokens: Option<Credentials>)
      ensures this.tokens == tokens && writes == 0
    {
      this.tokens := tokens;
      writes := 0;
    }

    /** `updateOne({}, {$set: {tokens}}, {upsert: true})`. */
    method SaveTokens(c: Credentials)
      modifies this
      ensures tokens == Some(c) && writes == old(writes) + 1
    {
      tokens := Some(c);
      writes := writes + 1;
    }
  }

  /** The OAuth client, reduced to the credentials it holds. */
  class OAuthClient {
    var credentials: Credentials

    constructor (c: Credentials)
      ensures credentials == c
    {
      credentials := c;
    }

    /** `setCredentials` replaces the held credentials. */
    method SetCredentials(c: Credentials)
      modifies this
      ensures credentials == c
    {
      credentials := c;
    }
  }

  datatype AuthError = NoTokensFound

  /** `now` is `Date.now()`; `renewed` is what `refreshAccessToken` answers when it is called. */
  method RefreshTokenIfNeeded(store: ProfileStore, now: int, renewed: Credentials)
    returns (r: Result<OAuthClient, AuthError>)
    modifies store
    ensures old(store.tokens).None? ==> r == Failure(NoTokensFound) && unchanged(store)
    ensures old(store.tokens).Some? ==> r.Success? && fresh(r.value)
    ensures old(store.tokens).Some? && WillRefresh(old(store.tokens).value, now) ==>
      r.value.credentials == renewed && store.tokens == Some(renewed) && store.writes == old(store.writes) + 1
    ensures old(store.tokens).Some? && !WillRefresh(old(store.tokens).value, now) ==>
      r.value.credentials == old(store.tokens).value && unchanged(store)
  {
    if store.tokens.None? {
      return Failure(NoTokensFound);
    }
    var client := new OAuthClient(store.tokens.value);
    var expiryDate := client.credentials.expiryDate;
    var shouldRefresh := ShouldRefresh(expiryDate, now);
    if shouldRefresh && HasRefreshToken(client.credentials) {
      client.SetCredentials(renewed);
      store.SaveTokens(renewed);
      return Success(client);
    }
    return Success(client);
  }
}
