/**
 * The two request handlers of api/index.js that carry the OAuth 1.0a
 * redirect-based flow (section 2 of RFC 5849): `/login` stores the
 * provider-issued request token and secret in the client's session, and
 * `/callback` checks the returned `oauth_token` against it before it
 * exchanges the verifier, numbers the user and renames the account.
 *
 * The provider, the image host and the session middleware are outside the
 * model: what they answer is an input, and what the handler asks of them is
 * an output trace of `ProviderCall`s in the order the handler makes them.
 */
module HertaApp {
  import opened Wrappers
  import opened Numbering
  import opened Naming

  const InvalidRequestMessage: string := "Invalid OAuth request."
  const UpdateFailedMessage: string := "Something went wrong updating your profile."

  /** What `client.generateAuthLink(CALLBACK_URL)` resolves to. */
  datatype AuthLink = AuthLink(url: string, oauthToken: string, oauthTokenSecret: string)

  /** The two query parameters the provider's redirect brings back; `None` is absent. */
  datatype Query = Query(oauthToken: Option<string>, oauthVerifier: Option<string>)

  /**
   * What the outside world answers during one callback. `loginOk` says
   * whether `loginClient.login` resolves, `userId` is `None` when `v2.me`
   * rejects; the three flags say whether
   * the image fetch, the name update and the avatar update succeed.
   */
  datatype Replies = Replies(
    loginOk: bool,
    userId: Option<string>,
    imageFetched: bool,
    nameUpdated: bool,
    avatarUpdated: bool)

  /** A request the handler sends to the provider or the image host. */
  datatype ProviderCall =
    | Login(accessToken: string, accessSecret: Option<string>, verifier: string)
    | Me
    | FetchImage
    | UpdateName(name: string)
    | UpdateImage

  /**
   * How a request ends: a redirect, a status with a body, the confirmation
   * page naming the new display name, or `NoResponse` when a promise outside
   * the `try` rejects and the handler itself sends nothing (what the
   * framework then does is outside the model).
   */
  datatype Response =
    | Redirect(url: string)
    | Status(code: nat, message: string)
    | Confirmed(displayName: string)
    | NoResponse

  /** JavaScript truthiness of a query parameter: absent and "" are falsy. */
  predicate TruthyParam(v: Option<string>)
  {
    v.Some? && v.value != ""
  }

  /**
   * The negation of the rejection test
   * `!oauth_token || !oauth_verifier || oauth_token !== oauthToken`, where
   * `stored` is the session's token (`None` when `/login` never ran).
   */
  function CallbackAccepted(q: Query, stored: Option<string>): (ok: bool)
    ensures ok <==>
      && q.oauthToken.Some? && q.oauthToken.value != ""
      && q.oauthVerifier.Some? && q.oauthVerifier.value != ""
      && stored == Some(q.oauthToken.value)
  {
    !(!TruthyParam(q.oauthToken) || !TruthyParam(q.oauthVerifier) || q.oauthToken != stored)
  }

  /** A session that never went through `/login` accepts no callback. */
  lemma NoLoginNoCallback(q: Query)
    ensures !CallbackAccepted(q, None)
  {
  }

  /** A callback whose token differs from the stored one is refused, whatever its verifier. */
  lemma MismatchRejected(q: Query, stored: string)
    requires q.oauthToken != Some(stored)
    ensures !CallbackAccepted(q, Some(stored))
  {
  }

  /**
   * The calls the `try` block makes once the name is known: fetch the
   * image, then update the name, then the avatar, stopping at the first
   * failure.
   */
  function MutationCalls(r: Replies, name: string): (calls: seq<ProviderCall>)
    ensures 1 <= |calls| <= 3 && calls[0] == FetchImage
    ensures |calls| >= 2 <==> r.imageFetched
    ensures |calls| == 3 <==> r.imageFetched && r.nameUpdated
    ensures |calls| >= 2 ==> calls[1] == UpdateName(name)
    ensures |calls| == 3 ==> calls[2] == UpdateImage
  {
    [FetchImage]
      + (if r.imageFetched then [UpdateName(name)] else [])
      + (if r.imageFetched && r.nameUpdated then [UpdateImage] else [])
  }

  /** Whether every call inside the `try` block succeeds. */
  predicate MutationSucceeds(r: Replies)
  {
    r.imageFetched && r.nameUpdated && r.avatarUpdated
  }

  /**
   * What `/callback` does once its check passed, from the table before to
   * the table after: it logs in first; without a user id the table stays
   * and nothing is sent; with one, the table is the one `Assign` gives, the
   * profile calls carry that number's display name, and only their full
   * success confirms it.
   */
  ghost predicate CompletedAs(before: Table, after: Table, accessToken: string,
                              accessSecret: Option<string>, verifier: string,
                              replies: Replies, r: Response, calls: seq<ProviderCall>)
  {
    var login := Login(accessToken, accessSecret, verifier);
    if !replies.loginOk || replies.userId.None? then
      && r == NoResponse
      && after == before
      && calls == [login] + (if replies.loginOk then [Me] else [])
    else
      var n := Assign(before, replies.userId.value).1;
      && after == Assign(before, replies.userId.value).0
      && calls == [login, Me] + MutationCalls(replies, DisplayName(n))
      && r == (if MutationSucceeds(replies) then Confirmed(DisplayName(n))
               else Status(500, UpdateFailedMessage))
  }

  /**
   * The `try` block of `/callback`: fetch the image, update the name, update
   * the avatar, each only after the one before succeeded. Any failure ends
   * in the one 500 of the `catch`; only full success confirms the new name.
   */
  method UpdateProfile(replies: Replies, newName: string)
    returns (r: Response, calls: seq<ProviderCall>)
    ensures calls == MutationCalls(replies, newName)
    ensures r == Confirmed(newName) <==> MutationSucceeds(replies)
    ensures !MutationSucceeds(replies) ==> r == Status(500, UpdateFailedMessage)
  {
    calls := [FetchImage];
    if !replies.imageFetched {
      return Status(500, UpdateFailedMessage), calls;
    }
    calls := calls + [UpdateName(newName)];
    if !replies.nameUpdated {
      return Status(500, UpdateFailedMessage), calls;
    }
    calls := calls + [UpdateImage];
    if !replies.avatarUpdated {
      return Status(500, UpdateFailedMessage), calls;
    }
    r := Confirmed(newName);
  }

  /**
   * The per-client session record of the session middleware: the request
   * token and secret `/login` stored, absent in a fresh session.
   */
  class Session {
    var oauthToken: Option<string>
    var oauthTokenSecret: Option<string>

    constructor ()
      ensures oauthToken == None && oauthTokenSecret == None
    {
      oauthToken := None;
      oauthTokenSecret := None;
    }
  }

  /** The process: the module-level `puppetDB` table and the two handlers. */
  class App {
    var puppetDB: Table

    ghost predicate Valid()
      reads this
    {
      WellNumbered(puppetDB)
    }

    constructor ()
      ensures Valid() && puppetDB == map[]
    {
      puppetDB := map[];
    }

    /**
     * `/login`. `link` is what `generateAuthLink` resolves to, `None` when
     * it rejects (then nothing is stored and the handler itself sends
     * nothing). On success the session holds exactly the issued token and
     * secret, so a callback checked against the session as `/login` left
     * it passes when it brings that token, when it is non-empty, and any
     * non-empty verifier. A later `/login` overwrites both fields.
     */
    method HandleLogin(session: Session, link: Option<AuthLink>) returns (r: Response)
      modifies session
      ensures link.None? ==>
        && r == NoResponse
        && session.oauthToken == old(session.oauthToken)
        && session.oauthTokenSecret == old(session.oauthTokenSecret)
      ensures link.Some? ==>
        && r == Redirect(link.value.url)
        && session.oauthToken == Some(link.value.oauthToken)
        && session.oauthTokenSecret == Some(link.value.oauthTokenSecret)
      ensures link.Some? && link.value.oauthToken != "" ==>
        forall v: string {:trigger Query(Some(link.value.oauthToken), Some(v))} :: v != "" ==>
          CallbackAccepted(Query(Some(link.value.oauthToken), Some(v)), session.oauthToken)
    {
      if link.None? {
        return NoResponse;
      }
      session.oauthToken := Some(link.value.oauthToken);
      session.oauthTokenSecret := Some(link.value.oauthTokenSecret);
      r := Redirect(link.value.url);
    }

    /**
     * The numbering step of `/callback`: an id not yet in the table gets
     * the table's size plus one and is stored under it, a known id gets
     * its stored number back. The table keeps its invariant.
     */
    method AssignPuppet(id: string) returns (puppetNum: nat)
      requires Valid()
      modifies this
      ensures Valid()
      ensures (puppetDB, puppetNum) == Assign(old(puppetDB), id)
      ensures id !in old(puppetDB) ==>
        puppetNum == |old(puppetDB)| + 1 && puppetDB == old(puppetDB)[id := puppetNum]
      ensures id in old(puppetDB) ==>
        puppetNum == old(puppetDB)[id] && puppetDB == old(puppetDB)
      ensures puppetDB.Values == Ordinals(|puppetDB|)
    {
      AssignWellNumbered(puppetDB, id);
      if IsUnseen(puppetDB, id) {
        puppetNum := |puppetDB| + 1;
        puppetDB := puppetDB[id := puppetNum];
      } else {
        puppetNum := puppetDB[id];
      }
      WellNumberedValues(puppetDB);
    }

    /**
     * `/callback`. Returns the response and the calls made to the outside
     * world. A request that fails the check gets 400, makes no call and
     * leaves the table alone; one that passes goes on as `CompleteLogin`
     * with the session's stored token and secret and the query's verifier.
     */
    method HandleCallback(session: Session, q: Query, replies: Replies)
      returns (r: Response, calls: seq<ProviderCall>)
      requires Valid()
      modifies this
      ensures Valid()
      ensures !CallbackAccepted(q, session.oauthToken) ==>
        && r == Status(400, InvalidRequestMessage)
        && calls == []
        && puppetDB == old(puppetDB)
      ensures CallbackAccepted(q, session.oauthToken) ==>
        CompletedAs(old(puppetDB), puppetDB, session.oauthToken.value,
                    session.oauthTokenSecret, q.oauthVerifier.value, replies, r, calls)
    {
      var token, verifier := q.oauthToken, q.oauthVerifier;
      var storedToken, storedSecret := session.oauthToken, session.oauthTokenSecret;
      if !TruthyParam(token) || !TruthyParam(verifier) || token != storedToken {
        return Status(400, InvalidRequestMessage), [];
      }
      r, calls := CompleteLogin(storedToken.value, storedSecret, verifier.value, replies);
    }

    /**
     * `/callback` after its check. The first call is the login with the
     * stored token and secret and the verifier. A failing login or `me`
     * leaves the table alone and the handler itself sends nothing. Otherwise the user is
     * numbered before the profile is touched, so a failing update still
     * leaves the number assigned; the name sent is the display name of that
     * number.
     */
    method CompleteLogin(accessToken: string, accessSecret: Option<string>, verifier: string,
                         replies: Replies)
      returns (r: Response, calls: seq<ProviderCall>)
      requires Valid()
      modifies this
      ensures Valid()
      ensures CompletedAs(old(puppetDB), puppetDB, accessToken, accessSecret, verifier,
                          replies, r, calls)
    {
      calls := [Login(accessToken, accessSecret, verifier)];
      if !replies.loginOk {
        return NoResponse, calls;
      }
      calls := calls + [Me];
      if replies.userId.None? {
        return NoResponse, calls;
      }

      var puppetNum := AssignPuppet(replies.userId.value);
      var newName := DisplayName(puppetNum);
      var tail;
      r, tail := UpdateProfile(replies, newName);
      calls := calls + tail;
    }
  }
}
