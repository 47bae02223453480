/** The client's access-token refresh coordination
    (`Scaler.refreshAccessTokenIfNeeded`). Every call that finds the token
    missing or expired either becomes the single refresher or parks a
    future on `refreshPromises`; the refresher's outcome settles all of
    those futures at once.

    The code between the expiry check and setting the flag has no
    suspension point, and neither has the code that settles the waiters,
    so each is one atomic step here: `Request`, `Succeed` and `Fail` on a
    `BrokerState` value, and the methods of class `Scaler` that perform
    them in place. A future is an index into `futures`, the states of all
    futures the broker has created; `refreshPromises` holds the indices
    of the futures still waiting. */
module TokenBroker {
  import opened Common

  /** An access token as held by the client: the raw string and the `exp`
      claim decoded from it (seconds since the epoch). */
  datatype Token = Token(raw: string, exp: int)

  /** Why a refresh failed; this one value is raised by the refresher and
      delivered to every waiter of the same attempt. */
  datatype RefreshError =
    | IssuanceStatus(status: int, text: string)  // the endpoint answered with a status other than 200
    | MissingAccessToken                         // a 200 answer without an `accessToken` key
    | Transport(reason: string)                  // any other exception raised during the call

  /** What the issuance endpoint call produced. */
  datatype IssuanceReply =
    | Reply(status: int, text: string, accessToken: Option<Token>)
    | Raised(reason: string)

  datatype FutureState = Pending | Resolved | Rejected(error: RefreshError)

  /** What one call of the refresh check did. */
  datatype Outcome = UpToDate | BecameRefresher | Enqueued(handle: nat)

  datatype BrokerState = BrokerState(
    accessToken: Option<Token>,
    refreshing: bool,
    refreshPromises: seq<nat>,
    futures: seq<FutureState>)

  /** A refresh is needed when there is no token (or an empty one), or when
      the current time has reached the token's expiry. */
  predicate NeedsRefresh(token: Option<Token>, now: int)
  {
    token.None? || token.value.raw == "" || now >= token.value.exp
  }

  /** A token that needs refreshing keeps needing it as time passes: waiting
      never makes a stale token usable again. */
  lemma NeedsRefreshLater(token: Option<Token>, now: int, later: int)
    requires now <= later && NeedsRefresh(token, now)
    ensures NeedsRefresh(token, later)
  {
  }

  /** Every waiting index names a future the broker created. */
  predicate InRange(s: BrokerState)
  {
    forall i :: 0 <= i < |s.refreshPromises| ==> s.refreshPromises[i] < |s.futures|
  }

  /** The broker's invariant: waiters exist only while a refresh is in
      flight, and a future is pending exactly when it is on the waiting
      list (none is forgotten, none is settled twice). */
  predicate Valid(s: BrokerState)
  {
    InRange(s) &&
    (s.refreshPromises != [] ==> s.refreshing) &&
    (forall k :: 0 <= k < |s.futures| ==> (s.futures[k].Pending? <==> k in s.refreshPromises))
  }

  function Initial(): (s: BrokerState)
    ensures Valid(s)
  {
    BrokerState(None, false, [], [])
  }

  /** The atomic part of `refreshAccessTokenIfNeeded` before its first
      suspension point. */
  function Request(s: BrokerState, now: int): (r: (BrokerState, Outcome))
    ensures r.1 == UpToDate <==> !NeedsRefresh(s.accessToken, now)
    ensures r.1 == UpToDate ==> r.0 == s
    ensures r.1 == BecameRefresher <==> NeedsRefresh(s.accessToken, now) && !s.refreshing
    ensures r.1.Enqueued? <==> NeedsRefresh(s.accessToken, now) && s.refreshing
    ensures r.1.Enqueued? ==>
              r.1.handle == |s.futures| &&
              r.0.refreshPromises == s.refreshPromises + [r.1.handle] &&
              r.0.futures == s.futures + [Pending]
    ensures r.1 == BecameRefresher ==> r.0 == s.(refreshing := true)
    ensures r.0.accessToken == s.accessToken
    ensures r.0.refreshing == (s.refreshing || NeedsRefresh(s.accessToken, now))
    ensures InRange(s) ==> InRange(r.0)
    ensures Valid(s) ==> Valid(r.0)
  {
    if !NeedsRefresh(s.accessToken, now) then (s, UpToDate)
    else if s.refreshing then
      var k := |s.futures|;
      (s.(refreshPromises := s.refreshPromises + [k], futures := s.futures + [Pending]), Enqueued(k))
    else (s.(refreshing := true), BecameRefresher)
  }

  /** The check skips the refresh, and changes nothing, exactly when a
      non-empty token is held and the time is before its expiry. */
  lemma UsableTokenSkipsRefresh(s: BrokerState, now: int)
    ensures Request(s, now).1 == UpToDate <==>
              (s.accessToken.Some? && s.accessToken.value.raw != "" && now < s.accessToken.value.exp)
    ensures Request(s, now).1 == UpToDate ==> Request(s, now).0 == s
  {
  }

  /** Settle every future named in `ids` with `v`, one after another, as
      the loops over `refreshPromises` do. */
  function Settle(futures: seq<FutureState>, ids: seq<nat>, v: FutureState): (r: seq<FutureState>)
    requires forall i :: 0 <= i < |ids| ==> ids[i] < |futures|
    ensures |r| == |futures|
    ensures forall k :: 0 <= k < |futures| ==> r[k] == if k in ids then v else futures[k]
    decreases |ids|
  {
    if ids == [] then futures
    else
      assert forall k :: k in ids <==> k == ids[0] || k in ids[1..] by {
        assert ids == [ids[0]] + ids[1..];
      }
      Settle(futures[ids[0] := v], ids[1..], v)
  }

  /** A successful refresh: the token is replaced, every waiter is
      resolved, the list is emptied and the flag cleared. */
  function Succeed(s: BrokerState, token: Token): (r: BrokerState)
    requires InRange(s)
    ensures r.accessToken == Some(token)
    ensures !r.refreshing && r.refreshPromises == []
    ensures |r.futures| == |s.futures|
    ensures forall i :: 0 <= i < |s.refreshPromises| ==> r.futures[s.refreshPromises[i]] == Resolved
    ensures forall k :: 0 <= k < |s.futures| && k !in s.refreshPromises ==> r.futures[k] == s.futures[k]
    ensures Valid(s) ==> Valid(r) && forall k :: 0 <= k < |r.futures| ==> !r.futures[k].Pending?
  {
    BrokerState(Some(token), false, [], Settle(s.futures, s.refreshPromises, Resolved))
  }

  /** A failed refresh: the token is kept, every waiter is rejected with
      the refresher's own error, the list is emptied and the flag cleared. */
  function Fail(s: BrokerState, err: RefreshError): (r: BrokerState)
    requires InRange(s)
    ensures r.accessToken == s.accessToken
    ensures !r.refreshing && r.refreshPromises == []
    ensures |r.futures| == |s.futures|
    ensures forall i :: 0 <= i < |s.refreshPromises| ==> r.futures[s.refreshPromises[i]] == Rejected(err)
    ensures forall k :: 0 <= k < |s.futures| && k !in s.refreshPromises ==> r.futures[k] == s.futures[k]
    ensures Valid(s) ==> Valid(r) && forall k :: 0 <= k < |r.futures| ==> !r.futures[k].Pending?
  {
    BrokerState(s.accessToken, false, [], Settle(s.futures, s.refreshPromises, Rejected(err)))
  }

  /** How the refresher reads the issuance endpoint's reply: only a 200
      answer carrying an `accessToken` is a success. */
  function IssuanceOutcome(reply: IssuanceReply): (r: Result<Token, RefreshError>)
    ensures r.Ok? <==> reply.Reply? && reply.status == 200 && reply.accessToken.Some?
    ensures r.Ok? ==> r.value == reply.accessToken.value
    ensures reply.Reply? && reply.status != 200 ==> r == Err(IssuanceStatus(reply.status, reply.text))
    ensures reply.Raised? ==> r == Err(Transport(reply.reason))
    ensures reply.Reply? && reply.status == 200 && reply.accessToken.None? ==> r == Err(MissingAccessToken)
  {
    match reply
    case Raised(reason) => Err(Transport(reason))
    case Reply(status, text, token) =>
      if status != 200 then Err(IssuanceStatus(status, text))
      else if token.None? then Err(MissingAccessToken)
      else Ok(token.value)
  }

  /** Settlement from the refresher's reply. */
  function Complete(s: BrokerState, reply: IssuanceReply): BrokerState
    requires InRange(s)
  {
    match IssuanceOutcome(reply)
    case Ok(token) => Succeed(s, token)
    case Err(e) => Fail(s, e)
  }

  // ------------------------------------------------ runs of many callers

  /** Callers arriving one after another (at times `nows`) while no
      refresh completes: the final state and what each caller did. */
  function Requests(s: BrokerState, nows: seq<int>): (r: (BrokerState, seq<Outcome>))
    ensures |r.1| == |nows|
    decreases |nows|
  {
    if nows == [] then (s, [])
    else
      var first := Request(s, nows[0]);
      var rest := Requests(first.0, nows[1..]);
      (rest.0, [first.1] + rest.1)
  }

  function CountRefreshers(os: seq<Outcome>): nat
  {
    if os == [] then 0 else (if os[0] == BecameRefresher then 1 else 0) + CountRefreshers(os[1..])
  }

  /** Single flight: among any callers arriving before a refresh completes,
      at most one becomes the refresher, and none does if a refresh is
      already in flight. No caller touches the token. */
  lemma {:induction false} SingleFlight(s: BrokerState, nows: seq<int>)
    ensures CountRefreshers(Requests(s, nows).1) <= 1
    ensures s.refreshing ==> CountRefreshers(Requests(s, nows).1) == 0
    ensures Requests(s, nows).0.accessToken == s.accessToken
    decreases |nows|
  {
    if nows != [] {
      var first := Request(s, nows[0]);
      SingleFlight(first.0, nows[1..]);
      assert first.1 == BecameRefresher ==> first.0.refreshing;
    }
  }

  /** Every caller that was enqueued during a run is still waiting at its
      end, and so is every future that was waiting at its start. */
  lemma {:induction false} EnqueuedStayQueued(s: BrokerState, nows: seq<int>)
    requires InRange(s)
    ensures InRange(Requests(s, nows).0)
    ensures forall i :: 0 <= i < |nows| && Requests(s, nows).1[i].Enqueued? ==>
              Requests(s, nows).1[i].handle in Requests(s, nows).0.refreshPromises
    ensures forall k :: k in s.refreshPromises ==> k in Requests(s, nows).0.refreshPromises
    decreases |nows|
  {
    if nows != [] {
      var first := Request(s, nows[0]);
      EnqueuedStayQueued(first.0, nows[1..]);
      var r := Requests(s, nows);
      var rest := Requests(first.0, nows[1..]);
      assert r.1 == [first.1] + rest.1;
      forall i | 0 <= i < |nows| && r.1[i].Enqueued?
        ensures r.1[i].handle in r.0.refreshPromises
      {
        if i > 0 {
          assert r.1[i] == rest.1[i - 1];
        }
      }
    }
  }

  /** All callers share the refresher's success: after callers arrive at
      `nows` and the refresh then succeeds, the new token is held and
      every enqueued caller's future is resolved. */
  lemma WaitersShareSuccess(s: BrokerState, nows: seq<int>, token: Token)
    requires InRange(s)
    ensures InRange(Requests(s, nows).0)
    ensures var r := Requests(s, nows);
            var u := Succeed(r.0, token);
            u.accessToken == Some(token) && !u.refreshing && u.refreshPromises == [] &&
            forall i :: 0 <= i < |nows| && r.1[i].Enqueued? ==>
              r.1[i].handle < |u.futures| && u.futures[r.1[i].handle] == Resolved
  {
    EnqueuedStayQueued(s, nows);
  }

  /** All callers share the refresher's failure: the token is unchanged
      and every enqueued caller's future is rejected with the same error. */
  lemma WaitersShareFailure(s: BrokerState, nows: seq<int>, err: RefreshError)
    requires InRange(s)
    ensures InRange(Requests(s, nows).0)
    ensures var r := Requests(s, nows);
            var u := Fail(r.0, err);
            u.accessToken == s.accessToken && !u.refreshing && u.refreshPromises == [] &&
            forall i :: 0 <= i < |nows| && r.1[i].Enqueued? ==>
              r.1[i].handle < |u.futures| && u.futures[r.1[i].handle] == Rejected(err)
  {
    EnqueuedStayQueued(s, nows);
    SingleFlight(s, nows);
  }

  // ---------------------------------------------------- the client object

  /** The refresh-related state of the client object. The API key is only
      sent to the issuance endpoint, which is not part of this model. */
  class Scaler {
    const apiKey: string
    var accessToken: Option<Token>
    var isRefreshingAccessToken: bool
    var refreshPromises: seq<nat>
    var futures: seq<FutureState>

    function State(): BrokerState
      reads this
    {
      BrokerState(accessToken, isRefreshingAccessToken, refreshPromises, futures)
    }

    constructor (apiKey: string)
      ensures this.apiKey == apiKey
      ensures State() == Initial() && Valid(State())
    {
      this.apiKey := apiKey;
      accessToken := None;
      isRefreshingAccessToken := false;
      refreshPromises := [];
      futures := [];
    }

    /** The expiry check and, if a refresh is needed, either enqueueing a
        new future or becoming the refresher. */
    method RequestRefresh(now: int) returns (outcome: Outcome)
      modifies this
      ensures (State(), outcome) == Request(old(State()), now)
      ensures old(Valid(State())) ==> Valid(State())
    {
      var shouldRefresh := false;
      if accessToken.None? || accessToken.value.raw == "" {
        shouldRefresh := true;
      } else if now >= accessToken.value.exp {
        shouldRefresh := true;
      }
      if !shouldRefresh {
        return UpToDate;
      }
      if isRefreshingAccessToken {
        var handle := |futures|;
        futures := futures + [Pending];
        refreshPromises := refreshPromises + [handle];
        return Enqueued(handle);
      }
      isRefreshingAccessToken := true;
      outcome := BecameRefresher;
    }

    /** Store the new token, resolve every waiting future, reset. */
    method CompleteSuccess(token: Token)
      requires InRange(State())
      modifies this
      ensures State() == Succeed(old(State()), token)
    {
      accessToken := Some(token);
      var i := 0;
      while i < |refreshPromises|
        invariant 0 <= i <= |refreshPromises|
        invariant refreshPromises == old(refreshPromises) && |futures| == |old(futures)|
        invariant accessToken == Some(token)
        invariant Settle(futures, refreshPromises[i..], Resolved) == Settle(old(futures), refreshPromises, Resolved)
      {
        assert refreshPromises[i..][1..] == refreshPromises[i + 1..];
        futures := futures[refreshPromises[i] := Resolved];
        i := i + 1;
      }
      assert refreshPromises[i..] == [];
      assert futures == Settle(old(futures), old(refreshPromises), Resolved);
      refreshPromises := [];
      isRefreshingAccessToken := false;
    }

    /** Reject every waiting future with `err`, reset, and hand the same
        error back for the refresher to re-raise. */
    method CompleteFailure(err: RefreshError) returns (raised: RefreshError)
      requires InRange(State())
      modifies this
      ensures raised == err
      ensures State() == Fail(old(State()), err)
    {
      var i := 0;
      while i < |refreshPromises|
        invariant 0 <= i <= |refreshPromises|
        invariant refreshPromises == old(refreshPromises) && |futures| == |old(futures)|
        invariant accessToken == old(accessToken)
        invariant Settle(futures, refreshPromises[i..], Rejected(err)) == Settle(old(futures), refreshPromises, Rejected(err))
      {
        assert refreshPromises[i..][1..] == refreshPromises[i + 1..];
        futures := futures[refreshPromises[i] := Rejected(err)];
        i := i + 1;
      }
      assert refreshPromises[i..] == [];
      assert futures == Settle(old(futures), old(refreshPromises), Rejected(err));
      refreshPromises := [];
      isRefreshingAccessToken := false;
      raised := err;
    }

    /** The refresher's settlement, given what the issuance call produced;
        returns the token or the error the refresher raises. */
    method FinishRefresh(reply: IssuanceReply) returns (r: Result<Token, RefreshError>)
      requires InRange(State())
      modifies this
      ensures r == IssuanceOutcome(reply)
      ensures State() == Complete(old(State()), reply)
    {
      if reply.Raised? {
        var e := CompleteFailure(Transport(reply.reason));
        return Err(e);
      }
      if reply.status != 200 {
        var e := CompleteFailure(IssuanceStatus(reply.status, reply.text));
        return Err(e);
      }
      if reply.accessToken.None? {
        var e := CompleteFailure(MissingAccessToken);
        return Err(e);
      }
      CompleteSuccess(reply.accessToken.value);
      r := Ok(reply.accessToken.value);
    }
  }

  /** K callers find no usable token at time `now` before the refresh
      completes: exactly one issuance call is made, and every caller ends
      with the same outcome, the refresher's. */
  method ConcurrentCallers(k: nat, now: int, reply: IssuanceReply)
    returns (issuanceCalls: nat, results: seq<Result<Token, RefreshError>>)
    requires k > 0
    ensures issuanceCalls == 1
    ensures |results| == k
    ensures forall i :: 0 <= i < k ==> results[i] == IssuanceOutcome(reply)
  {
    var scaler := new Scaler("api-key");
    var first := scaler.RequestRefresh(now);
    var calls := 0;
    if first == BecameRefresher {
      calls := calls + 1;
    }
    var handles: seq<nat> := [];
    var i := 1;
    while i < k
      invariant 1 <= i <= k
      invariant calls == 1
      invariant |handles| == i - 1
      invariant scaler.isRefreshingAccessToken && scaler.accessToken.None?
      invariant |scaler.futures| == i - 1
      invariant forall j :: 0 <= j < |handles| ==> handles[j] == j && scaler.futures[j] == Pending
      invariant scaler.refreshPromises == handles
    {
      var o := scaler.RequestRefresh(now);
      if o == BecameRefresher {
        calls := calls + 1;
      }
      assert o == Enqueued(i - 1);
      handles := handles + [o.handle];
      i := i + 1;
    }
    issuanceCalls := calls;
    var own := scaler.FinishRefresh(reply);
    var settled, held := scaler.futures, scaler.accessToken;
    results := [own];
    i := 0;
    while i < |handles|
      invariant 0 <= i <= |handles|
      invariant |results| == i + 1
      invariant forall j :: 0 <= j < |results| ==> results[j] == IssuanceOutcome(reply)
    {
      var f := settled[handles[i]];
      var r: Result<Token, RefreshError> :=
        if f == Resolved && held.Some? then Ok(held.value)
        else if f.Rejected? then Err(f.error)
        else Err(Transport("unsettled"));
      results := results + [r];
      i := i + 1;
    }
  }
}
