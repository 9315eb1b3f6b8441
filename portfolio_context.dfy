/** `PortfolioProvider` (`kaspatrack-frontend/src/contexts/PortfolioContext.tsx`):
    the tracked address, the last portfolio, the loading and error flags, and
    the one auto-refresh interval.

    Every React state update is an atomic step here. `fetchPortfolio` is split
    at its `await`: the part before it (set `loading`, clear `error`, issue the
    request) runs inside `SetTrackedAddress`, `Refresh` and `Tick`; the part
    after it is `Complete`, which the environment calls once per issued
    request, in whatever order the responses arrive. */
module PortfolioContext {
  import opened Wrappers
  import opened JsText
  import Api

  /** A live `setInterval`: its handle and the address its `refreshPortfolio`
      closure captured when the effect ran. */
  datatype Interval = Interval(id: nat, address: string)

  /** How `await apiService.getPortfolio(address)` ended: with an envelope, or
      by throwing. */
  datatype FetchResult = Returned(response: Api.ApiResponse<Api.PortfolioData>) | Threw

  const FailedToFetch := "Failed to fetch portfolio data"
  const NetworkErrorOccurred := "Network error occurred"
  const MissingProvider := "usePortfolio must be used within a PortfolioProvider"

  /** A completion that replaces the portfolio: `response.success && response.data`. */
  predicate Succeeded(result: FetchResult) {
    result.Returned? && result.response.success && result.response.data.Some?
  }

  /** `response.error || 'Failed to fetch portfolio data'`: never empty. */
  function FailureMessage(response: Api.ApiResponse<Api.PortfolioData>): (m: string)
    ensures m != ""
    ensures m == FailedToFetch || response.error == Some(m)
    ensures Truthy(response.error) ==> m == response.error.value
  {
    if Truthy(response.error) then response.error.value else FailedToFetch
  }

  /** The message the store ends up showing for a failed request, by what
      `fetch` did: the HTTP status, the `Error`'s message (or the fallback when
      that message is empty), or `'Unknown error'`. */
  lemma FailureMessageFromOutcome(outcome: Api.FetchOutcome<Api.PortfolioData>)
    requires !Api.Envelope(outcome).success
    ensures outcome.Response? && !outcome.ok ==>
      FailureMessage(Api.Envelope(outcome)) == Api.HttpErrorMessage(outcome.status)
    ensures Api.ThrownBy(outcome) == Some(Api.NonError) ==>
      FailureMessage(Api.Envelope(outcome)) == Api.UnknownError
    ensures Api.ThrownBy(outcome) == Some(Api.ErrorObject("")) ==>
      FailureMessage(Api.Envelope(outcome)) == FailedToFetch
    ensures (Api.ThrownBy(outcome).Some? && Api.ThrownBy(outcome).value.ErrorObject?
             && Api.ThrownBy(outcome).value.message != "") ==>
      FailureMessage(Api.Envelope(outcome)) == Api.ThrownBy(outcome).value.message
  {
    var m := Api.HttpErrorMessage(if outcome.Response? then outcome.status else 0);
    assert m != "";
  }

  /** `usePortfolio()`: the context value, or the error thrown outside a provider. */
  function UsePortfolio(context: Option<PortfolioStore>): (r: Result<PortfolioStore, string>)
    ensures r.Success? <==> context.Some?
    ensures r.Success? ==> r.value == context.value
    ensures r.Failure? ==> r.error == MissingProvider
  {
    if context.None? then Failure(MissingProvider) else Success(context.value)
  }

  class PortfolioStore {
    var portfolio: Option<Api.PortfolioData>
    var loading: bool
    var error: Option<string>
    var trackedAddress: Option<string>
    /** The handle the effect's cleanup will clear. */
    var interval: Option<Interval>
    /** The handles the browser's timer still fires. */
    var live: set<nat>
    /** The handle `setInterval` returns next. */
    var nextHandle: nat
    /** Every address a fetch was issued for, in issue order. */
    var requests: seq<string>
    /** The issued fetches (indices into `requests`) whose responses have not
        arrived yet. */
    var pending: set<nat>
    /** False once the provider has unmounted. */
    var mounted: bool

    ghost predicate Valid()
      reads this
    {
      && (error.Some? ==> error.value != "")
      && live == (if interval.Some? then {interval.value.id} else {})
      && (interval.Some? ==>
            interval.value.id < nextHandle && interval.value.address != ""
            && trackedAddress == Some(interval.value.address))
      && (mounted ==> (interval.Some? <==> Truthy(trackedAddress)))
      && (!mounted ==> interval.None?)
      && (forall r :: r in pending ==> r < |requests|)
    }

    /** At most one interval is ever live. */
    lemma AtMostOneInterval()
      requires Valid()
      ensures |live| <= 1
      ensures interval.Some? ==> live == {interval.value.id}
    {
    }

    /** Mounting the provider: every `useState` at its initial value; the
        effect's first run finds no address and installs nothing. */
    constructor ()
      ensures Valid() && mounted
      ensures portfolio.None? && !loading && error.None? && trackedAddress.None?
      ensures interval.None? && live == {} && requests == [] && pending == {}
    {
      portfolio, loading, error, trackedAddress := None, false, None, None;
      interval, live, nextHandle := None, {}, 0;
      requests, pending, mounted := [], {}, true;
    }

    /** `fetchPortfolio(address)` up to its `await`: `setLoading(true)`,
        `setError(null)`, and the request is issued. */
    method BeginFetch(address: string)
      requires Valid() && mounted
      modifies this
      ensures Valid() && mounted
      ensures loading && error.None?
      ensures requests == old(requests) + [address]
      ensures pending == old(pending) + {|old(requests)|}
      ensures portfolio == old(portfolio) && trackedAddress == old(trackedAddress)
      ensures interval == old(interval) && live == old(live) && nextHandle == old(nextHandle)
    {
      loading := true;
      error := None;
      requests := requests + [address];
      pending := pending + {|requests| - 1};
    }

    /** `fetchPortfolio` after its `await`, for whichever pending request
        answered, named by its index in `requests`. The request's address is not consulted: a late answer for an
        address that has since been replaced overwrites the state all the same. */
    method Complete(request: nat, result: FetchResult)
      requires Valid() && request in pending
      modifies this
      ensures Valid()
      ensures pending == old(pending) - {request}
      ensures requests == old(requests) && trackedAddress == old(trackedAddress) && mounted == old(mounted)
      ensures interval == old(interval) && live == old(live) && nextHandle == old(nextHandle)
      ensures !mounted ==> portfolio == old(portfolio) && loading == old(loading) && error == old(error)
      ensures mounted ==> !loading
      ensures mounted && Succeeded(result) ==> portfolio == result.response.data && error == old(error)
      ensures mounted && result.Returned? && !Succeeded(result) ==>
        portfolio == old(portfolio) && error == Some(FailureMessage(result.response))
      ensures mounted && result.Threw? ==> portfolio == old(portfolio) && error == Some(NetworkErrorOccurred)
    {
      pending := pending - {request};
      if mounted {
        if result.Threw? {
          error := Some(NetworkErrorOccurred);
        } else if result.response.success && result.response.data.Some? {
          portfolio := result.response.data;
        } else {
          error := Some(FailureMessage(result.response));
        }
        loading := false;
      }
    }

    /** `refreshPortfolio()` as the context exposes it: fetch again for the
        tracked address when there is one. */
    method Refresh()
      requires Valid() && mounted
      modifies this
      ensures Valid() && mounted
      ensures trackedAddress == old(trackedAddress) && portfolio == old(portfolio)
      ensures interval == old(interval) && live == old(live) && nextHandle == old(nextHandle)
      ensures Truthy(old(trackedAddress)) ==>
        loading && error.None?
        && requests == old(requests) + [old(trackedAddress).value]
        && pending == old(pending) + {|old(requests)|}
      ensures !Truthy(old(trackedAddress)) ==>
        loading == old(loading) && error == old(error)
        && requests == old(requests) && pending == old(pending)
    {
      if Truthy(trackedAddress) {
        BeginFetch(trackedAddress.value);
      }
    }

    /** The browser fires interval `handle`: its callback runs the
        `refreshPortfolio` it captured, which fetches the captured address. */
    method Tick(handle: nat)
      requires Valid()
      modifies this
      ensures Valid()
      ensures trackedAddress == old(trackedAddress) && portfolio == old(portfolio) && mounted == old(mounted)
      ensures interval == old(interval) && live == old(live) && nextHandle == old(nextHandle)
      ensures handle in old(live) ==>
        loading && error.None?
        && requests == old(requests) + [old(trackedAddress).value]
        && pending == old(pending) + {|old(requests)|}
      ensures handle !in old(live) ==>
        loading == old(loading) && error == old(error)
        && requests == old(requests) && pending == old(pending)
    {
      if handle in live {
        var captured := interval.value.address;
        if captured != "" {
          BeginFetch(captured);
        }
      }
    }

    /** `handleSetTrackedAddress(address)`, followed by the effect that runs
        when `trackedAddress` changed: clear the old interval, then install a
        new one only for a non-empty address. Setting the address it already
        has does not re-run the effect, so the interval is kept. */
    method SetTrackedAddress(address: string)
      requires Valid() && mounted
      modifies this
      ensures Valid() && mounted
      ensures trackedAddress == Some(address) && portfolio == old(portfolio)
      ensures loading && error.None?
      ensures requests == old(requests) + [address]
      ensures pending == old(pending) + {|old(requests)|}
      ensures old(trackedAddress) == Some(address) ==> interval == old(interval) && live == old(live)
      ensures old(trackedAddress) != Some(address) && address != "" ==>
        interval == Some(Interval(old(nextHandle), address)) && live == {old(nextHandle)}
      ensures old(trackedAddress) != Some(address) && address == "" ==> interval.None? && live == {}
    {
      var previous := trackedAddress;
      BeginFetch(address);
      trackedAddress := Some(address);
      if previous != Some(address) {
        if interval.Some? {
          live := live - {interval.value.id};
          interval := None;
        }
        if address != "" {
          interval := Some(Interval(nextHandle, address));
          live := live + {nextHandle};
          nextHandle := nextHandle + 1;
        }
      }
    }

    /** The provider unmounts: the effect's cleanup clears the interval, and
        state updates arriving afterwards are dropped. */
    method Unmount()
      requires Valid()
      modifies this
      ensures Valid() && !mounted
      ensures interval.None? && live == {}
      ensures portfolio == old(portfolio) && loading == old(loading) && error == old(error)
      ensures trackedAddress == old(trackedAddress) && requests == old(requests) && pending == old(pending)
    {
      if interval.Some? {
        live := live - {interval.value.id};
        interval := None;
      }
      mounted := false;
    }
  }

  /** Two addresses tracked one after the other, the first one's answer
      arriving last: the dashboard shows the first address's portfolio while
      the second is tracked. */
  method StaleAnswerWins(first: string, second: string, stale: Api.PortfolioData)
    returns (answered: string, shown: Option<Api.PortfolioData>, tracked: Option<string>)
    requires first != second
    ensures answered == first && answered != second
    ensures shown == Some(stale) && tracked == Some(second)
  {
    var store := new PortfolioStore();
    store.SetTrackedAddress(first);
    store.SetTrackedAddress(second);
    store.Complete(0, Returned(Api.ApiResponse(true, Some(stale), None)));
    answered, shown, tracked := store.requests[0], store.portfolio, store.trackedAddress;
  }

  /** A periodic refresh issued while the first fetch is still out: the first
      answer to arrive clears `loading` although another request is pending. */
  method LoadingClearedWhileStillPending(address: string, data: Api.PortfolioData)
    returns (loading: bool, stillPending: nat)
    requires address != ""
    ensures !loading && stillPending == 1
  {
    var store := new PortfolioStore();
    store.SetTrackedAddress(address);
    var handle := store.interval.value.id;
    store.Tick(handle);
    store.Complete(0, Returned(Api.ApiResponse(true, Some(data), None)));
    loading, stillPending := store.loading, |store.pending|;
  }
}
