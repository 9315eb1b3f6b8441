/** `PortfolioInput` (`kaspatrack-frontend/src/components/PortfolioInput.tsx`):
    the text field's own state, the submit guard, and what the form shows. */
module PortfolioInput {
  import opened Wrappers
  import opened JsText
  import PortfolioContext
  import Api

  /** What a submission of `text` forwards to `setTrackedAddress`: the trimmed
      text, or nothing when only whitespace was typed. */
  function Submission(text: string): (a: Option<string>)
    ensures a.None? <==> AllWhitespace(text)
    ensures a.Some? ==> a.value != "" && Trimmed(a.value) && a.value == Trim(text)
  {
    var trimmed := Trim(text);
    if trimmed != "" then Some(trimmed) else None
  }

  /** Surrounding whitespace does not change what is submitted. */
  lemma SubmissionIgnoresPadding(text: string, left: string, right: string)
    requires AllWhitespace(left) && AllWhitespace(right)
    ensures Submission(left + text + right) == Submission(text)
  {
    TrimPadded(text, left, right);
  }

  /** The rendered form: both controls' `disabled` flags, the button label and
      the error line (absent when there is nothing to show). */
  datatype View = View(inputDisabled: bool, buttonDisabled: bool, buttonLabel: string, errorLine: Option<string>)

  const Tracking := "Tracking..."
  const TrackPortfolio := "Track Portfolio"

  function Render(text: string, loading: bool, error: Option<string>): (v: View)
    ensures v.inputDisabled <==> loading
    ensures v.buttonDisabled <==> loading || Submission(text).None?
    ensures v.buttonLabel == if loading then Tracking else TrackPortfolio
    ensures v.errorLine.Some? <==> Truthy(error)
    ensures v.errorLine.Some? ==> v.errorLine == error
  {
    View(loading, loading || Trim(text) == "",
         if loading then Tracking else TrackPortfolio,
         if Truthy(error) then error else None)
  }

  /** Against the store, whose error is never the empty string, the error
      line is shown exactly when there is an error. */
  lemma ErrorShownIffError(text: string, store: PortfolioContext.PortfolioStore)
    requires store.Valid()
    ensures Render(text, store.loading, store.error).errorLine == store.error
  {
  }

  /** An enabled button always submits something. */
  lemma EnabledButtonSubmits(text: string, loading: bool, error: Option<string>)
    requires !Render(text, loading, error).buttonDisabled
    ensures Submission(text).Some? && !loading
  {
  }

  /** The component: its `address` state and the store it reads through
      `usePortfolio()`. */
  class AddressForm {
    var address: string
    const store: PortfolioContext.PortfolioStore

    constructor (store: PortfolioContext.PortfolioStore)
      ensures address == "" && this.store == store
    {
      address := "";
      this.store := store;
    }

    /** `onChange`: `setAddress(e.target.value)`. */
    method Change(text: string)
      modifies this
      ensures address == text
    {
      address := text;
    }

    /** `handleSubmit`: forward the trimmed text once, or do nothing. The
        field keeps its text either way. */
    method Submit()
      requires store.Valid() && store.mounted
      modifies store
      ensures store.Valid() && store.mounted
      ensures Submission(address).None? ==>
        store.trackedAddress == old(store.trackedAddress) && store.requests == old(store.requests)
        && store.loading == old(store.loading) && store.error == old(store.error)
        && store.portfolio == old(store.portfolio) && store.pending == old(store.pending)
        && store.interval == old(store.interval)
      ensures Submission(address).Some? ==>
        store.trackedAddress == Submission(address)
        && store.requests == old(store.requests) + [Submission(address).value]
        && store.pending == old(store.pending) + {|old(store.requests)|}
        && store.loading && store.error.None? && store.portfolio == old(store.portfolio)
    {
      var trimmed := Trim(address);
      if trimmed != "" {
        store.SetTrackedAddress(trimmed);
      }
    }
  }

  /** A whitespace-only submission changes nothing; a padded address is
      tracked trimmed, and its successful answer becomes the portfolio. */
  method SubmitScenario(holdings: int) returns (tracked: Option<string>, shown: Option<Api.PortfolioData>, loading: bool)
    ensures tracked == Some("kaspa:xyz")
    ensures shown == Some(Api.PortfolioData("kaspa:xyz", Some(holdings)))
    ensures !loading
  {
    var store := new PortfolioContext.PortfolioStore();
    var form := new AddressForm(store);
    form.Change("  ");
    assert AllWhitespace("  ");
    assert Submission("  ").None?;
    form.Submit();
    assert store.requests == [] && store.trackedAddress.None?;
    form.Change(" kaspa:xyz ");
    assert " kaspa:xyz " == " " + "kaspa:xyz" + " ";
    TrimPadded("kaspa:xyz", " ", " ");
    TrimmedIsFixed("kaspa:xyz");
    assert Submission(" kaspa:xyz ") == Some("kaspa:xyz");
    form.Submit();
    assert store.loading;
    var data := Api.PortfolioData("kaspa:xyz", Some(holdings));
    store.Complete(0, PortfolioContext.Returned(Api.ApiResponse(true, Some(data), None)));
    tracked, shown, loading := store.trackedAddress, store.portfolio, store.loading;
  }
}
