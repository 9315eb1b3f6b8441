/** The dashboard's stat cards (`kaspatrack-frontend/src/App.tsx`, the `stats`
    array of `AppContent`), derived from the store's `portfolio`, `loading`
    and `trackedAddress`. */
module Dashboard {
  import opened Wrappers
  import opened JsText
  import Api

  /** What a card shows as its value: fixed text, or a KAS amount that the page
      formats with `toLocaleString()`. */
  datatype Value = Text(text: string) | KasAmount(holdings: int)

  /** What a card shows under its value: fixed text, or "Last updated: " and
      the current local time. */
  datatype Change = Note(text: string) | LastUpdatedNow

  datatype StatCard = StatCard(title: string, icon: string, value: Value, change: Change, positive: bool)

  const NotAvailable := "N/A"
  const NotSet := "Not set"
  const Ellipsis := "..."

  /** `portfolio && portfolio.kaspa_holdings !== undefined ? ... : 'N/A'`. */
  function HoldingsValue(portfolio: Option<Api.PortfolioData>): (v: Value)
    ensures v.KasAmount? <==> portfolio.Some? && portfolio.value.kaspaHoldings.Some?
    ensures v.KasAmount? ==> v.holdings == portfolio.value.kaspaHoldings.value
    ensures v.Text? ==> v.text == NotAvailable
  {
    if portfolio.Some? && portfolio.value.kaspaHoldings.Some? then KasAmount(portfolio.value.kaspaHoldings.value)
    else Text(NotAvailable)
  }

  /** `` `${a.slice(0, 8)}...${a.slice(-8)}` ``. */
  function ShortAddress(address: string): (r: string)
    ensures var n := if |address| < 8 then |address| else 8;
      r == address[..n] + Ellipsis + address[|address| - n..]
  {
    Slice(address, 0, Some(8)) + Ellipsis + Slice(address, -8, None)
  }

  /** The shortened form keeps the first and last eight characters and is at
      most 19 characters long; an address of up to eight characters appears
      twice in full. */
  lemma ShortAddressShape(address: string)
    ensures |ShortAddress(address)| <= 19
    ensures |address| >= 8 ==> (|ShortAddress(address)| == 19
      && ShortAddress(address)[..8] == address[..8]
      && ShortAddress(address)[11..] == address[|address| - 8..])
    ensures |address| <= 8 ==> ShortAddress(address) == address + Ellipsis + address
  {
    var r := ShortAddress(address);
    if |address| >= 8 {
      assert r == address[..8] + Ellipsis + address[|address| - 8..];
      assert r[11..] == address[|address| - 8..];
    } else {
      assert address[..|address|] == address && address[0..] == address;
    }
  }

  /** The value of the "Tracked Address" card. */
  function TrackedAddressValue(trackedAddress: Option<string>): (v: Value)
    ensures v.Text?
    ensures !Truthy(trackedAddress) ==> v.text == NotSet
    ensures Truthy(trackedAddress) ==> v.text == ShortAddress(trackedAddress.value)
  {
    if Truthy(trackedAddress) then Text(ShortAddress(trackedAddress.value)) else Text(NotSet)
  }

  /** A tracked address is always shown with the ellipsis, so it can never be
      mistaken for "Not set". */
  lemma TrackedAddressNeverNotSet(address: string)
    requires address != ""
    ensures TrackedAddressValue(Some(address)).text != NotSet
  {
    var n := if |address| < 8 then |address| else 8;
    var r := ShortAddress(address);
    assert |r| == 2 * n + 3 && r[n] == '.';
    assert |NotSet| == 7 && NotSet[2] == 't';
  }

  /** The value of the "Backend Status" card. */
  function BackendStatus(loading: bool, portfolio: Option<Api.PortfolioData>): (v: string)
    ensures v == "Connecting..." <==> loading
    ensures v == "Connected" <==> !loading && portfolio.Some?
    ensures v == "Disconnected" <==> !loading && portfolio.None?
  {
    if loading then "Connecting..." else if portfolio.Some? then "Connected" else "Disconnected"
  }

  /** The six cards, in display order. */
  function Stats(portfolio: Option<Api.PortfolioData>, loading: bool, trackedAddress: Option<string>): (cards: seq<StatCard>)
    ensures |cards| == 6
    ensures cards[0].value == cards[1].value == HoldingsValue(portfolio)
    ensures cards[1].change.LastUpdatedNow? <==> portfolio.Some?
    ensures cards[2].value == TrackedAddressValue(trackedAddress)
    ensures cards[2].positive <==> Truthy(trackedAddress)
    ensures cards[3].value == Text(BackendStatus(loading, portfolio))
    ensures cards[3].positive <==> portfolio.Some?
    ensures cards[2].change == Note(if Truthy(trackedAddress) then "Connected to backend" else "Enter address to track")
    ensures cards[3].change == Note(if portfolio.Some? then "Real-time updates" else "No connection")
    ensures cards[0].title == "Total Portfolio Value" && cards[1].title == "Kaspa Holdings"
    ensures cards[2].title == "Tracked Address" && cards[3].title == "Backend Status"
    ensures cards[4].title == "Crypto Assets" && cards[5].title == "Decentralized Score"
  {
    [ StatCard("Total Portfolio Value", "\U{1F4BC}", HoldingsValue(portfolio), Note("+12.4% this month"), true),
      StatCard("Kaspa Holdings", "\U{1F538}", HoldingsValue(portfolio),
               if portfolio.Some? then LastUpdatedNow else Note("+8.7% this week"), true),
      StatCard("Tracked Address", "\U{1F4CD}", TrackedAddressValue(trackedAddress),
               Note(if Truthy(trackedAddress) then "Connected to backend" else "Enter address to track"),
               Truthy(trackedAddress)),
      StatCard("Backend Status", "\U{1F517}", Text(BackendStatus(loading, portfolio)),
               Note(if portfolio.Some? then "Real-time updates" else "No connection"), portfolio.Some?),
      StatCard("Crypto Assets", "\U{20BF}", Text("$45,280"), Note("+15.2% this month"), true),
      StatCard("Decentralized Score", "\U{1F6E1}\U{FE0F}", Text("98.7%"), Note("Zero 3rd party risk"), true) ]
  }

  /** The titles serve as React keys: no two cards share one, whatever the state. */
  lemma StatTitlesDistinct(portfolio: Option<Api.PortfolioData>, loading: bool, trackedAddress: Option<string>)
    ensures var cards := Stats(portfolio, loading, trackedAddress);
      forall i, j :: 0 <= i < j < |cards| ==> cards[i].title != cards[j].title
  {
    var cards := Stats(portfolio, loading, trackedAddress);
    var titles := seq(6, k requires 0 <= k < 6 => cards[k].title);
    assert titles[0][0] == 'T' && titles[1][0] == 'K' && titles[2][0] == 'T';
    assert titles[3][0] == 'B' && titles[4][0] == 'C' && titles[5][0] == 'D';
    assert titles[0][1] == 'o' && titles[2][1] == 'r';
  }

  /** The status card's text and its flag never contradict each other: a card
      saying "Connected" is positive, one saying "Disconnected" is not and
      reads "No connection". */
  lemma StatusCardConsistent(portfolio: Option<Api.PortfolioData>, loading: bool, trackedAddress: Option<string>)
    ensures var card := Stats(portfolio, loading, trackedAddress)[3];
      card.value == Text("Connected") ==> card.positive
    ensures var card := Stats(portfolio, loading, trackedAddress)[3];
      card.value == Text("Disconnected") ==> !card.positive && card.change == Note("No connection")
  {
  }
}
