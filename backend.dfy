/** The backend's own logic (`backend/kaspatrack-backend/src/main.rs`): reading
    the network configuration, summing UTXO amounts, the polling task that
    keeps the shared holdings up to date, and the by-address handler. The
    Kaspa node, the environment and the HTTP server are parameters. */
module Backend {
  import opened Wrappers
  import opened RustText

  const U64_MAX: nat := 0xFFFF_FFFF_FFFF_FFFF

  type U64 = n: nat | n <= U64_MAX

  datatype NetworkType = Mainnet | Testnet | Devnet | Simnet

  /** `NetworkId::with_suffix(network_type, suffix)`. */
  datatype NetworkId = NetworkId(networkType: NetworkType, suffix: U32)

  const DefaultNetworkName := "testnet"
  const DefaultSuffixText := "10"
  const DefaultSuffix: U32 := 10
  const ConnectFailedPrefix := "Failed to connect to Kaspa node: "
  const UtxosFailedPrefix := "Failed to get UTXOs: "

  predicate IsKnownNetwork(lower: string) {
    lower == "mainnet" || lower == "testnet" || lower == "devnet" || lower == "simnet"
  }

  /** The request handler's `match` on the lower-cased name; anything else is
      Testnet. */
  function NetworkTypeOf(name: string): (t: NetworkType)
    ensures t == Mainnet <==> ToLowercase(name) == "mainnet"
    ensures t == Devnet <==> ToLowercase(name) == "devnet"
    ensures t == Simnet <==> ToLowercase(name) == "simnet"
    ensures t == Testnet <==> ToLowercase(name) == "testnet" || !IsKnownNetwork(ToLowercase(name))
  {
    match ToLowercase(name)
    case "mainnet" => Mainnet
    case "testnet" => Testnet
    case "devnet" => Devnet
    case "simnet" => Simnet
    case _ => Testnet
  }

  /** The polling task's `match`, which also says whether it logs the
      "Unknown network type" warning. */
  function NetworkTypeWarned(name: string): (r: (NetworkType, bool))
    ensures r.1 <==> !IsKnownNetwork(ToLowercase(name))
    ensures r.1 ==> r.0 == Testnet
  {
    match ToLowercase(name)
    case "mainnet" => (Mainnet, false)
    case "testnet" => (Testnet, false)
    case "devnet" => (Devnet, false)
    case "simnet" => (Simnet, false)
    case _ => (Testnet, true)
  }

  /** The two copies of the mapping agree on every name. */
  lemma NetworkMatchesAgree(name: string)
    ensures NetworkTypeWarned(name).0 == NetworkTypeOf(name)
  {
  }

  /** Case does not matter. */
  lemma NetworkNameCaseInsensitive(a: string, b: string)
    requires |a| == |b|
    requires forall k :: 0 <= k < |a| ==> ToLowerChar(a[k]) == ToLowerChar(b[k])
    ensures NetworkTypeOf(a) == NetworkTypeOf(b)
  {
    assert ToLowercase(a) == ToLowercase(b);
  }

  /** A name in any case selects its network. */
  lemma UpperCaseNameSelects()
    ensures NetworkTypeOf("MAINNET") == Mainnet
  {
    var l := ToLowercase("MAINNET");
    assert l[0] == 'm' && l[1] == 'a' && l[2] == 'i' && l[3] == 'n';
    assert l[4] == 'n' && l[5] == 'e' && l[6] == 't';
    assert l == "mainnet";
  }

  /** A known name with anything extra is unknown: Testnet, with a warning. */
  lemma PaddedNameIsUnknown()
    ensures NetworkTypeOf("mainnet ") == Testnet
    ensures NetworkTypeWarned("mainnet ").1
  {
    var l := ToLowercase("mainnet ");
    assert |l| == 8;
  }

  /** `KASPA_NETSUFFIX`, parsed as a `u32`; 10 when unset or unparsable. */
  function NetSuffix(suffixVar: Option<string>): (s: U32)
    ensures suffixVar.None? ==> s == DefaultSuffix
    ensures suffixVar.Some? && ParseU32(suffixVar.value).Some? ==> s == ParseU32(suffixVar.value).value
    ensures suffixVar.Some? && ParseU32(suffixVar.value).None? ==> s == DefaultSuffix
  {
    assert Decimal.Value(DefaultSuffixText) == 10 by {
      assert DefaultSuffixText[..1] == "1";
    }
    ParseU32(suffixVar.GetOr(DefaultSuffixText)).GetOr(DefaultSuffix)
  }

  /** A suffix written out in decimal is read back as itself. */
  lemma NetSuffixRendered(n: U32)
    ensures NetSuffix(Some(Decimal.FromNat(n))) == n
  {
    ParseRendered(n);
  }

  /** The network the polling task connects to, and whether it warned about
      the name: `KASPA_NETWORK` (default "testnet") and `KASPA_NETSUFFIX`. */
  function TaskNetwork(networkVar: Option<string>, suffixVar: Option<string>): (r: (NetworkId, bool))
    ensures r.0.suffix == NetSuffix(suffixVar)
    ensures networkVar.None? ==> r.0.networkType == Testnet && !r.1
    ensures networkVar.Some? ==> r == (NetworkId(NetworkTypeWarned(networkVar.value).0, NetSuffix(suffixVar)),
                                       NetworkTypeWarned(networkVar.value).1)
  {
    var (t, warned) := NetworkTypeWarned(networkVar.GetOr(DefaultNetworkName));
    assert ToLowercase(DefaultNetworkName) == DefaultNetworkName;
    (NetworkId(t, NetSuffix(suffixVar)), warned)
  }

  /** The network the by-address handler connects to, from the same variables. */
  function HandlerNetwork(networkVar: Option<string>, suffixVar: Option<string>): (id: NetworkId)
    ensures id.suffix == NetSuffix(suffixVar)
    ensures networkVar.None? ==> id.networkType == Testnet
    ensures networkVar.Some? ==> id.networkType == NetworkTypeOf(networkVar.value)
  {
    assert ToLowercase(DefaultNetworkName) == DefaultNetworkName;
    NetworkId(NetworkTypeOf(networkVar.GetOr(DefaultNetworkName)), NetSuffix(suffixVar))
  }

  /** Under the same environment both places connect to the same network. */
  lemma SameNetworkEverywhere(networkVar: Option<string>, suffixVar: Option<string>)
    ensures TaskNetwork(networkVar, suffixVar).0 == HandlerNetwork(networkVar, suffixVar)
  {
    NetworkMatchesAgree(networkVar.GetOr(DefaultNetworkName));
  }

  /** `RpcUtxoEntry`, reduced to its amount in sompi. */
  datatype UtxoEntry = UtxoEntry(amount: U64)

  /** `RpcUtxosByAddressesEntry`, reduced to its UTXO entry. */
  datatype UtxosByAddressesEntry = UtxosByAddressesEntry(utxoEntry: UtxoEntry)

  /** The mathematical sum of the amounts. */
  function Sum(entries: seq<UtxosByAddressesEntry>): nat {
    if entries == [] then 0 else entries[0].utxoEntry.amount + Sum(entries[1..])
  }

  /** `iter().map(..).sum()` from accumulator `acc`, adding one amount at a
      time in `u64`; no step overflows when the final total fits. */
  function SumFrom(entries: seq<UtxosByAddressesEntry>, acc: U64): (t: U64)
    requires acc + Sum(entries) <= U64_MAX
    ensures t == acc + Sum(entries)
  {
    if entries == [] then acc else SumFrom(entries[1..], acc + entries[0].utxoEntry.amount)
  }

  /** The balance of a UTXO list: the sum of its amounts, 0 for no entries. */
  function Total(entries: seq<UtxosByAddressesEntry>): (t: U64)
    requires Sum(entries) <= U64_MAX
    ensures t == Sum(entries)
    ensures entries == [] ==> t == 0
  {
    SumFrom(entries, 0)
  }

  /** No single entry is worth more than the total. */
  lemma {:induction false} AmountAtMostSum(entries: seq<UtxosByAddressesEntry>, k: nat)
    requires k < |entries|
    ensures entries[k].utxoEntry.amount <= Sum(entries)
  {
    if k > 0 {
      AmountAtMostSum(entries[1..], k - 1);
    }
  }

  /** The answer of `get_utxos_by_addresses_call`. */
  type UtxosAnswer = Result<seq<UtxosByAddressesEntry>, string>

  predicate Fits(answer: UtxosAnswer) {
    answer.Success? ==> Sum(answer.value) <= U64_MAX
  }

  /** The total of the last successful answer among `answers`, if any. */
  function LastTotal(answers: seq<UtxosAnswer>): (t: Option<U64>)
    requires forall k :: 0 <= k < |answers| ==> Fits(answers[k])
  {
    if answers == [] then None
    else
      var last := answers[|answers| - 1];
      assert Fits(last);
      if last.Success? then Some(Total(last.value)) else LastTotal(answers[..|answers| - 1])
  }

  /** `LastTotal` finds the latest successful answer: every answer after it
      failed, and without one every answer failed. */
  lemma {:induction false} LastTotalIsLatestSuccess(answers: seq<UtxosAnswer>)
    requires forall k :: 0 <= k < |answers| ==> Fits(answers[k])
    ensures LastTotal(answers).None? <==> forall k :: 0 <= k < |answers| ==> answers[k].Failure?
    ensures LastTotal(answers).Some? ==>
      exists k :: 0 <= k < |answers| && answers[k].Success? && Total(answers[k].value) == LastTotal(answers).value
                  && forall j :: k < j < |answers| ==> answers[j].Failure?
  {
    if answers != [] {
      var n := |answers|;
      var front := answers[..n - 1];
      assert forall k :: 0 <= k < n - 1 ==> Fits(front[k]) by {
        forall k | 0 <= k < n - 1 ensures Fits(front[k]) { assert front[k] == answers[k]; }
      }
      if answers[n - 1].Failure? {
        assert LastTotal(answers) == LastTotal(front);
        LastTotalIsLatestSuccess(front);
        if LastTotal(front).Some? {
          var k :| 0 <= k < |front| && front[k].Success? && Total(front[k].value) == LastTotal(front).value
                   && forall j :: k < j < |front| ==> front[j].Failure?;
          assert answers[k] == front[k];
          assert forall j :: k < j < n ==> answers[j].Failure? by {
            forall j | k < j < n ensures answers[j].Failure? {
              if j < n - 1 { assert answers[j] == front[j]; }
            }
          }
        } else {
          forall k | 0 <= k < n ensures answers[k].Failure? {
            if k < n - 1 { assert answers[k] == front[k]; }
          }
        }
      } else {
        assert LastTotal(answers) == Some(Total(answers[n - 1].value));
      }
    }
  }

  /** The backend's shared `PortfolioData`, behind its mutex. */
  class PortfolioCell {
    var kaspaHoldings: U64

    /** `PortfolioData::default()`. */
    constructor ()
      ensures kaspaHoldings == 0
    {
      kaspaHoldings := 0;
    }

    /** One round of the polling loop: a successful answer overwrites the
        holdings with its total, an error leaves them as they were. */
    method ApplyAnswer(answer: UtxosAnswer)
      requires Fits(answer)
      modifies this
      ensures answer.Success? ==> kaspaHoldings == Total(answer.value)
      ensures answer.Failure? ==> kaspaHoldings == old(kaspaHoldings)
    {
      if answer.Success? {
        var total := Total(answer.value);
        kaspaHoldings := total;
      }
    }
  }

  /** The polling task: connect to the node (giving up for good if that
      fails), then apply the node's answers in order. */
  method TrackAddress(cell: PortfolioCell, connection: Result<(), string>, answers: seq<UtxosAnswer>)
    requires forall k :: 0 <= k < |answers| ==> Fits(answers[k])
    modifies cell
    ensures connection.Failure? ==> cell.kaspaHoldings == old(cell.kaspaHoldings)
    ensures connection.Success? ==> cell.kaspaHoldings == LastTotal(answers).GetOr(old(cell.kaspaHoldings))
  {
    if connection.Failure? {
      return;
    }
    var i := 0;
    while i < |answers|
      invariant 0 <= i <= |answers|
      invariant cell.kaspaHoldings == LastTotal(answers[..i]).GetOr(old(cell.kaspaHoldings))
    {
      cell.ApplyAnswer(answers[i]);
      assert answers[..i + 1][..i] == answers[..i];
      i := i + 1;
    }
    assert answers[..i] == answers;
  }

  /** The body of a by-address reply. */
  datatype PortfolioJson = PortfolioJson(address: string, kaspaHoldings: U64)

  datatype HttpResponse = Ok(json: PortfolioJson) | InternalServerError(body: string)

  /** `get_portfolio_by_address`: the node connection is made to the network
      the environment names; the reply echoes the address string as given. */
  function GetPortfolioByAddress(
    address: string, networkVar: Option<string>, suffixVar: Option<string>,
    connect: NetworkId -> Result<(), string>, answer: UtxosAnswer): (r: HttpResponse)
    requires Fits(answer)
    ensures var connection := connect(HandlerNetwork(networkVar, suffixVar));
      && (r.Ok? <==> connection.Success? && answer.Success?)
      && (r.Ok? ==> r.json.address == address && r.json.kaspaHoldings == Sum(answer.value))
      && (connection.Failure? ==> r.body == ConnectFailedPrefix + connection.error)
      && (connection.Success? && answer.Failure? ==> r.body == UtxosFailedPrefix + answer.error)
  {
    match connect(HandlerNetwork(networkVar, suffixVar))
    case Failure(e) => InternalServerError(ConnectFailedPrefix + e)
    case Success(_) =>
      match answer
      case Success(entries) => Ok(PortfolioJson(address, Total(entries)))
      case Failure(e) => InternalServerError(UtxosFailedPrefix + e)
  }

  /** The handler and the polling task agree on a balance: for the same node
      answer the reply carries what the task would store. */
  lemma HandlerMatchesTask(address: string, networkVar: Option<string>, suffixVar: Option<string>,
                           entries: seq<UtxosByAddressesEntry>)
    requires Sum(entries) <= U64_MAX
    ensures GetPortfolioByAddress(address, networkVar, suffixVar, _ => Success(()), Success(entries))
            == Ok(PortfolioJson(address, LastTotal([Success(entries)]).value))
  {
  }
}
