/**
 * The EVM demo component: the chain selector's keys and their decoding, the
 * balance and deployment-status fetchers, and the fixed native transfer.
 * The wallet provider, the signer, `switchChain` and the smart account are
 * abstract: their answers are parameters. The calls that act on the outside
 * world are recorded as effects (toasts, `sendTransaction`, `switchChain`);
 * the reads (`getSigner`, `getAddress`, `getBalance`, `isDeployed`) are not.
 */
module EvmDemo {
  import opened Wrappers
  import opened Js
  import Utils

  datatype Chain = Chain(name: string, id: nat, fullname: string)

  /** The two test chains offered in the selector. */
  const SupportedChains: seq<Chain> := [
    Chain("EthereumSepolia", 11155111, "Ethereum Sepolia"),
    Chain("BaseSepolia", 84532, "Base Sepolia")
  ]

  /** The key of a chain in the selector: `${fullname}-${id}`. */
  function ChainKey(c: Chain): (key: string)
    ensures |key| == |c.fullname| + 1 + |NumberText(c.id)|
    ensures key[..|c.fullname|] == c.fullname && key[|c.fullname|] == '-'
    ensures key[|c.fullname| + 1..] == NumberText(c.id)
  {
    c.fullname + "-" + NumberText(c.id)
  }

  /** The keys of the selector's items, one per supported chain, in order. */
  function SelectorKeys(): (keys: seq<string>)
    ensures |keys| == |SupportedChains|
    ensures forall i :: 0 <= i < |keys| ==> keys[i] == ChainKey(SupportedChains[i])
  {
    [ChainKey(SupportedChains[0]), ChainKey(SupportedChains[1])]
  }

  /**
   * The argument `handleChainSwitch(key)` passes to `switchChain`:
   * `Number(key.split("-")[1])`, or None when the selection's current key
   * is absent or empty and no switch is requested.
   */
  function ChainSwitchTarget(key: Option<string>): (r: Option<NumberValue>)
    ensures r.None? <==> key.None? || key == Some("")
  {
    match key
    case None => None
    case Some(text) =>
      if text == "" then None
      else Some(ToNumberOrNaN(Split(text, '-'), 1))
  }

  /** The segment between the first and the second `-` is read as the chain id. */
  lemma SecondSegmentIsId(first: string, second: string, tail: string)
    requires '-' !in first && '-' !in second
    requires tail == "" || tail[0] == '-'
    ensures ChainSwitchTarget(Some(first + "-" + second + tail)) == Some(ToNumber(second))
  {
    var key := first + "-" + second + tail;
    assert key == first + ['-'] + (second + tail);
    SplitAtFirst(first, '-', second + tail);
    if tail == "" {
      SplitNoSeparator(second, '-');
      assert second + tail == second;
    } else {
      SplitAtFirst(second, '-', tail[1..]);
      assert second + tail == second + ['-'] + tail[1..];
    }
    assert Split(key, '-')[1] == second;
  }

  /** A key built from a chain whose full name has no `-` decodes to its id. */
  lemma ChainKeyRoundTrip(c: Chain)
    requires '-' !in c.fullname
    ensures ChainSwitchTarget(Some(ChainKey(c))) == Some(Finite(c.id))
  {
    SecondSegmentIsId(c.fullname, NumberText(c.id), "");
    assert ChainKey(c) == c.fullname + "-" + NumberText(c.id) + "";
    NumberTextRoundTrip(c.id);
  }

  /** Every item of the selector decodes to the id of its chain. */
  lemma SupportedKeysRoundTrip()
    ensures forall i :: 0 <= i < |SupportedChains| ==>
      ChainSwitchTarget(Some(SelectorKeys()[i])) == Some(Finite(SupportedChains[i].id))
  {
    assert '-' !in SupportedChains[0].fullname;
    assert '-' !in SupportedChains[1].fullname;
    ChainKeyRoundTrip(SupportedChains[0]);
    ChainKeyRoundTrip(SupportedChains[1]);
  }

  /** The selected key of a supported current chain is one of the items' keys,
      and no two items share a key. */
  lemma SelectedKeyIsAnItem(current: Chain)
    requires current in SupportedChains
    ensures ChainKey(current) in SelectorKeys()
    ensures SelectorKeys()[0] != SelectorKeys()[1]
  {
    SupportedKeysRoundTrip();
  }

  /**
   * A full name containing `-` breaks the encoding: the segment after its
   * own `-` is read instead of the id. A word starting with an ASCII letter
   * other than `I` (which could begin `Infinity`) is not a number in
   * JavaScript, so the switch is asked for NaN.
   */
  lemma DashedFullnameLosesId(head: string, word: string, id: nat)
    requires '-' !in head && '-' !in word
    requires word != [] && word[0] != 'I' && ('a' <= word[0] <= 'z' || 'A' <= word[0] <= 'Z')
    ensures ChainSwitchTarget(Some(ChainKey(Chain(head + "-" + word, id, head + "-" + word)))) == Some(NaN)
  {
    var key := ChainKey(Chain(head + "-" + word, id, head + "-" + word));
    assert key == head + "-" + word + ("-" + NumberText(id));
    SecondSegmentIsId(head, word, "-" + NumberText(id));
  }

  const EnterRecipientText := "Please enter a recipient address."
  const TransactionFailedText := "Transaction failed."

  /** `ethers.parseEther("0.01")`: 0.01 ether in wei. */
  const TransferValueWei: nat := 10_000_000_000_000_000

  /** The request passed to `signer.sendTransaction`. */
  datatype TxRequest = TxRequest(to: string, value: nat, data: string)

  datatype Receipt = Receipt(hash: string)

  /** How the provider and signer answer one `sendNativeTransaction`. */
  datatype TxOutcome =
    | SignerUnavailable          // `getSigner()` threw
    | SendRejected               // `sendTransaction` threw
    | WaitFailed                 // `wait()` threw
    | Settled(receipt: Option<Receipt>)  // `wait()` returned a receipt or null

  datatype Effect =
    | ToastError(text: string)
    | ToastSuccess(text: string)
    | SendTransaction(request: TxRequest)
    | SwitchChain(chainId: NumberValue)

  /** The success toast: a fixed prefix and the hash shortened to at most 13 characters. */
  function SentText(hash: string): (r: string)
    ensures |"Transaction sent! Hash: "| <= |r| <= |"Transaction sent! Hash: "| + 13
    ensures r[..|"Transaction sent! Hash: "|] == "Transaction sent! Hash: "
    ensures |hash| <= 10 ==> r[|"Transaction sent! Hash: "|..] == hash
    ensures |hash| > 10 ==> r[|"Transaction sent! Hash: "|..] == hash[..5] + "..." + hash[|hash| - 5..]
  {
    "Transaction sent! Hash: " + Utils.ShortString(Utils.Str(hash))
  }

  /** The effects of one `sendNativeTransaction` for a recipient and an outcome. */
  function TransferEffects(recipient: string, outcome: TxOutcome): (r: seq<Effect>)
    ensures 1 <= |r| <= 2
    ensures forall i :: 0 <= i < |r| && r[i].SendTransaction? ==>
      i == 0 && r[i].request == TxRequest(recipient, TransferValueWei, "0x")
    ensures forall i :: 0 <= i < |r| ==> !r[i].SwitchChain?
  {
    if recipient == "" then [ToastError(EnterRecipientText)]
    else
      var request := TxRequest(recipient, TransferValueWei, "0x");
      match outcome
      case SignerUnavailable => [ToastError(TransactionFailedText)]
      case SendRejected => [SendTransaction(request), ToastError(TransactionFailedText)]
      case WaitFailed => [SendTransaction(request), ToastError(TransactionFailedText)]
      case Settled(None) => [SendTransaction(request)]
      case Settled(Some(receipt)) => [SendTransaction(request), ToastSuccess(SentText(receipt.hash))]
  }

  /** The transaction requests among some effects, in order. */
  function Requests(effects: seq<Effect>): seq<TxRequest>
  {
    if effects == [] then []
    else (if effects[0].SendTransaction? then [effects[0].request] else []) + Requests(effects[1..])
  }

  /** The toasts among some effects, in order. */
  function Toasts(effects: seq<Effect>): seq<Effect>
  {
    if effects == [] then []
    else (if effects[0].ToastError? || effects[0].ToastSuccess? then [effects[0]] else []) + Toasts(effects[1..])
  }

  /** Both filters read a one- or two-effect trace element by element. */
  lemma FiltersOfShortTraces(x: Effect, y: Effect)
    ensures Requests([x]) == (if x.SendTransaction? then [x.request] else [])
    ensures Toasts([x]) == (if x.ToastError? || x.ToastSuccess? then [x] else [])
    ensures Requests([x, y]) == Requests([x]) + Requests([y])
    ensures Toasts([x, y]) == Toasts([x]) + Toasts([y])
  {
    assert [x][1..] == [];
    assert [x, y][1..] == [y];
  }

  /** An empty recipient is refused with one toast and no provider call. */
  lemma EmptyRecipientRefused(outcome: TxOutcome)
    ensures Requests(TransferEffects("", outcome)) == []
    ensures Toasts(TransferEffects("", outcome)) == [ToastError(EnterRecipientText)]
  {
    var es := TransferEffects("", outcome);
    FiltersOfShortTraces(es[0], es[|es| - 1]);
  }

  /**
   * A non-empty recipient leads to at most one request, and to exactly one
   * once a signer is obtained: to the recipient, 0.01 ether, data "0x".
   */
  lemma TransferPayload(recipient: string, outcome: TxOutcome)
    requires recipient != ""
    ensures outcome.SignerUnavailable? ==> Requests(TransferEffects(recipient, outcome)) == []
    ensures !outcome.SignerUnavailable? ==>
      Requests(TransferEffects(recipient, outcome)) == [TxRequest(recipient, 10_000_000_000_000_000, "0x")]
  {
    var es := TransferEffects(recipient, outcome);
    FiltersOfShortTraces(es[0], es[|es| - 1]);
  }

  /**
   * A success toast appears exactly when a receipt comes back; any failure
   * gives exactly one "Transaction failed." toast.
   */
  lemma TransferToasts(recipient: string, outcome: TxOutcome)
    requires recipient != ""
    ensures outcome.Settled? && outcome.receipt.Some? ==>
      Toasts(TransferEffects(recipient, outcome)) == [ToastSuccess(SentText(outcome.receipt.value.hash))]
    ensures outcome == Settled(None) ==> Toasts(TransferEffects(recipient, outcome)) == []
    ensures !outcome.Settled? ==>
      Toasts(TransferEffects(recipient, outcome)) == [ToastError(TransactionFailedText)]
  {
    var es := TransferEffects(recipient, outcome);
    FiltersOfShortTraces(es[0], es[|es| - 1]);
  }

  /** The component's state and the effects it has issued so far. */
  class Component {
    var recipientAddress: string
    var balance: string
    var isWalletDeployed: bool
    var effects: seq<Effect>

    /** The balance shown is empty or already formatted. */
    ghost predicate Valid()
      reads this
    {
      balance == "" || Utils.FormatBalance(balance) == balance
    }

    constructor()
      ensures Valid()
      ensures recipientAddress == "" && balance == "" && !isWalletDeployed && effects == []
    {
      recipientAddress := "";
      balance := "";
      isWalletDeployed := false;
      effects := [];
    }

    /** The recipient input's `onChange`. */
    method SetRecipientAddress(text: string)
      requires Valid()
      modifies this
      ensures Valid()
      ensures recipientAddress == text
      ensures balance == old(balance) && isWalletDeployed == old(isWalletDeployed) && effects == old(effects)
    {
      recipientAddress := text;
    }

    /**
     * `fetchBalance`: `etherText` is what `ethers.formatEther` gave for the
     * fetched balance, or None when getting the signer, the address or the
     * balance failed (the failure is only logged).
     */
    method FetchBalance(etherText: Option<string>)
      requires Valid()
      modifies this
      ensures Valid()
      ensures balance == if etherText.Some? then Utils.FormatBalance(etherText.value) else old(balance)
      ensures recipientAddress == old(recipientAddress) && isWalletDeployed == old(isWalletDeployed)
      ensures effects == old(effects)
    {
      if etherText.Some? {
        Utils.FormatBalanceIdempotent(etherText.value);
        balance := Utils.FormatBalance(etherText.value);
      }
    }

    /**
     * `fetchDeploymentStatus`: nothing without a smart account; otherwise
     * `deployed` is what `isDeployed()` answered, or None when it failed.
     */
    method FetchDeploymentStatus(hasSmartAccount: bool, deployed: Option<bool>)
      requires Valid()
      modifies this
      ensures Valid()
      ensures isWalletDeployed == if hasSmartAccount && deployed.Some? then deployed.value else old(isWalletDeployed)
      ensures recipientAddress == old(recipientAddress) && balance == old(balance) && effects == old(effects)
    {
      if !hasSmartAccount {
        return;
      }
      if deployed.Some? {
        isWalletDeployed := deployed.value;
      }
    }

    /** `sendNativeTransaction`, with the provider's answers given by `outcome`. */
    method SendNativeTransaction(outcome: TxOutcome)
      requires Valid()
      modifies this
      ensures Valid()
      ensures effects == old(effects) + TransferEffects(old(recipientAddress), outcome)
      ensures recipientAddress == old(recipientAddress) && balance == old(balance)
      ensures isWalletDeployed == old(isWalletDeployed)
    {
      if recipientAddress == "" {
        effects := effects + [ToastError(EnterRecipientText)];
        return;
      }
      if outcome.SignerUnavailable? {
        effects := effects + [ToastError(TransactionFailedText)];
        return;
      }
      var request := TxRequest(recipientAddress, TransferValueWei, "0x");
      effects := effects + [SendTransaction(request)];
      if outcome.SendRejected? || outcome.WaitFailed? {
        effects := effects + [ToastError(TransactionFailedText)];
        return;
      }
      var receipt := outcome.receipt;
      if receipt.Some? {
        effects := effects + [ToastSuccess(SentText(receipt.value.hash))];
      }
    }

    /** `handleChainSwitch`: asks the provider to switch unless the key is absent or empty. */
    method HandleChainSwitch(key: Option<string>)
      requires Valid()
      modifies this
      ensures Valid()
      ensures effects == old(effects) + match ChainSwitchTarget(key)
        case None => []
        case Some(chainId) => [SwitchChain(chainId)]
      ensures recipientAddress == old(recipientAddress) && balance == old(balance)
      ensures isWalletDeployed == old(isWalletDeployed)
    {
      if key.Some? && key.value != "" {
        var chainId := ToNumberOrNaN(Split(key.value, '-'), 1);
        effects := effects + [SwitchChain(chainId)];
      }
    }
  }
}
