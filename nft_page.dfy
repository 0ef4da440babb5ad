/**
 * The NFT page: a demonstration collection, split into owned and
 * available items, and a simulated mint that prepends a freshly minted,
 * owned item to the collection.
 */
module Nft {
  import opened Wrappers
  import opened Text
  import opened Decimal
  import opened Ui

  /** One card of the collection. */
  datatype NftItem = NftItem(id: int, name: string, description: string, image: string,
                             collection: string, tokenId: string, owned: bool)

  const LearningLabCollection: string := "Learning Lab Collection"

  /** The three demonstration items the page starts with and reloads. */
  const MockNfts: seq<NftItem> := [
    NftItem(1, "Blockchain Learner #001", "Commemorative NFT for completing the blockchain workshop",
            "https://images.pexels.com/photos/7567228/pexels-photo-7567228.jpeg?auto=compress&cs=tinysrgb&w=300&h=300&fit=crop",
            LearningLabCollection, "1", true),
    NftItem(2, "Smart Contract Explorer", "Earned by successfully interacting with smart contracts",
            "https://images.pexels.com/photos/7567443/pexels-photo-7567443.jpeg?auto=compress&cs=tinysrgb&w=300&h=300&fit=crop",
            "Achievement Collection", "42", false),
    NftItem(3, "Transaction Master", "Successfully sent your first blockchain transaction",
            "https://images.pexels.com/photos/7567432/pexels-photo-7567432.jpeg?auto=compress&cs=tinysrgb&w=300&h=300&fit=crop",
            LearningLabCollection, "123", true)
  ]

  /** The mint panel. */
  datatype MintStatus = MintStatus(status: Phase, hash: Option<string>, tokenId: Option<string>)

  const IdleMint: MintStatus := MintStatus(Idle, None, None)
  const PendingMint: MintStatus := MintStatus(Pending, None, None)
  const FailedMint: MintStatus := MintStatus(Failed, None, None)

  const MintingStartedToast: Toast := Toast("Minting Started", "Your NFT is being minted on the blockchain.", false)

  function MintedToast(tokenId: string): Toast {
    Toast("NFT Minted Successfully!", "Your Learning Lab NFT #" + tokenId + " has been minted.", false)
  }

  function MintFailedToast(errorMessage: string): Toast {
    Toast("Minting Failed", OrElse(errorMessage, "Failed to mint NFT. Please try again."), true)
  }

  /** The items whose `owned` flag is `owned`, in their original order (`nfts.filter`). */
  function SelectByOwnership(nfts: seq<NftItem>, owned: bool): (r: seq<NftItem>)
    ensures |r| <= |nfts|
    ensures forall x :: x in r ==> x in nfts && x.owned == owned
    ensures forall x :: x in nfts && x.owned == owned ==> x in r
  {
    if nfts == [] then []
    else if nfts[0].owned == owned then [nfts[0]] + SelectByOwnership(nfts[1..], owned)
    else SelectByOwnership(nfts[1..], owned)
  }

  function OwnedNfts(nfts: seq<NftItem>): seq<NftItem> {
    SelectByOwnership(nfts, true)
  }

  function AvailableNfts(nfts: seq<NftItem>): seq<NftItem> {
    SelectByOwnership(nfts, false)
  }

  /** `sub` can be obtained from `s` by deleting items, without reordering. */
  predicate IsSubsequence(sub: seq<NftItem>, s: seq<NftItem>)
    decreases |s|
  {
    if sub == [] then true
    else if s == [] then false
    else if sub[0] == s[0] then IsSubsequence(sub[1..], s[1..])
    else IsSubsequence(sub, s[1..])
  }

  /** A selection keeps its items in the order of the collection. */
  lemma {:induction false} SelectionIsSubsequence(nfts: seq<NftItem>, owned: bool)
    ensures IsSubsequence(SelectByOwnership(nfts, owned), nfts)
    decreases |nfts|
  {
    if nfts != [] {
      var rest := SelectByOwnership(nfts[1..], owned);
      SelectionIsSubsequence(nfts[1..], owned);
      if nfts[0].owned == owned {
        assert ([nfts[0]] + rest)[1..] == rest;
      } else if rest != [] {
        assert rest[0] in rest;
        assert rest[0] != nfts[0];
      }
    }
  }

  /** Each item lands in exactly one of the two selections, as often as it occurs in the collection. */
  lemma {:induction false} SelectionsSplitCollection(nfts: seq<NftItem>)
    ensures multiset(OwnedNfts(nfts)) + multiset(AvailableNfts(nfts)) == multiset(nfts)
    decreases |nfts|
  {
    if nfts != [] {
      SelectionsSplitCollection(nfts[1..]);
      assert nfts == [nfts[0]] + nfts[1..];
    }
  }

  /** The owned and the available items partition the collection, each in collection order. */
  lemma OwnershipPartition(nfts: seq<NftItem>)
    ensures multiset(OwnedNfts(nfts)) + multiset(AvailableNfts(nfts)) == multiset(nfts)
    ensures |OwnedNfts(nfts)| + |AvailableNfts(nfts)| == |nfts|
    ensures forall x :: x in OwnedNfts(nfts) ==> x !in AvailableNfts(nfts)
    ensures IsSubsequence(OwnedNfts(nfts), nfts) && IsSubsequence(AvailableNfts(nfts), nfts)
  {
    SelectionsSplitCollection(nfts);
    assert |multiset(OwnedNfts(nfts)) + multiset(AvailableNfts(nfts))| == |multiset(nfts)|;
    SelectionIsSubsequence(nfts, true);
    SelectionIsSubsequence(nfts, false);
  }

  /** Of the demonstration items, the first and third are owned and the second is available. */
  lemma MockPartition()
    ensures OwnedNfts(MockNfts) == [MockNfts[0], MockNfts[2]]
    ensures AvailableNfts(MockNfts) == [MockNfts[1]]
  {
    var a := MockNfts;
    assert a[1..][1..] == [a[2]] && [a[2]][1..] == [];
    assert OwnedNfts(a[1..][1..]) == [a[2]] && AvailableNfts(a[1..][1..]) == [];
    assert OwnedNfts(a[1..]) == [a[2]] && AvailableNfts(a[1..]) == [a[1]];
  }

  /**
   * The two calls inside the mint's `try` that run code outside the page:
   * the toast raised before the simulated confirmation and the one raised
   * after it.  Nothing else in it can throw.
   */
  datatype MintStep = StartedToastStep | MintedToastStep

  /** An error thrown inside the mint's `try`: the call that threw and the error's message. */
  datatype Thrown = Thrown(at: MintStep, message: string)

  /** The mint button is disabled while minting or while the status is pending. */
  predicate MintButtonDisabled(isMinting: bool, status: MintStatus) {
    isMinting || status.status == Pending
  }

  /** `Math.floor(draw * 10000)` for a draw of `Math.random()`. */
  function TokenNumber(draw: real): (n: nat)
    requires 0.0 <= draw < 1.0
    ensures n < 10000
    ensures n as real <= draw * 10000.0 < n as real + 1.0
  {
    (draw * 10000.0).Floor
  }

  /** `Math.floor(draw * 10000).toString()`: the decimal text of a number below 10000. */
  function TokenId(draw: real): (id: string)
    requires 0.0 <= draw < 1.0
    ensures id != [] && AllDigits(id) && DigitsValue(id) < 10000
    ensures id[0] == '0' ==> id == "0"
  {
    DecimalRoundTrip(TokenNumber(draw));
    DecimalString(TokenNumber(draw))
  }

  /** `"0x" + a + b`, where `a` and `b` are the hexadecimal fractions of two draws. */
  function MintHash(hexA: string, hexB: string): (hash: string)
    ensures StartsWith(hash, "0x") && hash[2..] == hexA + hexB
  {
    "0x" + hexA + hexB
  }

  const MintedImage: string :=
    "https://images.pexels.com/photos/7567371/pexels-photo-7567371.jpeg?auto=compress&cs=tinysrgb&w=300&h=300&fit=crop"
  const MintedDescription: string := "Exclusive NFT for blockchain workshop participants"

  /** The item a successful mint adds, stamped with `Date.now()`. */
  function MintedNft(tokenId: string, now: int): (item: NftItem)
    ensures item.owned && item.tokenId == tokenId && item.collection == LearningLabCollection
  {
    NftItem(now, "Learning Lab NFT #" + tokenId, MintedDescription,
            MintedImage,
            LearningLabCollection, tokenId, true)
  }

  /** Prepending an owned item adds it at the head of the owned items and leaves the available ones alone. */
  lemma PrependOwned(item: NftItem, nfts: seq<NftItem>)
    requires item.owned
    ensures OwnedNfts([item] + nfts) == [item] + OwnedNfts(nfts)
    ensures AvailableNfts([item] + nfts) == AvailableNfts(nfts)
  {
    assert ([item] + nfts)[1..] == nfts;
  }

  /**
   * What a successful mint leaves behind: one more item, at the head,
   * owned, carrying the status' token id, whose number is below 10000,
   * with the earlier items after it in their order.
   */
  lemma MintedCollection(nfts: seq<NftItem>, draw: real, now: int)
    requires 0.0 <= draw < 1.0
    ensures var after := [MintedNft(TokenId(draw), now)] + nfts;
      && |after| == |nfts| + 1 && after[1..] == nfts
      && after[0].owned && after[0].tokenId == TokenId(draw) && DigitsValue(after[0].tokenId) < 10000
      && OwnedNfts(after) == [after[0]] + OwnedNfts(nfts) && AvailableNfts(after) == AvailableNfts(nfts)
  {
    var after := [MintedNft(TokenId(draw), now)] + nfts;
    assert after[1..] == nfts;
    PrependOwned(after[0], nfts);
  }

  class NftPage {
    var account: Option<string>
    var nfts: seq<NftItem>
    var mintStatus: MintStatus
    var isMinting: bool
    var isLoadingNfts: bool
    /** Every value handed to the mint-status setter, in order. */
    ghost var statusLog: seq<MintStatus>

    constructor ()
      ensures account == None && nfts == MockNfts && mintStatus == IdleMint
      ensures !isMinting && !isLoadingNfts && statusLog == []
    {
      account := None;
      nfts := MockNfts;
      mintStatus := IdleMint;
      isMinting, isLoadingNfts := false, false;
      statusLog := [];
    }

    /** `!account` is false: an account is known and is not the empty string. */
    predicate Connected()
      reads this
    {
      account.Some? && account.value != []
    }

    /** `checkConnection`: records the account the wallet reports, if any. */
    method CheckConnection(current: Option<string>)
      modifies this`account
      ensures account == current
    {
      account := current;
    }

    method SetMintStatus(s: MintStatus)
      modifies this`mintStatus, this`statusLog
      ensures mintStatus == s && statusLog == old(statusLog) + [s]
    {
      mintStatus := s;
      statusLog := statusLog + [s];
    }

    /** `loadNFTs`: the collection becomes the demonstration items again, dropping minted ones. */
    method LoadNfts()
      modifies this`nfts, this`isLoadingNfts
      ensures nfts == MockNfts && !isLoadingNfts
      ensures OwnedNfts(nfts) == [MockNfts[0], MockNfts[2]] && AvailableNfts(nfts) == [MockNfts[1]]
    {
      isLoadingNfts := true;
      nfts := MockNfts;
      MockPartition();
      isLoadingNfts := false;
    }

    /**
     * `handleMintNFT`.  Without a wallet only the toast is raised and
     * nothing changes; otherwise the mint runs (`Mint`).
     */
    method HandleMintNft(hexA: string, hexB: string, draw: real, now: int, thrown: Option<Thrown>)
      returns (toasts: seq<Toast>)
      requires 0.0 <= draw < 1.0
      modifies this`mintStatus, this`statusLog, this`isMinting, this`nfts
      ensures !old(Connected()) ==>
        && toasts == [WalletNotConnectedToast]
        && mintStatus == old(mintStatus) && statusLog == old(statusLog)
        && isMinting == old(isMinting) && nfts == old(nfts)
      ensures old(Connected()) ==>
        Minted(MintHash(hexA, hexB), TokenId(draw), now, thrown, old(nfts), old(statusLog), toasts)
      ensures old(Connected()) ==> !isMinting && !MintButtonDisabled(isMinting, mintStatus)
    {
      if !Connected() {
        toasts := [WalletNotConnectedToast];
        return;
      }
      toasts := Mint(MintHash(hexA, hexB), TokenId(draw), now, thrown);
    }

    /**
     * The state after a mint with transaction hash `hash` and token id
     * `tokenId`.  Without an error the status went pending, then pending
     * with the hash, then confirmed with the token id, and the minted item
     * heads the collection.  An error thrown by one of the two toasts
     * ends the status failed, after whatever statuses were set before it,
     * and leaves the collection alone.
     */
    ghost predicate Minted(hash: string, tokenId: string, now: int, thrown: Option<Thrown>,
                           nfts0: seq<NftItem>, log0: seq<MintStatus>, toasts: seq<Toast>)
      reads this`mintStatus, this`statusLog, this`nfts
    {
      var sent := MintStatus(Pending, Some(hash), None);
      var confirmed := MintStatus(Confirmed, Some(hash), Some(tokenId));
      match thrown
      case None =>
        && mintStatus == confirmed
        && statusLog == log0 + [PendingMint, sent, confirmed]
        && nfts == [MintedNft(tokenId, now)] + nfts0
        && toasts == [MintingStartedToast, MintedToast(tokenId)]
      case Some(Thrown(StartedToastStep, errorMessage)) =>
        && mintStatus == FailedMint
        && statusLog == log0 + [PendingMint, FailedMint]
        && nfts == nfts0
        && toasts == [MintFailedToast(errorMessage)]
      case Some(Thrown(MintedToastStep, errorMessage)) =>
        && mintStatus == FailedMint
        && statusLog == log0 + [PendingMint, sent, confirmed, FailedMint]
        && nfts == nfts0
        && toasts == [MintingStartedToast, MintFailedToast(errorMessage)]
    }

    /** Lines 113-171 of the handler, entered with a wallet connected: the `try`, its `catch` and its `finally`. */
    method Mint(hash: string, tokenId: string, now: int, thrown: Option<Thrown>)
      returns (toasts: seq<Toast>)
      modifies this`mintStatus, this`statusLog, this`isMinting, this`nfts
      ensures Minted(hash, tokenId, now, thrown, old(nfts), old(statusLog), toasts)
      ensures !isMinting && (mintStatus.status == Confirmed || mintStatus.status == Failed)
      ensures mintStatus.status == Failed <==> thrown.Some?
    {
      isMinting := true;
      SetMintStatus(PendingMint);
      match thrown {
        case None =>
          Confirm(hash, tokenId);
          toasts := [MintingStartedToast, MintedToast(tokenId)];
          nfts := [MintedNft(tokenId, now)] + nfts;
        case Some(Thrown(StartedToastStep, errorMessage)) =>
          SetMintStatus(FailedMint);
          toasts := [MintFailedToast(errorMessage)];
        case Some(Thrown(MintedToastStep, errorMessage)) =>
          Confirm(hash, tokenId);
          SetMintStatus(FailedMint);
          toasts := [MintingStartedToast, MintFailedToast(errorMessage)];
      }
      isMinting := false;
    }

    /** Lines 125-140: the status shows the hash, then, after the delay, the confirmed token. */
    method Confirm(hash: string, tokenId: string)
      modifies this`mintStatus, this`statusLog
      ensures mintStatus == MintStatus(Confirmed, Some(hash), Some(tokenId))
      ensures statusLog == old(statusLog) + [MintStatus(Pending, Some(hash), None), mintStatus]
    {
      SetMintStatus(MintStatus(Pending, Some(hash), None));
      SetMintStatus(MintStatus(Confirmed, Some(hash), Some(tokenId)));
    }

    /** `resetMinting`: the status returns to idle; the collection is untouched. */
    method ResetMinting()
      modifies this`mintStatus, this`statusLog
      ensures mintStatus == IdleMint && statusLog == old(statusLog) + [IdleMint]
      ensures !MintButtonDisabled(isMinting, mintStatus) <==> !isMinting
    {
      SetMintStatus(IdleMint);
    }
  }
}
