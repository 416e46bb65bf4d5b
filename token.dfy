/** The token program: a token-info account that caps minting at a total
    supply, tracks the circulating supply through mints and burns, and
    charges a basis-point fee on transfers made through it. */
module IamaiToken {
  import opened Common

  /** The transfer fee set at initialization: 0.1%. */
  const InitialTransferFeeBasisPoints: U16 := 10

  /** The program's error codes. Only `ExceedsMaxSupply` is raised. */
  datatype Error = ExceedsMaxSupply | NotInitialized | Unauthorized

  /** The token-info account. The name and symbol strings are not modelled. */
  class TokenInfo {
    const decimals: U8
    const totalSupply: nat
    var circulatingSupply: nat
    const mint: Pubkey
    const authority: Pubkey
    const treasury: Pubkey
    const transferFeeBasisPoints: U16
    const isInitialized: bool

    /** The supply cap, and the fee fixed at initialization (no instruction
        changes it). */
    ghost predicate Valid()
      reads this
    {
      && circulatingSupply <= totalSupply
      && transferFeeBasisPoints == InitialTransferFeeBasisPoints
    }

    /** `initialize_token`. */
    constructor (decimals: U8, totalSupply: nat, mint: Pubkey, authority: Pubkey, treasury: Pubkey)
      ensures this.decimals == decimals && this.totalSupply == totalSupply
      ensures this.mint == mint && this.authority == authority && this.treasury == treasury
      ensures circulatingSupply == 0 && transferFeeBasisPoints == InitialTransferFeeBasisPoints && isInitialized
      ensures Valid()
    {
      this.decimals := decimals;
      this.totalSupply := totalSupply;
      circulatingSupply := 0;
      this.mint := mint;
      this.authority := authority;
      this.treasury := treasury;
      transferFeeBasisPoints := InitialTransferFeeBasisPoints;
      isInitialized := true;
    }

    /** `mint_tokens`: mints `amount` unless that would pass the total supply.
        The result is the amount minted to the destination account. */
    method MintTokens(amount: nat) returns (r: Result<nat, Error>)
      modifies this`circulatingSupply
      ensures old(circulatingSupply) + amount > totalSupply ==>
                r == Err(ExceedsMaxSupply) && circulatingSupply == old(circulatingSupply)
      ensures old(circulatingSupply) + amount <= totalSupply ==>
                r == Ok(amount) && circulatingSupply == old(circulatingSupply) + amount
      ensures old(Valid()) ==> Valid()
      ensures r.Ok? ==> circulatingSupply <= totalSupply
    {
      if circulatingSupply + amount > totalSupply {
        return Err(ExceedsMaxSupply);
      }
      circulatingSupply := circulatingSupply + amount;
      r := Ok(amount);
    }

    /** `burn_tokens`: the subtraction is unchecked, so the caller must not
        burn more than circulates. */
    method BurnTokens(amount: nat)
      requires amount <= circulatingSupply
      modifies this`circulatingSupply
      ensures circulatingSupply == old(circulatingSupply) - amount
      ensures old(Valid()) ==> Valid()
    {
      circulatingSupply := circulatingSupply - amount;
    }

    /** `transfer_with_fee`: the transfers of `amount` from the sender, the
        fee to `treasuryAccount` (skipped when zero) and the rest to
        `recipient`; no field of the account changes. */
    method TransferWithFee(amount: nat, treasuryAccount: Pubkey, recipient: Pubkey)
      returns (transfers: seq<Transfer>)
      requires Valid()
      ensures transfers == FeeSplitTransfers(amount, transferFeeBasisPoints, treasuryAccount, recipient)
      ensures Total(transfers) == amount && 1 <= |transfers| <= 2
      ensures transfers[|transfers| - 1].destination == recipient
      ensures transfers[|transfers| - 1].amount == amount - BasisPointShare(amount, transferFeeBasisPoints)
      ensures |transfers| == 2 <==> BasisPointShare(amount, transferFeeBasisPoints) > 0
      ensures |transfers| == 2 ==> transfers[0] == Transfer(treasuryAccount, BasisPointShare(amount, transferFeeBasisPoints))
      ensures |transfers| == 1 <==> amount < 1000
    {
      var feeAmount := BasisPointShare(amount, transferFeeBasisPoints);
      var transferAmount := amount - feeAmount;
      transfers := [];
      if feeAmount > 0 {
        transfers := transfers + [Transfer(treasuryAccount, feeAmount)];
      }
      transfers := transfers + [Transfer(recipient, transferAmount)];
      assert transfers == FeeSplitTransfers(amount, transferFeeBasisPoints, treasuryAccount, recipient);
      FeeVanishesBelow1000(amount);
    }
  }

  /** At the initial fee of 10 basis points the fee is zero exactly for
      amounts below 1000. */
  lemma FeeVanishesBelow1000(amount: nat)
    ensures BasisPointShare(amount, InitialTransferFeeBasisPoints) == 0 <==> amount < 1000
  {
  }
}
