/** The marketplace program: creators list AI models at a fixed price, buyers
    purchase access (a royalty goes to a treasury, the rest to the creator),
    purchasers leave one 1-5 star rating each, and creators switch their
    listings on and off. */
module IamaiMarketplace {
  import opened Common

  /** The program's error codes. `InsufficientFunds` is declared but never
      raised. `AccountAlreadyInUse` is the failure of `init` on a purchase
      record or review that already exists; `AccountNotInitialized` is the
      failure to load a purchase record that does not exist. */
  datatype Error =
    | ModelNotActive
    | InvalidRating
    | NoAccessToModel
    | Unauthorized
    | InsufficientFunds
    | AccountAlreadyInUse
    | AccountNotInitialized

  datatype ModelType =
    | LanguageModel
    | ImageGeneration
    | AudioProcessing
    | DataAnalysis
    | ComputerVision
    | Other

  /** A purchase record account, written once by `purchase_model`. */
  datatype PurchaseRecord = PurchaseRecord(buyer: Pubkey, pricePaid: nat, purchasedAt: int, hasAccess: bool)

  /** A review account, written once by `rate_model`. */
  datatype ModelReview = ModelReview(reviewer: Pubkey, rating: U8, createdAt: int)

  /** The stars a review adds to `rating_sum`. */
  function ReviewRating(review: ModelReview): nat { review.rating as nat }

  const MinRating: nat := 1
  const MaxRating: nat := 5

  /** The marketplace account. */
  class Marketplace {
    const authority: Pubkey
    const tokenMint: Pubkey
    const treasury: Pubkey
    const royaltyPercentage: U16
    var totalModels: nat
    var totalSales: nat
    var totalVolume: nat
    const isInitialized: bool

    /** `initialize_marketplace`; the royalty is in basis points. */
    constructor (authority: Pubkey, tokenMint: Pubkey, treasury: Pubkey, royaltyPercentage: U16)
      ensures this.authority == authority && this.tokenMint == tokenMint && this.treasury == treasury
      ensures this.royaltyPercentage == royaltyPercentage
      ensures totalModels == 0 && totalSales == 0 && totalVolume == 0 && isInitialized
    {
      this.authority := authority;
      this.tokenMint := tokenMint;
      this.treasury := treasury;
      this.royaltyPercentage := royaltyPercentage;
      totalModels := 0;
      totalSales := 0;
      totalVolume := 0;
      isInitialized := true;
    }
  }

  /** A model listing account. `purchases` and `reviews` are not fields of
      the account: they hold the purchase records and reviews whose addresses
      are derived from this listing, keyed by buyer and by reviewer. */
  class ModelListing {
    const marketplace: Marketplace
    const creator: Pubkey
    const price: nat
    const modelType: ModelType
    const createdAt: int
    var salesCount: nat
    var totalRevenue: nat
    var isActive: bool
    var ratingSum: nat
    var ratingCount: nat
    var purchases: map<Pubkey, PurchaseRecord>
    var reviews: map<Pubkey, ModelReview>

    /** Every sale is one purchase record at the listing's price. */
    ghost predicate SalesValid()
      reads this
    {
      && salesCount == |purchases|
      && totalRevenue == salesCount * price
      && forall b | b in purchases :: purchases[b] == PurchaseRecord(b, price, purchases[b].purchasedAt, true)
    }

    /** Every rating is one review of 1 to 5 stars by a purchaser, and
        `rating_sum` is the sum of the reviews' stars. */
    ghost predicate RatingsValid()
      reads this
    {
      && ratingCount == |reviews|
      && ratingSum == MapSum(reviews, ReviewRating)
      && MinRating * ratingCount <= ratingSum <= MaxRating * ratingCount
      && reviews.Keys <= purchases.Keys
      && forall v | v in reviews :: reviews[v].reviewer == v && MinRating <= reviews[v].rating <= MaxRating
    }

    ghost predicate Valid()
      reads this
    {
      SalesValid() && RatingsValid()
    }

    constructor (marketplace: Marketplace, creator: Pubkey, price: nat, modelType: ModelType, now: int)
      ensures this.marketplace == marketplace && this.creator == creator && this.price == price
      ensures this.modelType == modelType && createdAt == now
      ensures salesCount == 0 && totalRevenue == 0 && isActive && ratingSum == 0 && ratingCount == 0
      ensures purchases == map[] && reviews == map[]
      ensures Valid()
    {
      this.marketplace := marketplace;
      this.creator := creator;
      this.price := price;
      this.modelType := modelType;
      createdAt := now;
      salesCount := 0;
      totalRevenue := 0;
      isActive := true;
      ratingSum := 0;
      ratingCount := 0;
      purchases := map[];
      reviews := map[];
    }
  }

  /** `list_model`: a new listing with zeroed counters, active, counted by
      the marketplace. The listing's address is a fresh keypair. */
  method ListModel(market: Marketplace, creator: Pubkey, price: nat, modelType: ModelType, now: int)
    returns (listing: ModelListing)
    modifies market`totalModels
    ensures fresh(listing) && listing.Valid()
    ensures listing.marketplace == market && listing.creator == creator && listing.price == price
    ensures listing.modelType == modelType && listing.createdAt == now
    ensures listing.salesCount == 0 && listing.totalRevenue == 0 && listing.isActive
    ensures listing.ratingSum == 0 && listing.ratingCount == 0
    ensures listing.purchases == map[] && listing.reviews == map[]
    ensures market.totalModels == old(market.totalModels) + 1
  {
    listing := new ModelListing(market, creator, price, modelType, now);
    market.totalModels := market.totalModels + 1;
  }

  /** `purchase_model`: records the buyer's access and pays the listing's
      price as a royalty to `treasury` (skipped when zero) and the rest to
      `creatorAccount`. Neither destination is checked against the
      marketplace or the listing. */
  method PurchaseModel(market: Marketplace, listing: ModelListing, buyer: Pubkey,
                       treasury: Pubkey, creatorAccount: Pubkey, now: int)
    returns (r: Result<seq<Transfer>, Error>)
    requires listing.Valid()
    requires buyer !in listing.purchases && listing.isActive ==> market.royaltyPercentage <= BasisPointsPerUnit
    modifies market`totalSales, market`totalVolume
    modifies listing`salesCount, listing`totalRevenue, listing`purchases
    ensures listing.Valid()
    ensures buyer in old(listing.purchases) ==> r == Err(AccountAlreadyInUse)
    ensures buyer !in old(listing.purchases) && !listing.isActive ==> r == Err(ModelNotActive)
    ensures r.Err? ==>
              && listing.purchases == old(listing.purchases)
              && listing.salesCount == old(listing.salesCount) && listing.totalRevenue == old(listing.totalRevenue)
              && market.totalSales == old(market.totalSales) && market.totalVolume == old(market.totalVolume)
    ensures buyer !in old(listing.purchases) && listing.isActive ==>
              && r == Ok(FeeSplitTransfers(listing.price, market.royaltyPercentage, treasury, creatorAccount))
              && listing.purchases == old(listing.purchases)[buyer := PurchaseRecord(buyer, listing.price, now, true)]
              && listing.salesCount == old(listing.salesCount) + 1
              && listing.totalRevenue == old(listing.totalRevenue) + listing.price
              && market.totalSales == old(market.totalSales) + 1
              && market.totalVolume == old(market.totalVolume) + listing.price
  {
    if buyer in listing.purchases {
      return Err(AccountAlreadyInUse);
    }
    if !listing.isActive {
      return Err(ModelNotActive);
    }
    var payments := FeeSplitTransfers(listing.price, market.royaltyPercentage, treasury, creatorAccount);
    listing.purchases := listing.purchases[buyer := PurchaseRecord(buyer, listing.price, now, true)];
    listing.salesCount := listing.salesCount + 1;
    listing.totalRevenue := listing.totalRevenue + listing.price;
    market.totalSales := market.totalSales + 1;
    market.totalVolume := market.totalVolume + listing.price;
    r := Ok(payments);
  }

  /** `rate_model`: a purchaser without a review adds one rating of 1 to 5. */
  method RateModel(listing: ModelListing, reviewer: Pubkey, rating: U8, now: int) returns (r: Result<(), Error>)
    requires listing.RatingsValid()
    modifies listing`ratingSum, listing`ratingCount, listing`reviews
    ensures listing.RatingsValid()
    ensures reviewer !in listing.purchases ==> r == Err(AccountNotInitialized)
    ensures reviewer in listing.purchases && reviewer in old(listing.reviews) ==> r == Err(AccountAlreadyInUse)
    ensures reviewer in listing.purchases && reviewer !in old(listing.reviews) && !(MinRating <= rating <= MaxRating) ==>
              r == Err(InvalidRating)
    ensures reviewer in listing.purchases && reviewer !in old(listing.reviews) && MinRating <= rating <= MaxRating &&
            !listing.purchases[reviewer].hasAccess ==>
              r == Err(NoAccessToModel)
    ensures r.Err? ==>
              listing.reviews == old(listing.reviews) &&
              listing.ratingSum == old(listing.ratingSum) && listing.ratingCount == old(listing.ratingCount)
    ensures r.Ok? <==>
              reviewer in listing.purchases && reviewer !in old(listing.reviews) &&
              MinRating <= rating <= MaxRating && listing.purchases[reviewer].hasAccess
    ensures r.Ok? ==>
              && listing.reviews == old(listing.reviews)[reviewer := ModelReview(reviewer, rating, now)]
              && listing.ratingSum == old(listing.ratingSum) + rating
              && listing.ratingCount == old(listing.ratingCount) + 1
  {
    if reviewer !in listing.purchases {
      return Err(AccountNotInitialized);
    }
    if reviewer in listing.reviews {
      return Err(AccountAlreadyInUse);
    }
    if !(MinRating <= rating <= MaxRating) {
      return Err(InvalidRating);
    }
    if !listing.purchases[reviewer].hasAccess {
      return Err(NoAccessToModel);
    }
    listing.reviews := listing.reviews[reviewer := ModelReview(reviewer, rating, now)];
    listing.ratingSum := listing.ratingSum + rating;
    listing.ratingCount := listing.ratingCount + 1;
    MapSumInsert(old(listing.reviews), ReviewRating, reviewer, ModelReview(reviewer, rating, now));
    r := Ok(());
  }

  /** `update_model_status`: only the listing's creator may switch it. */
  method UpdateModelStatus(listing: ModelListing, signer: Pubkey, isActive: bool) returns (r: Result<(), Error>)
    modifies listing`isActive
    ensures signer != listing.creator ==> r == Err(Unauthorized) && listing.isActive == old(listing.isActive)
    ensures signer == listing.creator ==> r == Ok(()) && listing.isActive == isActive
  {
    if signer != listing.creator {
      return Err(Unauthorized);
    }
    listing.isActive := isActive;
    r := Ok(());
  }

  /** `get_model_access`: whether `user` holds a purchase record granting
      access; on a valid listing every purchaser does. */
  method GetModelAccess(listing: ModelListing, user: Pubkey) returns (r: Result<bool, Error>)
    ensures user !in listing.purchases ==> r == Err(AccountNotInitialized)
    ensures user in listing.purchases ==> r == Ok(listing.purchases[user].hasAccess)
    ensures listing.SalesValid() ==> (r == Ok(true) <==> user in listing.purchases)
  {
    if user !in listing.purchases {
      return Err(AccountNotInitialized);
    }
    r := Ok(listing.purchases[user].hasAccess);
  }

  /** Buying an active listing twice: the second purchase fails, so the
      buyer pays and is counted once. */
  method PurchaseTwice(market: Marketplace, listing: ModelListing, buyer: Pubkey,
                       treasury: Pubkey, creatorAccount: Pubkey, now: int)
    returns (first: Result<seq<Transfer>, Error>, second: Result<seq<Transfer>, Error>)
    requires listing.Valid() && listing.isActive && market.royaltyPercentage <= BasisPointsPerUnit
    modifies market`totalSales, market`totalVolume
    modifies listing`salesCount, listing`totalRevenue, listing`purchases
    ensures buyer !in old(listing.purchases) ==> first.Ok?
    ensures second == Err(AccountAlreadyInUse)
    ensures listing.salesCount == old(listing.salesCount) + (if buyer in old(listing.purchases) then 0 else 1)
  {
    first := PurchaseModel(market, listing, buyer, treasury, creatorAccount, now);
    second := PurchaseModel(market, listing, buyer, treasury, creatorAccount, now);
  }

  /** The average rating of a valid listing with ratings lies within 1..5. */
  lemma AverageRatingInRange(listing: ModelListing)
    requires listing.RatingsValid() && listing.ratingCount > 0
    ensures MinRating <= listing.ratingSum / listing.ratingCount <= MaxRating
  {
    var s, c := listing.ratingSum, listing.ratingCount;
    DivMonotone(c, s, c);
    DivMonotone(s, MaxRating * c, c);
    assert MaxRating * c / c == MaxRating;
  }
}
