/** SellerService: seller lookups and the clamped seller score. */
module SellerService {
  import opened Wrappers
  import opened Types
  import opened BaseService

  function SellerId(s: Seller): string { s.id }

  /** getSellerById: validateId, then the first seller with the id. */
  function GetSellerById(data: Data<Seller>, id: string): (r: Result<Seller>)
    ensures IsBlank(id) ==> r == Err(EmptyId)
    ensures !IsBlank(id) ==> r == FindById(data, SellerId, id, "sellers")
    ensures r.Ok? ==> r.value.id == id && r.value in GetAllSellers(data)
  {
    var _ :- ValidateId(id, None);
    FindById(data, SellerId, id, "sellers")
  }

  /** getAllSellers: the stored collection in load order, [] when not loaded. */
  function GetAllSellers(data: Data<Seller>): (r: seq<Seller>)
    ensures data.None? ==> r == []
    ensures data.Some? && "sellers" in data.value ==> r == data.value["sellers"]
  {
    Items(data, "sellers")
  }

  /** calculateSellerScore: the reputation clamped to [0, 100] (a percentage, not 0-5). */
  function CalculateSellerScore(seller: Seller): (score: real)
    ensures 0.0 <= score <= 100.0
    ensures 0.0 <= seller.reputation <= 100.0 ==> score == seller.reputation
    ensures seller.reputation < 0.0 ==> score == 0.0
    ensures seller.reputation > 100.0 ==> score == 100.0
  {
    var atLeastZero := if seller.reputation > 0.0 then seller.reputation else 0.0;
    if atLeastZero < 100.0 then atLeastZero else 100.0
  }

  /** Clamping is idempotent: a seller whose reputation is already a score keeps it. */
  lemma ScoreIdempotent(seller: Seller)
    ensures CalculateSellerScore(seller.(reputation := CalculateSellerScore(seller))) == CalculateSellerScore(seller)
  {
  }
}
