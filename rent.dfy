/**
 The rent engine: what is owed on landing on a space, dispatched on the
 space's index exactly as the game state does it (utilities 12 and 28,
 railroads 5, 15, 25 and 35, taxes 4 and 38, every other index read as a
 property), and the category dispatch of the property-card summary.
 */
module Rent {
  import opened Values
  import opened Board
  import Lists

  /** The rent rule a space index selects. */
  datatype Category = Utility | Railroad | IncomeTax | LuxuryTax | Ordinary

  /** The two utility spaces. */
  predicate IsUtility(space: nat)
  {
    space == 12 || space == 28
  }

  /** The four railroad spaces. */
  predicate IsRailroad(space: nat)
  {
    space == 5 || space == 15 || space == 25 || space == 35
  }

  function CategoryOf(space: nat): Category
  {
    if IsUtility(space) then Utility
    else if IsRailroad(space) then Railroad
    else if space == 4 then IncomeTax
    else if space == 38 then LuxuryTax
    else Ordinary
  }

  const NeedsDiceRoll: string :=
    "A dice roll(int) needs to be included as a second parameter to calculate utility rent."
  const NoRailroadsOwned: string := "No Railroads owned."

  /** The owners of the four railroads, in board order. */
  function RailroadOwners(b: seq<Row>): seq<Value>
    requires |b| == Size
  {
    [Owner(b, 5), Owner(b, 15), Owner(b, 25), Owner(b, 35)]
  }

  /** How many of the four railroads have the same owner as `space`. */
  function RailroadCount(b: seq<Row>, space: nat): (c: nat)
    requires |b| == Size && space < Size
    ensures c <= 4
    ensures Owner(b, space) in RailroadOwners(b) ==> 1 <= c
  {
    Lists.Count(RailroadOwners(b), Owner(b, space))
  }

  /** The railroad tier for a count, with the message for a count of zero. */
  function RailroadRent(count: nat): (r: Option<Value>)
    ensures 1 <= count <= 4 ==> r == Some(IntV(25 * Pow2(count - 1)))
    ensures count == 0 ==> r == Some(StrV(NoRailroadsOwned))
    ensures 4 < count ==> r == None
  {
    assert Pow2(1) == 2 && Pow2(2) == 4 && Pow2(3) == 8;
    if count == 0 then Some(StrV(NoRailroadsOwned))
    else if count == 1 then Some(IntV(25))
    else if count == 2 then Some(IntV(50))
    else if count == 3 then Some(IntV(100))
    else if count == 4 then Some(IntV(200))
    else None
  }

  /**
   The rent of a property row, selected by its NumOfHouses cell as the
   source writes it: the final test for the hotel checks for 1 house
   again, so 5 houses (and an empty cell) select nothing.
   */
  function PropertyRent(row: Row): (r: Option<Value>)
    ensures r.Some? <==> row.numOfHouses.Some? && 0 <= row.numOfHouses.value <= 4
    ensures r.Some? ==> r == Some(CheckNum(Tiers(row)[row.numOfHouses.value]))
  {
    match row.numOfHouses
    case None => None
    case Some(houseNum) =>
      if houseNum == 0 then Some(CheckNum(row.rent))
      else if houseNum == 1 then Some(CheckNum(row.oneHouseRent))
      else if houseNum == 2 then Some(CheckNum(row.twoHouseRent))
      else if houseNum == 3 then Some(CheckNum(row.threeHouseRent))
      else if houseNum == 4 then Some(CheckNum(row.fourHouseRent))
      else if houseNum == 1 then Some(CheckNum(row.hotelRent))
      else None
  }

  /**
   `get_current_rent`: an amount, a message, or nothing (`None`).
   A dice roll of 0 stands for the source's default argument. Nothing is
   returned only for a property; the only texts returned are the dice-roll
   message and the "NaN" of an empty property cell; a railroad always
   costs an amount.
   */
  function CurrentRent(b: seq<Row>, space: nat, diceRoll: int): (r: Option<Value>)
    requires |b| == Size && space < Size
    ensures r.None? ==> CategoryOf(space) == Ordinary
    ensures r.Some? && r.value.StrV? ==>
      (CategoryOf(space) == Utility && diceRoll == 0 && r.value == StrV(NeedsDiceRoll)) ||
      (CategoryOf(space) == Ordinary && r.value == NaN)
    ensures IsRailroad(space) ==> r.Some? && r.value.IntV?
  {
    match CategoryOf(space)
    case Utility =>
      if diceRoll == 0 then Some(StrV(NeedsDiceRoll))
      else if Owner(b, 12) == Owner(b, 28) then Some(IntV(diceRoll * 10))
      else Some(IntV(diceRoll * 4))
    case Railroad => RailroadCountBounds(b, space); RailroadRent(RailroadCount(b, space))
    case IncomeTax => Some(IntV(200))
    case LuxuryTax => Some(IntV(100))
    case Ordinary => PropertyRent(b[space])
  }

  // ----- properties of the rent engine -----

  /** Utility rent: a message without a roll, otherwise 10 or 4 times the roll. */
  lemma UtilityRent(b: seq<Row>, space: nat, diceRoll: int)
    requires |b| == Size && IsUtility(space)
    ensures diceRoll == 0 ==> CurrentRent(b, space, diceRoll) == Some(StrV(NeedsDiceRoll))
    ensures diceRoll != 0 && Owner(b, 12) == Owner(b, 28) ==> CurrentRent(b, space, diceRoll) == Some(IntV(10 * diceRoll))
    ensures diceRoll != 0 && Owner(b, 12) != Owner(b, 28) ==> CurrentRent(b, space, diceRoll) == Some(IntV(4 * diceRoll))
  {
  }

  /** With a roll of 6: 24 when one player owns one utility, 60 when one player owns both. */
  lemma UtilityRentWithSix(b: seq<Row>, player: string)
    requires |b| == Size
    requires b[12].owner == Some(player) && player != "NaN"
    ensures b[28].owner == Some(player) ==> CurrentRent(b, 12, 6) == Some(IntV(60))
    ensures b[28].owner == Some("bank") && player != "bank" ==> CurrentRent(b, 12, 6) == Some(IntV(24))
  {
  }

  function Pow2(n: nat): nat
  {
    if n == 0 then 1 else 2 * Pow2(n - 1)
  }

  /** The landed-on railroad always counts itself, so the count is between 1 and 4. */
  lemma RailroadCountBounds(b: seq<Row>, space: nat)
    requires |b| == Size && IsRailroad(space)
    ensures 1 <= RailroadCount(b, space) <= 4
  {
    RailroadOwnerAt(b, space);
  }

  /** On a railroad, the rent is the tier of the railroad count. */
  lemma RailroadCurrentRent(b: seq<Row>, space: nat, diceRoll: int)
    requires |b| == Size && IsRailroad(space)
    ensures CurrentRent(b, space, diceRoll) == RailroadRent(RailroadCount(b, space))
  {
  }

  /** The tiers 25, 50, 100 and 200 start at 25 and double with each railroad. */
  lemma RailroadTierIsPow2(count: nat)
    requires 1 <= count <= 4
    ensures RailroadRent(count) == Some(IntV(25 * Pow2(count - 1)))
  {
    assert Pow2(1) == 2 && Pow2(2) == 4 && Pow2(3) == 8;
  }

  /**
   Railroad rent doubles with each railroad of the same owner: 25, 50,
   100 or 200, and "No Railroads owned." is never the answer.
   */
  lemma RailroadRentTier(b: seq<Row>, space: nat, diceRoll: int)
    requires |b| == Size && IsRailroad(space)
    ensures 1 <= RailroadCount(b, space) <= 4
    ensures var count := RailroadCount(b, space);
      CurrentRent(b, space, diceRoll) == Some(IntV(25 * Pow2(count - 1)))
    ensures CurrentRent(b, space, diceRoll) != Some(StrV(NoRailroadsOwned))
  {
    RailroadCountBounds(b, space);
    RailroadCurrentRent(b, space, diceRoll);
    RailroadTierIsPow2(RailroadCount(b, space));
  }

  /** The position of a railroad space among the four railroads. */
  function RailroadPosition(space: nat): (k: nat)
    requires IsRailroad(space)
    ensures k < 4 && [5, 15, 25, 35][k] == space
  {
    if space == 5 then 0 else if space == 15 then 1 else if space == 25 then 2 else 3
  }

  /** The owner of a railroad is its entry among the four owners. */
  lemma RailroadOwnerAt(b: seq<Row>, space: nat)
    requires |b| == Size && IsRailroad(space)
    ensures RailroadOwners(b)[RailroadPosition(space)] == Owner(b, space)
  {
  }

  /** Changing a railroad's owner changes exactly that railroad's entry among the owners. */
  lemma RailroadOwnersAfterChange(b: seq<Row>, bought: nat, player: string)
    requires |b| == Size && IsRailroad(bought) && Ownable(b, bought)
    ensures RailroadOwners(ChangeOwner(b, bought, player)) ==
      RailroadOwners(b)[RailroadPosition(bought) := StrV(player)]
  {
  }

  /** Buying another railroad from a different owner adds one to the buyer's count. */
  lemma BuyingRailroadAddsOne(b: seq<Row>, held: nat, bought: nat, player: string)
    requires |b| == Size && IsRailroad(held) && IsRailroad(bought)
    requires b[held].owner == Some(player) && player != "NaN"
    requires Ownable(b, bought) && Owner(b, bought) != StrV(player)
    ensures RailroadCount(ChangeOwner(b, bought, player), held) == RailroadCount(b, held) + 1
  {
    var x := StrV(player);
    var after := ChangeOwner(b, bought, player);
    var k := RailroadPosition(bought);
    var ownersBefore, ownersAfter := RailroadOwners(b), RailroadOwners(after);
    assert ownersAfter == ownersBefore[k := x] by {
      RailroadOwnersAfterChange(b, bought, player);
    }
    assert ownersBefore[k] != x by {
      RailroadOwnerAt(b, bought);
    }
    Lists.CountAfterUpdate(ownersBefore, k, x);
    assert RailroadCount(after, held) == Lists.Count(ownersAfter, x) by {
      assert held != bought;
      OwnerElsewhere(b, bought, player, held);
    }
  }

  /** Each further railroad doubles the tier. */
  lemma RailroadRentDoubles(count: nat)
    requires 1 <= count <= 3
    ensures RailroadRent(count).Some? && RailroadRent(count).value.IntV?
    ensures RailroadRent(count + 1) == Some(IntV(2 * RailroadRent(count).value.i))
  {
  }

  /**
   Buying another railroad from a different owner doubles the rent of
   every railroad the buyer already holds.
   */
  lemma BuyingRailroadDoublesRent(b: seq<Row>, held: nat, bought: nat, player: string, diceRoll: int)
    requires |b| == Size && IsRailroad(held) && IsRailroad(bought)
    requires b[held].owner == Some(player) && player != "NaN"
    requires Ownable(b, bought) && Owner(b, bought) != StrV(player)
    ensures CurrentRent(b, held, diceRoll).Some? && CurrentRent(b, held, diceRoll).value.IntV?
    ensures CurrentRent(ChangeOwner(b, bought, player), held, diceRoll) ==
      Some(IntV(2 * CurrentRent(b, held, diceRoll).value.i))
  {
    var after := ChangeOwner(b, bought, player);
    var count := RailroadCount(b, held);
    BuyingRailroadAddsOne(b, held, bought, player);
    RailroadCountBounds(b, held);
    RailroadCountBounds(after, held);
    RailroadCurrentRent(b, held, diceRoll);
    RailroadCurrentRent(after, held, diceRoll);
    RailroadRentDoubles(count);
  }

  /** Tax spaces yield their fixed fee whatever the board holds. */
  lemma TaxRent(b: seq<Row>, diceRoll: int)
    requires |b| == Size
    ensures CurrentRent(b, 4, diceRoll) == Some(IntV(200))
    ensures CurrentRent(b, 38, diceRoll) == Some(IntV(100))
  {
  }

  /** The rent tiers of a row, by number of houses 0 to 5. */
  function Tiers(row: Row): seq<Option<int>>
  {
    [row.rent, row.oneHouseRent, row.twoHouseRent, row.threeHouseRent, row.fourHouseRent, row.hotelRent]
  }

  /**
   Property rent follows the house count for 0 to 4 houses; a hotel, an
   empty NumOfHouses cell or any other count yields nothing.
   */
  lemma PropertyRentTiers(b: seq<Row>, space: nat, diceRoll: int)
    requires |b| == Size && space < Size && CategoryOf(space) == Ordinary
    ensures var h := b[space].numOfHouses;
      h.Some? && 0 <= h.value <= 4 ==> CurrentRent(b, space, diceRoll) == Some(CheckNum(Tiers(b[space])[h.value]))
    ensures var h := b[space].numOfHouses;
      h.None? || h.value < 0 || 4 < h.value ==> CurrentRent(b, space, diceRoll) == None
  {
  }

  /** The hotel tier is never charged: five houses yield nothing. */
  lemma HotelRentUnreachable(b: seq<Row>, space: nat, diceRoll: int)
    requires |b| == Size && space < Size && CategoryOf(space) == Ordinary
    requires b[space].numOfHouses == Some(5)
    ensures CurrentRent(b, space, diceRoll) == None
  {
  }

  /** Property rent with the final test for the hotel reading 5, as documented. */
  function PropertyRentIntended(row: Row): (r: Option<Value>)
    ensures r.Some? <==> row.numOfHouses.Some? && 0 <= row.numOfHouses.value <= 5
    ensures r.Some? ==> r == Some(CheckNum(Tiers(row)[row.numOfHouses.value]))
  {
    match row.numOfHouses
    case None => None
    case Some(houseNum) =>
      if houseNum == 0 then Some(CheckNum(row.rent))
      else if houseNum == 1 then Some(CheckNum(row.oneHouseRent))
      else if houseNum == 2 then Some(CheckNum(row.twoHouseRent))
      else if houseNum == 3 then Some(CheckNum(row.threeHouseRent))
      else if houseNum == 4 then Some(CheckNum(row.fourHouseRent))
      else if houseNum == 5 then Some(CheckNum(row.hotelRent))
      else None
  }

  /** The intended property rent charges every tier, the hotel included, and agrees below 5 houses. */
  lemma PropertyRentIntendedTiers(row: Row)
    requires row.numOfHouses.Some? && 0 <= row.numOfHouses.value <= 5
    ensures PropertyRentIntended(row) == Some(CheckNum(Tiers(row)[row.numOfHouses.value]))
    ensures row.numOfHouses.value < 5 ==> PropertyRentIntended(row) == PropertyRent(row)
    ensures row.numOfHouses.value == 5 ==> PropertyRentIntended(row) != PropertyRent(row)
  {
  }

  /**
   No rent doubling for groups: whoever owns which space, the rent of a
   property depends on its own row's houses and rent columns only.
   */
  lemma OwnershipDoesNotChangePropertyRent(b: seq<Row>, space: nat, other: nat, player: string, diceRoll: int)
    requires |b| == Size && space < Size && other < Size && CategoryOf(space) == Ordinary
    ensures CurrentRent(ChangeOwner(b, other, player), space, diceRoll) == CurrentRent(b, space, diceRoll)
  {
  }

  /**
   A property whose base rent is 50 and which starts without houses costs
   50; after it is bought and two houses are built it costs its 2-house tier.
   */
  lemma BoughtAndBuiltScenario(b: seq<Row>, space: nat, player: string, diceRoll: int)
    requires |b| == Size && space < Size && CategoryOf(space) == Ordinary
    requires b[space].rent == Some(50) && b[space].numOfHouses == Some(0) && b[space].owner == Some("bank")
    ensures CurrentRent(b, space, diceRoll) == Some(IntV(50))
    ensures var built := ChangeHouses(ChangeOwner(b, space, player), space, 2);
      CurrentRent(built, space, diceRoll) == Some(CheckNum(b[space].twoHouseRent)) &&
      Owner(built, space) == StrV(player)
  {
    var bought := ChangeOwner(b, space, player);
    assert bought[space].numOfHouses == Some(0);
  }

  // ----- get_property_overview -----

  /** The layout `get_property_overview` chooses for a space. */
  datatype CardLayout = UtilityCard | RailroadCard | FeeCard | PlainSpace | PropertyCard

  /**
   The layout choice: the same index lists as the rent engine first, then
   a space without a price gets only its name.
   */
  function OverviewLayout(b: seq<Row>, space: nat): (layout: CardLayout)
    requires space < |b|
    ensures layout == UtilityCard <==> CategoryOf(space) == Utility
    ensures layout == RailroadCard <==> CategoryOf(space) == Railroad
    ensures layout == FeeCard <==> CategoryOf(space) in {IncomeTax, LuxuryTax}
    ensures layout == PlainSpace <==> CategoryOf(space) == Ordinary && b[space].price.None?
  {
    if IsUtility(space) then UtilityCard
    else if IsRailroad(space) then RailroadCard
    else if space == 4 || space == 38 then FeeCard
    else if CheckNum(b[space].price) == NaN then PlainSpace
    else PropertyCard
  }
}
