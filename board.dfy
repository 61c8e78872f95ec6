/**
 The board table: one row per space, 40 spaces, with the columns of the
 board dataset. Two columns change during a game, Owner and NumOfHouses;
 the read-only accessors and the two guarded updates are functions of the
 table here, and the game state applies the updates to its own table.
 */
module Board {
  import opened Values

  /** The number of spaces on the board ring. */
  const Size: nat := 40

  /** One row of the board table; an empty cell is `None`. */
  datatype Row = Row(
    spaceName: string,
    color: Option<string>,
    price: Option<int>,
    rent: Option<int>,
    oneHouseRent: Option<int>,
    twoHouseRent: Option<int>,
    threeHouseRent: Option<int>,
    fourHouseRent: Option<int>,
    hotelRent: Option<int>,
    houseCost: Option<int>,
    mortgageValue: Option<int>,
    numOfHouses: Option<int>,
    owner: Option<string>,
    fee: Option<int>)

  /** The column names of the board table. */
  const Columns: seq<string> := [
    "SpaceName", "Color", "Price", "Rent", "1HouseRent", "2HouseRent",
    "3HouseRent", "4HouseRent", "HotelRent", "HouseCost", "MortgageValue",
    "NumOfHouses", "Owner", "Fee"]

  /**
   `get_cell`: the checked content of one cell. The column name is tested
   first: an unknown one is reported (the source prints a message) and
   yields nothing, whatever the index; only a known column reads the table.
   */
  function Cell(b: seq<Row>, space: nat, column: string): (r: Option<Value>)
    requires column in Columns ==> space < |b|
    ensures r.Some? <==> column in Columns
    ensures column == "SpaceName" ==> r == Some(StrV(b[space].spaceName))
    ensures column == "Color" ==> r == Some(CheckText(b[space].color))
    ensures column == "Price" ==> r == Some(CheckNum(b[space].price))
    ensures column == "Rent" ==> r == Some(CheckNum(b[space].rent))
    ensures column == "1HouseRent" ==> r == Some(CheckNum(b[space].oneHouseRent))
    ensures column == "2HouseRent" ==> r == Some(CheckNum(b[space].twoHouseRent))
    ensures column == "3HouseRent" ==> r == Some(CheckNum(b[space].threeHouseRent))
    ensures column == "4HouseRent" ==> r == Some(CheckNum(b[space].fourHouseRent))
    ensures column == "HotelRent" ==> r == Some(CheckNum(b[space].hotelRent))
    ensures column == "HouseCost" ==> r == Some(CheckNum(b[space].houseCost))
    ensures column == "MortgageValue" ==> r == Some(CheckNum(b[space].mortgageValue))
    ensures column == "NumOfHouses" ==> r == Some(CheckNum(b[space].numOfHouses))
    ensures column == "Owner" ==> r == Some(Owner(b, space))
    ensures column == "Fee" ==> r == Some(CheckNum(b[space].fee))
  {
    if column !in Columns then None
    else
    var row := b[space];
    if column == "SpaceName" then Some(StrV(row.spaceName))
    else if column == "Color" then Some(CheckText(row.color))
    else if column == "Price" then Some(CheckNum(row.price))
    else if column == "Rent" then Some(CheckNum(row.rent))
    else if column == "1HouseRent" then Some(CheckNum(row.oneHouseRent))
    else if column == "2HouseRent" then Some(CheckNum(row.twoHouseRent))
    else if column == "3HouseRent" then Some(CheckNum(row.threeHouseRent))
    else if column == "4HouseRent" then Some(CheckNum(row.fourHouseRent))
    else if column == "HotelRent" then Some(CheckNum(row.hotelRent))
    else if column == "HouseCost" then Some(CheckNum(row.houseCost))
    else if column == "MortgageValue" then Some(CheckNum(row.mortgageValue))
    else if column == "NumOfHouses" then Some(CheckNum(row.numOfHouses))
    else if column == "Owner" then Some(Owner(b, space))
    else if column == "Fee" then Some(CheckNum(row.fee))
    else None
  }

  /** An unknown column yields nothing for every index, on the board or off it, since the table is never read. */
  lemma UnknownColumnOffBoard(b: seq<Row>, space: nat, column: string)
    requires column !in Columns
    ensures Cell(b, space, column) == None
    ensures Cell(b, |b| + 59, "Foo") == None
  {
    assert "Foo" != Columns[0];
  }

  /** `get_owner`: the checked Owner cell, "NaN" for a space nobody can own. */
  function Owner(b: seq<Row>, space: nat): (v: Value)
    requires space < |b|
    ensures v.StrV?
    ensures b[space].owner.Some? ==> v == StrV(b[space].owner.value)
    ensures b[space].owner.None? ==> v == NaN
  {
    CheckText(b[space].owner)
  }

  // ----- change_owner -----

  /** Whether `change_owner` writes the Owner cell: only when it does not read as "NaN". */
  predicate Ownable(b: seq<Row>, space: nat)
    requires space < |b|
  {
    Owner(b, space) != NaN
  }

  /**
   `change_owner`: when the space can be owned, its Owner cell becomes
   `name`, whoever owned it before; otherwise the board is unchanged.
   Every other cell of every row keeps its value.
   */
  function ChangeOwner(b: seq<Row>, space: nat, name: string): (r: seq<Row>)
    requires space < |b|
    ensures |r| == |b|
    ensures forall i :: 0 <= i < |b| && i != space ==> r[i] == b[i]
    ensures !Ownable(b, space) ==> r == b
    ensures Ownable(b, space) ==> r[space] == b[space].(owner := Some(name))
  {
    if Owner(b, space) == NaN then b
    else b[space := b[space].(owner := Some(name))]
  }

  /** Reading the owner back after a change gives the new name (or "NaN" if the space is not ownable). */
  lemma OwnerAfterChange(b: seq<Row>, space: nat, name: string)
    requires space < |b|
    ensures Ownable(b, space) ==> Owner(ChangeOwner(b, space, name), space) == StrV(name)
    ensures Ownable(b, space) ==> Cell(ChangeOwner(b, space, name), space, "Owner") == Some(StrV(name))
    ensures !Ownable(b, space) ==> Owner(ChangeOwner(b, space, name), space) == NaN
  {
  }

  /** Changing one space's owner leaves every other space's owner as it was. */
  lemma OwnerElsewhere(b: seq<Row>, changed: nat, name: string, space: nat)
    requires changed < |b| && space < |b| && space != changed
    ensures Owner(ChangeOwner(b, changed, name), space) == Owner(b, space)
  {
  }

  /** Two changes in a row: the second one wins, unless the first wrote the text "NaN". */
  lemma ChangeOwnerLastWins(b: seq<Row>, space: nat, first: string, second: string)
    requires space < |b|
    requires first != "NaN"
    ensures ChangeOwner(ChangeOwner(b, space, first), space, second) == ChangeOwner(b, space, second)
  {
    var b1 := ChangeOwner(b, space, first);
    if Ownable(b, space) {
      assert Owner(b1, space) == StrV(first);
      assert ChangeOwner(b1, space, second) == b[space := b[space].(owner := Some(second))];
    }
  }

  /** Writing the owner name "NaN" makes the space unownable for good. */
  lemma ChangeOwnerToNaNLocks(b: seq<Row>, space: nat, name: string)
    requires space < |b|
    ensures var locked := ChangeOwner(b, space, "NaN");
      !Ownable(locked, space) && ChangeOwner(locked, space, name) == locked
  {
  }

  // ----- change_houses -----

  /**
   Whether `change_houses` accepts the change: the NumOfHouses cell is not
   empty and the new count stays within 0 to 5 (5 being a hotel).
   */
  predicate HouseChangeAccepted(row: Row, delta: int)
  {
    row.numOfHouses.Some? && 0 <= row.numOfHouses.value + delta <= 5
  }

  /**
   `change_houses`: adds `delta` (negative to sell) to NumOfHouses when the
   change is accepted; otherwise the board is unchanged. A count it writes
   always lies in 0 to 5, and no other cell changes.
   */
  function ChangeHouses(b: seq<Row>, space: nat, delta: int): (r: seq<Row>)
    requires space < |b|
    ensures |r| == |b|
    ensures forall i :: 0 <= i < |b| && i != space ==> r[i] == b[i]
    ensures !HouseChangeAccepted(b[space], delta) ==> r == b
    ensures HouseChangeAccepted(b[space], delta) ==>
      r[space] == b[space].(numOfHouses := Some(b[space].numOfHouses.value + delta))
    ensures r[space].numOfHouses != b[space].numOfHouses ==>
      r[space].numOfHouses.Some? && 0 <= r[space].numOfHouses.value <= 5
  {
    var houseNum := b[space].numOfHouses;
    if houseNum.None? then b
    else if houseNum.value + delta > 5 || houseNum.value + delta < 0 then b
    else b[space := b[space].(numOfHouses := Some(houseNum.value + delta))]
  }

  /** Every NumOfHouses cell that is present lies in 0 to 5. */
  ghost predicate HousesInRange(b: seq<Row>)
  {
    forall i :: 0 <= i < |b| && b[i].numOfHouses.Some? ==> 0 <= b[i].numOfHouses.value <= 5
  }

  /** `change_houses` keeps every house count in range. */
  lemma ChangeHousesKeepsRange(b: seq<Row>, space: nat, delta: int)
    requires space < |b| && HousesInRange(b)
    ensures HousesInRange(ChangeHouses(b, space, delta))
  {
  }

  /** `change_houses(space, +1)` applied `k` times. */
  function AddOneHouseTimes(b: seq<Row>, space: nat, k: nat): (r: seq<Row>)
    requires space < |b|
    ensures |r| == |b|
  {
    if k == 0 then b else ChangeHouses(AddOneHouseTimes(b, space, k - 1), space, 1)
  }

  /** Single increments from `m` houses reach `m + k` as long as that stays at most 5, touching nothing else. */
  lemma {:induction false} AddOneHouseTimesCount(b: seq<Row>, space: nat, m: nat, k: nat)
    requires space < |b| && b[space].numOfHouses == Some(m) && m + k <= 5
    ensures AddOneHouseTimes(b, space, k) == b[space := b[space].(numOfHouses := Some(m + k))]
  {
    if k > 0 {
      AddOneHouseTimesCount(b, space, m, k - 1);
      var prev := AddOneHouseTimes(b, space, k - 1);
      assert prev[space].numOfHouses == Some(m + k - 1);
      assert ChangeHouses(prev, space, 1) == prev[space := prev[space].(numOfHouses := Some(m + k))];
    } else {
      assert b[space := b[space].(numOfHouses := Some(m))] == b;
    }
  }

  /** Five single increments from an empty lot reach a hotel (5); a sixth is rejected. */
  lemma FiveHousesMakeHotel(b: seq<Row>, space: nat)
    requires space < |b| && b[space].numOfHouses == Some(0)
    ensures AddOneHouseTimes(b, space, 5)[space].numOfHouses == Some(5)
    ensures AddOneHouseTimes(b, space, 6) == AddOneHouseTimes(b, space, 5)
  {
    AddOneHouseTimesCount(b, space, 0, 5);
  }

  /** Removing ten houses is always rejected when the count is in range. */
  lemma RemovingTenRejected(b: seq<Row>, space: nat)
    requires space < |b| && HousesInRange(b)
    ensures ChangeHouses(b, space, -10) == b
  {
  }

  // ----- get_space_number -----

  /** The indices, from `k` on and in increasing order, of the rows named `name`. */
  function MatchesFrom(b: seq<Row>, name: string, k: nat): (r: seq<nat>)
    requires k <= |b|
    ensures forall j :: 0 <= j < |r| ==> k <= r[j] < |b|
    ensures forall i: nat :: i in r <==> k <= i < |b| && b[i].spaceName == name
    ensures forall j, l :: 0 <= j < l < |r| ==> r[j] < r[l]
    decreases |b| - k
  {
    if k == |b| then []
    else if b[k].spaceName == name then [k] + MatchesFrom(b, name, k + 1)
    else MatchesFrom(b, name, k + 1)
  }

  /** `board[board["SpaceName"] == name].index.values`. */
  function Matches(b: seq<Row>, name: string): (r: seq<nat>)
    ensures forall i: nat :: i in r <==> i < |b| && b[i].spaceName == name
    ensures forall j, l :: 0 <= j < l < |r| ==> r[j] < r[l]
  {
    MatchesFrom(b, name, 0)
  }

  /**
   What `get_space_number` returns: one index, the list of all indices,
   or the error Python's `int` raises on an array that has not exactly one
   element.
   */
  datatype Lookup = Index(i: nat) | Indices(all: seq<nat>) | NotScalar

  /**
   `get_space_number` as written: a list only for more than two matches;
   `int(dex)` fails for zero matches and for exactly two.
   */
  function SpaceNumber(b: seq<Row>, name: string): (r: Lookup)
    ensures r.Index? <==> |Matches(b, name)| == 1
    ensures r.Index? ==> (r.i < |b| && b[r.i].spaceName == name &&
      forall i :: 0 <= i < |b| && b[i].spaceName == name ==> i == r.i)
    ensures r.Indices? ==> (2 < |r.all| && forall i: nat :: i in r.all <==> i < |b| && b[i].spaceName == name)
    ensures r.Indices? ==> r.all == Matches(b, name)
    ensures r.NotScalar? <==> |Matches(b, name)| == 0 || |Matches(b, name)| == 2
  {
    var dex := Matches(b, name);
    if |dex| > 2 then Indices(dex)
    else if |dex| == 1 then assert dex[0] in dex; Index(dex[0])
    else NotScalar
  }

  /**
   `get_space_number` as its documentation describes it: a list for every
   name carried by several spaces.
   */
  function SpaceNumberIntended(b: seq<Row>, name: string): (r: Lookup)
    ensures r.Index? ==> (r.i < |b| && b[r.i].spaceName == name &&
      forall i :: 0 <= i < |b| && b[i].spaceName == name ==> i == r.i)
    ensures r.Index? <==> |Matches(b, name)| == 1
    ensures r.Indices? ==> (1 < |r.all| && forall i: nat :: i in r.all <==> i < |b| && b[i].spaceName == name)
    ensures r.Indices? ==> r.all == Matches(b, name)
    ensures r.NotScalar? <==> forall i :: 0 <= i < |b| ==> b[i].spaceName != name
  {
    var dex := Matches(b, name);
    if |dex| > 1 then assert dex[0] in dex; Indices(dex)
    else if |dex| == 1 then assert dex[0] in dex; Index(dex[0])
    else NotScalar
  }

  /** A row with only a name, used to build example boards. */
  function NamedRow(name: string): Row
  {
    Row(name, None, None, None, None, None, None, None, None, None, None, None, None, None)
  }

  /** No match from `k` on gives the empty list of matches. */
  lemma {:induction false} NoMatchesFrom(b: seq<Row>, name: string, k: nat)
    requires k <= |b|
    requires forall i :: k <= i < |b| ==> b[i].spaceName != name
    ensures MatchesFrom(b, name, k) == []
    decreases |b| - k
  {
    if k < |b| {
      NoMatchesFrom(b, name, k + 1);
    }
  }

  /**
   A board on which exactly two spaces are named "Chance": the lookup as
   written fails, the intended one lists both spaces.
   */
  lemma TwoMatchesNotScalar()
    ensures var b := seq(Size, i => NamedRow(if i < 2 then "Chance" else "Go"));
      SpaceNumber(b, "Chance") == NotScalar &&
      SpaceNumberIntended(b, "Chance") == Indices([0, 1])
  {
    var b := seq(Size, i => NamedRow(if i < 2 then "Chance" else "Go"));
    assert |b| == 40;
    assert forall i :: 2 <= i < |b| ==> b[i] == NamedRow("Go");
    assert b[0] == NamedRow("Chance") && b[1] == NamedRow("Chance");
    NoMatchesFrom(b, "Chance", 2);
    assert MatchesFrom(b, "Chance", 1) == [1];
    assert Matches(b, "Chance") == [0, 1];
  }

  /**
   The intended lookup succeeds for every name on the board and returns
   exactly the spaces that carry it.
   */
  lemma SpaceNumberIntendedFindsAll(b: seq<Row>, name: string, space: nat)
    requires space < |b| && b[space].spaceName == name
    ensures var r := SpaceNumberIntended(b, name);
      (r.Index? && forall i :: 0 <= i < |b| && b[i].spaceName == name ==> i == r.i) ||
      (r.Indices? && 1 < |r.all| && forall i: nat :: i in r.all <==> i < |b| && b[i].spaceName == name)
  {
    var dex := Matches(b, name);
    assert space in dex;
    if |dex| == 1 {
      assert dex[0] in dex;
    }
  }
}
