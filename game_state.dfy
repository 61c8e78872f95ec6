/**
 The game state object: the board table, which it updates in place, the
 two card decks and the two player lists. The rent, table and deck
 methods are tied to the functions of the Board, Rent and Decks modules
 that specify them; the player-list methods state their new lists directly.
 */
module Monopoly {
  import opened Values
  import opened Lists
  import Board
  import Rent
  import Decks

  class GameState {
    /** The board table, one row per space; the table itself is never replaced. */
    const board: array<Board.Row>
    var currentPlayers: seq<string>
    var bankruptPlayers: seq<string>
    var chance: seq<Decks.ChanceCard>
    var usedChance: seq<Decks.ChanceCard>
    var communityChest: seq<Decks.ChestCard>
    var usedCommunityChest: seq<Decks.ChestCard>

    /**
     The board has its 40 spaces, and the 15 Chance cards and the 16
     Community Chest cards are each split between an available and a
     used pile. (That a draw keeps exactly the same cards is stated by
     the draw methods.)
     */
    ghost predicate Valid()
      reads this, board
    {
      board.Length == Board.Size &&
      |chance| + |usedChance| == 15 &&
      |communityChest| + |usedCommunityChest| == 16
    }

    /**
     A fresh game: the board as loaded, no players, every Chance card
     available, and one Community Chest card available with the other
     fifteen in the used pile.
     */
    constructor (initial: seq<Board.Row>)
      requires |initial| == Board.Size
      ensures Valid()
      ensures board[..] == initial
      ensures currentPlayers == [] && bankruptPlayers == []
      ensures Decks.Piles(chance, usedChance) == Decks.ChanceStart()
      ensures Decks.Piles(communityChest, usedCommunityChest) == Decks.CommunityChestStart()
      ensures fresh(board)
    {
      var table := NewBoard(initial);
      board := table;
      currentPlayers := [];
      bankruptPlayers := [];
      var c, cc := Decks.ChanceStart(), Decks.CommunityChestStart();
      chance := c.available;
      usedChance := c.used;
      communityChest := cc.available;
      usedCommunityChest := cc.used;
    }

    /**
     `get_current_rent`, with the railroad count kept in a counter that
     is raised once per railroad whose owner matches.
     */
    method GetCurrentRent(space: nat, diceRoll: int) returns (r: Option<Value>)
      requires Valid() && space < Board.Size
      ensures r == Rent.CurrentRent(board[..], space, diceRoll)
    {
      var b := board[..];
      if Rent.IsUtility(space) {
        if diceRoll == 0 {
          r := Some(StrV(Rent.NeedsDiceRoll));
        } else if Board.Owner(b, 12) == Board.Owner(b, 28) {
          r := Some(IntV(diceRoll * 10));
        } else {
          r := Some(IntV(diceRoll * 4));
        }
      } else if Rent.IsRailroad(space) {
        var rr := [Board.Owner(b, 5), Board.Owner(b, 15), Board.Owner(b, 25), Board.Owner(b, 35)];
        var myrr := Board.Owner(b, space);
        var counter := 0;
        if myrr == rr[0] {
          counter := counter + 1;
        }
        if myrr == rr[1] {
          counter := counter + 1;
        }
        if myrr == rr[2] {
          counter := counter + 1;
        }
        if myrr == rr[3] {
          counter := counter + 1;
        }
        CountOfFour(rr[0], rr[1], rr[2], rr[3], myrr);
        assert rr == Rent.RailroadOwners(b) && counter == Rent.RailroadCount(b, space);
        if counter == 0 {
          r := Some(StrV(Rent.NoRailroadsOwned));
        } else if counter == 1 {
          r := Some(IntV(25));
        } else if counter == 2 {
          r := Some(IntV(50));
        } else if counter == 3 {
          r := Some(IntV(100));
        } else {
          r := Some(IntV(200));
        }
      } else if space == 4 {
        r := Some(IntV(200));
      } else if space == 38 {
        r := Some(IntV(100));
      } else {
        r := Rent.PropertyRent(board[space]);
      }
    }

    /**
     `change_owner`: writes the new owner into the table when the space
     can be owned; no other cell and no other field changes.
     */
    method ChangeOwner(space: nat, name: string)
      requires Valid() && space < Board.Size
      modifies board
      ensures Valid()
      ensures board[..] == Board.ChangeOwner(old(board[..]), space, name)
    {
      if Board.Owner(board[..], space) != NaN {
        board[space] := board[space].(owner := Some(name));
      }
    }

    /**
     `change_houses`: adds `delta` houses (negative to remove) when the
     cell is present and the result stays within 0 to 5; a table whose
     counts all lie in 0 to 5 keeps them there.
     */
    method ChangeHouses(space: nat, delta: int)
      requires Valid() && space < Board.Size
      modifies board
      ensures Valid()
      ensures board[..] == Board.ChangeHouses(old(board[..]), space, delta)
      ensures Board.HousesInRange(old(board[..])) ==> Board.HousesInRange(board[..])
    {
      var houseNum := board[space].numOfHouses;
      if houseNum.None? {
      } else if houseNum.value + delta > 5 || houseNum.value + delta < 0 {
      } else {
        board[space] := board[space].(numOfHouses := Some(houseNum.value + delta));
      }
      if Board.HousesInRange(old(board[..])) {
        Board.ChangeHousesKeepsRange(old(board[..]), space, delta);
      }
    }

    /**
     `get_chance`: `pick` is the random choice among the available cards
     (after an empty pile has been refilled from the used one). The deck
     keeps its cards, and another card can always be drawn afterwards.
     */
    method GetChance(pick: nat) returns (card: Decks.ChanceCard)
      requires Valid()
      requires pick < |Decks.Refill(Decks.Piles(chance, usedChance)).available|
      modifies this`chance, this`usedChance
      ensures Valid()
      ensures Decks.Draw(Decks.Piles(old(chance), old(usedChance)), pick)
        == Decks.Drawn(Decks.Piles(chance, usedChance), card)
      ensures |Decks.Refill(Decks.Piles(chance, usedChance)).available| > 0
    {
      ghost var d := Decks.Draw(Decks.Piles(chance, usedChance), pick);
      ghost var q := Decks.Refill(Decks.Piles(chance, usedChance));
      if |chance| == 0 {
        chance := usedChance;
        usedChance := [];
      }
      assert Decks.Piles(chance, usedChance) == q;
      card := chance[pick];
      chance := RemoveAt(chance, FirstIndex(chance, card));
      usedChance := usedChance + [card];
      assert d == Decks.Drawn(Decks.Piles(chance, usedChance), card);
    }

    /** `get_community_chest`: the same draw on the Community Chest deck. */
    method GetCommunityChest(pick: nat) returns (card: Decks.ChestCard)
      requires Valid()
      requires pick < |Decks.Refill(Decks.Piles(communityChest, usedCommunityChest)).available|
      modifies this`communityChest, this`usedCommunityChest
      ensures Valid()
      ensures Decks.Draw(Decks.Piles(old(communityChest), old(usedCommunityChest)), pick)
        == Decks.Drawn(Decks.Piles(communityChest, usedCommunityChest), card)
      ensures |Decks.Refill(Decks.Piles(communityChest, usedCommunityChest)).available| > 0
    {
      ghost var d := Decks.Draw(Decks.Piles(communityChest, usedCommunityChest), pick);
      ghost var q := Decks.Refill(Decks.Piles(communityChest, usedCommunityChest));
      if |communityChest| == 0 {
        communityChest := usedCommunityChest;
        usedCommunityChest := [];
      }
      assert Decks.Piles(communityChest, usedCommunityChest) == q;
      card := communityChest[pick];
      communityChest := RemoveAt(communityChest, FirstIndex(communityChest, card));
      usedCommunityChest := usedCommunityChest + [card];
      assert d == Decks.Drawn(Decks.Piles(communityChest, usedCommunityChest), card);
    }

    /**
     `add_player`: the name is appended to the current players whatever
     it is; the name "bank" only draws a warning and is appended too.
     */
    method AddPlayer(name: string)
      requires Valid()
      modifies this`currentPlayers
      ensures Valid()
      ensures currentPlayers == old(currentPlayers) + [name]
      ensures name in currentPlayers
    {
      currentPlayers := currentPlayers + [name];
    }

    /**
     `bankrupt_player`: the first occurrence of the name leaves the current
     players and the name is appended to the bankrupt players; `found` is
     false, and nothing changes, where `list.index` raises ValueError. No
     name is lost or gained across the two lists.
     */
    method BankruptPlayer(name: string) returns (found: bool)
      requires Valid()
      modifies this`currentPlayers, this`bankruptPlayers
      ensures Valid()
      ensures found <==> name in old(currentPlayers)
      ensures found ==> currentPlayers == RemoveFirst(old(currentPlayers), name)
      ensures found ==> bankruptPlayers == old(bankruptPlayers) + [name]
      ensures !found ==> currentPlayers == old(currentPlayers) && bankruptPlayers == old(bankruptPlayers)
      ensures multiset(currentPlayers) + multiset(bankruptPlayers)
        == multiset(old(currentPlayers)) + multiset(old(bankruptPlayers))
    {
      if name !in currentPlayers {
        return false;
      }
      currentPlayers := RemoveAt(currentPlayers, FirstIndex(currentPlayers, name));
      bankruptPlayers := bankruptPlayers + [name];
      found := true;
    }
  }

  /** A fresh board table holding the given rows. */
  method NewBoard(initial: seq<Board.Row>) returns (a: array<Board.Row>)
    ensures fresh(a) && a[..] == initial
  {
    a := new Board.Row[|initial|](i requires 0 <= i < |initial| => initial[i]);
  }

  /** A player removed by bankruptcy loses exactly one occurrence of the name. */
  lemma BankruptRemovesOneOccurrence(players: seq<string>, name: string)
    requires name in players
    ensures Count(RemoveFirst(players, name), name) == Count(players, name) - 1
    ensures forall other :: other != name ==> Count(RemoveFirst(players, name), other) == Count(players, other)
  {
    var r := RemoveFirst(players, name);
    CountIsMultiplicity(players, name);
    CountIsMultiplicity(r, name);
    forall other | other != name
      ensures Count(r, other) == Count(players, other)
    {
      CountIsMultiplicity(players, other);
      CountIsMultiplicity(r, other);
    }
  }

  /** Adding a new player and then declaring that player bankrupt leaves the other players as they were. */
  lemma AddThenBankruptRestores(players: seq<string>, name: string)
    requires name !in players
    ensures name in players + [name]
    ensures RemoveFirst(players + [name], name) == players
  {
    RemoveFirstOfSplit(players, name, []);
    assert players + [name] + [] == players + [name];
  }
}
