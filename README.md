# Monopoly board state in Dafny

This project models the `GameState` object of a Monopoly game written in Python on top of a pandas table. The object holds:

- the board table: 40 rows, one per space, with the columns of the board dataset;
- the Chance deck and the Community Chest deck, each split into an available pile and a used pile;
- the lists of current and bankrupt players.

The model covers every operation the object offers:

- the rent engine, which dispatches on fixed space indices: utilities 12 and 28, railroads 5, 15, 25 and 35, taxes 4 and 38, and every other index read as a property;
- the two guarded in-place updates of the table, for the owner and the house count;
- drawing a card, with the refill of an exhausted pile;
- registering a player and declaring a player bankrupt;
- the read-only accessors and the `checker` helper;
- the choice of layout for a property card.

There are six modules.

- `Values` (values.dfy): what a cell holds, and `checker`.
- `Lists` (lists.dfy): `list.index`, `list.pop` and counting.
- `Board` (board.dfy): the table, its accessors, and the specifications of the two table updates.
- `Rent` (rent.dfy): rent and the card category dispatch.
- `Decks` (decks.dfy): piles, refill and draw.
- `Monopoly` (game_state.dfy): the class `GameState`. Its table is an `array` updated in place and its decks and player lists are `seq` fields. The rent, table and deck methods are proved against the functions of the `Rent`, `Board` and `Decks` modules; the two player-list methods state their new lists directly.

Modelling choices:

- A cell that may be empty is an `Option`. What `checker` hands back is a `Value`, either an integer or a string. An empty cell becomes the string "NaN", as the code does. A text cell that reads "NaN" is therefore treated exactly like an empty one.
- A Python `None` result of `get_current_rent` is `None` here.
- A result that is an amount, a message or `None` is `Some(IntV(..))`, `Some(StrV(..))` or `None`.
- Every board index that reaches the table has to be below 40, because `board.loc` raises KeyError otherwise. `get_cell` tests the column name first, so an unknown column yields `None` for any index.
- `rand.choice` becomes a caller-supplied position `pick` among the available cards after the refill. The chosen card is then removed at its first occurrence, as `list.index` followed by `pop` does.
- Cards are named by the datatypes `ChanceCard` and `ChestCard`, with one name per distinct text. `ChanceText` and `ChestText` give the exact strings. The decks hold the names.
- A `list.index` ValueError in `bankrupt_player` becomes the result `found == false`, with no change to any list.
- A `TypeError` from `int(...)` in `get_space_number` becomes the result `NotScalar`.

Where the code's own messages and docstrings promise more than the code does, the model follows the code:

- `add_player` warns "Player name cannot be "bank"" (PandasMonopoly.py:292) and then appends the name anyway. `Monopoly.GameState.AddPlayer` states that append.
- The docstring of `change_houses` says "5 houses equals 1 hotel" (PandasMonopoly.py:227), and the property card has a "With Hotel" line (PandasMonopoly.py:85). Yet `get_current_rent` never charges HotelRent for 5 houses. `Rent.HotelRentUnreachable` states this.
- The docstring of `get_space_number` says "For multiple spaces with same name, returns all space numbers" (PandasMonopoly.py:186). Yet `int(dex)` fails for a name carried by exactly two spaces. `Board.TwoMatchesNotScalar` shows this.

Also, the railroad branch that returns "No Railroads owned." (PandasMonopoly.py:124) can never run, because the landed railroad always counts itself. `Rent.RailroadRentTier` states this.

The hotel rent and the two-space lookup are also under Findings.

## Model

| member | source | states |
|---|---|---|
| Values.CheckNum | PandasMonopoly.py:320-325 | a numeric cell reads as "NaN" exactly when it is empty, and is returned unchanged otherwise |
| Values.CheckText | PandasMonopoly.py:320-325 | a text cell is always returned as a string, and reads as "NaN" exactly when it is empty or holds "NaN" |
| Lists.FirstIndex | PandasMonopoly.py:258 | `list.index` returns a position holding the element, with no earlier occurrence |
| Lists.FirstIndexOfSplit | PandasMonopoly.py:258 | in `p + [x] + q` with `x` not in `p`, the first occurrence of `x` is at position `|p|` |
| Lists.RemoveAt | PandasMonopoly.py:258 | `pop(i)` shortens the list by one, keeps the order of the other elements and removes exactly one copy of `s[i]` |
| Lists.RemoveFirst | PandasMonopoly.py:306 | `pop(index(x))` shortens the list by one and removes exactly one copy of `x` |
| Lists.RemoveFirstOfSplit | PandasMonopoly.py:306 | removing the first `x` from `p + [x] + q`, with `x` not in `p`, gives `p + q` |
| Lists.CountIsMultiplicity | PandasMonopoly.py:114-122 | the front-to-back count of `x` equals its multiplicity in the multiset of the list |
| Lists.Count | PandasMonopoly.py:114-122 | the number of occurrences is at most the length of the list, and at least 1 when the element occurs |
| Lists.CountAfterUpdate | PandasMonopoly.py:114-122 | overwriting an element different from `x` with `x` raises the count of `x` by exactly one |
| Lists.CountOfFour | PandasMonopoly.py:114-122 | counting in a four-element list is one equality test per element, as the four `counter += 1` steps do |
| Board.Cell | PandasMonopoly.py:172-175 | `get_cell` tests the column name first and yields a value exactly for the 14 known columns (only those need an index on the board), and for each of them it is that row's cell passed through `checker` (SpaceName, Color and Owner as text, the other 11 columns as numbers) |
| Board.UnknownColumnOffBoard | PandasMonopoly.py:172-173 | an unknown column yields nothing for every index, including one off the board, because the table is never read |
| Board.Owner | PandasMonopoly.py:204 | `get_owner` is always a string: the owner's name, or "NaN" for an empty cell |
| Board.ChangeOwner | PandasMonopoly.py:218-221 | an empty or "NaN" Owner cell leaves the board unchanged; otherwise that row's Owner becomes the name, even if the space is owned, and every other row is unchanged |
| Board.OwnerAfterChange | PandasMonopoly.py:218-221 | after the change, `get_owner` and `get_cell(.., "Owner")` read the new name on an ownable space and "NaN" on the others |
| Board.OwnerElsewhere | PandasMonopoly.py:218-221 | changing one space's owner leaves every other space's owner as it was |
| Board.ChangeOwnerLastWins | PandasMonopoly.py:218-221 | of two changes in a row, the second one wins, unless the first wrote the text "NaN" |
| Board.ChangeOwnerToNaNLocks | PandasMonopoly.py:218-221 | writing the owner name "NaN" makes the space reject every later change |
| Board.ChangeHouses | PandasMonopoly.py:236-242 | the delta is applied exactly when NumOfHouses is present and the sum lies in 0..5; otherwise the board is unchanged; no other row changes, and a count it writes lies in 0..5 |
| Board.ChangeHousesKeepsRange | PandasMonopoly.py:236-242 | a board whose house counts all lie in 0..5 keeps them there |
| Board.AddOneHouseTimesCount | PandasMonopoly.py:236-242 | `k` single increments from `m` houses reach `m + k` while that is at most 5, and change nothing else |
| Board.FiveHousesMakeHotel | PandasMonopoly.py:236-242 | five increments from 0 reach 5, and a sixth is rejected |
| Board.RemovingTenRejected | PandasMonopoly.py:239-240 | removing ten houses is always rejected on a board whose counts are in range |
| Board.Matches | PandasMonopoly.py:188 | the lookup's index array holds exactly the rows named `name`, in increasing order |
| Board.MatchesFrom | PandasMonopoly.py:188 | the matching indices are exactly the rows carrying the name, in increasing order |
| Board.SpaceNumber | PandasMonopoly.py:188-192 | as written: one index exactly when one space carries the name; for more than two, the list of all matching spaces in board order without repeats; a failure for zero or exactly two |
| Board.TwoMatchesNotScalar | PandasMonopoly.py:188-192 | on a board where two spaces are named "Chance", the lookup as written fails and the corrected one lists both spaces |
| Board.SpaceNumberIntended | PandasMonopoly.py:184-186 | the corrected lookup: one index exactly when one space carries the name, the list of all its spaces in board order without repeats when more than one does, and a failure exactly when none does |
| Board.SpaceNumberIntendedFindsAll | PandasMonopoly.py:184-186 | the corrected lookup of a name on the board returns the unique index or the list of all its spaces |
| Rent.CurrentRent | PandasMonopoly.py:103-155 | `get_current_rent` returns nothing only for a property; the only texts it returns are the dice-roll message on a utility with roll 0 and the "NaN" of an empty property cell; a railroad always costs an amount |
| Rent.UtilityRent | PandasMonopoly.py:103-109 | a roll of 0 gives the dice-roll message; otherwise 10 times the roll when 12 and 28 have equal owners, 4 times when they differ |
| Rent.UtilityRentWithSix | PandasMonopoly.py:103-109 | with a roll of 6, one owner of both utilities gets 60, and against the bank 24 |
| Rent.RailroadCount | PandasMonopoly.py:112-122 | the count of railroads with the landed space's owner is at most 4, and at least 1 when that owner holds a railroad |
| Rent.RailroadCountBounds | PandasMonopoly.py:112-122 | the railroad count of a railroad is always between 1 and 4 |
| Rent.RailroadCurrentRent | PandasMonopoly.py:111-132 | railroad rent is the tier of the count of railroads with the same owner |
| Rent.RailroadRent | PandasMonopoly.py:123-132 | a count of 1 to 4 costs 25 times 2 to the power count - 1, a count of 0 gives "No Railroads owned.", and a larger count yields nothing |
| Rent.RailroadTierIsPow2 | PandasMonopoly.py:125-132 | the tiers for 1 to 4 railroads are 25 times 1, 2, 4 and 8 |
| Rent.RailroadRentTier | PandasMonopoly.py:111-132 | railroad rent is always `25 * 2^(count-1)` for a count in 1..4, and never "No Railroads owned." |
| Rent.RailroadPosition | PandasMonopoly.py:112 | each railroad space has its position among the four railroads |
| Rent.RailroadOwnerAt | PandasMonopoly.py:112-113 | `myrr` is the entry of `rr` at the landed railroad's position |
| Rent.RailroadOwnersAfterChange | PandasMonopoly.py:112-113 | changing a railroad's owner changes exactly its own entry among the four owners |
| Rent.BuyingRailroadAddsOne | PandasMonopoly.py:112-122 | buying another railroad from a different owner raises the buyer's count by one |
| Rent.RailroadRentDoubles | PandasMonopoly.py:125-132 | each further railroad doubles the tier |
| Rent.BuyingRailroadDoublesRent | PandasMonopoly.py:111-132 | buying another railroad doubles the rent of every railroad the buyer already holds |
| Rent.TaxRent | PandasMonopoly.py:134-138 | spaces 4 and 38 always yield 200 and 100, whatever the board holds |
| Rent.PropertyRent | PandasMonopoly.py:140-155 | a property yields rent exactly when its house count is 0 to 4, and then it is the checked cell of that tier (Rent, 1HouseRent .. 4HouseRent) |
| Rent.PropertyRentTiers | PandasMonopoly.py:140-155 | 0 to 4 houses yield Rent, 1HouseRent .. 4HouseRent; an empty cell or any other count yields nothing |
| Rent.HotelRentUnreachable | PandasMonopoly.py:154-155 | five houses yield nothing, so the hotel tier is never charged |
| Rent.PropertyRentIntended | PandasMonopoly.py:140-155 | the corrected rent yields a value exactly for 0 to 5 houses, the checked cell of that tier, HotelRent for 5 |
| Rent.PropertyRentIntendedTiers | PandasMonopoly.py:140-155 | the corrected rent charges HotelRent for 5 houses; it agrees with the code below 5 houses and differs at 5 |
| Rent.OwnershipDoesNotChangePropertyRent | PandasMonopoly.py:140-155 | no group doubling: the rent of a property does not depend on who owns any space |
| Rent.BoughtAndBuiltScenario | PandasMonopoly.py:140-155 | buying a property and then building two houses changes its rent from Rent to 2HouseRent and its owner to the buyer |
| Rent.OverviewLayout | PandasMonopoly.py:70-81 | the card layout is chosen by the same index lists as rent, and a space without a price gets only its name |
| Decks.Refill | PandasMonopoly.py:255-257 | only an empty available pile is replaced by the used pile, which becomes empty; no card is gained or lost |
| Decks.Draw | PandasMonopoly.py:255-260 | the chosen card leaves the available pile once, is appended to the used pile, and the deck keeps its cards |
| Decks.DrawAlwaysPossible | PandasMonopoly.py:255-258 | a deck that has any card can always be drawn from |
| Decks.DrawWithoutRefill | PandasMonopoly.py:258-259 | with cards available, a draw takes the chosen card without a refill |
| Decks.DrawAfterExhaustion | PandasMonopoly.py:255-259 | a draw from an exhausted deck first takes back every used card |
| Decks.DrawRun | PandasMonopoly.py:255-260 | a run of draws that succeeds draws one card per pick and keeps exactly the deck's cards |
| Decks.RunStep | PandasMonopoly.py:255-260 | a run of draws is one draw followed by the rest of the run |
| Decks.RunAppendsToUsed | PandasMonopoly.py:258-259 | without a refill, the drawn cards are appended to the used pile in drawing order |
| Decks.RunTakesOnePerPick | PandasMonopoly.py:258-259 | without a refill, each draw takes exactly one card from the available pile |
| Decks.RunKeepsCards | PandasMonopoly.py:258-259 | without a refill, the cards drawn are exactly those that left the available pile |
| Decks.FirstPicksSucceed | PandasMonopoly.py:258 | always picking the first card succeeds as long as cards are available |
| Decks.FullCycle | PandasMonopoly.py:255-260 | drawing as many cards as the deck holds empties the available pile and draws every card as often as the deck holds it |
| Decks.FullCycleExists | PandasMonopoly.py:255-260 | such a full cycle exists for every deck |
| Decks.DeckSizes | PandasMonopoly.py:31-57 | the Chance deck starts with 15 cards and the Community Chest deck with 16 |
| Monopoly.GameState.constructor | PandasMonopoly.py:23-57 | a new state holds the given table, no players, every Chance card available, and one Community Chest card available with the other 15 used |
| Monopoly.GameState.GetCurrentRent | PandasMonopoly.py:103-155 | the rent the method computes, with its step-by-step railroad counter, is the rent `Rent.CurrentRent` specifies |
| Monopoly.GameState.ChangeOwner | PandasMonopoly.py:218-221 | the table is updated in place to `Board.ChangeOwner` of the old table, and no other field changes |
| Monopoly.GameState.ChangeHouses | PandasMonopoly.py:236-242 | the table is updated in place to `Board.ChangeHouses` of the old table, and house counts in 0..5 stay in range |
| Monopoly.GameState.GetChance | PandasMonopoly.py:255-260 | the piles and the card returned are those of `Decks.Draw` on the old piles; 15 cards remain and the next draw is possible |
| Monopoly.GameState.GetCommunityChest | PandasMonopoly.py:273-278 | the same for the Community Chest deck, which keeps its 16 cards |
| Monopoly.GameState.AddPlayer | PandasMonopoly.py:291-293 | the name is always appended to the current players, "bank" included |
| Monopoly.GameState.BankruptPlayer | PandasMonopoly.py:306-307 | for a current player, the first occurrence moves to the end of the bankrupt list; otherwise nothing changes; no name is lost or gained across the two lists |
| Monopoly.BankruptRemovesOneOccurrence | PandasMonopoly.py:306 | bankruptcy removes exactly one occurrence of the name and leaves every other name's count alone |
| Monopoly.AddThenBankruptRestores | PandasMonopoly.py:291-307 | adding a new name and then bankrupting it leaves the other current players as they were |

## Left out

- Loading the board from its CSV file is file I/O. The constructor takes the 40 rows as a parameter.
- The `Game` class and the interactive main loop are dice, input and printing. The `turn` method has only empty branches.
- Every `print`: the rejected updates and the unknown column are silent no-ops or a `None` result.
- Float handling in `checker`: the `isnan` test and the truncation of a float to `int`. Cells are modelled as integers, texts or empty.
- The text that `get_property_overview` formats. Only the choice of card layout is modelled.
- The process-wide random source: the card choice is the `pick` parameter.
- Concurrency: the object is used by one caller at a time.
- Monopoly.GameState.GetChance: the link between a card's name and its text is `ChanceText`. That different names have different texts is not proved, because comparing the long string literals is beyond the solver's budget. The same holds for `ChestText` in GetCommunityChest.
- Monopoly.GameState.Valid: the class invariant keeps only the deck sizes, not the exact multiset of cards. Each draw method states that it keeps exactly the same cards (through `Decks.Draw`), so the multiset is preserved call by call, not stored as an invariant.
- The warning for the name "bank" and the hotel tier promised by the docstring (PandasMonopoly.py:292, 227, 85) are not enforced by the code, and the model follows the code: "bank" is appended, and 5 houses yield no rent.

## Findings

| source | as written | input that shows it | evidently intended | confidence | as-written member | corrected member |
|---|---|---|---|---|---|---|
| PandasMonopoly.py:154 | the hotel branch tests `house_num == 1` again | a property with NumOfHouses 5 | 5 houses yield HotelRent | not executed | Rent.HotelRentUnreachable | Rent.PropertyRentIntendedTiers |
| PandasMonopoly.py:189 | a list is returned only for `len(dex) > 2` | a name carried by exactly two spaces, where `int(dex)` raises TypeError | a list for every name carried by more than one space | not executed | Board.TwoMatchesNotScalar | Board.SpaceNumberIntendedFindsAll |
