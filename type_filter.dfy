/** The row of type chips and the Clear button above the list. */
module TypeFilter {
  import opened Common
  import opened Store

  /** A chip is pressed when its type is strictly the selected one. */
  predicate IsActive(selected: Option<string>, chip: string) {
    selected == Some(chip)
  }

  /** The selection after clicking `chip`: `isActive ? null : type`. */
  function ChipClicked(selected: Option<string>, chip: string): (r: Option<string>)
    ensures IsActive(selected, chip) ==> r == None
    ensures !IsActive(selected, chip) ==> r == Some(chip) && IsActive(r, chip)
    ensures forall other :: other != chip ==> !IsActive(r, other)
  {
    if IsActive(selected, chip) then None else Some(chip)
  }

  /** From no selection (or another one), two clicks on the same chip leave no selection. */
  lemma ChipClickedTwice(selected: Option<string>, chip: string)
    requires !IsActive(selected, chip)
    ensures ChipClicked(ChipClicked(selected, chip), chip) == None
  {
  }

  /** The Clear button is rendered while `selectedType` is truthy. */
  predicate ShowsClear(selected: Option<string>) {
    Truthy(selected)
  }

  /** After a chip click the Clear button is shown exactly when the click selected the
      chip, and after Clear it is gone. */
  lemma ClearFollowsChips(selected: Option<string>, chip: string)
    requires chip != ""
    ensures ShowsClear(ChipClicked(selected, chip)) <==> !IsActive(selected, chip)
    ensures !ShowsClear(None)
  {
  }

  /** How many chips of the row are pressed. */
  function ActiveCount(selected: Option<string>, chips: seq<string>): (n: nat)
    ensures n <= |chips|
    ensures n > 0 <==> selected.Some? && selected.value in chips
  {
    if chips == [] then 0
    else (if IsActive(selected, chips[0]) then 1 else 0) + ActiveCount(selected, chips[1..])
  }

  /** The chips are the distinct keys of the colour table. */
  ghost predicate Distinct(chips: seq<string>) {
    forall i, j :: 0 <= i < j < |chips| ==> chips[i] != chips[j]
  }

  /** At most one chip is pressed, and one is exactly when the selection is among the chips. */
  lemma {:induction false} AtMostOneActive(selected: Option<string>, chips: seq<string>)
    requires Distinct(chips)
    ensures ActiveCount(selected, chips) <= 1
    ensures ActiveCount(selected, chips) == 1 <==> selected.Some? && selected.value in chips
    decreases |chips|
  {
    if chips != [] {
      assert Distinct(chips[1..]) by {
        forall i, j | 0 <= i < j < |chips| - 1 ensures chips[1..][i] != chips[1..][j] {
          assert chips[1..][i] == chips[i + 1] && chips[1..][j] == chips[j + 1];
        }
      }
      AtMostOneActive(selected, chips[1..]);
      if IsActive(selected, chips[0]) {
        assert selected.value !in chips[1..] by {
          forall k | 0 <= k < |chips| - 1 ensures chips[1..][k] != chips[0] {
            assert chips[1..][k] == chips[k + 1];
          }
        }
      }
    }
  }

  /** Clicking a chip passes the next selection to `setSelectedType`. */
  method OnChipClick(store: PokedexStore, chip: string)
    modifies store
    ensures store.Snapshot() == SelectedTypeSet(old(store.Snapshot()), ChipClicked(old(store.selectedType), chip))
  {
    store.SetSelectedType(ChipClicked(store.selectedType, chip));
  }

  /** The Clear button sets the selection to null. */
  method OnClear(store: PokedexStore)
    modifies store
    ensures store.Snapshot() == SelectedTypeSet(old(store.Snapshot()), None)
  {
    store.SetSelectedType(None);
  }
}
