/**
 * The dissection lab: the learner rebuilds each word of a pack by dragging
 * its part tiles from a bank into ordered slots. A round succeeds when the
 * tile in every slot has the text of the target's part at that position.
 */
module Dissection {
  import opened Strings
  import opened Types

  /** Where a dragged tile was picked up. */
  datatype Source = FromBank | FromSlot

  /**
   * The drag payload: the source and the index there. The dragged tile is
   * the one at that index; `None` is a drop that carries no payload.
   */
  datatype Drag = Drag(source: Source, sourceIndex: nat)

  /** The tile in a slot, as a multiset of zero or one tiles. */
  function Tile(slot: Option<WordPart>): multiset<WordPart> {
    if slot.Some? then multiset{slot.value} else multiset{}
  }

  predicate IsFull(slots: seq<Option<WordPart>>) {
    forall i :: 0 <= i < |slots| ==> slots[i].Some?
  }

  /** The tiles lying in the slots. */
  function Filled(slots: seq<Option<WordPart>>): (m: multiset<WordPart>)
    ensures |m| <= |slots|
  {
    if slots == [] then multiset{} else Tile(slots[0]) + Filled(slots[1..])
  }

  /** There are as many tiles in the slots as slots exactly when all are full. */
  lemma {:induction false} FilledFullIff(slots: seq<Option<WordPart>>)
    ensures |Filled(slots)| == |slots| <==> IsFull(slots)
  {
    if slots != [] {
      FilledFullIff(slots[1..]);
      assert IsFull(slots) <==> slots[0].Some? && IsFull(slots[1..]) by {
        if slots[0].Some? && IsFull(slots[1..]) {
          forall i | 0 <= i < |slots| ensures slots[i].Some? {
            if i > 0 { assert slots[i] == slots[1..][i - 1]; }
          }
        }
      }
    }
  }

  /** Replacing one slot's content trades its tile for the new one. */
  lemma {:induction false} FilledUpdate(slots: seq<Option<WordPart>>, i: nat, x: Option<WordPart>)
    requires i < |slots|
    ensures Filled(slots[i := x]) + Tile(slots[i]) == Filled(slots) + Tile(x)
  {
    if i == 0 {
      FilledUpdateHead(slots, x);
    } else {
      FilledUpdate(slots[1..], i - 1, x);
      FilledUpdateStep(slots, i, x);
    }
  }

  /** `FilledUpdate` at the first slot. */
  lemma FilledUpdateHead(slots: seq<Option<WordPart>>, x: Option<WordPart>)
    requires 0 < |slots|
    ensures Filled(slots[0 := x]) + Tile(slots[0]) == Filled(slots) + Tile(x)
  {
    assert slots[0 := x][1..] == slots[1..];
  }

  /** The step of `FilledUpdate`: the trade in the tail is a trade in the whole board. */
  lemma FilledUpdateStep(slots: seq<Option<WordPart>>, i: nat, x: Option<WordPart>)
    requires 0 < i < |slots|
    requires Filled(slots[1..][i - 1 := x]) + Tile(slots[1..][i - 1]) == Filled(slots[1..]) + Tile(x)
    ensures Filled(slots[i := x]) + Tile(slots[i]) == Filled(slots) + Tile(x)
  {
    var u := slots[i := x];
    assert u[1..] == slots[1..][i - 1 := x];
    assert slots[i] == slots[1..][i - 1];
    calc {
      Filled(u) + Tile(slots[i]);
      Tile(u[0]) + Filled(u[1..]) + Tile(slots[i]);
      Tile(slots[0]) + (Filled(slots[1..][i - 1 := x]) + Tile(slots[1..][i - 1]));
      Tile(slots[0]) + (Filled(slots[1..]) + Tile(x));
      Filled(slots) + Tile(x);
    }
  }

  /** The bank after `splice(s, 1)`: the tile at `s` taken out, one copy fewer. */
  function TakeOut(bank: seq<WordPart>, s: nat): (r: seq<WordPart>)
    requires s < |bank|
    ensures |r| == |bank| - 1
    ensures multiset(bank) == multiset(r) + multiset{bank[s]}
  {
    assert bank == bank[..s] + [bank[s]] + bank[s + 1..];
    bank[..s] + bank[s + 1..]
  }

  /** What a drop pushes back onto the bank: the slot's previous tile, if any. */
  function Displaced(slot: Option<WordPart>): (r: seq<WordPart>)
    ensures multiset(r) == Tile(slot)
  {
    if slot.Some? then [slot.value] else []
  }

  /** A tile moved from the bank into a slot, the slot's old tile going to the bank. */
  lemma BankToSlotConserves(bank: seq<WordPart>, slots: seq<Option<WordPart>>, parts: seq<WordPart>, s: nat, t: nat)
    requires Conserved(bank, slots, parts) && s < |bank| && t < |slots|
    ensures Conserved(TakeOut(bank, s) + Displaced(slots[t]), slots[t := Some(bank[s])], parts)
  {
    var rest := TakeOut(bank, s);
    FilledUpdate(slots, t, Some(bank[s]));
    var mRest, mItem, mBack := multiset(rest), multiset{bank[s]}, Tile(slots[t]);
    var fOld, fNew := Filled(slots), Filled(slots[t := Some(bank[s])]);
    assert multiset(rest + Displaced(slots[t])) == mRest + mBack;
    assert fNew + mBack == fOld + Tile(Some(bank[s]));
    assert Tile(Some(bank[s])) == mItem;
    calc {
      multiset(rest + Displaced(slots[t])) + fNew;
      mRest + (fNew + mBack);
      mRest + (fOld + mItem);
      (mRest + mItem) + fOld;
      multiset(bank) + fOld;
    }
  }

  /** `a + c == b + c` implies `a == b`. */
  lemma Cancel(a: multiset<WordPart>, b: multiset<WordPart>, c: multiset<WordPart>)
    requires a + c == b + c
    ensures a == b
  {
    assert forall x :: a[x] == (a + c)[x] - c[x];
    assert forall x :: b[x] == (b + c)[x] - c[x];
  }

  /** Two slots exchanging contents. */
  lemma SwapConserves(bank: seq<WordPart>, slots: seq<Option<WordPart>>, parts: seq<WordPart>, s: nat, t: nat)
    requires Conserved(bank, slots, parts) && s < |slots| && t < |slots|
    ensures Conserved(bank, slots[s := slots[t]][t := slots[s]], parts)
  {
    var u := slots[s := slots[t]];
    var w := u[t := slots[s]];
    FilledUpdate(slots, s, slots[t]);
    FilledUpdate(u, t, slots[s]);
    assert u[t] == slots[t];
    assert Filled(w) + Tile(slots[t]) == Filled(slots) + Tile(slots[t]);
    Cancel(Filled(w), Filled(slots), Tile(slots[t]));
  }

  /** A slot's tile sent back to the bank. */
  lemma SlotToBankConserves(bank: seq<WordPart>, slots: seq<Option<WordPart>>, parts: seq<WordPart>, s: nat)
    requires Conserved(bank, slots, parts) && s < |slots| && slots[s].Some?
    ensures Conserved(bank + [slots[s].value], slots[s := None], parts)
  {
    FilledUpdate(slots, s, None);
    var tile := Tile(slots[s]);
    assert Filled(slots[s := None]) + tile == Filled(slots);
    assert multiset(bank + [slots[s].value]) == multiset(bank) + tile;
  }

  /**
   * Every part of the target is either in the bank or in a slot, with
   * multiplicity, and there is one slot per part.
   */
  ghost predicate Conserved(bank: seq<WordPart>, slots: seq<Option<WordPart>>, parts: seq<WordPart>) {
    |slots| == |parts| && multiset(bank) + Filled(slots) == multiset(parts)
  }

  /**
   * `checkCompletion`'s test: all slots are full and slot i holds a tile
   * with the text of part i. Tiles are compared by text and position only.
   */
  predicate IsMatch(slots: seq<Option<WordPart>>, parts: seq<WordPart>)
    requires |slots| == |parts|
  {
    IsFull(slots) && forall i :: 0 <= i < |slots| ==> slots[i].value.text == parts[i].text
  }

  /** While tiles are conserved, the bank is empty exactly when the slots are full. */
  lemma BankEmptyIffFull(bank: seq<WordPart>, slots: seq<Option<WordPart>>, parts: seq<WordPart>)
    requires Conserved(bank, slots, parts)
    ensures |bank| == 0 <==> IsFull(slots)
  {
    FilledFullIff(slots);
    assert |multiset(bank)| + |Filled(slots)| == |multiset(parts)|;
  }

  /** The tiles of full slots, in slot order. */
  function Placed(slots: seq<Option<WordPart>>): (r: seq<WordPart>)
    requires IsFull(slots)
    ensures |r| == |slots| && forall i :: 0 <= i < |slots| ==> Some(r[i]) == slots[i]
  {
    seq(|slots|, i requires 0 <= i < |slots| => slots[i].value)
  }

  /** The word spelled by a sequence of tiles. */
  function Spelling(parts: seq<WordPart>): string {
    if parts == [] then "" else parts[0].text + Spelling(parts[1..])
  }

  lemma {:induction false} SameTextsSameSpelling(a: seq<WordPart>, b: seq<WordPart>)
    requires |a| == |b| && forall i :: 0 <= i < |a| ==> a[i].text == b[i].text
    ensures Spelling(a) == Spelling(b)
  {
    if a != [] {
      SameTextsSameSpelling(a[1..], b[1..]);
    }
  }

  /** A matched arrangement spells the target's word, when the parts spell it. */
  lemma MatchSpellsWord(slots: seq<Option<WordPart>>, target: DissectionTarget)
    requires |slots| == |target.parts| && IsMatch(slots, target.parts)
    requires Spelling(target.parts) == target.word
    ensures Spelling(Placed(slots)) == target.word
  {
    SameTextsSameSpelling(Placed(slots), target.parts);
  }

  /**
   * When the target's parts have distinct texts, the one tile arrangement
   * that matches is the target's own order: any other placement of the
   * same tiles is a mismatch.
   */
  lemma DistinctTextsMatchOnlyInOrder(slots: seq<Option<WordPart>>, parts: seq<WordPart>)
    requires |slots| == |parts| && IsFull(slots)
    requires multiset(Placed(slots)) == multiset(parts)
    requires forall i, j :: 0 <= i < j < |parts| ==> parts[i].text != parts[j].text
    ensures IsMatch(slots, parts) <==> Placed(slots) == parts
  {
    var placed := Placed(slots);
    if IsMatch(slots, parts) {
      forall i | 0 <= i < |parts| ensures placed[i] == parts[i] {
        assert placed[i] in multiset(parts);
        var k :| 0 <= k < |parts| && parts[k] == placed[i];
        assert parts[k].text == parts[i].text;
      }
    }
  }

  /**
   * Tiles with equal text are interchangeable: swapping two slots whose
   * tiles have the same text keeps a match a match.
   */
  lemma SwapEqualTextsKeepsMatch(slots: seq<Option<WordPart>>, parts: seq<WordPart>, i: nat, j: nat)
    requires |slots| == |parts| && i < |slots| && j < |slots|
    requires slots[i].Some? && slots[j].Some? && slots[i].value.text == slots[j].value.text
    ensures IsMatch(slots[i := slots[j]][j := slots[i]], parts) == IsMatch(slots, parts)
  {
    var w := slots[i := slots[j]][j := slots[i]];
    assert forall k :: 0 <= k < |slots| ==> w[k].Some? == slots[k].Some?;
    assert forall k :: 0 <= k < |slots| && w[k].Some? && slots[k].Some? ==> w[k].value.text == slots[k].value.text;
  }

  /** A board of `n` empty slots. */
  function EmptySlots(n: nat): (s: seq<Option<WordPart>>)
    ensures |s| == n && Filled(s) == multiset{}
  {
    if n == 0 then [] else [None] + EmptySlots(n - 1)
  }

  /**
   * With a target, its parts are conserved between bank and slots, and a
   * full match of a non-empty target has been recorded as a success.
   * Without one (an empty pack) the lab never left its initial state.
   */
  ghost predicate LabInv(pack: seq<DissectionTarget>, currentIndex: nat, bank: seq<WordPart>,
                         slots: seq<Option<WordPart>>, isSuccess: bool, completions: nat) {
    && (pack == [] ==> currentIndex == 0 && bank == [] && slots == [] && !isSuccess && completions == 0)
    && (pack != [] ==>
          && currentIndex < |pack|
          && Conserved(bank, slots, pack[currentIndex].parts)
          && (IsMatch(slots, pack[currentIndex].parts) && pack[currentIndex].parts != [] ==> isSuccess))
  }

  /**
   * `checkCompletion`: the success flag after the check. It is raised when
   * every slot is full and matches the parts by text, and never lowered.
   */
  function CheckCompletion(isSuccess: bool, slots: seq<Option<WordPart>>, parts: seq<WordPart>): (r: bool)
    requires |slots| == |parts|
    ensures r <==> isSuccess || IsMatch(slots, parts)
  {
    if IsFull(slots) && IsMatch(slots, parts) then true else isSuccess
  }

  /** A bank-to-slot drop followed by the completion check keeps the invariant. */
  lemma BankDropKeepsInv(pack: seq<DissectionTarget>, i: nat, bank: seq<WordPart>, slots: seq<Option<WordPart>>,
                         ok: bool, c: nat, s: nat, t: nat)
    requires LabInv(pack, i, bank, slots, ok, c) && i < |pack| && s < |bank| && t < |slots|
    ensures LabInv(pack, i, TakeOut(bank, s) + Displaced(slots[t]), slots[t := Some(bank[s])],
                   ok || IsMatch(slots[t := Some(bank[s])], pack[i].parts), c)
  {
    BankToSlotConserves(bank, slots, pack[i].parts, s, t);
  }

  /** A slot-to-slot drop followed by the completion check keeps the invariant. */
  lemma SwapKeepsInv(pack: seq<DissectionTarget>, i: nat, bank: seq<WordPart>, slots: seq<Option<WordPart>>,
                     ok: bool, c: nat, s: nat, t: nat)
    requires LabInv(pack, i, bank, slots, ok, c) && i < |pack| && s < |slots| && t < |slots|
    ensures LabInv(pack, i, bank, slots[s := slots[t]][t := slots[s]],
                   ok || IsMatch(slots[s := slots[t]][t := slots[s]], pack[i].parts), c)
  {
    SwapConserves(bank, slots, pack[i].parts, s, t);
  }

  /** Sending a slot's tile back to the bank keeps the invariant: the board is no longer full. */
  lemma SlotToBankKeepsInv(pack: seq<DissectionTarget>, i: nat, bank: seq<WordPart>, slots: seq<Option<WordPart>>,
                           ok: bool, c: nat, s: nat)
    requires LabInv(pack, i, bank, slots, ok, c) && i < |pack| && s < |slots| && slots[s].Some?
    ensures LabInv(pack, i, bank + [slots[s].value], slots[s := None], ok, c)
  {
    SlotToBankConserves(bank, slots, pack[i].parts, s);
    assert !IsFull(slots[s := None]) by { assert slots[s := None][s].None?; }
  }

  class DissectionLab {
    /** The words of the lesson, in order. */
    const pack: seq<DissectionTarget>
    var currentIndex: nat
    var bank: seq<WordPart>
    var slots: seq<Option<WordPart>>
    var isSuccess: bool
    /** How many times the lab has signalled that the pack is complete. */
    var completions: nat

    /** The lab's invariant, `LabInv`, over its fields. */
    ghost predicate Valid()
      reads this
    {
      LabInv(pack, currentIndex, bank, slots, isSuccess, completions)
    }

    /** A current target exists; otherwise only "Loading..." is rendered and no control is offered. */
    predicate HasTarget()
      reads this
    {
      currentIndex < |pack|
    }

    function Parts(): seq<WordPart>
      reads this
      requires HasTarget()
    {
      pack[currentIndex].parts
    }

    /** Mounting the lab, with the first round set up from the shuffled parts of the first word. */
    constructor (pack: seq<DissectionTarget>, shuffled: seq<WordPart>)
      requires pack != [] ==> multiset(shuffled) == multiset(pack[0].parts)
      ensures Valid()
      ensures this.pack == pack && currentIndex == 0 && completions == 0 && !isSuccess
      ensures pack != [] ==> bank == shuffled && slots == EmptySlots(|pack[0].parts|)
      ensures pack == [] ==> bank == [] && slots == []
    {
      this.pack := pack;
      currentIndex := 0;
      completions := 0;
      isSuccess := false;
      if pack != [] {
        bank := shuffled;
        slots := EmptySlots(|pack[0].parts|);
      } else {
        bank := [];
        slots := [];
      }
    }

    /**
     * `setupRound`: the bank becomes the given permutation of the current
     * parts, every slot is emptied and the success flag is cleared.
     */
    method SetupRound(shuffled: seq<WordPart>)
      requires HasTarget()
      requires multiset(shuffled) == multiset(Parts())
      modifies this
      ensures Valid()
      ensures bank == shuffled && slots == EmptySlots(|Parts()|) && !isSuccess
      ensures currentIndex == old(currentIndex) && completions == old(completions)
    {
      bank := shuffled;
      slots := EmptySlots(|Parts()|);
      isSuccess := false;
    }

    /** A drag payload that the current board can have produced. */
    predicate CanDrag(d: Drag)
      reads this
    {
      match d.source
      case FromBank => d.sourceIndex < |bank|
      case FromSlot => d.sourceIndex < |slots| && slots[d.sourceIndex].Some?
    }

    /**
     * `handleDropSlot`. From the bank: the tile leaves the bank, takes the
     * slot, and a displaced tile is appended to the bank. From a slot: the
     * two slots exchange contents and the bank is unchanged. Afterwards the
     * arrangement is checked; a success, once recorded, is never cleared.
     */
    method DropOnSlot(drag: Option<Drag>, targetIndex: nat)
      requires Valid() && HasTarget() && targetIndex < |slots|
      requires drag.Some? ==> CanDrag(drag.value)
      modifies this
      ensures Valid()
      ensures currentIndex == old(currentIndex) && completions == old(completions)
      ensures drag.None? ==> bank == old(bank) && slots == old(slots) && isSuccess == old(isSuccess)
      ensures drag.Some? && drag.value.source == FromBank ==>
        var s := drag.value.sourceIndex;
        && slots == old(slots)[targetIndex := Some(old(bank)[s])]
        && bank == TakeOut(old(bank), s) + Displaced(old(slots)[targetIndex])
      ensures drag.Some? && drag.value.source == FromSlot ==>
        var s := drag.value.sourceIndex;
        && slots == old(slots)[s := old(slots)[targetIndex]][targetIndex := old(slots)[s]]
        && bank == old(bank)
      ensures drag.Some? ==> isSuccess == (old(isSuccess) || IsMatch(slots, Parts()))
    {
      if drag.None? {
        return;
      }
      if drag.value.source == FromBank {
        MoveFromBank(drag.value.sourceIndex, targetIndex);
      } else {
        MoveFromSlot(drag.value.sourceIndex, targetIndex);
      }
    }

    /** The bank branch of `handleDropSlot`. */
    method MoveFromBank(s: nat, t: nat)
      requires Valid() && HasTarget() && s < |bank| && t < |slots|
      modifies this
      ensures Valid()
      ensures currentIndex == old(currentIndex) && completions == old(completions)
      ensures slots == old(slots)[t := Some(old(bank)[s])]
      ensures bank == TakeOut(old(bank), s) + Displaced(old(slots)[t])
      ensures isSuccess == (old(isSuccess) || IsMatch(slots, Parts()))
    {
      BankDropKeepsInv(pack, currentIndex, bank, slots, isSuccess, completions, s, t);
      var board := slots[t := Some(bank[s])];
      bank, slots, isSuccess := TakeOut(bank, s) + Displaced(slots[t]), board, CheckCompletion(isSuccess, board, Parts());
    }

    /** The slot branch of `handleDropSlot`. */
    method MoveFromSlot(s: nat, t: nat)
      requires Valid() && HasTarget() && s < |slots| && t < |slots|
      modifies this
      ensures Valid()
      ensures currentIndex == old(currentIndex) && completions == old(completions)
      ensures slots == old(slots)[s := old(slots)[t]][t := old(slots)[s]] && bank == old(bank)
      ensures isSuccess == (old(isSuccess) || IsMatch(slots, Parts()))
    {
      SwapKeepsInv(pack, currentIndex, bank, slots, isSuccess, completions, s, t);
      var board := slots[s := slots[t]][t := slots[s]];
      slots, isSuccess := board, CheckCompletion(isSuccess, board, Parts());
    }

    /**
     * `handleDropBank`: a tile dragged from a slot empties that slot and is
     * appended to the bank; a drag from the bank changes nothing. The
     * arrangement is not re-checked, so a success stays recorded.
     */
    method DropOnBank(drag: Option<Drag>)
      requires Valid() && HasTarget()
      requires drag.Some? ==> CanDrag(drag.value)
      modifies this
      ensures Valid()
      ensures currentIndex == old(currentIndex) && completions == old(completions) && isSuccess == old(isSuccess)
      ensures drag.Some? && drag.value.source == FromSlot ==>
        var s := drag.value.sourceIndex;
        slots == old(slots)[s := None] && bank == old(bank) + [old(slots)[s].value]
      ensures drag.None? || drag.value.source == FromBank ==> slots == old(slots) && bank == old(bank)
    {
      if drag.Some? && drag.value.source == FromSlot {
        var s := drag.value.sourceIndex;
        SlotToBankKeepsInv(pack, currentIndex, bank, slots, isSuccess, completions, s);
        bank, slots := bank + [slots[s].value], slots[s := None];
      }
    }

    /**
     * The "Incorrect order" prompt: no success, an empty bank and every
     * slot full.
     */
    predicate ShowsIncorrectOrder()
      reads this
    {
      HasTarget() && !isSuccess && |bank| == 0 && IsFull(slots)
    }

    /**
     * The prompt shows exactly when every slot is full without a recorded
     * success, and for a word with parts it then really is a mismatch.
     */
    lemma IncorrectOrderMeansMismatch()
      requires Valid() && HasTarget()
      ensures ShowsIncorrectOrder() <==> !isSuccess && IsFull(slots)
      ensures ShowsIncorrectOrder() && Parts() != [] ==> !IsMatch(slots, Parts())
    {
      BankEmptyIffFull(bank, slots, Parts());
    }

    /**
     * `nextWord`, offered once a success is recorded: before the last word
     * it moves to the next word and sets up its round; on the last word
     * it signals that the pack is complete.
     */
    method NextWord(shuffled: seq<WordPart>)
      requires Valid() && HasTarget() && isSuccess
      requires currentIndex < |pack| - 1 ==> multiset(shuffled) == multiset(pack[currentIndex + 1].parts)
      modifies this
      ensures Valid()
      ensures old(currentIndex) < |pack| - 1 ==>
        && currentIndex == old(currentIndex) + 1 && completions == old(completions)
        && bank == shuffled && slots == EmptySlots(|Parts()|) && !isSuccess
      ensures old(currentIndex) == |pack| - 1 ==>
        && completions == old(completions) + 1 && currentIndex == old(currentIndex)
        && bank == old(bank) && slots == old(slots) && isSuccess
    {
      if currentIndex < |pack| - 1 {
        currentIndex := currentIndex + 1;
        SetupRound(shuffled);
      } else {
        completions := completions + 1;
      }
    }

    /**
     * With an empty pack there is no current target, so no drop and no
     * "next word" is ever offered, and completion is never signalled.
     */
    lemma EmptyPackNeverCompletes()
      requires Valid() && pack == []
      ensures !HasTarget() && completions == 0
    {
    }
  }
}
