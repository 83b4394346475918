/**
  The list of checked prefectures kept by the selection hook
  (`usePopulationSelection`): an ordered list of code/name pairs. Checking a
  box appends without looking for an existing entry; unchecking removes every
  entry carrying that code.
 */
module Selection {
  import opened Common

  datatype SelectedPrefecture = SelectedPrefecture(prefCode: int, prefName: string)

  /** The hook's initial state: nothing selected. */
  const Initial: seq<SelectedPrefecture> := []

  /** The set of codes present in a selection. */
  function Codes(sel: seq<SelectedPrefecture>): set<int>
  {
    set p | p in sel :: p.prefCode
  }

  /** The codes of a non-empty selection: its first code and the rest. */
  lemma {:induction false} CodesCons(sel: seq<SelectedPrefecture>)
    requires |sel| > 0
    ensures Codes(sel) == {sel[0].prefCode} + Codes(sel[1..])
  {
    assert sel == [sel[0]] + sel[1..];
  }

  /** How many entries of `sel` carry `code`. */
  function CountCode(sel: seq<SelectedPrefecture>, code: int): nat
  {
    if |sel| == 0 then 0
    else (if sel[0].prefCode == code then 1 else 0) + CountCode(sel[1..], code)
  }

  /** The unchecking update: keep every entry whose code differs.
      The result is pinned down completely by the first three clauses below: an
      order-preserving sub-sequence that drops every `code` entry and exactly
      those. */
  function RemoveCode(sel: seq<SelectedPrefecture>, code: int): (r: seq<SelectedPrefecture>)
    ensures forall i :: 0 <= i < |r| ==> r[i].prefCode != code
    ensures IsSubsequence(r, sel)
    ensures |r| == |sel| - CountCode(sel, code)
    ensures Codes(r) == Codes(sel) - {code}
  {
    if |sel| == 0 then []
    else
      CodesCons(sel);
      var rest := RemoveCode(sel[1..], code);
      if sel[0].prefCode == code then rest
      else
        var r := [sel[0]] + rest;
        assert r[1..] == rest;
        CodesCons(r);
        r
  }

  /** `togglePrefecture` as a pure update of the selection list. */
  function Toggle(sel: seq<SelectedPrefecture>, code: int, name: string, isChecked: bool): (r: seq<SelectedPrefecture>)
    ensures isChecked ==> |r| == |sel| + 1 && r[..|sel|] == sel && r[|sel|] == SelectedPrefecture(code, name)
    ensures !isChecked ==> IsSubsequence(r, sel) && code !in Codes(r) && |r| == |sel| - CountCode(sel, code)
    ensures Codes(r) == if isChecked then Codes(sel) + {code} else Codes(sel) - {code}
  {
    if isChecked then sel + [SelectedPrefecture(code, name)]
    else RemoveCode(sel, code)
  }

  /** An entry carrying `code` exists exactly when `code` is counted. */
  lemma {:induction false} CountCodeZero(sel: seq<SelectedPrefecture>, code: int)
    ensures CountCode(sel, code) == 0 <==> code !in Codes(sel)
    decreases |sel|
  {
    if |sel| > 0 {
      CountCodeZero(sel[1..], code);
      assert sel == [sel[0]] + sel[1..];
      assert Codes(sel) == {sel[0].prefCode} + Codes(sel[1..]);
    }
  }

  /** Unchecking a code that is not selected leaves the list as it was. */
  lemma {:induction false} ToggleOffAbsent(sel: seq<SelectedPrefecture>, code: int, name: string)
    requires code !in Codes(sel)
    ensures Toggle(sel, code, name, false) == sel
  {
    var r := Toggle(sel, code, name, false);
    CountCodeZero(sel, code);
    SubsequenceSameLength(r, sel);
  }

  /** Unchecking twice is the same as unchecking once. */
  lemma {:induction false} ToggleOffIdempotent(sel: seq<SelectedPrefecture>, code: int, name: string)
    ensures Toggle(Toggle(sel, code, name, false), code, name, false) == Toggle(sel, code, name, false)
  {
    ToggleOffAbsent(Toggle(sel, code, name, false), code, name);
  }

  /** Checking a code that is not yet selected and then unchecking it gives
      back the original list. */
  lemma {:induction false} ToggleOnThenOff(sel: seq<SelectedPrefecture>, code: int, name: string)
    requires code !in Codes(sel)
    ensures Toggle(Toggle(sel, code, name, true), code, name, false) == sel
  {
    RemoveAppend(sel, SelectedPrefecture(code, name), code);
    ToggleOffAbsent(sel, code, name);
  }

  /** Removing a code from a list with one more entry at the end is removing
      it from the list and then from that entry. */
  lemma {:induction false} RemoveAppend(sel: seq<SelectedPrefecture>, p: SelectedPrefecture, code: int)
    ensures RemoveCode(sel + [p], code) == RemoveCode(sel, code) + (if p.prefCode == code then [] else [p])
    decreases |sel|
  {
    if |sel| == 0 {
      assert sel + [p] == [p];
    } else {
      assert (sel + [p])[0] == sel[0];
      assert (sel + [p])[1..] == sel[1..] + [p];
      RemoveAppend(sel[1..], p, code);
    }
  }

  /** Checking an already-selected code still appends: the list then holds
      the code twice. */
  lemma {:induction false} ToggleOnTwiceDuplicates(code: int, name: string)
    ensures Toggle(Toggle(Initial, code, name, true), code, name, true)
         == [SelectedPrefecture(code, name), SelectedPrefecture(code, name)]
  {
  }

  /** One checkbox event, as delivered to `togglePrefecture`. */
  datatype ToggleEvent = ToggleEvent(prefCode: int, prefName: string, isChecked: bool)

  /** The selection after a history of checkbox events, starting from `Initial`. */
  function Replay(events: seq<ToggleEvent>): seq<SelectedPrefecture>
  {
    if |events| == 0 then Initial
    else
      var e := events[|events| - 1];
      Toggle(Replay(events[..|events| - 1]), e.prefCode, e.prefName, e.isChecked)
  }

  /** The most recent check state delivered for `code`, if any. */
  function LastToggle(events: seq<ToggleEvent>, code: int): Option<bool>
  {
    if |events| == 0 then None
    else if events[|events| - 1].prefCode == code then Some(events[|events| - 1].isChecked)
    else LastToggle(events[..|events| - 1], code)
  }

  /** A code is selected after a history of events exactly when the last event
      for that code checked it. */
  lemma {:induction false} ReplayMembership(events: seq<ToggleEvent>, code: int)
    ensures code in Codes(Replay(events)) <==> LastToggle(events, code) == Some(true)
    decreases |events|
  {
    if |events| > 0 {
      ReplayMembership(events[..|events| - 1], code);
    }
  }
}
