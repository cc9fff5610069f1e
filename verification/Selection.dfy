/** The provider picker: a cursor that moves over the providers not installed yet, and the set chosen. */
module Selection {
  import opened Workflows

  datatype Row = Row(providerId: string, installedPath: Option<string>)

  datatype SelectionState = SelectionState(rows: seq<Row>, cursor: Option<nat>, selected: set<string>)

  predicate Missing(rows: seq<Row>, i: int) {
    0 <= i < |rows| && rows[i].installedPath.None?
  }

  /** The first missing row from `i` on. */
  function FirstMissing(rows: seq<Row>, i: nat): (r: Option<nat>)
    requires i <= |rows|
    ensures r.Some? ==> Missing(rows, r.value) && forall k | i <= k < r.value :: !Missing(rows, k)
    ensures r.None? ==> forall k | i <= k :: !Missing(rows, k)
    decreases |rows| - i
  {
    if i == |rows| then None else if Missing(rows, i) then Some(i) else FirstMissing(rows, i + 1)
  }

  function InitialSelection(rows: seq<Row>): SelectionState {
    SelectionState(rows, FirstMissing(rows, 0), {})
  }

  /** The first missing row among the next `tries` ones, going around in steps of `offset`. */
  function Seek(rows: seq<Row>, offset: int, index: nat, tries: nat): (r: Option<nat>)
    requires rows != []
    ensures r.Some? ==> Missing(rows, r.value)
    decreases tries
  {
    if tries == 0 then None
    else
      var next := (index + offset) % |rows|;
      if Missing(rows, next) then Some(next) else Seek(rows, offset, next, tries - 1)
  }

  function Move(s: SelectionState, offset: int): SelectionState {
    if s.cursor.None? || s.rows == [] then s
    else
      var found := Seek(s.rows, offset, s.cursor.value, |s.rows|);
      if found.Some? then s.(cursor := found) else s
  }

  /** `move_selection` */
  method MoveSelection(s: SelectionState, offset: int) returns (r: SelectionState)
    ensures r == Move(s, offset)
  {
    if s.cursor.None? || s.rows == [] {
      return s;
    }
    var index: nat := s.cursor.value;
    for i := 0 to |s.rows|
      invariant i <= |s.rows| && Seek(s.rows, offset, index, |s.rows| - i) == Seek(s.rows, offset, s.cursor.value, |s.rows|)
    {
      index := (index + offset) % |s.rows|;
      if Missing(s.rows, index) {
        return s.(cursor := Some(index));
      }
    }
    r := s;
  }

  /** `toggle_selection`, for a cursor on a row. */
  function Toggle(s: SelectionState): SelectionState
    requires s.cursor.Some? ==> s.cursor.value < |s.rows|
  {
    if s.cursor.None? || !Missing(s.rows, s.cursor.value) then s
    else
      var id := s.rows[s.cursor.value].providerId;
      s.(selected := if id in s.selected then s.selected - {id} else s.selected + {id})
  }

  function SelectedIdsFrom(s: SelectionState, i: nat): seq<string>
    requires i <= |s.rows|
    decreases |s.rows| - i
  {
    if i == |s.rows| then []
    else
      var id := s.rows[i].providerId;
      (if id in s.selected then [id] else []) + SelectedIdsFrom(s, i + 1)
  }

  function SelectedProviderIds(s: SelectionState): seq<string> {
    SelectedIdsFrom(s, 0)
  }

  // ---------------------------------------------------------------- what every key press keeps

  /** The cursor is on a missing row, or there is none. Only missing rows' providers are chosen. */
  ghost predicate Valid(s: SelectionState) {
    && (s.cursor.None? ==> forall i :: !Missing(s.rows, i))
    && (s.cursor.Some? ==> Missing(s.rows, s.cursor.value))
    && forall id | id in s.selected :: exists i :: Missing(s.rows, i) && s.rows[i].providerId == id
  }

  datatype Key = MoveBy(offset: int) | Space

  function Press(s: SelectionState, key: Key): SelectionState
    requires s.cursor.Some? ==> s.cursor.value < |s.rows|
  {
    match key
    case MoveBy(offset) => Move(s, offset)
    case Space => Toggle(s)
  }

  lemma PressKeepsValid(s: SelectionState, key: Key)
    requires Valid(s)
    ensures Valid(Press(s, key)) && Press(s, key).rows == s.rows
  {
    hide Seek;
    if key == Space && s.cursor.Some? {
      assert Missing(s.rows, s.cursor.value);
    }
  }

  function PressAll(s: SelectionState, keys: seq<Key>): SelectionState
    requires Valid(s)
    decreases |keys|
  {
    if keys == [] then s
    else
      PressKeepsValid(s, keys[0]);
      PressAll(Press(s, keys[0]), keys[1..])
  }

  /** Whatever keys are pressed: the cursor stays on a missing row if there is any, and the providers
    * confirmed are those of missing rows. */
  lemma {:induction false} EveryRunIsValid(s: SelectionState, keys: seq<Key>)
    requires Valid(s)
    ensures Valid(PressAll(s, keys)) && PressAll(s, keys).rows == s.rows
    decreases |keys|
  {
    if keys != [] {
      PressKeepsValid(s, keys[0]);
      EveryRunIsValid(Press(s, keys[0]), keys[1..]);
    }
  }

  lemma InitialIsValid(rows: seq<Row>)
    ensures Valid(InitialSelection(rows))
  {
  }

  // ---------------------------------------------------------------- moving is rotation

  /** The missing rows from `i` on, in order. */
  function MissingRows(rows: seq<Row>, i: nat): (m: seq<nat>)
    requires i <= |rows|
    ensures forall p | 0 <= p < |m| :: i <= m[p] && Missing(rows, m[p])
    ensures forall p, q | 0 <= p < q < |m| :: m[p] < m[q]
    decreases |rows| - i
  {
    if i == |rows| then [] else (if Missing(rows, i) then [i] else []) + MissingRows(rows, i + 1)
  }

  lemma {:induction false} MissingRowsComplete(rows: seq<Row>, i: nat, k: nat)
    requires i <= k < |rows| && Missing(rows, k)
    ensures k in MissingRows(rows, i)
    decreases |rows| - i
  {
    if i < k {
      MissingRowsComplete(rows, i + 1, k);
    }
  }

  /** No missing row lies between two neighbours of the list, before its first or after its last. */
  lemma Gaps(rows: seq<Row>, m: seq<nat>, k: nat)
    requires m == MissingRows(rows, 0) && Missing(rows, k)
    ensures exists p :: 0 <= p < |m| && m[p] == k
  {
    MissingRowsComplete(rows, 0, k);
  }

  lemma {:induction false} SeekAhead(rows: seq<Row>, i: nat, j: nat, tries: nat)
    requires i < j && Missing(rows, j) && j - i <= tries
    requires forall k | i < k < j :: !Missing(rows, k)
    ensures Seek(rows, 1, i, tries) == Some(j)
    decreases j - i
  {
    WrapUp(i, |rows|);
    if i + 1 < j {
      SeekAhead(rows, i + 1, j, tries - 1);
    }
  }

  lemma {:induction false} SeekAround(rows: seq<Row>, i: nat, j: nat, tries: nat)
    requires j <= i < |rows| && Missing(rows, j) && |rows| - i + j <= tries
    requires forall k | i < k < |rows| || 0 <= k < j :: !Missing(rows, k)
    ensures Seek(rows, 1, i, tries) == Some(j)
    decreases |rows| - i
  {
    WrapUp(i, |rows|);
    if i + 1 < |rows| {
      SeekAround(rows, i + 1, j, tries - 1);
    } else if j > 0 {
      SeekAhead(rows, 0, j, tries - 1);
    }
  }

  lemma {:induction false} SeekBack(rows: seq<Row>, i: nat, j: nat, tries: nat)
    requires j < i < |rows| && Missing(rows, j) && i - j <= tries
    requires forall k | j < k < i :: !Missing(rows, k)
    ensures Seek(rows, -1, i, tries) == Some(j)
    decreases i - j
  {
    WrapDown(i, |rows|);
    if j + 1 < i {
      SeekBack(rows, i - 1, j, tries - 1);
    }
  }

  lemma {:induction false} SeekBackAround(rows: seq<Row>, i: nat, j: nat, tries: nat)
    requires i <= j < |rows| && Missing(rows, j) && i + |rows| - j <= tries
    requires forall k | 0 <= k < i || j < k < |rows| :: !Missing(rows, k)
    ensures Seek(rows, -1, i, tries) == Some(j)
    decreases i
  {
    WrapDown(i, |rows|);
    if i > 0 {
      SeekBackAround(rows, i - 1, j, tries - 1);
    } else if j + 1 < |rows| {
      SeekBack(rows, |rows| - 1, j, tries - 1);
    }
  }

  lemma WrapUp(i: nat, n: nat)
    requires i < n
    ensures (i + 1) % n == (if i + 1 == n then 0 else i + 1)
  {
  }

  lemma WrapDown(i: nat, n: nat)
    requires i < n
    ensures (i - 1) % n == (if i == 0 then n - 1 else i - 1)
  {
    if i == 0 {
      assert -1 == n * -1 + (n - 1);
    }
  }

  /** One place on in a list of `n`, around its end. */
  function Following(p: nat, n: nat): nat
    requires p < n
  {
    if p + 1 < n then p + 1 else 0
  }

  function Preceding(p: nat, n: nat): nat
    requires p < n
  {
    if p > 0 then p - 1 else n - 1
  }

  lemma MoveDown(s: SelectionState, p: nat)
    requires p < |MissingRows(s.rows, 0)| && s.cursor == Some(MissingRows(s.rows, 0)[p])
    ensures var m := MissingRows(s.rows, 0); Move(s, 1) == s.(cursor := Some(m[Following(p, |m|)]))
  {
    hide Seek, MissingRows;
    var rows, m := s.rows, MissingRows(s.rows, 0);
    forall k | Missing(rows, k) ensures exists q :: 0 <= q < |m| && m[q] == k { Gaps(rows, m, k); }
    if p + 1 < |m| {
      SeekAhead(rows, m[p], m[p + 1], |rows|);
    } else {
      SeekAround(rows, m[p], m[0], |rows|);
    }
  }

  lemma MoveUp(s: SelectionState, p: nat)
    requires p < |MissingRows(s.rows, 0)| && s.cursor == Some(MissingRows(s.rows, 0)[p])
    ensures var m := MissingRows(s.rows, 0); Move(s, -1) == s.(cursor := Some(m[Preceding(p, |m|)]))
  {
    hide Seek, MissingRows;
    var rows, m := s.rows, MissingRows(s.rows, 0);
    forall k | Missing(rows, k) ensures exists q :: 0 <= q < |m| && m[q] == k { Gaps(rows, m, k); }
    if p > 0 {
      SeekBack(rows, m[p], m[p - 1], |rows|);
    } else {
      SeekBackAround(rows, m[p], m[|m| - 1], |rows|);
    }
  }

  /** Moving down goes to the next missing row in cyclic order, moving up to the one before. */
  lemma {:induction false} MoveIsRotation(s: SelectionState, p: nat)
    requires p < |MissingRows(s.rows, 0)| && s.cursor == Some(MissingRows(s.rows, 0)[p])
    ensures var m := MissingRows(s.rows, 0);
            && Move(s, 1) == s.(cursor := Some(m[Following(p, |m|)]))
            && Move(s, -1) == s.(cursor := Some(m[Preceding(p, |m|)]))
  {
    hide MissingRows, Move;
    MoveDown(s, p);
    MoveUp(s, p);
  }

  lemma CursorPlace(s: SelectionState) returns (p: nat)
    requires Valid(s) && s.cursor.Some?
    ensures p < |MissingRows(s.rows, 0)| && MissingRows(s.rows, 0)[p] == s.cursor.value
  {
    var m := MissingRows(s.rows, 0);
    Gaps(s.rows, m, s.cursor.value);
    p :| 0 <= p < |m| && m[p] == s.cursor.value;
  }

  /** Down and then up, or up and then down, leads back. */
  lemma {:induction false} DownUpIsIdentity(s: SelectionState)
    requires Valid(s)
    ensures Move(Move(s, 1), -1) == s && Move(Move(s, -1), 1) == s
  {
    if s.cursor.Some? {
      hide Move, MissingRows;
      var p := CursorPlace(s);
      var m := MissingRows(s.rows, 0);
      MoveIsRotation(s, p);
      MoveIsRotation(Move(s, 1), Following(p, |m|));
      MoveIsRotation(Move(s, -1), Preceding(p, |m|));
    }
  }

  function Downs(times: nat): seq<Key> {
    seq(times, _ => MoveBy(1))
  }

  function Down(s: SelectionState, times: nat): SelectionState
    requires Valid(s)
  {
    PressAll(s, Downs(times))
  }

  /** `times` places on in a list of `n`, around its end at most once. */
  function Onward(p: nat, times: nat, n: nat): (q: nat)
    requires p < n && times <= n
    ensures q < n
  {
    if p + times < n then p + times else p + times - n
  }

  lemma OnwardStep(p: nat, times: nat, n: nat)
    requires p < n && times < n
    ensures Onward(p, times + 1, n) == Onward(Following(p, n), times, n)
  {
  }

  lemma DownStep(s: SelectionState, times: nat)
    requires Valid(s)
    ensures Valid(Move(s, 1)) && Down(s, times + 1) == Down(Move(s, 1), times)
  {
    hide Move, Valid;
    PressKeepsValid(s, MoveBy(1));
    assert Downs(times + 1)[1..] == Downs(times);
  }

  /** Pressing down again and again visits the missing rows one by one in cyclic order, each exactly
    * once before the cursor is back. */
  lemma {:induction false} DownVisitsAll(s: SelectionState, p: nat, times: nat)
    requires Valid(s) && p < |MissingRows(s.rows, 0)| && s.cursor == Some(MissingRows(s.rows, 0)[p])
    requires times <= |MissingRows(s.rows, 0)|
    ensures var m := MissingRows(s.rows, 0);
            Down(s, times) == s.(cursor := Some(m[Onward(p, times, |m|)]))
    decreases times
  {
    if times > 0 {
      hide Move, MissingRows, Valid, Down, Onward;
      var m := MissingRows(s.rows, 0);
      MoveIsRotation(s, p);
      DownStep(s, times - 1);
      DownVisitsAll(Move(s, 1), Following(p, |m|), times - 1);
      OnwardStep(p, times - 1, |m|);
    }
  }

  /** Every missing row can be reached by pressing down, in fewer presses than there are missing rows. */
  lemma EveryMissingRowIsReached(s: SelectionState, i: nat)
    requires Valid(s) && Missing(s.rows, i)
    ensures exists times | 0 <= times < |MissingRows(s.rows, 0)| :: Down(s, times) == s.(cursor := Some(i))
  {
    hide Move, MissingRows, Down;
    var m := MissingRows(s.rows, 0);
    var p := CursorPlace(s);
    Gaps(s.rows, m, i);
    var q :| 0 <= q < |m| && m[q] == i;
    var times := if p <= q then q - p else q - p + |m|;
    DownVisitsAll(s, p, times);
  }

  // ---------------------------------------------------------------- what is chosen

  /** A toggle flips the provider under the cursor and no other; a second one takes it back. */
  lemma ToggleFlips(s: SelectionState, id: string)
    requires Valid(s) && s.cursor.Some?
    ensures var here, r := s.rows[s.cursor.value].providerId, Toggle(s);
            && r.rows == s.rows && r.cursor == s.cursor
            && (id != here ==> (id in r.selected <==> id in s.selected))
            && (here in r.selected <==> here !in s.selected)
            && Toggle(r) == s
  {
    var here := s.rows[s.cursor.value].providerId;
    assert here in s.selected ==> s.selected - {here} + {here} == s.selected;
    assert here !in s.selected ==> s.selected + {here} - {here} == s.selected;
  }

  // ---------------------------------------------------------------- what is confirmed

  lemma ConfirmedStep(s: SelectionState, i: nat)
    requires i < |s.rows|
    ensures var id := s.rows[i].providerId;
            SelectedIdsFrom(s, i) == (if id in s.selected then [id] else []) + SelectedIdsFrom(s, i + 1)
  {
  }

  /** The confirmed providers are in row order: those of the first rows, then those of the others. */
  lemma {:induction false} ConfirmedInOrder(s: SelectionState, i: nat, k: nat)
    requires i <= k <= |s.rows|
    ensures SelectedIdsFrom(s, i) == SelectedIdsFrom(s.(rows := s.rows[..k]), i) + SelectedIdsFrom(s, k)
    ensures k < |s.rows| ==>
              var id := s.rows[k].providerId;
              SelectedIdsFrom(s, k) == (if id in s.selected then [id] else []) + SelectedIdsFrom(s, k + 1)
    decreases k - i
  {
    if k < |s.rows| {
      ConfirmedStep(s, k);
    }
    var first := s.(rows := s.rows[..k]);
    if i == k {
      assert SelectedIdsFrom(first, i) == [];
    } else {
      hide SelectedIdsFrom;
      ConfirmedInOrder(s, i + 1, k);
      ConfirmedStep(s, i);
      ConfirmedStep(first, i);
      assert first.rows[i] == s.rows[i];
    }
  }

  /** A provider is confirmed exactly if it is on the list and chosen. */
  lemma {:induction false} ConfirmedIff(s: SelectionState, i: nat, id: string)
    requires i <= |s.rows|
    ensures id in SelectedIdsFrom(s, i) <==> id in s.selected && exists k | i <= k < |s.rows| :: s.rows[k].providerId == id
    decreases |s.rows| - i
  {
    if i < |s.rows| {
      ConfirmedIff(s, i + 1, id);
    }
  }

  /** No installed row shares its provider with a missing one. */
  predicate Separated(rows: seq<Row>) {
    forall i, j | 0 <= i < |rows| && 0 <= j < |rows| && Missing(rows, i) && rows[j].providerId == rows[i].providerId ::
      Missing(rows, j)
  }

  /** From the first screen on, no run confirms an installed row's provider, exactly if no installed row
    * shares its provider with a missing one. */
  lemma InstalledNeverConfirmed(rows: seq<Row>)
    ensures Valid(InitialSelection(rows))
    ensures Separated(rows) <==>
            forall keys, j | 0 <= j < |rows| && !Missing(rows, j) ::
              rows[j].providerId !in SelectedProviderIds(PressAll(InitialSelection(rows), keys))
  {
    InitialIsValid(rows);
    var s := InitialSelection(rows);
    if Separated(rows) {
      forall keys, j | 0 <= j < |rows| && !Missing(rows, j)
        ensures rows[j].providerId !in SelectedProviderIds(PressAll(s, keys))
      {
        EveryRunIsValid(s, keys);
        ConfirmedIff(PressAll(s, keys), 0, rows[j].providerId);
      }
    } else {
      var i, j :| 0 <= i < |rows| && 0 <= j < |rows| && Missing(rows, i)
                  && rows[j].providerId == rows[i].providerId && !Missing(rows, j);
      var keys := ConfirmOne(rows, i);
      ConfirmedIff(PressAll(s, keys), 0, rows[j].providerId);
    }
  }

  lemma {:induction false} PressMore(s: SelectionState, keys: seq<Key>, more: seq<Key>)
    requires Valid(s)
    ensures Valid(PressAll(s, keys)) && PressAll(s, keys + more) == PressAll(PressAll(s, keys), more)
    decreases |keys|
  {
    if keys == [] {
      assert keys + more == more;
    } else {
      PressKeepsValid(s, keys[0]);
      PressMore(Press(s, keys[0]), keys[1..], more);
      assert (keys + more)[1..] == keys[1..] + more;
    }
  }

  /** Keys that choose the provider of a missing row and no other. */
  lemma ConfirmOne(rows: seq<Row>, i: nat) returns (keys: seq<Key>)
    requires Missing(rows, i)
    ensures Valid(InitialSelection(rows))
    ensures PressAll(InitialSelection(rows), keys).selected == {rows[i].providerId}
    ensures PressAll(InitialSelection(rows), keys).rows == rows
  {
    InitialIsValid(rows);
    var s := InitialSelection(rows);
    EveryMissingRowIsReached(s, i);
    var times :| 0 <= times < |MissingRows(rows, 0)| && Down(s, times) == s.(cursor := Some(i));
    keys := Downs(times) + [Space];
    PressMore(s, Downs(times), [Space]);
  }
}
