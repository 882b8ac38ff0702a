/** The selection logic of assets/diagnostics.js: toggling a diagnostic id
    in `state.selectedDiagIds` through a JavaScript `Set`, and filtering the
    catalogue down to the selected diagnostics for a purpose. */
module Selection {
  import opened Wrappers
  import opened Domain
  import opened State

  /** No id occurs twice. */
  predicate NoDup(ids: seq<string>) {
    forall i, j | 0 <= i < j < |ids| :: ids[i] != ids[j]
  }

  /** `ids` without any occurrence of `id`, order kept. */
  function Remove(ids: seq<string>, id: string): (r: seq<string>)
    ensures |r| <= |ids|
    ensures forall x :: x in r <==> x in ids && x != id
  {
    if ids == [] then []
    else if ids[0] == id then Remove(ids[1..], id)
    else [ids[0]] + Remove(ids[1..], id)
  }

  /** Removing an absent id changes nothing. */
  lemma {:induction false} RemoveAbsent(ids: seq<string>, id: string)
    requires id !in ids
    ensures Remove(ids, id) == ids
  {
    if ids != [] {
      RemoveAbsent(ids[1..], id);
      assert [ids[0]] + ids[1..] == ids;
    }
  }

  /** Removing keeps a duplicate-free sequence duplicate-free. */
  lemma {:induction false} RemoveNoDup(ids: seq<string>, id: string)
    requires NoDup(ids)
    ensures NoDup(Remove(ids, id))
  {
    if ids != [] {
      assert NoDup(ids[1..]) by {
        forall i, j | 0 <= i < j < |ids[1..]|
          ensures ids[1..][i] != ids[1..][j]
        {
          assert ids[1..][i] == ids[i + 1] && ids[1..][j] == ids[j + 1];
        }
      }
      RemoveNoDup(ids[1..], id);
      if ids[0] != id {
        var r := Remove(ids[1..], id);
        assert ids[0] !in ids[1..] by {
          forall k | 0 <= k < |ids[1..]|
            ensures ids[1..][k] != ids[0]
          {
            assert ids[1..][k] == ids[k + 1];
          }
        }
        ConsNoDup(ids[0], r);
      }
    }
  }

  /** Prepending a fresh id keeps a sequence duplicate-free. */
  lemma ConsNoDup(x: string, r: seq<string>)
    requires NoDup(r) && x !in r
    ensures NoDup([x] + r)
  {
    var s := [x] + r;
    forall i, j | 0 <= i < j < |s|
      ensures s[i] != s[j]
    {
      if i == 0 {
        assert s[j] == r[j - 1];
      } else {
        assert s[i] == r[i - 1] && s[j] == r[j - 1];
      }
    }
  }

  /** `new Set(ids)` read back with `Array.from`: the first occurrence of
      each id, in order. */
  function Dedup(ids: seq<string>): (r: seq<string>)
    ensures NoDup(r)
    ensures forall x :: x in r <==> x in ids
    decreases |ids|
  {
    if ids == [] then []
    else
      var rest := Dedup(Remove(ids[1..], ids[0]));
      ConsNoDup(ids[0], rest);
      [ids[0]] + rest
  }

  /** A duplicate-free sequence passes through a `Set` unchanged. */
  lemma {:induction false} DedupOfNoDup(ids: seq<string>)
    requires NoDup(ids)
    ensures Dedup(ids) == ids
    decreases |ids|
  {
    if ids != [] {
      assert ids[0] !in ids[1..] by {
        forall k | 0 <= k < |ids[1..]|
          ensures ids[1..][k] != ids[0]
        {
          assert ids[1..][k] == ids[k + 1];
        }
      }
      RemoveAbsent(ids[1..], ids[0]);
      assert NoDup(ids[1..]) by {
        forall i, j | 0 <= i < j < |ids[1..]|
          ensures ids[1..][i] != ids[1..][j]
        {
          assert ids[1..][i] == ids[i + 1] && ids[1..][j] == ids[j + 1];
        }
      }
      DedupOfNoDup(ids[1..]);
      assert [ids[0]] + ids[1..] == ids;
    }
  }

  /** The body of `toggleSelectedDiagnostic`: through a `Set`, delete the id
      when present, append it otherwise. */
  function Toggle(ids: seq<string>, id: string): (r: seq<string>)
    ensures NoDup(r)
    ensures id in r <==> id !in ids
    ensures forall x | x != id :: x in r <==> x in ids
  {
    var unique := Dedup(ids);
    if id in unique then
      RemoveNoDup(unique, id);
      Remove(unique, id)
    else
      ConsNoDup(id, []);
      AppendFreshNoDup(unique, id);
      unique + [id]
  }

  /** Appending a fresh id keeps a sequence duplicate-free. */
  lemma AppendFreshNoDup(r: seq<string>, x: string)
    requires NoDup(r) && x !in r
    ensures NoDup(r + [x])
  {
    var s := r + [x];
    forall i, j | 0 <= i < j < |s|
      ensures s[i] != s[j]
    {
      assert s[i] == r[i];
      if j < |r| {
        assert s[j] == r[j];
      }
    }
  }

  /** Toggling twice selects the same ids again. */
  lemma ToggleTwiceSameIds(ids: seq<string>, id: string)
    ensures forall x :: x in Toggle(Toggle(ids, id), id) <==> x in ids
  {
  }

  /** Toggling an unselected id on and off again restores a duplicate-free
      selection exactly, order included. */
  lemma ToggleTwiceRestores(ids: seq<string>, id: string)
    requires NoDup(ids) && id !in ids
    ensures Toggle(Toggle(ids, id), id) == ids
  {
    DedupOfNoDup(ids);
    var once := ids + [id];
    assert Toggle(ids, id) == once;
    DedupOfNoDup(once);
    RemoveAbsent(ids, id);
    RemoveAppend(ids, [id], id);
    assert Remove([id], id) == [];
  }

  /** Removal distributes over concatenation. */
  lemma {:induction false} RemoveAppend(a: seq<string>, b: seq<string>, id: string)
    ensures Remove(a + b, id) == Remove(a, id) + Remove(b, id)
  {
    if a == [] {
      assert a + b == b;
    } else {
      assert (a + b)[1..] == a[1..] + b;
      RemoveAppend(a[1..], b, id);
    }
  }

  /** `toggleSelectedDiagnostic`: `updateState` with the toggled ids, which
      re-applies `setState` to the whole merged state. */
  function ToggleSelectedDiagnostic(st: AppState, id: string): (r: AppState)
    ensures r.diagnostics == st.diagnostics && r.propType == st.propType
    ensures r.selectedDiagIds == Toggle(st.selectedDiagIds, id)
    ensures IsNormalizedFor(r.diagnostics, r.prices)
  {
    SetState(st, StateUpdate(Some(st.diagnostics), Some(st.prices), Some(Toggle(st.selectedDiagIds, id)), Some(st.propType)))
  }

  /** Toggling leaves a normalised price table exactly as it was. */
  lemma ToggleKeepsPrices(st: AppState, id: string)
    requires IsNormalizedFor(st.diagnostics, st.prices)
    ensures ToggleSelectedDiagnostic(st, id).prices == st.prices
  {
    NormalizedIsFixpoint(st.diagnostics, st.prices);
  }

  /** Whether a catalogue entry survives `getSelectedDiagnostics`: it is
      selected, and TERMITES is never offered for rent. */
  predicate Offered(d: Diagnostic, selected: seq<string>, purpose: Purpose) {
    d.id in selected && !(purpose == Rent && d.id == TermitesId)
  }

  /** `getSelectedDiagnostics`: the catalogue entries that are selected and
      offered for the purpose, in catalogue order. */
  function GetSelectedDiagnostics(catalogue: seq<Diagnostic>, selected: seq<string>, purpose: Purpose): (r: seq<Diagnostic>)
    ensures |r| <= |catalogue|
    ensures forall d | d in r :: d in catalogue && Offered(d, selected, purpose)
    ensures forall d | d in catalogue && Offered(d, selected, purpose) :: d in r
  {
    if catalogue == [] then []
    else
      var rest := GetSelectedDiagnostics(catalogue[1..], selected, purpose);
      if Offered(catalogue[0], selected, purpose) then [catalogue[0]] + rest else rest
  }

  /** For rent the selection never holds TERMITES. */
  lemma RentNeverTermites(catalogue: seq<Diagnostic>, selected: seq<string>)
    ensures forall d | d in GetSelectedDiagnostics(catalogue, selected, Rent) :: d.id != TermitesId
  {
  }

  /** The result depends on the selected ids only as a set: click order and
      repeated ids do not matter. */
  lemma {:induction false} SelectionIgnoresOrder(catalogue: seq<Diagnostic>, a: seq<string>, b: seq<string>, purpose: Purpose)
    requires forall x :: x in a <==> x in b
    ensures GetSelectedDiagnostics(catalogue, a, purpose) == GetSelectedDiagnostics(catalogue, b, purpose)
  {
    if catalogue != [] {
      SelectionIgnoresOrder(catalogue[1..], a, b, purpose);
    }
  }

  /** Filtering distributes over concatenation of catalogues, so catalogue
      order is kept. */
  lemma {:induction false} SelectionAppend(c1: seq<Diagnostic>, c2: seq<Diagnostic>, selected: seq<string>, purpose: Purpose)
    ensures GetSelectedDiagnostics(c1 + c2, selected, purpose)
      == GetSelectedDiagnostics(c1, selected, purpose) + GetSelectedDiagnostics(c2, selected, purpose)
  {
    if c1 == [] {
      assert c1 + c2 == c2;
    } else {
      assert (c1 + c2)[1..] == c1[1..] + c2;
      SelectionAppend(c1[1..], c2, selected, purpose);
    }
  }
}
