/**
  The per-prefecture population data map kept by the chart-data hook
  (`useChartData`): a JavaScript `Map` from prefecture code to the
  prefecture's name and its payload, or `null` while the payload is missing.
  A JavaScript `Map` iterates in insertion order, so it is modelled as a
  sequence of entries whose keys are pairwise distinct.

  Two transitions act on it: reconciliation against the current selection
  (drop every key that is no longer selected) and loading (an unconditional
  `set` that does not consult the selection).
 */
module ChartData {
  import opened Common
  import opened PopulationTypes
  import opened Selection

  /** What the map stores under a code. */
  datatype Value = Value(prefName: string, data: Option<Composition>)

  datatype Entry = Entry(key: int, value: Value)

  predicate UniqueKeys(m: seq<Entry>)
  {
    forall i, j :: 0 <= i < j < |m| ==> m[i].key != m[j].key
  }

  /** An insertion-ordered map: iteration order is sequence order. */
  type DataMap = m: seq<Entry> | UniqueKeys(m) witness []

  /** The hook's initial state. */
  const Empty: DataMap := []

  function Keys(m: seq<Entry>): set<int>
  {
    if |m| == 0 then {} else {m[0].key} + Keys(m[1..])
  }

  /** `Map.prototype.get`: the value stored under `k`, if any. */
  function Get(m: seq<Entry>, k: int): (r: Option<Value>)
    ensures r.Some? <==> k in Keys(m)
  {
    if |m| == 0 then None
    else if m[0].key == k then Some(m[0].value)
    else Get(m[1..], k)
  }

  lemma {:induction false} InKeys(m: seq<Entry>, k: int)
    ensures k in Keys(m) <==> exists i :: 0 <= i < |m| && m[i].key == k
    decreases |m|
  {
    if |m| > 0 {
      InKeys(m[1..], k);
      if k in Keys(m[1..]) {
        var i :| 0 <= i < |m| - 1 && m[1..][i].key == k;
        assert m[i + 1].key == k;
      }
      if exists i :: 0 <= i < |m| && m[i].key == k {
        var i :| 0 <= i < |m| && m[i].key == k;
        if i > 0 {
          assert m[1..][i - 1].key == k;
        }
      }
    }
  }

  /** The first key of a map does not occur again in its tail. */
  lemma {:induction false} HeadKeyFresh(m: DataMap)
    requires |m| > 0
    ensures m[0].key !in Keys(m[1..])
  {
    InKeys(m[1..], m[0].key);
  }

  /** In a map, looking up the key of an entry returns that entry's value. */
  lemma {:induction false} GetAt(m: DataMap, i: nat)
    requires i < |m|
    ensures Get(m, m[i].key) == Some(m[i].value)
    decreases i
  {
    if i > 0 {
      var tail: DataMap := m[1..];
      assert m[0].key != m[i].key && tail[i - 1] == m[i];
      GetAt(tail, i - 1);
    }
  }

  /** Putting an entry with a fresh key in front keeps the keys unique. */
  lemma {:induction false} ConsUnique(e: Entry, rest: DataMap)
    requires e.key !in Keys(rest)
    ensures UniqueKeys([e] + rest)
  {
    InKeys(rest, e.key);
  }

  /** The reconciliation updater: keep exactly the entries whose code is
      selected, in their order, with their values untouched. */
  function Reconcile(m: DataMap, selected: seq<SelectedPrefecture>): (r: DataMap)
    ensures IsSubsequence(r, m)
    ensures Keys(r) == Keys(m) * Codes(selected)
    ensures forall k :: Get(r, k) == if k in Codes(selected) then Get(m, k) else None
  {
    if |m| == 0 then []
    else
      HeadKeyFresh(m);
      var rest: DataMap := Reconcile(m[1..], selected);
      if m[0].key in Codes(selected) then
        ConsUnique(m[0], rest);
        [m[0]] + rest
      else
        rest
  }

  /** The load updater, `Map.prototype.set`: overwrite in place when the key
      is present, append at the end otherwise. */
  function Load(m: DataMap, k: int, name: string, d: Option<Composition>): (r: DataMap)
    ensures Get(r, k) == Some(Value(name, d))
    ensures forall k' :: k' != k ==> Get(r, k') == Get(m, k')
    ensures Keys(r) == Keys(m) + {k}
  {
    if |m| == 0 then [Entry(k, Value(name, d))]
    else if m[0].key == k then
      HeadKeyFresh(m);
      ConsUnique(Entry(k, Value(name, d)), m[1..]);
      [Entry(k, Value(name, d))] + m[1..]
    else
      var rest := Load(m[1..], k, name, d);
      HeadKeyFresh(m);
      ConsUnique(m[0], rest);
      [m[0]] + rest
  }

  /** Loading under a present key rewrites that entry in place. */
  lemma {:induction false} LoadExisting(m: DataMap, i: nat, name: string, d: Option<Composition>)
    requires i < |m|
    ensures Load(m, m[i].key, name, d) == m[i := Entry(m[i].key, Value(name, d))]
    decreases |m|
  {
    if i > 0 {
      var k := m[i].key;
      assert m[0].key != k;
      LoadExisting(m[1..], i - 1, name, d);
      assert m[1..][i - 1 := Entry(k, Value(name, d))] == m[i := Entry(k, Value(name, d))][1..];
    }
  }

  /** Loading under an absent key appends one entry at the end. */
  lemma {:induction false} LoadNew(m: DataMap, k: int, name: string, d: Option<Composition>)
    requires k !in Keys(m)
    ensures Load(m, k, name, d) == m + [Entry(k, Value(name, d))]
    decreases |m|
  {
    if |m| > 0 {
      var e := Entry(k, Value(name, d));
      var tail: DataMap := m[1..];
      assert k != m[0].key && k !in Keys(tail);
      assert Load(m, k, name, d) == [m[0]] + Load(tail, k, name, d);
      LoadNew(tail, k, name, d);
      assert m + [e] == [m[0]] + (tail + [e]);
    }
  }

  /** Reconciling one more entry of a map appends that entry when its code
      is selected. */
  lemma {:induction false} ReconcileSnoc(m: DataMap, i: nat, selected: seq<SelectedPrefecture>)
    requires i < |m|
    ensures Reconcile(m[..i + 1], selected)
         == Reconcile(m[..i], selected) + (if m[i].key in Codes(selected) then [m[i]] else [])
    decreases i
  {
    if i > 0 {
      ReconcileSnoc(m[1..], i - 1, selected);
      assert m[..i + 1][1..] == m[1..][..i];
      assert m[..i][1..] == m[1..][..i - 1];
      assert m[..i + 1][0] == m[..i][0] == m[0];
    } else {
      assert m[..0] == [];
    }
  }

  /** Once every key is selected, reconciliation changes nothing. */
  lemma {:induction false} ReconcileKeepsSelected(m: DataMap, selected: seq<SelectedPrefecture>)
    requires Keys(m) <= Codes(selected)
    ensures Reconcile(m, selected) == m
    decreases |m|
  {
    if |m| > 0 {
      ReconcileKeepsSelected(m[1..], selected);
      assert m == [m[0]] + m[1..];
    }
  }

  /** Reconciling twice against the same selection is reconciling once. */
  lemma {:induction false} ReconcileIdempotent(m: DataMap, selected: seq<SelectedPrefecture>)
    ensures Reconcile(Reconcile(m, selected), selected) == Reconcile(m, selected)
  {
    ReconcileKeepsSelected(Reconcile(m, selected), selected);
  }

  /** Loading twice under the same key leaves only the second load visible,
      at the position the first one gave the key. */
  lemma {:induction false} LoadOverwrites(m: DataMap, k: int, n1: string, d1: Option<Composition>, n2: string, d2: Option<Composition>)
    ensures Load(Load(m, k, n1, d1), k, n2, d2) == Load(m, k, n2, d2)
    decreases |m|
  {
    if |m| > 0 && m[0].key != k {
      LoadOverwrites(m[1..], k, n1, d1, n2, d2);
    }
  }

  /** A load under an unselected code is undone by the next reconciliation. */
  lemma {:induction false} ReconcileDropsUnselectedLoad(m: DataMap, selected: seq<SelectedPrefecture>, k: int, name: string, d: Option<Composition>)
    requires k !in Codes(selected)
    ensures Reconcile(Load(m, k, name, d), selected) == Reconcile(m, selected)
    decreases |m|
  {
    var loaded := Load(m, k, name, d);
    if |m| == 0 {
      assert loaded[1..] == [];
    } else if m[0].key == k {
      assert loaded[1..] == m[1..];
    } else {
      var tail: DataMap := m[1..];
      ReconcileDropsUnselectedLoad(tail, selected, k, name, d);
      assert loaded[0] == m[0] && loaded[1..] == Load(tail, k, name, d);
    }
  }

  /** The things that happen to the map: the selection changes (the effect
      re-runs reconciliation) or a data provider reports a payload. */
  datatype Event =
    | SelectionChanged(selected: seq<SelectedPrefecture>)
    | DataLoaded(prefCode: int, prefName: string, data: Option<Composition>)

  function Step(m: DataMap, e: Event): DataMap
  {
    match e
    case SelectionChanged(selected) => Reconcile(m, selected)
    case DataLoaded(code, name, data) => Load(m, code, name, data)
  }

  /** The map after a history of events, applied oldest first. */
  function Run(m: DataMap, events: seq<Event>): DataMap
  {
    if |events| == 0 then m
    else Step(Run(m, events[..|events| - 1]), events[|events| - 1])
  }

  lemma {:induction false} RunAppend(m: DataMap, a: seq<Event>, b: seq<Event>)
    ensures Run(m, a + b) == Run(Run(m, a), b)
    decreases |b|
  {
    if |b| == 0 {
      assert a + b == a;
    } else {
      assert (a + b)[..|a + b| - 1] == a + b[..|b| - 1];
      RunAppend(m, a, b[..|b| - 1]);
    }
  }

  lemma {:induction false} RunOne(m: DataMap, e: Event)
    ensures Run(m, [e]) == Step(m, e)
  {
    assert [e][..0] == [];
  }

  lemma {:induction false} RunCons(m: DataMap, e: Event, rest: seq<Event>)
    ensures Run(m, [e] + rest) == Run(Step(m, e), rest)
  {
    RunAppend(m, [e], rest);
    RunOne(m, e);
  }

  lemma {:induction false} RunTwo(m: DataMap, e1: Event, e2: Event)
    ensures Run(m, [e1, e2]) == Step(Step(m, e1), e2)
  {
    assert [e1, e2][..1] == [e1];
    RunOne(m, e1);
  }

  lemma {:induction false} RunThree(m: DataMap, e1: Event, e2: Event, e3: Event)
    ensures Run(m, [e1, e2, e3]) == Step(Step(Step(m, e1), e2), e3)
  {
    assert [e1, e2, e3] == [e1, e2] + [e3];
    RunAppend(m, [e1, e2], [e3]);
    RunOne(Run(m, [e1, e2]), e3);
    RunTwo(m, e1, e2);
  }

  /** The codes that some load event in a history wrote. */
  function LoadedCodes(events: seq<Event>): set<int>
  {
    set e | e in events && e.DataLoaded? :: e.prefCode
  }

  /** Starting from the empty map, every key present was written by a load. */
  lemma {:induction false} KeysFromLoads(events: seq<Event>)
    ensures Keys(Run(Empty, events)) <= LoadedCodes(events)
    decreases |events|
  {
    if |events| > 0 {
      var front := events[..|events| - 1];
      KeysFromLoads(front);
      assert LoadedCodes(front) <= LoadedCodes(events) by {
        forall e | e in front ensures e in events {
        }
      }
    }
  }

  /** The two reports a data provider makes for one prefecture: `null`
      while its fetch is outstanding, then the outcome (`null` on failure). */
  function ProviderEvents(p: SelectedPrefecture, outcome: Option<Composition>): seq<Event>
  {
    [DataLoaded(p.prefCode, p.prefName, None), DataLoaded(p.prefCode, p.prefName, outcome)]
  }

  /** The provisional `null` leaves no trace once the outcome arrives. */
  lemma {:induction false} ProviderSettles(m: DataMap, p: SelectedPrefecture, outcome: Option<Composition>)
    ensures Run(m, ProviderEvents(p, outcome)) == Load(m, p.prefCode, p.prefName, outcome)
  {
    RunTwo(m, DataLoaded(p.prefCode, p.prefName, None), DataLoaded(p.prefCode, p.prefName, outcome));
    LoadOverwrites(m, p.prefCode, p.prefName, None, p.prefName, outcome);
  }

  /** One load per selected prefecture, in selection order. */
  function LoadsFor(selected: seq<SelectedPrefecture>, outcomes: seq<Option<Composition>>): seq<Event>
    requires |outcomes| == |selected|
  {
    if |selected| == 0 then []
    else [DataLoaded(selected[0].prefCode, selected[0].prefName, outcomes[0])]
         + LoadsFor(selected[1..], outcomes[1..])
  }

  lemma {:induction false} LoadsForKeys(m: DataMap, selected: seq<SelectedPrefecture>, outcomes: seq<Option<Composition>>)
    requires |outcomes| == |selected|
    ensures Keys(Run(m, LoadsFor(selected, outcomes))) == Keys(m) + Codes(selected)
    decreases |selected|
  {
    if |selected| > 0 {
      var e := DataLoaded(selected[0].prefCode, selected[0].prefName, outcomes[0]);
      var rest := LoadsFor(selected[1..], outcomes[1..]);
      assert LoadsFor(selected, outcomes) == [e] + rest;
      RunCons(m, e, rest);
      LoadsForKeys(Step(m, e), selected[1..], outcomes[1..]);
      CodesCons(selected);
    }
  }

  /** Once the selection has been reconciled and every selected prefecture
      has reported, the map holds exactly the selected codes. */
  lemma {:induction false} SettledKeysAreSelected(m: DataMap, selected: seq<SelectedPrefecture>, outcomes: seq<Option<Composition>>)
    requires |outcomes| == |selected|
    ensures Keys(Run(m, [SelectionChanged(selected)] + LoadsFor(selected, outcomes))) == Codes(selected)
  {
    RunAppend(m, [SelectionChanged(selected)], LoadsFor(selected, outcomes));
    RunOne(m, SelectionChanged(selected));
    LoadsForKeys(Reconcile(m, selected), selected, outcomes);
  }

  /** A load that lands after its prefecture was deselected puts the code
      back into the map; only the next reconciliation removes it again. */
  lemma {:induction false} LateLoadReinserts(m: DataMap, selected: seq<SelectedPrefecture>, k: int, name: string, d: Option<Composition>)
    requires k !in Codes(selected)
    ensures k in Keys(Run(m, [SelectionChanged(selected), DataLoaded(k, name, d)]))
    ensures Run(m, [SelectionChanged(selected), DataLoaded(k, name, d), SelectionChanged(selected)])
         == Reconcile(m, selected)
  {
    RunTwo(m, SelectionChanged(selected), DataLoaded(k, name, d));
    RunThree(m, SelectionChanged(selected), DataLoaded(k, name, d), SelectionChanged(selected));
    ReconcileDropsUnselectedLoad(Reconcile(m, selected), selected, k, name, d);
    ReconcileIdempotent(m, selected);
  }
}
