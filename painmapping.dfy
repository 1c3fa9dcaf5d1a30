/** The symptom-mapping step (src/components/screening/PainMapping.jsx): the
    sensation table, the list of marked areas and its snapshot undo stack. */
module PainMapping {
  import Seqs
  import opened Js

  datatype SensationType = Pain | Numbness | Tingling | Burning | Heaviness | Tightness

  /** SENSATION_TYPES: the fixed colour of each of the six sensation types. */
  function SensationColor(t: SensationType): string {
    match t
    case Pain => "hsl(0, 90%, 60%)"
    case Numbness => "hsl(200, 90%, 60%)"
    case Tingling => "hsl(50, 90%, 60%)"
    case Burning => "hsl(30, 90%, 60%)"
    case Heaviness => "hsl(240, 30%, 50%)"
    case Tightness => "hsl(300, 50%, 50%)"
  }

  /** The sensation being drawn: its type, its intensity and its colour. */
  datatype Sensation = Sensation(sensationType: SensationType, intensity: int, color: string)

  /** The colour is the table's colour for the type. */
  predicate ColorMatches(s: Sensation) {
    s.color == SensationColor(s.sensationType)
  }

  /** The initial sensation: Pain at intensity 7 in the Pain colour. */
  const INITIAL_SENSATION: Sensation := Sensation(Pain, 7, SensationColor(Pain))

  /** A drawn area as the body chart reports it. */
  datatype Area = Area(id: string, pathData: string, view: string,
                       sensationType: SensationType, intensity: int, color: string)

  /** The area list and its history of snapshots, the most recent last. */
  datatype Store = Store(areas: seq<Area>, history: seq<seq<Area>>)

  /** The three handlers that change the list, each after pushing a snapshot. */
  datatype Mutation = Add(area: Area) | Reset | Remove(areaId: string)

  function WithoutId(areas: seq<Area>, areaId: string): (r: seq<Area>)
    ensures Seqs.IsSubsequence(r, areas)
    ensures forall i :: 0 <= i < |r| ==> r[i].id != areaId
    ensures forall i :: 0 <= i < |areas| && areas[i].id != areaId ==> areas[i] in r
    ensures forall a :: multiset(r)[a] == if a.id != areaId then multiset(areas)[a] else 0
  {
    var keep := (a: Area) => a.id != areaId;
    Seqs.FilterCounts(areas, keep);
    Seqs.FilterKeepsPassing(areas, keep);
    Seqs.FilterIsSubsequence(areas, keep);
    Seqs.Filter(areas, keep)
  }

  /** addMarkedArea, handleReset and handleRemoveArea on a store. */
  function Apply(s: Store, m: Mutation): (r: Store)
    ensures r.history == s.history + [s.areas]
  {
    var history := s.history + [s.areas];
    match m
    case Add(a) => Store(s.areas + [a], history)
    case Reset => Store([], history)
    case Remove(areaId) => Store(WithoutId(s.areas, areaId), history)
  }

  /** handleUndo on a store: pop the last snapshot into the list, if any. */
  function Undo(s: Store): (r: Store)
    ensures s.history == [] ==> r == s
    ensures s.history != [] ==> r.history + [r.areas] == s.history
  {
    if |s.history| > 0 then Store(s.history[|s.history| - 1], s.history[..|s.history| - 1])
    else s
  }

  function ApplyAll(s: Store, ms: seq<Mutation>): Store
    decreases |ms|
  {
    if ms == [] then s else ApplyAll(Apply(s, ms[0]), ms[1..])
  }

  function UndoTimes(s: Store, n: nat): Store {
    if n == 0 then s else Undo(UndoTimes(s, n - 1))
  }

  /** An undo right after a mutation returns the store it started from. */
  lemma UndoAfterMutation(s: Store, m: Mutation)
    ensures Undo(Apply(s, m)) == s
  {
    var t := Apply(s, m);
    assert t.history[..|t.history| - 1] == s.history;
  }

  /** Each mutation grows the history by one. */
  lemma {:induction false} HistoryGrows(s: Store, ms: seq<Mutation>)
    ensures |ApplyAll(s, ms).history| == |s.history| + |ms|
    decreases |ms|
  {
    if ms != [] {
      HistoryGrows(Apply(s, ms[0]), ms[1..]);
    }
  }

  /** n mutations followed by n undos give back the starting list and history. */
  lemma {:induction false} UndoIsLifo(s: Store, ms: seq<Mutation>)
    ensures UndoTimes(ApplyAll(s, ms), |ms|) == s
    decreases |ms|
  {
    if ms != [] {
      var s1 := Apply(s, ms[0]);
      UndoIsLifo(s1, ms[1..]);
      UndoTimesUnroll(ApplyAll(s1, ms[1..]), |ms[1..]|);
      UndoAfterMutation(s, ms[0]);
    }
  }

  lemma UndoTimesUnroll(s: Store, n: nat)
    ensures UndoTimes(s, n + 1) == Undo(UndoTimes(s, n))
  {
  }

  /** The state of the mapping step. */
  class SymptomMap {
    var markedAreas: seq<Area>
    var history: seq<seq<Area>>
    var painNarrative: string
    var currentView: string
    var currentSensation: Sensation

    function State(): Store
      reads this
    {
      Store(markedAreas, history)
    }

    /** The list starts as the stored areas or empty, with no history,
        drawing Pain at 7 on the front view. */
    constructor (initialAreas: Option<seq<Area>>, initialNarrative: string)
      ensures markedAreas == (if initialAreas.Some? then initialAreas.value else [])
      ensures history == [] && painNarrative == initialNarrative
      ensures currentView == "front" && currentSensation == INITIAL_SENSATION
    {
      markedAreas := if initialAreas.Some? then initialAreas.value else [];
      history := [];
      painNarrative := initialNarrative;
      currentView := "front";
      currentSensation := INITIAL_SENSATION;
    }

    /** addMarkedArea: snapshot, then the new area goes at the end. */
    method AddMarkedArea(newArea: Area)
      modifies this
      ensures history == old(history) + [old(markedAreas)]
      ensures markedAreas == old(markedAreas) + [newArea]
      ensures State() == Apply(old(State()), Add(newArea))
      ensures painNarrative == old(painNarrative) && currentView == old(currentView)
      ensures currentSensation == old(currentSensation)
    {
      history := history + [markedAreas];
      markedAreas := markedAreas + [newArea];
    }

    /** handleUndo: the last snapshot comes back and leaves the stack. */
    method HandleUndo()
      modifies this
      ensures old(history) == [] ==> markedAreas == old(markedAreas) && history == []
      ensures old(history) != [] ==> markedAreas == old(history)[|old(history)| - 1]
      ensures old(history) != [] ==> history == old(history)[..|old(history)| - 1]
      ensures State() == Undo(old(State()))
      ensures painNarrative == old(painNarrative) && currentView == old(currentView)
      ensures currentSensation == old(currentSensation)
    {
      if |history| > 0 {
        var previousState := history[|history| - 1];
        markedAreas := previousState;
        history := history[..|history| - 1];
      }
    }

    /** handleReset: snapshot, then an empty list, so undo restores it. */
    method HandleReset()
      modifies this
      ensures history == old(history) + [old(markedAreas)] && markedAreas == []
      ensures State() == Apply(old(State()), Reset)
      ensures painNarrative == old(painNarrative) && currentView == old(currentView)
      ensures currentSensation == old(currentSensation)
    {
      history := history + [markedAreas];
      markedAreas := [];
    }

    /** handleRemoveArea: snapshot, then every area with that id is dropped,
        the others kept in order; the snapshot is taken even if none matches. */
    method HandleRemoveArea(areaId: string)
      modifies this
      ensures history == old(history) + [old(markedAreas)]
      ensures markedAreas == WithoutId(old(markedAreas), areaId)
      ensures State() == Apply(old(State()), Remove(areaId))
      ensures painNarrative == old(painNarrative) && currentView == old(currentView)
      ensures currentSensation == old(currentSensation)
    {
      history := history + [markedAreas];
      markedAreas := WithoutId(markedAreas, areaId);
    }

    method SetPainNarrative(text: string)
      modifies this
      ensures painNarrative == text
      ensures markedAreas == old(markedAreas) && history == old(history)
      ensures currentView == old(currentView) && currentSensation == old(currentSensation)
    {
      painNarrative := text;
    }

    method SetCurrentView(view: string)
      modifies this
      ensures currentView == view
      ensures markedAreas == old(markedAreas) && history == old(history)
      ensures painNarrative == old(painNarrative) && currentSensation == old(currentSensation)
    {
      currentView := view;
    }

    method SetCurrentSensation(s: Sensation)
      modifies this
      ensures currentSensation == s
      ensures markedAreas == old(markedAreas) && history == old(history)
      ensures painNarrative == old(painNarrative) && currentView == old(currentView)
    {
      currentSensation := s;
    }

    /** What the step reports to the wizard: `{painAreas, pain_narrative}`. */
    function Report(): (seq<Area>, string)
      reads this
    {
      (markedAreas, painNarrative)
    }

    /** Undo is offered only with history, reset only with areas. */
    predicate UndoDisabled()
      reads this
    {
      |history| == 0
    }

    predicate ResetDisabled()
      reads this
    {
      |markedAreas| == 0
    }
  }
}
