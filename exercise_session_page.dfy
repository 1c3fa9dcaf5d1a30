/** The page of src/pages/ExerciseSession.jsx: which session is loaded, how
    its exercises are merged with the library, and the preparation, active
    and completion phases. */
module ExerciseSessionPage {
  import opened Js

  /** A record as a property map. */
  type Record = map<string, Json>

  /** An exercise session; each entry names a library exercise by
      `exercise_id` and carries its own sets, reps and so on. */
  datatype Session = Session(id: string, exercises: seq<Record>)

  /** `sessions[i]` is the first session with that id. */
  predicate FirstWithId(sessions: seq<Session>, i: int, sessionId: string) {
    0 <= i < |sessions| && sessions[i].id == sessionId && forall j :: 0 <= j < i ==> sessions[j].id != sessionId
  }

  /** `library[i]` is the first record whose `id` property is `id`. */
  predicate FirstWithExerciseId(library: seq<Record>, i: int, id: Json) {
    0 <= i < |library| && Get(Obj(library[i]), "id") == id
    && forall j :: 0 <= j < i ==> Get(Obj(library[j]), "id") != id
  }

  /** `sessions.find(s => s.id === sessionId) || sessions[0]` */
  function SelectSession(sessions: seq<Session>, sessionId: string): (r: Option<Session>)
    ensures sessions == [] <==> r.None?
    ensures (exists i :: 0 <= i < |sessions| && sessions[i].id == sessionId) ==>
      r.Some? && exists i :: FirstWithId(sessions, i, sessionId) && sessions[i] == r.value
    ensures (forall i :: 0 <= i < |sessions| ==> sessions[i].id != sessionId) && sessions != [] ==>
      r == Some(sessions[0])
  {
    var found := FindSession(sessions, sessionId);
    if found.Some? then found else if sessions == [] then None else Some(sessions[0])
  }

  function FindSession(sessions: seq<Session>, sessionId: string): (r: Option<Session>)
    ensures r.None? <==> forall i :: 0 <= i < |sessions| ==> sessions[i].id != sessionId
    ensures r.Some? ==> exists i :: FirstWithId(sessions, i, sessionId) && sessions[i] == r.value
  {
    if sessions == [] then None
    else if sessions[0].id == sessionId then Some(sessions[0])
    else
      var r := FindSession(sessions[1..], sessionId);
      assert forall i :: 0 < i < |sessions| ==> sessions[i] == sessions[1..][i - 1];
      if r.Some? then
        var k :| FirstWithId(sessions[1..], k, sessionId) && sessions[1..][k] == r.value;
        assert FirstWithId(sessions, k + 1, sessionId);
        r
      else r
  }

  /** `allExercises.find(ex => ex.id === id)`: the first library record
      whose `id` property equals `id`. */
  function FindExercise(library: seq<Record>, id: Json): (r: Option<Record>)
    ensures r.None? <==> forall i :: 0 <= i < |library| ==> Get(Obj(library[i]), "id") != id
    ensures r.Some? ==> exists i :: FirstWithExerciseId(library, i, id) && library[i] == r.value
  {
    if library == [] then None
    else if Get(Obj(library[0]), "id") == id then Some(library[0])
    else
      var r := FindExercise(library[1..], id);
      assert forall i :: 0 < i < |library| ==> library[i] == library[1..][i - 1];
      if r.Some? then
        var k :| FirstWithExerciseId(library[1..], k, id) && library[1..][k] == r.value;
        assert FirstWithExerciseId(library, k + 1, id);
        r
      else r
  }

  /** `{...exercise, ...sessionEx}`: the library record's properties, with
      the session entry's own properties taking precedence; spreading a
      missing exercise adds nothing. */
  function Merge(exercise: Option<Record>, entry: Record): (r: Record)
    ensures r.Keys == entry.Keys + (if exercise.Some? then exercise.value.Keys else {})
    ensures forall k :: k in entry ==> r[k] == entry[k]
    ensures exercise.Some? ==> forall k :: k in exercise.value && k !in entry ==> r[k] == exercise.value[k]
  {
    (if exercise.Some? then exercise.value else map[]) + entry
  }

  /** The session's exercises, one merged record per entry, in order. */
  function SessionExercises(session: Session, library: seq<Record>): (r: seq<Record>)
    ensures |r| == |session.exercises|
    ensures forall i :: 0 <= i < |r| ==>
      r[i] == Merge(FindExercise(library, Get(Obj(session.exercises[i]), "exercise_id")), session.exercises[i])
  {
    seq(|session.exercises|, i requires 0 <= i < |session.exercises| =>
      Merge(FindExercise(library, Get(Obj(session.exercises[i]), "exercise_id")), session.exercises[i]))
  }

  datatype Phase = Preparation | Active | Completion

  /** What the page renders. */
  datatype View =
    | NotFound
    | PreparationView(session: Session, exercises: seq<Record>)
    | PlayerView(session: Session, exercises: seq<Record>)
    | CompletionView(session: Session, exercises: seq<Record>)

  class Page {
    var sessionData: Option<Session>
    var exercises: seq<Record>
    var phase: Phase

    /** Nothing loaded yet, in the preparation phase. */
    constructor ()
      ensures sessionData.None? && exercises == [] && phase == Preparation
    {
      sessionData := None;
      exercises := [];
      phase := Preparation;
    }

    /** loadSessionData: the chosen session and its merged exercises; with
        no session at all nothing is set. The phase is left as it is. */
    method Load(sessions: seq<Session>, sessionId: string, library: seq<Record>)
      modifies this
      ensures SelectSession(sessions, sessionId).Some? ==>
        sessionData == SelectSession(sessions, sessionId)
        && exercises == SessionExercises(sessionData.value, library)
      ensures SelectSession(sessions, sessionId).None? ==>
        sessionData == old(sessionData) && exercises == old(exercises)
      ensures phase == old(phase)
    {
      var session := SelectSession(sessions, sessionId);
      if session.Some? {
        sessionData := session;
        exercises := SessionExercises(session.value, library);
      }
    }

    /** handleStartSession */
    method HandleStartSession()
      modifies this
      ensures phase == Active
      ensures sessionData == old(sessionData) && exercises == old(exercises)
    {
      phase := Active;
    }

    /** handleCompleteSession: the results are only logged. */
    method HandleCompleteSession()
      modifies this
      ensures phase == Completion
      ensures sessionData == old(sessionData) && exercises == old(exercises)
    {
      phase := Completion;
    }

    /** The not-found view without a session or with no exercises;
        otherwise exactly the component of the current phase. */
    function Render(): (r: View)
      reads this
      ensures r.NotFound? <==> sessionData.None? || exercises == []
      ensures !r.NotFound? ==> r.session == sessionData.value && r.exercises == exercises
      ensures r.PreparationView? <==> !r.NotFound? && phase == Preparation
      ensures r.PlayerView? <==> !r.NotFound? && phase == Active
      ensures r.CompletionView? <==> !r.NotFound? && phase == Completion
    {
      if sessionData.None? || exercises == [] then NotFound
      else match phase
        case Preparation => PreparationView(sessionData.value, exercises)
        case Active => PlayerView(sessionData.value, exercises)
        case Completion => CompletionView(sessionData.value, exercises)
    }
  }

  /** A loaded session that is started and completed renders the
      completion view. */
  method StartThenComplete(sessions: seq<Session>, sessionId: string, library: seq<Record>) returns (view: View)
    requires sessions != []
    requires SelectSession(sessions, sessionId).value.exercises != []
    ensures view.CompletionView? && view.session == SelectSession(sessions, sessionId).value
  {
    var page := new Page();
    page.Load(sessions, sessionId, library);
    assert page.phase == Preparation;
    page.HandleStartSession();
    page.HandleCompleteSession();
    view := page.Render();
  }
}
