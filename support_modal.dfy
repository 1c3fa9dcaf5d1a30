/** The support request form of src/components/support/SupportModal.jsx:
    the context suggestions and the validated, prioritised submission. */
module SupportModal {
  import opened Js

  datatype Suggestion = Suggestion(kind: string, title: string, content: string, url: Option<string>)

  /** The suggestion table, keyed by the page the modal is opened from. */
  const CONTEXT_SUGGESTIONS: map<string, seq<Suggestion>> := map[
    "dashboard" := [
      Suggestion("faq", "How do I track my progress?",
        "Your progress is automatically tracked on the Dashboard. Look for charts showing pain levels, exercise adherence, and functional improvements.",
        None),
      Suggestion("video", "Getting Started with PhysioPath",
        "Watch this 3-minute guide to navigate your dashboard and start your recovery journey.",
        Some("/help/getting-started"))],
    "exercise_session" := [
      Suggestion("faq", "Exercise is too difficult",
        "You can modify exercises by reducing sets, reps, or range of motion. Look for the 'Make Easier' button on each exercise.",
        None),
      Suggestion("faq", "I'm experiencing pain during exercise",
        "Stop the exercise immediately if you feel sharp or increasing pain. Mild discomfort is normal, but pain is not.",
        None),
      Suggestion("exercise", "Alternative exercises",
        "Here are gentler alternatives for your current exercise program.",
        None)],
    "exercise_detail" := [
      Suggestion("video", "Proper form demonstration",
        "Watch this detailed breakdown of correct exercise technique.",
        None)],
    "screening" := [
      Suggestion("faq", "Understanding your pain map",
        "The body chart helps us understand exactly where you feel symptoms. Click on areas that hurt and describe the sensation.",
        None)]]

  /** generateSuggestions: the context's entry, or none for an unknown
      context. */
  function SuggestionsFor(context: string): (r: seq<Suggestion>)
    ensures context in CONTEXT_SUGGESTIONS ==> r == CONTEXT_SUGGESTIONS[context] && r != []
    ensures context !in CONTEXT_SUGGESTIONS ==> r == []
  {
    if context in CONTEXT_SUGGESTIONS then CONTEXT_SUGGESTIONS[context] else []
  }

  /** The priority a request is filed with. */
  function PriorityOf(requestType: string): (r: string)
    ensures r == "urgent" <==> requestType == "urgent_medical"
    ensures r == "medium" <==> requestType != "urgent_medical"
  {
    if requestType == "urgent_medical" then "urgent" else "medium"
  }

  /** The SupportRequest record that is created. */
  datatype Request = Request(
    patientId: Option<string>,
    requestType: string,
    context: string,
    contextData: Json,
    subject: string,
    message: string,
    priority: string,
    autoSuggestions: seq<Suggestion>)

  class SupportForm {
    const context: string
    const contextData: Json
    var currentUser: Option<string>
    var requestType: string
    var subject: string
    var message: string
    var isSubmitting: bool
    var suggestions: seq<Suggestion>

    /** The form after its effect has run: empty fields, the context's
        suggestions and the signed-in user's id, if it loaded. */
    constructor (context: string, contextData: Json, currentUser: Option<string>)
      ensures this.context == context && this.contextData == contextData && this.currentUser == currentUser
      ensures requestType == "" && subject == "" && message == "" && !isSubmitting
      ensures suggestions == SuggestionsFor(context)
    {
      this.context := context;
      this.contextData := contextData;
      this.currentUser := currentUser;
      requestType := "";
      subject := "";
      message := "";
      isSubmitting := false;
      suggestions := SuggestionsFor(context);
    }

    method SetRequestType(value: string)
      modifies this
      ensures requestType == value && subject == old(subject) && message == old(message)
      ensures isSubmitting == old(isSubmitting) && suggestions == old(suggestions) && currentUser == old(currentUser)
    {
      requestType := value;
    }

    method SetSubject(value: string)
      modifies this
      ensures subject == value && requestType == old(requestType) && message == old(message)
      ensures isSubmitting == old(isSubmitting) && suggestions == old(suggestions) && currentUser == old(currentUser)
    {
      subject := value;
    }

    method SetMessage(value: string)
      modifies this
      ensures message == value && requestType == old(requestType) && subject == old(subject)
      ensures isSubmitting == old(isSubmitting) && suggestions == old(suggestions) && currentUser == old(currentUser)
    {
      message := value;
    }

    /** All three required fields are filled in. */
    predicate Complete()
      reads this
    {
      requestType != "" && subject != "" && message != ""
    }

    /** The request the current fields describe. */
    function RequestOf(): (r: Request)
      reads this
      ensures r.priority == PriorityOf(requestType) && r.autoSuggestions == suggestions
      ensures r.requestType == requestType && r.subject == subject && r.message == message
    {
      Request(currentUser, requestType, context, contextData, subject, message, PriorityOf(requestType), suggestions)
    }

    /** handleSubmitRequest. An incomplete form sends nothing and changes
        nothing. Otherwise the request is sent; `createOk` is the outcome of
        the create call. On success the modal closes and the three fields
        are cleared; on failure they are kept. Either way the form is no
        longer submitting. */
    method HandleSubmitRequest(createOk: bool) returns (sent: Option<Request>, closed: bool)
      modifies this
      ensures !old(Complete()) ==> sent.None? && !closed
      ensures !old(Complete()) ==>
        requestType == old(requestType) && subject == old(subject) && message == old(message)
        && isSubmitting == old(isSubmitting)
      ensures old(Complete()) ==> sent == Some(old(RequestOf())) && !isSubmitting && closed == createOk
      ensures old(Complete()) && createOk ==> requestType == "" && subject == "" && message == ""
      ensures old(Complete()) && !createOk ==>
        requestType == old(requestType) && subject == old(subject) && message == old(message)
      ensures suggestions == old(suggestions) && currentUser == old(currentUser)
    {
      if !Complete() {
        return None, false;
      }
      isSubmitting := true;
      sent := Some(RequestOf());
      closed := false;
      if createOk {
        closed := true;
        requestType := "";
        subject := "";
        message := "";
      }
      isSubmitting := false;
    }
  }

  /** A successful submission leaves an empty form, so an immediate second
      submission sends nothing. */
  method SubmitTwice(context: string, requestType: string, subject: string, message: string)
    returns (first: Option<Request>, second: Option<Request>)
    requires requestType != "" && subject != "" && message != ""
    ensures first.Some? && first.value.priority == PriorityOf(requestType)
    ensures second.None?
  {
    var form := new SupportForm(context, Null, None);
    form.SetRequestType(requestType);
    form.SetSubject(subject);
    form.SetMessage(message);
    var closed;
    first, closed := form.HandleSubmitRequest(true);
    second, closed := form.HandleSubmitRequest(true);
  }
}
