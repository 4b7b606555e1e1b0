/** The sentiment analysis screen (src/pages/SentimentAnalysisPage.jsx): a read gate, single and
    batch prediction requests guarded against blank input, and the page's own label tables. */
module SentimentAnalysisPage {
  import opened Wrappers
  import opened Strings
  import opened Session
  import Js
  import Seqs
  import RoleUtils
  import SentimentUtils

  const ReadPermission := "analisis_sentimiento:read"
  const DeniedMessage := "No tiene permisos para acceder a esta página"

  datatype View = Denied(message: string) | Shown

  /** Without the read permission only the denial renders. */
  function Render(user: Option<User>): (v: View)
    ensures v.Denied? <==> !RoleUtils.HoldsPermission(user, ReadPermission)
    ensures v.Denied? ==> v.message == DeniedMessage
  {
    if RoleUtils.HasPermission(user, ReadPermission) then Shown else Denied(DeniedMessage)
  }

  /** The effect loads labels, statistics and alerts only with the read permission, which is
      also what shows the page. */
  function LoadsInitialData(user: Option<User>): (r: bool)
    ensures r <==> Render(user).Shown?
  {
    RoleUtils.HasPermission(user, ReadPermission)
  }

  predicate NonBlank(line: string) {
    !Blank(line)
  }

  /** `batchTexts.split('\n').filter(t => t.trim())`: the lines that are not blank, as typed
      (not trimmed) and in order. */
  function BatchLines(s: string): (r: seq<string>)
    ensures |r| <= |Split(s, '\n')|
    ensures forall i :: 0 <= i < |r| ==> r[i] in Split(s, '\n') && !Blank(r[i]) && '\n' !in r[i]
  {
    Seqs.Filter(Split(s, '\n'), NonBlank)
  }

  /** Each line sent is a line of the input, exactly as typed, with something besides white
      space; and every such line is sent. */
  lemma BatchLinesAreLines(s: string)
    ensures forall line :: line in BatchLines(s) <==> line in Split(s, '\n') && !Blank(line)
    ensures forall line :: line in BatchLines(s) ==> '\n' !in line
  {
  }

  /** Blank input is exactly the input with no lines to send, so the guard on `trim()` is what
      keeps a batch request from being empty. */
  lemma BatchLinesEmptyIffBlank(s: string)
    ensures BatchLines(s) == [] <==> Blank(s)
  {
    var parts := Split(s, '\n');
    SplitJoin(s, '\n');
    BlankJoin(parts, '\n');
    if Blank(s) {
      Seqs.FilterNone(parts, NonBlank);
    } else {
      var p :| p in parts && !Blank(p);
      assert p in BatchLines(s);
    }
  }

  /** Lines are taken in order: the first line, if not blank, comes before those of the rest. */
  lemma BatchLinesStep(s: string)
    requires '\n' in s
    ensures var i := IndexOf(s, '\n');
            BatchLines(s) == (if Blank(s[..i]) then [] else [s[..i]]) + BatchLines(s[i + 1..])
  {
    var i := IndexOf(s, '\n');
    SplitStep(s, '\n');
    Seqs.FilterCons(s[..i], Split(s[i + 1..], '\n'), NonBlank);
  }

  /** When no line is blank, every line is sent, and joining them gives back the input. */
  lemma BatchLinesKeepAll(s: string)
    requires forall line :: line in Split(s, '\n') ==> !Blank(line)
    ensures BatchLines(s) == Split(s, '\n')
    ensures Join(BatchLines(s), '\n') == s
  {
    Seqs.FilterKeepsAll(Split(s, '\n'), NonBlank);
    SplitJoin(s, '\n');
  }

  /** What a batch submit sends: nothing for blank input, otherwise its lines that are not
      blank, which are then never an empty list. */
  function BatchRequest(texts: string): (r: Option<seq<string>>)
    ensures r.None? <==> Blank(texts)
    ensures r.Some? ==> r.value == BatchLines(texts) && r.value != []
  {
    BatchLinesEmptyIffBlank(texts);
    if Blank(texts) then None else Some(BatchLines(texts))
  }

  const EmptySingleMessage := "Por favor ingrese un texto para analizar"
  const EmptyBatchMessage := "Por favor ingrese textos para analizar"
  const SingleSuccessMessage := "Análisis completado exitosamente"
  const SingleFailurePrefix := "Error al analizar el texto: "
  const BatchFailurePrefix := "Error al analizar los textos: "

  /** The batch success message, starting with the number of lines sent: read back with
      `parseInt`, it gives the count. */
  function CountMessage(count: nat): (r: string)
    ensures Js.ParseIntText(r) == Js.Parsed(count)
  {
    Js.ParseIntDecimalThen(count, " textos analizados exitosamente");
    Js.Decimal(count) + " textos analizados exitosamente"
  }

  /** The page's `getSentimentColor` entries. */
  function Color(s: SentimentUtils.Sentiment): string {
    match s
    case Anxiety => "yellow"
    case Suicidal => "red"
    case Anger => "orange"
    case Sadness => "blue"
    case Frustration => "purple"
  }

  /** `getSentimentColor(label)`: 'gray' for anything but the five labels. */
  function SentimentColor(value: Js.Value): (r: string)
    ensures SentimentUtils.SentimentOf(Js.ToStr(value)).Some? ==> r == Color(SentimentUtils.SentimentOf(Js.ToStr(value)).value)
    ensures SentimentUtils.SentimentOf(Js.ToStr(value)).None? ==> r == "gray"
  {
    match SentimentUtils.SentimentOf(Js.ToStr(value))
    case Some(s) => Color(s)
    case None => "gray"
  }

  /** Every label has its own color, and none is the fallback gray. */
  lemma ColorsDistinct(s: SentimentUtils.Sentiment, t: SentimentUtils.Sentiment)
    ensures Color(s) == Color(t) ==> s == t
    ensures Color(s) != "gray"
  {
  }

  /** The page's own `getSentimentLabel` entries. */
  function Name(s: SentimentUtils.Sentiment): string {
    match s
    case Anxiety => "Ansiedad"
    case Suicidal => "Riesgo Suicida"
    case Anger => "Enojo"
    case Sadness => "Tristeza"
    case Frustration => "Frustración"
  }

  /** `getSentimentLabel(label)`: a label's Spanish name; anything else unchanged. */
  function SentimentLabel(value: Js.Value): (r: Js.Value)
    ensures SentimentUtils.SentimentOf(Js.ToStr(value)).Some? ==> r == Js.Str(Name(SentimentUtils.SentimentOf(Js.ToStr(value)).value))
    ensures SentimentUtils.SentimentOf(Js.ToStr(value)).None? ==> r == value
  {
    match SentimentUtils.SentimentOf(Js.ToStr(value))
    case Some(s) => Js.Str(Name(s))
    case None => value
  }

  /** The page's names agree with the shared helper's for every label but SUICIDAL, which the
      page calls "Riesgo Suicida" and the helper "Pensamientos Suicidas". */
  lemma NamesAgreeButSuicidal(s: SentimentUtils.Sentiment)
    ensures Name(s) == SentimentUtils.SentimentName(s) <==> s != SentimentUtils.Suicidal
  {
  }

  /** The same value gets a different label on this page than from the shared helper exactly
      when it is SUICIDAL. */
  lemma LabelsDisagreeOnlyOnSuicidal(value: Js.Value)
    ensures SentimentLabel(value) != SentimentUtils.SentimentLabel(value) <==> Js.ToStr(value) == "SUICIDAL"
  {
    match SentimentUtils.SentimentOf(Js.ToStr(value))
    case Some(s) => NamesAgreeButSuicidal(s);
    case None =>
  }

  datatype Tab = Single | Batch | Stats

  /** The page's state as a value. `error` and `success` are `None` when null; results start as
      `Null`. */
  datatype PageState = PageState(
    loading: bool, error: Option<string>, success: Option<string>,
    singleText: string, singleResult: Js.Value,
    batchTexts: string, batchResults: Js.Value,
    labels: Js.Value, modelStats: Js.Value, highRiskAlerts: Js.Value,
    activeTab: Tab)

  const InitialState := PageState(false, None, None, "", Js.Null, "", Js.Null, Js.Arr([]), Js.Null, Js.Arr([]), Single)

  /** `x || fallback` on what a call that swallows its own failure returned (`None` when it
      failed). */
  function OrElse(outcome: Option<Js.Value>, fallback: Js.Value): (r: Js.Value)
    ensures outcome.Some? && Js.Truthy(outcome.value) ==> r == outcome.value
    ensures !(outcome.Some? && Js.Truthy(outcome.value)) ==> r == fallback
  {
    if outcome.Some? && Js.Truthy(outcome.value) then outcome.value else fallback
  }

  class SentimentAnalysisPageState {
    var loading: bool
    var error: Option<string>
    var success: Option<string>
    var singleText: string
    var singleResult: Js.Value
    var batchTexts: string
    var batchResults: Js.Value
    var labels: Js.Value
    var modelStats: Js.Value
    var highRiskAlerts: Js.Value
    var activeTab: Tab

    function State(): PageState
      reads this
    {
      PageState(loading, error, success, singleText, singleResult, batchTexts, batchResults,
        labels, modelStats, highRiskAlerts, activeTab)
    }

    constructor()
      ensures State() == InitialState
    {
      loading := false;
      error := None;
      success := None;
      singleText := "";
      singleResult := Js.Null;
      batchTexts := "";
      batchResults := Js.Null;
      labels := Js.Arr([]);
      modelStats := Js.Null;
      highRiskAlerts := Js.Arr([]);
      activeTab := Single;
    }

    /** `loadInitialData`: each of the three calls falls back on its own when it fails, and a
        falsy answer is replaced the same way. */
    method LoadInitialData(labelsData: Option<Js.Value>, statsData: Option<Js.Value>, alertsData: Option<Js.Value>)
      modifies this
      ensures State() == old(State()).(labels := OrElse(labelsData, Js.Arr([])),
                                       modelStats := OrElse(statsData, Js.Null),
                                       highRiskAlerts := OrElse(alertsData, Js.Arr([])))
    {
      labels := OrElse(labelsData, Js.Arr([]));
      modelStats := OrElse(statsData, Js.Null);
      highRiskAlerts := OrElse(alertsData, Js.Arr([]));
    }

    /** A tab button. */
    method SetActiveTab(tab: Tab)
      modifies this
      ensures State() == old(State()).(activeTab := tab)
    {
      activeTab := tab;
    }

    /** The single text area's `onChange`. */
    method SetSingleText(text: string)
      modifies this
      ensures State() == old(State()).(singleText := text)
    {
      singleText := text;
    }

    /** The batch text area's `onChange`. */
    method SetBatchTexts(text: string)
      modifies this
      ensures State() == old(State()).(batchTexts := text)
    {
      batchTexts := text;
    }

    /** Closing the error alert. */
    method DismissError()
      modifies this
      ensures State() == old(State()).(error := None)
    {
      error := None;
    }

    /** Closing the success alert. */
    method DismissSuccess()
      modifies this
      ensures State() == old(State()).(success := None)
    {
      success := None;
    }

    /** `handleSinglePredict`: blank text only sets the error; otherwise the text, untrimmed, is
        sent, and `outcome` (decided by the service) is the prediction or the failure's
        message. A failure leaves an earlier success message in place. */
    method HandleSinglePredict(outcome: Result<Js.Value>) returns (request: Option<string>)
      modifies this
      ensures request.None? <==> Blank(old(singleText))
      ensures request.None? ==> State() == old(State()).(error := Some(EmptySingleMessage))
      ensures request.Some? ==> request.value == old(singleText)
      ensures request.Some? && outcome.Ok? ==>
                State() == old(State()).(loading := false, error := None, singleResult := outcome.value,
                                         success := Some(SingleSuccessMessage))
      ensures request.Some? && outcome.Err? ==>
                State() == old(State()).(loading := false, error := Some(SingleFailurePrefix + outcome.error),
                                         singleResult := Js.Null)
    {
      if Blank(singleText) {
        error := Some(EmptySingleMessage);
        return None;
      }
      loading := true;
      error := None;
      singleResult := Js.Null;
      request := Some(singleText);
      match outcome {
        case Ok(result) =>
          singleResult := result;
          success := Some(SingleSuccessMessage);
        case Err(message) =>
          error := Some(SingleFailurePrefix + message);
      }
      loading := false;
    }

    /** `handleBatchPredict`: blank input only sets the error; otherwise the lines that are not
        blank are sent, and on success the message counts them. */
    method HandleBatchPredict(outcome: Result<Js.Value>) returns (request: Option<seq<string>>)
      modifies this
      ensures request == BatchRequest(old(batchTexts))
      ensures request.None? ==> State() == old(State()).(error := Some(EmptyBatchMessage))
      ensures request.Some? && outcome.Ok? ==>
                State() == old(State()).(loading := false, error := None, batchResults := outcome.value,
                                         success := Some(CountMessage(|request.value|)))
      ensures request.Some? && outcome.Err? ==>
                State() == old(State()).(loading := false, error := Some(BatchFailurePrefix + outcome.error),
                                         batchResults := Js.Null)
    {
      request := BatchRequest(batchTexts);
      if request.None? {
        error := Some(EmptyBatchMessage);
        return;
      }
      loading := true;
      error := None;
      batchResults := Js.Null;
      match outcome {
        case Ok(result) =>
          batchResults := result;
          success := Some(CountMessage(|request.value|));
        case Err(message) =>
          error := Some(BatchFailurePrefix + message);
      }
      loading := false;
    }
  }
}
