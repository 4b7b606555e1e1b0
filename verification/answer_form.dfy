/** The answer form of an evaluation (src/components/evaluations/AnswerForm.jsx): its fields,
    the checks run before submitting, and the data it hands to its parent. */
module AnswerForm {
  import opened Wrappers
  import opened Strings
  import Js

  /** `formData`. The question id is whatever the select or the caller put there; the text is
      always text. */
  datatype FormData = FormData(idEvaluacionPregunta: Js.Value, textoEvaluacionRespuesta: string, analizarSentimiento: bool)

  /** The form as first rendered: the question given by the caller (if any), no text, and
      sentiment analysis on. */
  function InitialForm(questionId: Js.Value): (f: FormData)
    ensures Js.Truthy(questionId) ==> f.idEvaluacionPregunta == questionId
    ensures !Js.Truthy(questionId) ==> f.idEvaluacionPregunta == Js.Str("")
    ensures f.textoEvaluacionRespuesta == "" && f.analizarSentimiento
  {
    FormData(if Js.Truthy(questionId) then questionId else Js.Str(""), "", true)
  }

  /** What an existing answer loads: its question and its text, and sentiment analysis switched
      back on whatever the answer was saved with. */
  function LoadedForm(answer: Js.Value): (f: FormData)
    requires Js.Truthy(answer) && Js.TextOrFalsy(Js.Get(answer, "textoEvaluacionRespuesta"))
    ensures f.analizarSentimiento
    ensures Js.Truthy(Js.Get(answer, "idEvaluacionPregunta")) ==> f.idEvaluacionPregunta == Js.Get(answer, "idEvaluacionPregunta")
    ensures !Js.Truthy(Js.Get(answer, "idEvaluacionPregunta")) ==> f.idEvaluacionPregunta == Js.Str("")
    ensures Js.Str(f.textoEvaluacionRespuesta) == Js.Get(answer, "textoEvaluacionRespuesta") ||
            (f.textoEvaluacionRespuesta == "" && !Js.Truthy(Js.Get(answer, "textoEvaluacionRespuesta")))
  {
    var id := Js.Get(answer, "idEvaluacionPregunta");
    FormData(if Js.Truthy(id) then id else Js.Str(""), Js.TextOrEmpty(Js.Get(answer, "textoEvaluacionRespuesta")), true)
  }

  /** The form's inputs, by their `name`. */
  datatype Field = IdEvaluacionPregunta | TextoEvaluacionRespuesta | AnalizarSentimiento

  /** `handleChange`: a select or text area stores the input's text, the checkbox its state. */
  function WithInput(f: FormData, field: Field, value: string, checked: bool): (r: FormData)
    ensures field == IdEvaluacionPregunta ==> r == f.(idEvaluacionPregunta := Js.Str(value))
    ensures field == TextoEvaluacionRespuesta ==> r == f.(textoEvaluacionRespuesta := value)
    ensures field == AnalizarSentimiento ==> r == f.(analizarSentimiento := checked)
  {
    match field
    case IdEvaluacionPregunta => f.(idEvaluacionPregunta := Js.Str(value))
    case TextoEvaluacionRespuesta => f.(textoEvaluacionRespuesta := value)
    case AnalizarSentimiento => f.(analizarSentimiento := checked)
  }

  datatype Message = QuestionRequired | TextRequired | TextTooShort | TextTooLong

  /** The text shown for each message. */
  function Text(m: Message): string {
    match m
    case QuestionRequired => "Debe seleccionar una pregunta"
    case TextRequired => "El texto de la respuesta es obligatorio"
    case TextTooShort => "La respuesta debe tener al menos 1 carácter"
    case TextTooLong => "La respuesta no puede exceder 5000 caracteres"
  }

  /** `errors`: at most one message per field; the checkbox has none. */
  datatype Errors = Errors(idEvaluacionPregunta: Option<Message>, textoEvaluacionRespuesta: Option<Message>)

  const NoErrors := Errors(None, None)

  /** The message a field shows. */
  function ErrorOf(e: Errors, field: Field): Option<Message> {
    match field
    case IdEvaluacionPregunta => e.idEvaluacionPregunta
    case TextoEvaluacionRespuesta => e.textoEvaluacionRespuesta
    case AnalizarSentimiento => None
  }

  /** Editing a field clears its own message and no other. */
  function Cleared(e: Errors, field: Field): (r: Errors)
    ensures ErrorOf(r, field) == None
    ensures forall g :: g != field ==> ErrorOf(r, g) == ErrorOf(e, g)
  {
    match field
    case IdEvaluacionPregunta => e.(idEvaluacionPregunta := None)
    case TextoEvaluacionRespuesta => e.(textoEvaluacionRespuesta := None)
    case AnalizarSentimiento => e
  }

  /** The rule on the answer's text: required once trimmed, at most 5000 characters. The check
      for fewer than one character comes after the blank check and can never fire. */
  function TextError(text: string): (r: Option<Message>)
    ensures r == None <==> !Blank(text) && |text| <= 5000
    ensures Blank(text) <==> r == Some(TextRequired)
    ensures r == Some(TextTooLong) <==> !Blank(text) && |text| > 5000
    ensures r != Some(TextTooShort)
  {
    if Blank(text) then Some(TextRequired)
    else if |text| < 1 then Some(TextTooShort)
    else if |text| > 5000 then Some(TextTooLong)
    else None
  }

  /** The messages `validate` sets for `f`. */
  function FormErrors(f: FormData): (e: Errors)
    ensures e.idEvaluacionPregunta == None <==> Js.Truthy(f.idEvaluacionPregunta)
    ensures e.idEvaluacionPregunta != None ==> e.idEvaluacionPregunta == Some(QuestionRequired)
    ensures e.textoEvaluacionRespuesta == TextError(f.textoEvaluacionRespuesta)
  {
    Errors(if Js.Truthy(f.idEvaluacionPregunta) then None else Some(QuestionRequired), TextError(f.textoEvaluacionRespuesta))
  }

  /** A form is accepted exactly when a question is chosen and the text, once trimmed, is not
      empty and is at most 5000 characters long. */
  lemma AcceptedIff(f: FormData)
    ensures FormErrors(f) == NoErrors <==>
              Js.Truthy(f.idEvaluacionPregunta) && Trim(f.textoEvaluacionRespuesta) != [] &&
              |f.textoEvaluacionRespuesta| <= 5000
  {
    BlankIffTrimEmpty(f.textoEvaluacionRespuesta);
  }

  /** `validate()`: collects the messages field by field, and reports whether none was set. */
  method Validate(f: FormData) returns (errors: Errors, valid: bool)
    ensures errors == FormErrors(f)
    ensures valid <==> errors == NoErrors
  {
    errors := NoErrors;
    if !Js.Truthy(f.idEvaluacionPregunta) {
      errors := errors.(idEvaluacionPregunta := Some(QuestionRequired));
    }
    if Blank(f.textoEvaluacionRespuesta) {
      errors := errors.(textoEvaluacionRespuesta := Some(TextRequired));
    } else if |f.textoEvaluacionRespuesta| < 1 {
      errors := errors.(textoEvaluacionRespuesta := Some(TextTooShort));
    } else if |f.textoEvaluacionRespuesta| > 5000 {
      errors := errors.(textoEvaluacionRespuesta := Some(TextTooLong));
    }
    valid := errors == NoErrors;
  }

  /** `submitData`: the question id through `parseInt`, the trimmed text, and the checkbox. */
  datatype SubmitData = SubmitData(idEvaluacionPregunta: Js.IntParse, textoEvaluacionRespuesta: string, analizarSentimiento: bool)

  function SubmitDataOf(f: FormData): SubmitData {
    SubmitData(Js.ParseInt(f.idEvaluacionPregunta), Trim(f.textoEvaluacionRespuesta), f.analizarSentimiento)
  }

  /** What an accepted form sends: text with no white space at either end, never empty and at
      most 5000 characters, and the checkbox as it stands. */
  lemma SubmittedAnswer(f: FormData)
    requires FormErrors(f) == NoErrors
    ensures var d := SubmitDataOf(f);
            d.textoEvaluacionRespuesta != [] && Trim(d.textoEvaluacionRespuesta) == d.textoEvaluacionRespuesta &&
            |d.textoEvaluacionRespuesta| <= 5000 && d.analizarSentimiento == f.analizarSentimiento
  {
    AcceptedIff(f);
    TrimIdempotent(f.textoEvaluacionRespuesta);
    TrimShorter(f.textoEvaluacionRespuesta);
  }

  /** A question picked from the select holds the id's decimal text, and the id sent is that
      id; a question id given by the caller as a number is sent unchanged. */
  lemma SubmittedQuestion(f: FormData, id: int)
    requires f.idEvaluacionPregunta == Js.Str(Js.Decimal(id)) || f.idEvaluacionPregunta == Js.Num(id)
    ensures SubmitDataOf(f).idEvaluacionPregunta == Js.Parsed(id)
  {
    Js.ParseIntDecimal(id);
  }

  /** The form's state. */
  class AnswerFormState {
    var formData: FormData
    var errors: Errors

    constructor(questionId: Js.Value)
      ensures formData == InitialForm(questionId) && errors == NoErrors
    {
      formData := InitialForm(questionId);
      errors := NoErrors;
    }

    /** The effect run when a truthy `answer` is passed: the messages stay as they were. */
    method LoadAnswer(answer: Js.Value)
      requires Js.Truthy(answer) && Js.TextOrFalsy(Js.Get(answer, "textoEvaluacionRespuesta"))
      modifies this
      ensures formData == LoadedForm(answer) && errors == old(errors)
    {
      formData := LoadedForm(answer);
    }

    /** `handleChange`: stores the input and clears that field's message if it shows one. */
    method HandleChange(field: Field, value: string, checked: bool)
      modifies this
      ensures formData == WithInput(old(formData), field, value, checked)
      ensures errors == Cleared(old(errors), field)
    {
      formData := WithInput(formData, field, value, checked);
      if ErrorOf(errors, field).Some? {
        errors := Cleared(errors, field);
      }
    }

    /** `handleSubmit`: validates, and when nothing is wrong returns what is handed to
        `onSubmit`; the form itself is left as it is. */
    method HandleSubmit() returns (submitted: Option<SubmitData>)
      modifies this
      ensures formData == old(formData) && errors == FormErrors(formData)
      ensures submitted.Some? <==> errors == NoErrors
      ensures submitted.Some? ==> submitted.value == SubmitDataOf(formData)
    {
      var valid;
      errors, valid := Validate(formData);
      if !valid {
        return None;
      }
      submitted := Some(SubmitDataOf(formData));
    }
  }
}
