/** The question form of an evaluation (src/components/evaluations/QuestionForm.jsx): one text
    field, its checks, and the data handed to the parent. */
module QuestionForm {
  import opened Wrappers
  import opened Strings
  import Js

  /** `formData.textoEvaluacionPregunta` is the whole form. */
  datatype FormData = FormData(textoEvaluacionPregunta: string)

  const InitialForm := FormData("")

  /** What an existing question loads: its text, or nothing when that is falsy. */
  function LoadedForm(question: Js.Value): (f: FormData)
    requires Js.Truthy(question) && Js.TextOrFalsy(Js.Get(question, "textoEvaluacionPregunta"))
    ensures Js.Truthy(Js.Get(question, "textoEvaluacionPregunta")) ==>
              Js.Str(f.textoEvaluacionPregunta) == Js.Get(question, "textoEvaluacionPregunta")
    ensures !Js.Truthy(Js.Get(question, "textoEvaluacionPregunta")) ==> f == InitialForm
  {
    FormData(Js.TextOrEmpty(Js.Get(question, "textoEvaluacionPregunta")))
  }

  datatype Message = TextRequired | TextTooShort | TextTooLong

  /** The text shown for each message. */
  function Text(m: Message): string {
    match m
    case TextRequired => "El texto de la pregunta es obligatorio"
    case TextTooShort => "La pregunta debe tener al menos 5 caracteres"
    case TextTooLong => "La pregunta no puede exceder 1000 caracteres"
  }

  /** `errors.textoEvaluacionPregunta`: the one field shows at most one message. */
  datatype Errors = Errors(textoEvaluacionPregunta: Option<Message>)

  const NoErrors := Errors(None)

  /** The messages `validate` sets: required once trimmed, then between 5 and 1000 characters,
      both lengths counted on the text as typed, padding included. */
  function FormErrors(f: FormData): (e: Errors)
    ensures e == NoErrors <==> !Blank(f.textoEvaluacionPregunta) && 5 <= |f.textoEvaluacionPregunta| <= 1000
    ensures e.textoEvaluacionPregunta == Some(TextRequired) <==> Blank(f.textoEvaluacionPregunta)
    ensures e.textoEvaluacionPregunta == Some(TextTooShort) <==>
              !Blank(f.textoEvaluacionPregunta) && |f.textoEvaluacionPregunta| < 5
    ensures e.textoEvaluacionPregunta == Some(TextTooLong) <==>
              !Blank(f.textoEvaluacionPregunta) && |f.textoEvaluacionPregunta| > 1000
  {
    var text := f.textoEvaluacionPregunta;
    Errors(
      if Blank(text) then Some(TextRequired)
      else if |text| < 5 then Some(TextTooShort)
      else if |text| > 1000 then Some(TextTooLong)
      else None)
  }

  /** `validate()`: sets the message, and reports whether there is none. */
  method Validate(f: FormData) returns (errors: Errors, valid: bool)
    ensures errors == FormErrors(f)
    ensures valid <==> errors == NoErrors
  {
    errors := NoErrors;
    if Blank(f.textoEvaluacionPregunta) {
      errors := errors.(textoEvaluacionPregunta := Some(TextRequired));
    } else if |f.textoEvaluacionPregunta| < 5 {
      errors := errors.(textoEvaluacionPregunta := Some(TextTooShort));
    } else if |f.textoEvaluacionPregunta| > 1000 {
      errors := errors.(textoEvaluacionPregunta := Some(TextTooLong));
    }
    valid := errors == NoErrors;
  }

  /** `submitData`: the trimmed text. */
  datatype SubmitData = SubmitData(textoEvaluacionPregunta: string)

  function SubmitDataOf(f: FormData): SubmitData {
    SubmitData(Trim(f.textoEvaluacionPregunta))
  }

  /** An accepted question is sent non-empty, with no white space at either end, and at most
      1000 characters long. */
  lemma SubmittedQuestion(f: FormData)
    requires FormErrors(f) == NoErrors
    ensures var t := SubmitDataOf(f).textoEvaluacionPregunta;
            t != [] && Trim(t) == t && |t| <= 1000
  {
    BlankIffTrimEmpty(f.textoEvaluacionPregunta);
    TrimIdempotent(f.textoEvaluacionPregunta);
    TrimShorter(f.textoEvaluacionPregunta);
  }

  /** Typed without white space at either end, an accepted question is sent as typed, so it has
      at least five characters. */
  lemma SubmittedUnpadded(f: FormData)
    requires FormErrors(f) == NoErrors
    requires Trim(f.textoEvaluacionPregunta) == f.textoEvaluacionPregunta
    ensures SubmitDataOf(f).textoEvaluacionPregunta == f.textoEvaluacionPregunta
    ensures 5 <= |SubmitDataOf(f).textoEvaluacionPregunta| <= 1000
  {
  }

  /** The minimum is checked before trimming: "  abc" passes and "abc", three characters, is
      sent. */
  lemma PaddedShortQuestionSent()
    ensures FormErrors(FormData("  abc")) == NoErrors
    ensures SubmitDataOf(FormData("  abc")).textoEvaluacionPregunta == "abc"
  {
    assert !Blank("abc");
    assert TrimStart("  abc") == "abc" by {
      assert "  abc"[1..] == " abc" && " abc"[1..] == "abc";
    }
    TrimOfTrimmed("abc");
  }

  /** The form's state. */
  class QuestionFormState {
    var formData: FormData
    var errors: Errors

    constructor()
      ensures formData == InitialForm && errors == NoErrors
    {
      formData := InitialForm;
      errors := NoErrors;
    }

    /** The effect run when a truthy `question` is passed; the message stays as it was. */
    method LoadQuestion(question: Js.Value)
      requires Js.Truthy(question) && Js.TextOrFalsy(Js.Get(question, "textoEvaluacionPregunta"))
      modifies this
      ensures formData == LoadedForm(question) && errors == old(errors)
    {
      formData := LoadedForm(question);
    }

    /** `handleChange`: stores the text and clears the message if one shows. */
    method HandleChange(value: string)
      modifies this
      ensures formData == FormData(value) && errors == NoErrors
    {
      formData := FormData(value);
      if errors.textoEvaluacionPregunta.Some? {
        errors := errors.(textoEvaluacionPregunta := None);
      }
    }

    /** `handleSubmit`: validates, and when nothing is wrong returns what is handed to
        `onSubmit`. */
    method HandleSubmit() returns (submitted: Option<SubmitData>)
      modifies this
      ensures formData == old(formData) && errors == FormErrors(formData)
      ensures submitted.Some? <==> errors == NoErrors
      ensures submitted.Some? ==> submitted.value == SubmitDataOf(formData)
    {
      var valid;
      errors, valid := Validate(formData);
      if !valid {
        return None;
      }
      submitted := Some(SubmitDataOf(formData));
    }
  }
}
