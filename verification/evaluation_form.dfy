/** The evaluation form (src/components/evaluations/EvaluationForm.jsx): a required name, an
    optional title and an optional area, their checks, and the data handed to the parent. */
module EvaluationForm {
  import opened Wrappers
  import opened Strings
  import Js

  datatype FormData = FormData(nombreEvaluacion: string, tituloEvaluacion: string, areaEvaluacion: string)

  const InitialForm := FormData("", "", "")

  /** `areaOptions`: what the area select offers besides "Seleccione un área" (the empty value). */
  const AreaOptions: seq<string> := ["SALUD_MENTAL", "PSICOLOGIA", "PSIQUIATRIA", "NEUROLOGIA", "TERAPIA", "OTRO"]

  /** Each text field of a stored evaluation is loaded as it is, or as empty text when falsy. */
  predicate Loadable(evaluation: Js.Value) {
    Js.Truthy(evaluation) &&
    Js.TextOrFalsy(Js.Get(evaluation, "nombreEvaluacion")) &&
    Js.TextOrFalsy(Js.Get(evaluation, "tituloEvaluacion")) &&
    Js.TextOrFalsy(Js.Get(evaluation, "areaEvaluacion"))
  }

  /** What an existing evaluation loads. */
  function LoadedForm(evaluation: Js.Value): (f: FormData)
    requires Loadable(evaluation)
    ensures Js.Truthy(Js.Get(evaluation, "nombreEvaluacion")) ==> Js.Str(f.nombreEvaluacion) == Js.Get(evaluation, "nombreEvaluacion")
    ensures !Js.Truthy(Js.Get(evaluation, "nombreEvaluacion")) ==> f.nombreEvaluacion == ""
    ensures Js.Truthy(Js.Get(evaluation, "tituloEvaluacion")) ==> Js.Str(f.tituloEvaluacion) == Js.Get(evaluation, "tituloEvaluacion")
    ensures !Js.Truthy(Js.Get(evaluation, "tituloEvaluacion")) ==> f.tituloEvaluacion == ""
    ensures Js.Truthy(Js.Get(evaluation, "areaEvaluacion")) ==> Js.Str(f.areaEvaluacion) == Js.Get(evaluation, "areaEvaluacion")
    ensures !Js.Truthy(Js.Get(evaluation, "areaEvaluacion")) ==> f.areaEvaluacion == ""
  {
    FormData(
      Js.TextOrEmpty(Js.Get(evaluation, "nombreEvaluacion")),
      Js.TextOrEmpty(Js.Get(evaluation, "tituloEvaluacion")),
      Js.TextOrEmpty(Js.Get(evaluation, "areaEvaluacion")))
  }

  /** The form's inputs, by their `name`. */
  datatype Field = NombreEvaluacion | TituloEvaluacion | AreaEvaluacion

  /** The text a field holds. */
  function FieldValue(f: FormData, field: Field): string {
    match field
    case NombreEvaluacion => f.nombreEvaluacion
    case TituloEvaluacion => f.tituloEvaluacion
    case AreaEvaluacion => f.areaEvaluacion
  }

  /** `handleChange`: the input's text replaces that field and no other. */
  function WithInput(f: FormData, field: Field, value: string): (r: FormData)
    ensures FieldValue(r, field) == value
    ensures forall g :: g != field ==> FieldValue(r, g) == FieldValue(f, g)
  {
    match field
    case NombreEvaluacion => f.(nombreEvaluacion := value)
    case TituloEvaluacion => f.(tituloEvaluacion := value)
    case AreaEvaluacion => f.(areaEvaluacion := value)
  }

  datatype Message = NameRequired | NameTooLong | TitleTooLong | AreaTooLong

  /** The text shown for each message. */
  function Text(m: Message): string {
    match m
    case NameRequired => "El nombre de la evaluación es obligatorio"
    case NameTooLong => "El nombre no puede exceder 100 caracteres"
    case TitleTooLong => "El título no puede exceder 100 caracteres"
    case AreaTooLong => "El área no puede exceder 100 caracteres"
  }

  /** `errors`: at most one message per field. */
  datatype Errors = Errors(nombreEvaluacion: Option<Message>, tituloEvaluacion: Option<Message>, areaEvaluacion: Option<Message>)

  const NoErrors := Errors(None, None, None)

  /** The message a field shows. */
  function ErrorOf(e: Errors, field: Field): Option<Message> {
    match field
    case NombreEvaluacion => e.nombreEvaluacion
    case TituloEvaluacion => e.tituloEvaluacion
    case AreaEvaluacion => e.areaEvaluacion
  }

  /** Editing a field clears its own message and no other. */
  function Cleared(e: Errors, field: Field): (r: Errors)
    ensures ErrorOf(r, field) == None
    ensures forall g :: g != field ==> ErrorOf(r, g) == ErrorOf(e, g)
  {
    match field
    case NombreEvaluacion => e.(nombreEvaluacion := None)
    case TituloEvaluacion => e.(tituloEvaluacion := None)
    case AreaEvaluacion => e.(areaEvaluacion := None)
  }

  /** The messages `validate` sets. The name is required once trimmed and may not exceed 100
      characters; title and area are optional and are checked for length alone, each on its own. */
  function FormErrors(f: FormData): (e: Errors)
    ensures e.nombreEvaluacion == Some(NameRequired) <==> Blank(f.nombreEvaluacion)
    ensures e.nombreEvaluacion == Some(NameTooLong) <==> !Blank(f.nombreEvaluacion) && |f.nombreEvaluacion| > 100
    ensures e.nombreEvaluacion == None <==> !Blank(f.nombreEvaluacion) && |f.nombreEvaluacion| <= 100
    ensures e.tituloEvaluacion == (if |f.tituloEvaluacion| > 100 then Some(TitleTooLong) else None)
    ensures e.areaEvaluacion == (if |f.areaEvaluacion| > 100 then Some(AreaTooLong) else None)
  {
    Errors(
      if Blank(f.nombreEvaluacion) then Some(NameRequired)
      else if |f.nombreEvaluacion| > 100 then Some(NameTooLong)
      else None,
      if f.tituloEvaluacion != "" && |f.tituloEvaluacion| > 100 then Some(TitleTooLong) else None,
      if f.areaEvaluacion != "" && |f.areaEvaluacion| > 100 then Some(AreaTooLong) else None)
  }

  /** `validate()`: collects the messages field by field, and reports whether none was set. */
  method Validate(f: FormData) returns (errors: Errors, valid: bool)
    ensures errors == FormErrors(f)
    ensures valid <==> errors == NoErrors
  {
    errors := NoErrors;
    if Blank(f.nombreEvaluacion) {
      errors := errors.(nombreEvaluacion := Some(NameRequired));
    } else if |f.nombreEvaluacion| > 100 {
      errors := errors.(nombreEvaluacion := Some(NameTooLong));
    }
    if f.tituloEvaluacion != "" && |f.tituloEvaluacion| > 100 {
      errors := errors.(tituloEvaluacion := Some(TitleTooLong));
    }
    if f.areaEvaluacion != "" && |f.areaEvaluacion| > 100 {
      errors := errors.(areaEvaluacion := Some(AreaTooLong));
    }
    valid := errors == NoErrors;
  }

  /** A form is accepted exactly when the trimmed name is not empty and no field exceeds 100
      characters. */
  lemma AcceptedIff(f: FormData)
    ensures FormErrors(f) == NoErrors <==>
              Trim(f.nombreEvaluacion) != [] && |f.nombreEvaluacion| <= 100 &&
              |f.tituloEvaluacion| <= 100 && |f.areaEvaluacion| <= 100
  {
    BlankIffTrimEmpty(f.nombreEvaluacion);
  }

  /** Whatever area the select offers, including none, never draws a message. */
  lemma SelectedAreaAccepted(f: FormData)
    requires f.areaEvaluacion == "" || f.areaEvaluacion in AreaOptions
    ensures FormErrors(f).areaEvaluacion == None
  {
  }

  /** `submitData`: the trimmed name, and each optional field trimmed or `null` (`None`) when
      nothing is left. */
  datatype SubmitData = SubmitData(nombreEvaluacion: string, tituloEvaluacion: Option<string>, areaEvaluacion: Option<string>)

  /** `s.trim() || null` */
  function TrimmedOrNull(s: string): (r: Option<string>)
    ensures r == None <==> Blank(s)
  {
    BlankIffTrimEmpty(s);
    if Trim(s) == "" then None else Some(Trim(s))
  }

  function SubmitDataOf(f: FormData): SubmitData {
    SubmitData(Trim(f.nombreEvaluacion), TrimmedOrNull(f.tituloEvaluacion), TrimmedOrNull(f.areaEvaluacion))
  }

  /** An optional field sent as text is not empty, has no white space at either end, and is
      no longer than what was typed. */
  lemma TrimmedOrNullSent(s: string)
    requires TrimmedOrNull(s).Some?
    ensures var t := TrimmedOrNull(s).value; t != [] && Trim(t) == t && |t| <= |s|
  {
    TrimIdempotent(s);
    TrimShorter(s);
  }

  /** What an accepted form sends: a non-empty trimmed name of at most 100 characters, and
      each optional field left blank sent as `null`, otherwise trimmed and at most 100 long. */
  lemma SubmittedEvaluation(f: FormData)
    requires FormErrors(f) == NoErrors
    ensures var d := SubmitDataOf(f);
            d.nombreEvaluacion != [] && Trim(d.nombreEvaluacion) == d.nombreEvaluacion && |d.nombreEvaluacion| <= 100 &&
            (d.tituloEvaluacion == None <==> Blank(f.tituloEvaluacion)) &&
            (d.tituloEvaluacion.Some? ==> |d.tituloEvaluacion.value| <= 100) &&
            (d.areaEvaluacion == None <==> Blank(f.areaEvaluacion)) &&
            (d.areaEvaluacion.Some? ==> |d.areaEvaluacion.value| <= 100)
  {
    AcceptedIff(f);
    TrimIdempotent(f.nombreEvaluacion);
    TrimShorter(f.nombreEvaluacion);
    if !Blank(f.tituloEvaluacion) {
      TrimmedOrNullSent(f.tituloEvaluacion);
    }
    if !Blank(f.areaEvaluacion) {
      TrimmedOrNullSent(f.areaEvaluacion);
    }
  }

  /** An area picked from the select is sent as it is; "Seleccione un área" sends `null`. */
  lemma SelectedAreaSent(f: FormData)
    requires f.areaEvaluacion == "" || f.areaEvaluacion in AreaOptions
    ensures f.areaEvaluacion == "" ==> SubmitDataOf(f).areaEvaluacion == None
    ensures f.areaEvaluacion in AreaOptions ==> SubmitDataOf(f).areaEvaluacion == Some(f.areaEvaluacion)
  {
    var a := f.areaEvaluacion;
    if a != "" {
      assert !IsSpace(a[0]) && !IsSpace(a[|a| - 1]);
      TrimOfTrimmed(a);
      BlankIffTrimEmpty(a);
    }
  }

  /** The form's state. */
  class EvaluationFormState {
    var formData: FormData
    var errors: Errors

    constructor()
      ensures formData == InitialForm && errors == NoErrors
    {
      formData := InitialForm;
      errors := NoErrors;
    }

    /** The effect run when a truthy `evaluation` is passed; the messages stay as they were. */
    method LoadEvaluation(evaluation: Js.Value)
      requires Loadable(evaluation)
      modifies this
      ensures formData == LoadedForm(evaluation) && errors == old(errors)
    {
      formData := LoadedForm(evaluation);
    }

    /** `handleChange`: stores the input and clears that field's message if it shows one. */
    method HandleChange(field: Field, value: string)
      modifies this
      ensures formData == WithInput(old(formData), field, value)
      ensures errors == Cleared(old(errors), field)
    {
      formData := WithInput(formData, field, value);
      if ErrorOf(errors, field).Some? {
        errors := Cleared(errors, field);
      }
    }

    /** `handleSubmit`: validates, and when nothing is wrong returns what is handed to
        `onSubmit`. */
    method HandleSubmit() returns (submitted: Option<SubmitData>)
      modifies this
      ensures formData == old(formData) && errors == FormErrors(formData)
      ensures submitted.Some? <==> errors == NoErrors
      ensures submitted.Some? ==> submitted.value == SubmitDataOf(formData)
    {
      var valid;
      errors, valid := Validate(formData);
      if !valid {
        return None;
      }
      submitted := Some(SubmitDataOf(formData));
    }
  }
}
