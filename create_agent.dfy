/** The agent creation form: three fields validated as they are typed and
    again on submit, four preset system prompts, and the insert of an active
    agent. */
module CreateAgent {
  import opened Js
  import opened Text

  datatype Field = Nombre | Descripcion | SystemPrompt

  /** `Object.keys(formData)`: the form's fields in declaration order. */
  const Fields: seq<Field> := [Nombre, Descripcion, SystemPrompt]

  datatype Form = Form(nombre: string, descripcion: string, systemPrompt: string)

  const EmptyForm := Form("", "", "")

  /** `formData[field]`. */
  function Get(form: Form, f: Field): string
  {
    match f
    case Nombre => form.nombre
    case Descripcion => form.descripcion
    case SystemPrompt => form.systemPrompt
  }

  /** `{ ...form, [field]: v }`. */
  function With(form: Form, f: Field, v: string): (r: Form)
    ensures Get(r, f) == v
    ensures forall g :: g != f ==> Get(r, g) == Get(form, g)
  {
    match f
    case Nombre => form.(nombre := v)
    case Descripcion => form.(descripcion := v)
    case SystemPrompt => form.(systemPrompt := v)
  }

  /** The name rule, shared with the edit form: some text, and 3 to 50
      characters counted before trimming. */
  function NameError(v: string): (r: Option<string>)
    ensures r.None? <==> !AllWhitespace(v) && 3 <= |v| <= 50
    ensures AllWhitespace(v) ==> r == Some("El nombre es requerido")
    ensures !AllWhitespace(v) && |v| < 3 ==> r == Some("El nombre debe tener al menos 3 caracteres")
    ensures !AllWhitespace(v) && |v| > 50 ==> r == Some("El nombre no puede exceder 50 caracteres")
  {
    TrimEmptyIff(v);
    if Trim(v) == "" then Some("El nombre es requerido")
    else if |v| < 3 then Some("El nombre debe tener al menos 3 caracteres")
    else if |v| > 50 then Some("El nombre no puede exceder 50 caracteres")
    else None
  }

  /** The description rule, shared with the edit form: at most 200 characters;
      an empty description is valid. */
  function DescriptionError(v: string): (r: Option<string>)
    ensures r.None? <==> |v| <= 200
    ensures r.Some? ==> r.value == "La descripción no puede exceder 200 caracteres"
  {
    if |v| > 200 then Some("La descripción no puede exceder 200 caracteres") else None
  }

  /** The system prompt rule: some text, and 20 to 2000 characters counted
      before trimming. */
  function PromptError(v: string): (r: Option<string>)
    ensures r.None? <==> !AllWhitespace(v) && 20 <= |v| <= 2000
    ensures AllWhitespace(v) ==> r == Some("El prompt del sistema es requerido")
    ensures !AllWhitespace(v) && |v| < 20 ==> r == Some("El prompt debe tener al menos 20 caracteres")
    ensures !AllWhitespace(v) && |v| > 2000 ==> r == Some("El prompt no puede exceder 2000 caracteres")
  {
    TrimEmptyIff(v);
    if Trim(v) == "" then Some("El prompt del sistema es requerido")
    else if |v| < 20 then Some("El prompt debe tener al menos 20 caracteres")
    else if |v| > 2000 then Some("El prompt no puede exceder 2000 caracteres")
    else None
  }

  /** `validateField(name, value)`. */
  function ValidateField(f: Field, v: string): Option<string>
  {
    match f
    case Nombre => NameError(v)
    case Descripcion => DescriptionError(v)
    case SystemPrompt => PromptError(v)
  }

  /** Every field passes its rule. */
  predicate Valid(form: Form)
  {
    !AllWhitespace(form.nombre) && 3 <= |form.nombre| <= 50
    && |form.descripcion| <= 200
    && !AllWhitespace(form.systemPrompt) && 20 <= |form.systemPrompt| <= 2000
  }

  /** Lengths are counted before trimming: one letter padded with blanks is
      long enough for a name. */
  lemma PaddedNamePasses()
    ensures NameError("  a") == None
    ensures NameError("a") == Some("El nombre debe tener al menos 3 caracteres")
  {
    assert !AllWhitespace("  a") by { assert !IsWhitespace("  a"[2]); }
    assert !AllWhitespace("a") by { assert !IsWhitespace("a"[0]); }
  }

  /** The loop of `validateForm`: `errs` holds exactly the failing fields with
      their messages, and `ok` says that there are none. */
  method CollectErrors(form: Form) returns (errs: map<Field, string>, ok: bool)
    ensures forall f :: f in errs <==> ValidateField(f, Get(form, f)).Some?
    ensures forall f :: f in errs ==> errs[f] == ValidateField(f, Get(form, f)).value
    ensures ok <==> Valid(form)
  {
    errs := map[];
    var i := 0;
    while i < |Fields|
      invariant 0 <= i <= |Fields|
      invariant forall f :: f in errs <==> f in Fields[..i] && ValidateField(f, Get(form, f)).Some?
      invariant forall f :: f in errs ==> errs[f] == ValidateField(f, Get(form, f)).value
    {
      var f := Fields[i];
      var e := ValidateField(f, Get(form, f));
      if e.Some? {
        errs := errs[f := e.value];
      }
      assert Fields[..i + 1] == Fields[..i] + [f];
      i := i + 1;
    }
    assert Fields[..i] == Fields;
    forall f: Field
      ensures f in Fields
    {
      match f
      case Nombre => assert Fields[0] == f;
      case Descripcion => assert Fields[1] == f;
      case SystemPrompt => assert Fields[2] == f;
    }
    ok := |errs| == 0;
    ValidIff(form);
    if !ok {
      var f :| f in errs;
    }
  }

  /** The form is valid exactly when no field has an error. */
  lemma ValidIff(form: Form)
    ensures Valid(form) <==> forall f :: ValidateField(f, Get(form, f)).None?
  {
    if !Valid(form) {
      var f := if NameError(form.nombre).Some? then Nombre
               else if DescriptionError(form.descripcion).Some? then Descripcion
               else SystemPrompt;
      assert ValidateField(f, Get(form, f)).Some?;
    }
  }

  /** A preset of the prompt picker. */
  datatype Preset = Preset(title: string, description: string, prompt: string)

  /** `PREDEFINED_PROMPTS`. Each prompt's opening word is a literal of its own,
      so that the verifier sees the letter the prompt starts with. */
  const Presets: seq<Preset> := [
    Preset("Asistente Educativo", "Especializado en enseñanza y aprendizaje",
      "Eres " + "un asistente educativo especializado en ayudar a estudiantes y profesores. Tu objetivo es explicar conceptos de manera clara, proporcionar ejemplos prácticos y fomentar el aprendizaje activo. Siempre mantén un tono amigable y motivador."),
    Preset("Consultor de Negocios", "Experto en estrategia empresarial",
      "Eres " + "un consultor de negocios experimentado con expertise en estrategia, marketing y operaciones. Proporciona análisis detallados, recomendaciones prácticas y insights basados en mejores prácticas de la industria."),
    Preset("Asistente Técnico", "Especialista en programación y tecnología",
      "Eres " + "un asistente técnico especializado en programación, desarrollo de software y tecnología. Proporciona soluciones claras, código bien documentado y explicaciones técnicas precisas adaptadas al nivel del usuario."),
    Preset("Analista de Documentos", "Experto en análisis y síntesis de información",
      "Eres " + "un analista experto en procesar y sintetizar información de documentos. Tu función es extraer insights clave, identificar patrones importantes y proporcionar resúmenes claros y accionables.")
  ]

  /** Every preset passes the system prompt rule, so picking one never needs
      an error. */
  lemma PresetsValid(i: nat)
    requires i < |Presets|
    ensures PromptError(Presets[i].prompt) == None
  {
    var p := Presets[i].prompt;
    assert p[0] == 'E';
    assert !AllWhitespace(p) by { assert !IsWhitespace(p[0]); }
  }

  /** The row inserted into `agentes`. */
  datatype AgentInsert = AgentInsert(userId: string, nombre: string, descripcion: string, estado: string)

  /** `descripcion.trim() || systemPrompt.substring(0, 100) + '...'`. */
  function InsertDescription(descripcion: string, prompt: string): (r: string)
    ensures !AllWhitespace(descripcion) ==> r == Trim(descripcion) && Includes(descripcion, r)
    ensures AllWhitespace(descripcion) ==>
              && |r| == (if |prompt| <= 100 then |prompt| else 100) + 3
              && r[..|r| - 3] == prompt[..|r| - 3] && r[|r| - 3..] == "..."
    ensures r != ""
  {
    TrimEmptyIff(descripcion);
    TrimOccurs(descripcion);
    if Trim(descripcion) != "" then Trim(descripcion) else Take(prompt, 100) + "..."
  }

  /** A valid form stores a description of at most 200 characters, and a
      non-empty one. */
  lemma InsertDescriptionBound(form: Form)
    requires Valid(form)
    ensures 0 < |InsertDescription(form.descripcion, form.systemPrompt)| <= 200
  {
  }

  const ValidationFailed := "Por favor corrige los errores en el formulario"

  /** The state of the form: one field per `useState` variable. */
  class Creator {
    var user: Option<User>
    var form: Form
    var errors: map<Field, string>
    var isLoading: bool
    var createdAgentId: Option<string>
    var showSuccess: bool
    var selectedPromptIndex: Option<nat>

    constructor (user: Option<User>)
      ensures this.user == user && form == EmptyForm && errors == map[] && !isLoading
      ensures createdAgentId == None && !showSuccess && selectedPromptIndex == None
    {
      this.user := user;
      form := EmptyForm;
      errors := map[];
      isLoading := false;
      createdAgentId := None;
      showSuccess := false;
      selectedPromptIndex := None;
    }

    /** `handleInputChange(name, value)`: the field takes the value and its
        error is re-checked; nothing else changes. */
    method HandleInputChange(f: Field, v: string)
      modifies this
      ensures Get(form, f) == v
      ensures forall g :: g != f ==> Get(form, g) == Get(old(form), g)
      ensures f in errors <==> ValidateField(f, v).Some?
      ensures f in errors ==> errors[f] == ValidateField(f, v).value
      ensures forall g :: g != f ==> (g in errors <==> g in old(errors))
      ensures forall g :: g != f && g in errors ==> errors[g] == old(errors)[g]
      ensures user == old(user) && selectedPromptIndex == old(selectedPromptIndex)
      ensures createdAgentId == old(createdAgentId) && showSuccess == old(showSuccess)
      ensures isLoading == old(isLoading)
    {
      form := With(form, f, v);
      var e := ValidateField(f, v);
      errors := if e.Some? then errors[f := e.value] else errors - {f};
    }

    /** `selectPredefinedPrompt(index)`: the prompt becomes the preset's, and
        only the prompt's error is cleared. */
    method SelectPredefinedPrompt(index: nat)
      requires index < |Presets|
      modifies this
      ensures form == old(form).(systemPrompt := Presets[index].prompt)
      ensures selectedPromptIndex == Some(index)
      ensures errors == old(errors) - {SystemPrompt}
      ensures user == old(user) && createdAgentId == old(createdAgentId) && showSuccess == old(showSuccess)
      ensures isLoading == old(isLoading)
    {
      form := form.(systemPrompt := Presets[index].prompt);
      selectedPromptIndex := Some(index);
      errors := errors - {SystemPrompt};
    }

    /** `validateForm`: the errors become exactly the failing fields, each
        with its message. */
    method ValidateForm() returns (ok: bool)
      modifies this
      ensures ok <==> Valid(form)
      ensures forall f :: f in errors <==> ValidateField(f, Get(form, f)).Some?
      ensures forall f :: f in errors ==> errors[f] == ValidateField(f, Get(form, f)).value
      ensures form == old(form) && user == old(user) && selectedPromptIndex == old(selectedPromptIndex)
      ensures createdAgentId == old(createdAgentId) && showSuccess == old(showSuccess)
      ensures isLoading == old(isLoading)
    {
      var errs;
      errs, ok := CollectErrors(form);
      errors := errs;
    }

    /** `handleSubmit`: `insert` is the id of the agent the store creates, or
        its error. */
    method HandleSubmit(insert: Result<string>) returns (sent: Option<AgentInsert>, outcome: Outcome)
      modifies this
      ensures old(user).None? ==>
                && sent == None && outcome == Refused("Debes estar autenticado para crear un agente")
                && form == old(form) && errors == old(errors) && isLoading == old(isLoading)
                && createdAgentId == old(createdAgentId) && showSuccess == old(showSuccess)
                && selectedPromptIndex == old(selectedPromptIndex)
      ensures old(user).Some? ==>
                && (forall f :: f in errors <==> ValidateField(f, Get(old(form), f)).Some?)
                && (forall f :: f in errors ==> errors[f] == ValidateField(f, Get(old(form), f)).value)
      ensures old(user).Some? && !Valid(old(form)) ==>
                && sent == None && outcome == Refused(ValidationFailed)
                && form == old(form) && isLoading == old(isLoading)
                && createdAgentId == old(createdAgentId) && showSuccess == old(showSuccess)
                && selectedPromptIndex == old(selectedPromptIndex)
      ensures old(user).Some? && Valid(old(form)) ==>
                && sent == Some(AgentInsert(old(user).value.id, Trim(old(form).nombre),
                                            InsertDescription(old(form).descripcion, old(form).systemPrompt), "activo"))
                && !isLoading
                && (insert.Ok? ==>
                      && outcome == Succeeded && createdAgentId == Some(insert.value) && showSuccess
                      && form == EmptyForm && selectedPromptIndex == None)
                && (insert.Err? ==>
                      && outcome == Failed("No se pudo crear el agente. Inténtalo de nuevo.")
                      && form == old(form) && createdAgentId == old(createdAgentId)
                      && showSuccess == old(showSuccess) && selectedPromptIndex == old(selectedPromptIndex))
      ensures user == old(user)
    {
      if user.None? {
        return None, Refused("Debes estar autenticado para crear un agente");
      }
      var ok := ValidateForm();
      if !ok {
        return None, Refused(ValidationFailed);
      }
      sent, outcome := Insert(insert);
    }

    /** The submit past its guards: the insert is sent, and its success resets
        the form and shows the created agent. */
    method Insert(insert: Result<string>) returns (sent: Option<AgentInsert>, outcome: Outcome)
      requires user.Some? && Valid(form)
      modifies this
      ensures sent == Some(AgentInsert(old(user).value.id, Trim(old(form).nombre),
                                       InsertDescription(old(form).descripcion, old(form).systemPrompt), "activo"))
      ensures !isLoading && user == old(user) && errors == old(errors)
      ensures insert.Ok? ==>
                && outcome == Succeeded && createdAgentId == Some(insert.value) && showSuccess
                && form == EmptyForm && selectedPromptIndex == None
      ensures insert.Err? ==>
                && outcome == Failed("No se pudo crear el agente. Inténtalo de nuevo.")
                && form == old(form) && createdAgentId == old(createdAgentId)
                && showSuccess == old(showSuccess) && selectedPromptIndex == old(selectedPromptIndex)
    {
      var row := AgentInsert(user.value.id, Trim(form.nombre),
                             InsertDescription(form.descripcion, form.systemPrompt), "activo");
      isLoading := true;
      sent := Some(row);
      if insert.Err? {
        outcome := Failed("No se pudo crear el agente. Inténtalo de nuevo.");
      } else {
        createdAgentId := Some(insert.value);
        showSuccess := true;
        form := EmptyForm;
        selectedPromptIndex := None;
        outcome := Succeeded;
      }
      isLoading := false;
    }
  }
}
