/** The agent edit form: it loads one of the user's agents into a two-field
    form, validates the fields with the creation form's rules, and saves the
    trimmed values. */
module EditAgent {
  import opened Js
  import opened Text
  import CreateAgent

  datatype Field = Nombre | Descripcion

  datatype Form = Form(nombre: string, descripcion: string)

  /** A row of `agentes` as the form reads it. */
  datatype Agente = Agente(id: string, nombre: Option<string>, descripcion: Option<string>, estado: string)

  /** The update `handleSubmit` sends. */
  datatype AgentUpdate = AgentUpdate(nombre: string, descripcion: string)

  function Get(form: Form, f: Field): string
  {
    match f
    case Nombre => form.nombre
    case Descripcion => form.descripcion
  }

  /** `validateField(name, value)`: the creation form's name and description rules. */
  function ValidateField(f: Field, v: string): (r: Option<string>)
    ensures f == Nombre ==> (r.None? <==> !AllWhitespace(v) && 3 <= |v| <= 50)
    ensures f == Descripcion ==> (r.None? <==> |v| <= 200)
  {
    match f
    case Nombre => CreateAgent.NameError(v)
    case Descripcion => CreateAgent.DescriptionError(v)
  }

  predicate Valid(form: Form)
  {
    !AllWhitespace(form.nombre) && 3 <= |form.nombre| <= 50 && |form.descripcion| <= 200
  }

  /** `validateForm` without its state update: the failing fields with their
      messages, and whether there are none. */
  method CollectErrors(form: Form) returns (errs: map<Field, string>, ok: bool)
    ensures forall f :: f in errs <==> ValidateField(f, Get(form, f)).Some?
    ensures forall f :: f in errs ==> errs[f] == ValidateField(f, Get(form, f)).value
    ensures ok <==> Valid(form)
  {
    errs := map[];
    var fields := [Nombre, Descripcion];
    var i := 0;
    while i < |fields|
      invariant 0 <= i <= |fields|
      invariant forall f :: f in errs <==> f in fields[..i] && ValidateField(f, Get(form, f)).Some?
      invariant forall f :: f in errs ==> errs[f] == ValidateField(f, Get(form, f)).value
    {
      var f := fields[i];
      var e := ValidateField(f, Get(form, f));
      if e.Some? {
        errs := errs[f := e.value];
      }
      assert fields[..i + 1] == fields[..i] + [f];
      i := i + 1;
    }
    assert fields[..i] == fields;
    forall f: Field
      ensures f in fields
    {
      match f
      case Nombre => assert fields[0] == f;
      case Descripcion => assert fields[1] == f;
    }
    ok := |errs| == 0;
    if !ok {
      var f :| f in errs;
    } else {
      assert Nombre !in errs && Descripcion !in errs;
    }
  }

  /** The form a loaded agent fills: a missing or empty value becomes `''`. */
  function FormOf(a: Agente): (r: Form)
    ensures a.nombre.Some? ==> r.nombre == a.nombre.value
    ensures a.nombre.None? ==> r.nombre == ""
    ensures a.descripcion.Some? ==> r.descripcion == a.descripcion.value
    ensures a.descripcion.None? ==> r.descripcion == ""
  {
    Form(if a.nombre.Some? then a.nombre.value else "",
         if a.descripcion.Some? then a.descripcion.value else "")
  }

  /** `descripcion.trim() || 'Agente de IA personalizado'`. */
  function UpdateDescription(descripcion: string): (r: string)
    ensures !AllWhitespace(descripcion) ==> r == Trim(descripcion)
    ensures AllWhitespace(descripcion) ==> r == "Agente de IA personalizado"
    ensures r != "" && |r| <= if |descripcion| < 26 then 26 else |descripcion|
  {
    TrimEmptyIff(descripcion);
    if Trim(descripcion) != "" then Trim(descripcion) else "Agente de IA personalizado"
  }

  /** How the agent query ends. */
  datatype Lookup = Row(agente: Agente) | NotFound | QueryError(message: string)

  /** The state of the edit page: one field per `useState` variable, plus the
      route's id. */
  class Editor {
    var user: Option<User>
    var id: Option<string>
    var agente: Option<Agente>
    var form: Form
    var errors: map<Field, string>
    var isLoading: bool
    var loadingAgent: bool
    var error: Option<string>

    constructor (user: Option<User>, id: Option<string>)
      ensures this.user == user && this.id == id && agente == None && form == Form("", "")
      ensures errors == map[] && !isLoading && loadingAgent && error == None
    {
      this.user := user;
      this.id := id;
      agente := None;
      form := Form("", "");
      errors := map[];
      isLoading := false;
      loadingAgent := true;
      error := None;
    }

    /** `loadAgent`: a missing row (`PGRST116`) and any other error are told apart. */
    method LoadAgent(lookup: Lookup)
      modifies this
      ensures old(id).None? || old(id) == Some("") || old(user).None? ==>
                agente == old(agente) && form == old(form) && error == old(error) && loadingAgent == old(loadingAgent)
      ensures !(old(id).None? || old(id) == Some("") || old(user).None?) ==>
                && !loadingAgent
                && (lookup.Row? ==> agente == Some(lookup.agente) && form == FormOf(lookup.agente) && error == old(error))
                && (lookup.NotFound? ==>
                      agente == old(agente) && form == old(form)
                      && error == Some("Agente no encontrado o no tienes permisos para editarlo"))
                && (lookup.QueryError? ==>
                      agente == old(agente) && form == old(form) && error == Some("Error al cargar el agente"))
      ensures user == old(user) && id == old(id) && errors == old(errors) && isLoading == old(isLoading)
    {
      if id.None? || id == Some("") || user.None? {
        return;
      }
      loadingAgent := true;
      match lookup {
        case Row(a) =>
          agente := Some(a);
          form := FormOf(a);
        case NotFound =>
          error := Some("Agente no encontrado o no tienes permisos para editarlo");
        case QueryError(_) =>
          error := Some("Error al cargar el agente");
      }
      loadingAgent := false;
    }

    /** `handleInputChange(name, value)`: the field takes the value and its
        error is re-checked. */
    method HandleInputChange(f: Field, v: string)
      modifies this
      ensures Get(form, f) == v
      ensures f == Nombre ==> form.descripcion == old(form).descripcion
      ensures f == Descripcion ==> form.nombre == old(form).nombre
      ensures f in errors <==> ValidateField(f, v).Some?
      ensures f in errors ==> errors[f] == ValidateField(f, v).value
      ensures forall g :: g != f ==> (g in errors <==> g in old(errors))
      ensures forall g :: g != f && g in errors ==> errors[g] == old(errors)[g]
      ensures user == old(user) && id == old(id) && agente == old(agente)
      ensures isLoading == old(isLoading) && loadingAgent == old(loadingAgent) && error == old(error)
    {
      form := if f == Nombre then form.(nombre := v) else form.(descripcion := v);
      var e := ValidateField(f, v);
      errors := if e.Some? then errors[f := e.value] else errors - {f};
    }

    /** `validateForm`: the failing fields replace the error map, and the form
        passes when there are none. */
    method ValidateForm() returns (ok: bool)
      modifies this
      ensures forall f :: f in errors <==> ValidateField(f, Get(form, f)).Some?
      ensures forall f :: f in errors ==> errors[f] == ValidateField(f, Get(form, f)).value
      ensures ok <==> Valid(form)
      ensures form == old(form) && user == old(user) && id == old(id) && agente == old(agente)
      ensures isLoading == old(isLoading) && loadingAgent == old(loadingAgent) && error == old(error)
    {
      var errs;
      errs, ok := CollectErrors(form);
      errors := errs;
    }

    /** `handleSubmit`: `update` is the store's answer to the update. On
        success the page moves to the agent's detail (`redirect`). */
    method HandleSubmit(update: Result<()>) returns (sent: Option<AgentUpdate>, redirect: Option<string>, outcome: Outcome)
      modifies this
      ensures old(user).None? || old(id).None? || old(id) == Some("") ==>
                && sent == None && redirect == None
                && outcome == Refused("Debes estar autenticado para editar un agente") && errors == old(errors)
                && isLoading == old(isLoading)
      ensures old(user).Some? && old(id).Some? && old(id) != Some("") && !Valid(old(form)) ==>
                && sent == None && redirect == None
                && outcome == Refused("Por favor corrige los errores en el formulario")
                && isLoading == old(isLoading)
      ensures old(user).Some? && old(id).Some? && old(id) != Some("") ==>
                && (forall f :: f in errors <==> ValidateField(f, Get(old(form), f)).Some?)
                && (forall f :: f in errors ==> errors[f] == ValidateField(f, Get(old(form), f)).value)
      ensures old(user).Some? && old(id).Some? && old(id) != Some("") && Valid(old(form)) ==>
                && sent == Some(AgentUpdate(Trim(old(form).nombre), UpdateDescription(old(form).descripcion)))
                && !isLoading
                && (update.Ok? ==> redirect == Some("/agentes/" + old(id).value) && outcome == Succeeded)
                && (update.Err? ==>
                      redirect == None && outcome == Failed("No se pudo actualizar el agente. Inténtalo de nuevo."))
      ensures form == old(form) && user == old(user) && id == old(id) && agente == old(agente)
      ensures loadingAgent == old(loadingAgent) && error == old(error)
    {
      if user.None? || id.None? || id == Some("") {
        return None, None, Refused("Debes estar autenticado para editar un agente");
      }
      var ok := ValidateForm();
      if !ok {
        return None, None, Refused("Por favor corrige los errores en el formulario");
      }
      sent, redirect, outcome := Update(update);
    }

    /** The submit past its guards: the trimmed update is sent, and its
        success leads to the agent's page. */
    method Update(update: Result<()>) returns (sent: Option<AgentUpdate>, redirect: Option<string>, outcome: Outcome)
      requires id.Some?
      modifies this
      ensures sent == Some(AgentUpdate(Trim(old(form).nombre), UpdateDescription(old(form).descripcion)))
      ensures update.Ok? ==> redirect == Some("/agentes/" + old(id).value) && outcome == Succeeded
      ensures update.Err? ==>
                redirect == None && outcome == Failed("No se pudo actualizar el agente. Inténtalo de nuevo.")
      ensures !isLoading && form == old(form) && user == old(user) && id == old(id) && agente == old(agente)
      ensures errors == old(errors) && loadingAgent == old(loadingAgent) && error == old(error)
    {
      var row := AgentUpdate(Trim(form.nombre), UpdateDescription(form.descripcion));
      isLoading := true;
      sent := Some(row);
      if update.Err? {
        redirect, outcome := None, Failed("No se pudo actualizar el agente. Inténtalo de nuevo.");
      } else {
        redirect, outcome := Some("/agentes/" + id.value), Succeeded;
      }
      isLoading := false;
    }
  }
}
