/** The older WhatsApp connection form: it posts the instance to the creation
    webhook and stores it only when the reply is an array whose first element
    reports `STARTING`. It keeps its own table (`instancias_whatsapp`) and
    status field (`estado`), and starts instances as `desconectado`. */
module WhatsAppConnection {
  import opened Js

  /** The user's `profiles` row. */
  datatype Profile = Profile(nombre: Option<string>, plan: Option<string>)

  /** The body posted to the creation webhook. The instance fields are sent as typed. */
  datatype Payload = Payload(
    userId: string, email: Option<string>, nombre: string, plan: string,
    nombreInstancia: string, numeroWhatsapp: string)

  /** The row inserted into `instancias_whatsapp`. */
  datatype InstanceRow = InstanceRow(
    userId: string, nombreInstancia: string, numeroWhatsapp: string, estado: string, webhookRespuesta: Json)

  const Fallback := "Error al crear la instancia de WhatsApp"

  /** `profile?.nombre || 'Usuario'` and `profile?.plan || 'freemium'`. */
  function MakePayload(user: User, profile: Profile, nombre: string, numero: string): (p: Payload)
    ensures p.nombre != "" && p.plan != ""
    ensures profile.nombre.Some? && profile.nombre.value != "" ==> p.nombre == profile.nombre.value
    ensures !(profile.nombre.Some? && profile.nombre.value != "") ==> p.nombre == "Usuario"
    ensures profile.plan.Some? && profile.plan.value != "" ==> p.plan == profile.plan.value
    ensures !(profile.plan.Some? && profile.plan.value != "") ==> p.plan == "freemium"
    ensures p.nombreInstancia == nombre && p.numeroWhatsapp == numero
  {
    Payload(user.id, user.email,
            if profile.nombre.Some? && profile.nombre.value != "" then profile.nombre.value else "Usuario",
            if profile.plan.Some? && profile.plan.value != "" then profile.plan.value else "freemium",
            nombre, numero)
  }

  /** `webhookResponse.ok && Array.isArray(webhookResult) && webhookResult.length > 0
      && webhookResult[0].status === 'STARTING'`: reading `status` of a `null`
      first element raises a TypeError. */
  function Accepts(ok: bool, result: Json): (r: Result<bool>)
    ensures r.Err? <==> ok && result.JArr? && |result.items| > 0 && result.items[0] == JNull
    ensures r == Ok(true) <==>
              ok && result.JArr? && |result.items| > 0 && result.items[0] != JNull
              && Field(result.items[0], "status") == Some(JStr("STARTING"))
  {
    if !ok || !result.JArr? || |result.items| == 0 then Ok(false)
    else match ReadProperty(result.items[0], "status")
      case Err(e) => Err(e)
      case Ok(status) => Ok(status == Some(JStr("STARTING")))
  }

  /** Only the exact string `STARTING` is accepted: another status, a differently
      cased one, or an empty array is refused even on an ok reply. */
  lemma AcceptsOnlyStarting(status: string, rest: seq<Json>)
    requires status != "STARTING"
    ensures Accepts(true, JArr([JObj([("status", JStr(status))])] + rest)) == Ok(false)
    ensures Accepts(true, JArr([])) == Ok(false)
    ensures Accepts(true, JArr([JObj([("status", JStr("STARTING"))])] + rest)) == Ok(true)
  {
    assert Field(JObj([("status", JStr(status))]), "status") == Some(JStr(status));
    assert Field(JObj([("status", JStr("STARTING"))]), "status") == Some(JStr("STARTING"));
  }

  /** How the exchange with the webhook ends: with the row to insert, or with
      the message of the error raised. `reply`'s body is the result of
      `.json()`, read whatever the status. */
  function Exchange(user: User, nombre: string, numero: string, reply: Reply<Result<Json>>): (r: Result<InstanceRow>)
    ensures r.Ok? <==> reply.Answered? && reply.body.Ok? && Accepts(reply.ok, reply.body.value) == Ok(true)
    ensures r.Ok? ==> r.value == InstanceRow(user.id, nombre, numero, "desconectado", reply.body.value)
    ensures reply.Answered? && reply.body.Ok? && Accepts(reply.ok, reply.body.value) == Ok(false) ==>
              r == Err(WebhookFailure(reply.body.value))
  {
    match reply
    case Unreachable(m) => Err(m)
    case Answered(ok, _, body) =>
      match body
      case Err(m) => Err(m)
      case Ok(result) =>
        match Accepts(ok, result)
        case Err(e) => Err(e)
        case Ok(accepted) =>
          if accepted then Ok(InstanceRow(user.id, nombre, numero, "desconectado", result))
          else Err(WebhookFailure(result))
  }

  /** Any reply that is not accepted writes nothing, whether or not it was ok. */
  lemma RejectedWritesNothing(user: User, nombre: string, numero: string, reply: Reply<Result<Json>>)
    requires reply.Answered? && reply.body.Ok? && !reply.ok
    ensures Exchange(user, nombre, numero, reply) == Err(WebhookFailure(reply.body.value))
  {
  }

  /** The state of the connection form: one field per `useState` variable. */
  class ConnectionForm {
    var user: Option<User>
    var isLoading: bool
    var nombreInstancia: string
    var numeroWhatsapp: string
    var instanciaCreada: Option<Json>

    constructor (user: Option<User>)
      ensures this.user == user && !isLoading && nombreInstancia == "" && numeroWhatsapp == ""
      ensures instanciaCreada == None
    {
      this.user := user;
      isLoading := false;
      nombreInstancia := "";
      numeroWhatsapp := "";
      instanciaCreada := None;
    }

    /** The form is shown until an instance has been created. */
    predicate ShowsForm()
      reads this
    {
      instanciaCreada.None?
    }

    /** `crearInstancia`: `profile` is the profile read, `reply` the webhook
        call and `insert` the stored row the store returns. */
    method CrearInstancia(profile: Single<Profile>, reply: Reply<Result<Json>>, insert: Result<Json>)
      returns (sent: Option<Payload>, stored: Option<InstanceRow>, outcome: Outcome)
      modifies this
      ensures old(user).None? ==>
                sent == None && stored == None && outcome == Refused("Debes estar autenticado para crear una instancia")
      ensures old(user).Some? && (old(nombreInstancia) == "" || old(numeroWhatsapp) == "") ==>
                sent == None && stored == None && outcome == Refused("Por favor completa todos los campos")
      ensures old(user).Some? && old(nombreInstancia) != "" && old(numeroWhatsapp) != "" && !profile.Found? ==>
                sent == None && stored == None && outcome == Failed("Error al obtener datos del perfil")
      ensures old(user).Some? && old(nombreInstancia) != "" && old(numeroWhatsapp) != "" && profile.Found? ==>
                && sent == Some(MakePayload(old(user).value, profile.row, old(nombreInstancia), old(numeroWhatsapp)))
                && var ex := Exchange(old(user).value, old(nombreInstancia), old(numeroWhatsapp), reply);
                   && stored == (if ex.Ok? then Some(ex.value) else None)
                   && (ex.Err? ==> outcome == Failed(MessageOr(ex.message, Fallback)))
                   && (ex.Ok? && insert.Err? ==> outcome == Failed("Error al guardar en la base de datos"))
                   && (ex.Ok? && insert.Ok? ==> outcome == Succeeded)
      ensures outcome == Succeeded ==>
                instanciaCreada == Some(insert.value) && nombreInstancia == "" && numeroWhatsapp == ""
      ensures outcome != Succeeded ==>
                && instanciaCreada == old(instanciaCreada)
                && nombreInstancia == old(nombreInstancia) && numeroWhatsapp == old(numeroWhatsapp)
      ensures outcome.Refused? ==> isLoading == old(isLoading)
      ensures !outcome.Refused? ==> !isLoading
      ensures user == old(user)
    {
      sent, stored := None, None;
      if user.None? {
        return None, None, Refused("Debes estar autenticado para crear una instancia");
      }
      if nombreInstancia == "" || numeroWhatsapp == "" {
        return None, None, Refused("Por favor completa todos los campos");
      }
      isLoading := true;
      if !profile.Found? {
        outcome := Failed("Error al obtener datos del perfil");
      } else {
        sent := Some(MakePayload(user.value, profile.row, nombreInstancia, numeroWhatsapp));
        var ex := Exchange(user.value, nombreInstancia, numeroWhatsapp, reply);
        if ex.Err? {
          outcome := Failed(MessageOr(ex.message, Fallback));
        } else {
          stored := Some(ex.value);
          if insert.Err? {
            outcome := Failed("Error al guardar en la base de datos");
          } else {
            instanciaCreada := Some(insert.value);
            nombreInstancia := "";
            numeroWhatsapp := "";
            outcome := Succeeded;
          }
        }
      }
      isLoading := false;
    }

    /** `conectarConQR`: a placeholder. Without a created instance it returns at
        once; with one it only announces that the feature is coming. */
    method ConectarConQr() returns (notice: Option<string>)
      modifies this
      ensures old(instanciaCreada).None? ==> notice == None && isLoading == old(isLoading)
      ensures old(instanciaCreada).Some? ==> notice == Some("Función en desarrollo") && !isLoading
      ensures user == old(user) && instanciaCreada == old(instanciaCreada)
      ensures nombreInstancia == old(nombreInstancia) && numeroWhatsapp == old(numeroWhatsapp)
    {
      if instanciaCreada.None? {
        return None;
      }
      isLoading := true;
      notice := Some("Función en desarrollo");
      isLoading := false;
    }
  }
}
