/** The WhatsApp instances screen: create an instance through the creation
    webhook, pair it through the QR webhook, and confirm the pairing by hand.
    Webhook replies, store answers and the QR library's result are inputs. */
module WhatsAppInstances {
  import opened Js
  import opened Text

  const Pendiente := "pendiente"
  const Conectado := "conectado"
  const Desconectado := "desconectado"

  /** The `profiles` row of the user, when it could be read. */
  datatype Profile = Profile(nombre: Option<string>, plan: Option<string>)

  /** A `whatsapp_instances` row as the list holds it. */
  datatype Instance = Instance(id: string, nombre: string, numero: string, estatus: string, webhookResponse: Json)

  /** The body posted to the creation and QR webhooks. */
  datatype Payload = Payload(
    userId: string, email: Option<string>, userName: string, plan: string,
    instanceName: string, instanceNumber: string)

  predicate NonEmpty(s: Option<string>)
  {
    s.Some? && s.value != ""
  }

  /** The part of an e-mail address before the first '@'. */
  function LocalPart(email: string): (r: string)
    ensures '@' !in r
    ensures |r| <= |email| && r == email[..|r|]
  {
    var parts := Split(email, '@');
    JoinSplit(email, '@');
    parts[0]
  }

  /** `profile?.nombre || user.email?.split('@')[0] || 'Usuario'`. */
  function PayloadUserName(user: User, profile: Option<Profile>): string
  {
    if profile.Some? && NonEmpty(profile.value.nombre) then profile.value.nombre.value
    else if user.email.Some? && LocalPart(user.email.value) != "" then LocalPart(user.email.value)
    else "Usuario"
  }

  /** The webhook always receives a non-empty user name, taken from the profile,
      else from the address before its '@', else the fixed "Usuario". */
  lemma PayloadUserNameFallback(user: User, profile: Option<Profile>)
    ensures PayloadUserName(user, profile) != ""
    ensures '@' !in PayloadUserName(user, profile) || (profile.Some? && profile.value.nombre == Some(PayloadUserName(user, profile)))
    ensures profile.Some? && NonEmpty(profile.value.nombre) ==> PayloadUserName(user, profile) == profile.value.nombre.value
    ensures !(profile.Some? && NonEmpty(profile.value.nombre)) ==>
              PayloadUserName(user, profile) == "Usuario" ||
              (user.email.Some? && user.email.value[..|PayloadUserName(user, profile)|] == PayloadUserName(user, profile))
  {
  }

  /** `profile?.plan || 'freemium'`: the webhook always receives a non-empty plan. */
  function PayloadPlan(profile: Option<Profile>): (r: string)
    ensures r != ""
    ensures r == "freemium" || (profile.Some? && profile.value.plan == Some(r))
  {
    if profile.Some? && NonEmpty(profile.value.plan) then profile.value.plan.value else "freemium"
  }

  function MakePayload(user: User, profile: Option<Profile>, name: string, number: string): Payload
  {
    Payload(user.id, user.email, PayloadUserName(user, profile), PayloadPlan(profile), name, number)
  }

  /** The creation webhook's result: the parsed body, or `{message: text}` when
      the body is not JSON. */
  function CreationResult(body: Body): (r: Json)
    ensures body.Raw? ==> r == JObj([("message", JStr(body.text))])
    ensures body.Parsed? ==> r == body.v
  {
    match body
    case Parsed(v) => v
    case Raw(t) => JObj([("message", JStr(t))])
  }

  /** A non-JSON body that is rejected reports its own text, or the fixed
      message when it is empty. */
  lemma RawBodyFailure(t: string)
    ensures WebhookFailure(CreationResult(Raw(t))) == if t != "" then t else "Error en el webhook"
  {
    var r := CreationResult(Raw(t));
    assert Field(r, "message") == Some(JStr(t));
  }

  /** The toast of a failed creation: `error.message || "Error al crear la instancia"`. */
  function CreationToast(message: string): string
  {
    MessageOr(message, "Error al crear la instancia")
  }

  /** `!user || !nombre.trim() || !numero.trim()` fails: the form may be sent. */
  predicate CreationGuard(user: Option<User>, nombre: string, numero: string)
  {
    user.Some? && Trim(nombre) != "" && Trim(numero) != ""
  }

  /** How a creation that passed the guard ends: an unreachable webhook, a
      reply that is not ok (nothing is inserted), a failed insert, or success. */
  function CreationOutcome(reply: Reply<Body>, insert: Result<string>): (r: Outcome)
    ensures r == Succeeded <==> reply.Answered? && reply.ok && insert.Ok?
    ensures reply.Answered? && !reply.ok ==> r == Failed(CreationToast(WebhookFailure(CreationResult(reply.body))))
    ensures r.Failed? || r == Succeeded
  {
    match reply
    case Unreachable(m) => Failed(CreationToast(m))
    case Answered(ok, _, body) =>
      if !ok then Failed(CreationToast(WebhookFailure(CreationResult(body))))
      else if insert.Err? then Failed(CreationToast(insert.message))
      else Succeeded
  }

  /** `response.ok && webhookResult`: JavaScript truthiness of the QR reply. */
  predicate BodyTruthy(body: Body)
  {
    match body
    case Parsed(v) => Truthy(v)
    case Raw(t) => t != ""
  }

  /** The QR text: a string result as it is, anything else JSON-serialised. */
  function QrText(body: Body): (r: string)
    ensures body.Raw? ==> r == body.text
    ensures body.Parsed? && body.v.JStr? ==> r == body.v.s
    ensures body.Parsed? && !body.v.JStr? ==> r == Stringify(body.v)
    ensures BodyTruthy(body) ==> r != ""
  {
    match body
    case Raw(t) => t
    case Parsed(v) => if v.JStr? then v.s else Stringify(v)
  }

  /** `getStatusText`: the three known statuses are capitalised, any other
      value is shown as it is. */
  function StatusText(estatus: string): (r: string)
    ensures estatus in {Conectado, Pendiente, Desconectado} ==> r == [UpperChar(estatus[0])] + estatus[1..]
    ensures estatus !in {Conectado, Pendiente, Desconectado} ==> r == estatus
  {
    if estatus == Conectado then "Conectado"
    else if estatus == Pendiente then "Pendiente"
    else if estatus == Desconectado then "Desconectado"
    else estatus
  }

  const Gray := "text-gray-600 bg-gray-50 border-gray-200"

  /** `getStatusColor`: a distinct colour per known status, gray otherwise. */
  function StatusColor(estatus: string): (r: string)
    ensures r == Gray <==> estatus !in {Conectado, Pendiente, Desconectado}
  {
    if estatus == Conectado then "text-green-600 bg-green-50 border-green-200"
    else if estatus == Pendiente then "text-yellow-600 bg-yellow-50 border-yellow-200"
    else if estatus == Desconectado then "text-red-600 bg-red-50 border-red-200"
    else Gray
  }

  /** Two different known statuses never share a colour. */
  lemma StatusColorDistinct(a: string, b: string)
    requires a in {Conectado, Pendiente, Desconectado} && b in {Conectado, Pendiente, Desconectado}
    requires a != b
    ensures StatusColor(a) != StatusColor(b)
  {
  }

  /** The "connect with QR" button is rendered only for instances not yet connected. */
  predicate OffersQrConnect(inst: Instance)
  {
    inst.estatus != Conectado
  }

  /** The list after a confirmed pairing: the instance with that id becomes
      `conectado`, every other entry stays as it was. */
  function MarkConnected(list: seq<Instance>, id: string): (r: seq<Instance>)
    ensures |r| == |list|
    ensures forall i :: 0 <= i < |list| ==>
              r[i] == if list[i].id == id then list[i].(estatus := Conectado) else list[i]
  {
    if list == [] then []
    else
      var head := if list[0].id == id then list[0].(estatus := Conectado) else list[0];
      [head] + MarkConnected(list[1..], id)
  }

  /** Confirming twice leaves the list as confirming once. */
  lemma MarkConnectedIdempotent(list: seq<Instance>, id: string)
    ensures MarkConnected(MarkConnected(list, id), id) == MarkConnected(list, id)
  {
  }

  /** After confirming, the confirmed instance no longer offers pairing and
      every other instance offers it exactly as before. */
  lemma MarkConnectedOffers(list: seq<Instance>, id: string, i: nat)
    requires i < |list|
    ensures !OffersQrConnect(MarkConnected(list, id)[i]) <==> list[i].id == id || !OffersQrConnect(list[i])
  {
  }

  /** The state of the instances screen: one field per `useState` variable. */
  class InstancesView {
    var user: Option<User>
    var instances: seq<Instance>
    var loading: bool
    var showCreateForm: bool
    var creating: bool
    var connecting: Option<string>
    var showQrModal: bool
    var qrData: string
    var qrImageUrl: string
    var currentInstance: Option<Instance>
    var confirming: bool
    var nombre: string
    var numero: string

    constructor (user: Option<User>)
      ensures this.user == user && instances == [] && loading && !showCreateForm && !creating
      ensures connecting == None && !showQrModal && qrData == "" && qrImageUrl == ""
      ensures currentInstance == None && !confirming && nombre == "" && numero == ""
    {
      this.user := user;
      instances := [];
      loading := true;
      showCreateForm := false;
      creating := false;
      connecting := None;
      showQrModal := false;
      qrData := "";
      qrImageUrl := "";
      currentInstance := None;
      confirming := false;
      nombre := "";
      numero := "";
    }

    /** `loadInstances`: the user's rows, newest first as the store orders them. */
    method LoadInstances(rows: Result<seq<Instance>>) returns (outcome: Outcome)
      modifies this
      ensures user.None? ==> outcome == Ignored && instances == old(instances) && loading == old(loading)
      ensures user.Some? && rows.Ok? ==> outcome == Succeeded && instances == rows.value && !loading
      ensures user.Some? && rows.Err? ==> outcome == Failed("Error al cargar las instancias")
                                          && instances == old(instances) && !loading
      ensures user == old(user) && showCreateForm == old(showCreateForm) && creating == old(creating)
      ensures connecting == old(connecting) && showQrModal == old(showQrModal) && qrData == old(qrData)
      ensures qrImageUrl == old(qrImageUrl) && currentInstance == old(currentInstance)
      ensures confirming == old(confirming) && nombre == old(nombre) && numero == old(numero)
    {
      if user.None? {
        return Ignored;
      }
      if rows.Ok? {
        instances := rows.value;
        outcome := Succeeded;
      } else {
        outcome := Failed("Error al cargar las instancias");
      }
      loading := false;
    }

    /** `createInstance`: after the guard, post to the creation webhook; only an
        ok reply leads to an insert, and only a stored row enters the list, at
        its front. `profile` is `None` when the profile read failed. */
    method CreateInstance(profile: Option<Profile>, reply: Reply<Body>, insert: Result<string>)
      returns (sent: Option<Payload>, inserted: Option<Instance>, outcome: Outcome)
      modifies this
      ensures !CreationGuard(old(user), old(nombre), old(numero)) ==>
                && sent == None && inserted == None && outcome == Refused("Por favor completa todos los campos")
                && instances == old(instances) && nombre == old(nombre) && numero == old(numero)
                && showCreateForm == old(showCreateForm) && creating == old(creating)
      ensures CreationGuard(old(user), old(nombre), old(numero)) ==>
                && sent == Some(MakePayload(old(user).value, profile, Trim(old(nombre)), Trim(old(numero))))
                && outcome == CreationOutcome(reply, insert)
                && !creating
      ensures inserted.Some? <==> outcome == Succeeded
      ensures inserted.Some? ==>
                && inserted.value == Instance(insert.value, Trim(old(nombre)), Trim(old(numero)), Pendiente,
                                              CreationResult(reply.body))
                && instances == [inserted.value] + old(instances)
                && nombre == "" && numero == "" && !showCreateForm
      ensures CreationGuard(old(user), old(nombre), old(numero)) && inserted.None? ==>
                && instances == old(instances) && nombre == old(nombre) && numero == old(numero)
                && showCreateForm == old(showCreateForm)
      ensures user == old(user) && loading == old(loading) && connecting == old(connecting)
      ensures showQrModal == old(showQrModal) && qrData == old(qrData) && qrImageUrl == old(qrImageUrl)
      ensures currentInstance == old(currentInstance) && confirming == old(confirming)
    {
      if !CreationGuard(user, nombre, numero) {
        return None, None, Refused("Por favor completa todos los campos");
      }
      creating := true;
      sent := Some(MakePayload(user.value, profile, Trim(nombre), Trim(numero)));
      outcome := CreationOutcome(reply, insert);
      inserted := None;
      if outcome == Succeeded {
        var row := Instance(insert.value, Trim(nombre), Trim(numero), Pendiente, CreationResult(reply.body));
        AddCreated(row);
        inserted := Some(row);
      }
      creating := false;
    }

    /** A stored instance goes to the front of the list and the form is reset and closed. */
    method AddCreated(row: Instance)
      modifies this
      ensures instances == [row] + old(instances)
      ensures nombre == "" && numero == "" && !showCreateForm
      ensures user == old(user) && loading == old(loading) && connecting == old(connecting)
      ensures showQrModal == old(showQrModal) && qrData == old(qrData) && qrImageUrl == old(qrImageUrl)
      ensures currentInstance == old(currentInstance) && confirming == old(confirming)
      ensures creating == old(creating)
    {
      instances := [row] + instances;
      nombre := "";
      numero := "";
      showCreateForm := false;
    }

    /** `connectWithQR`: ask the QR webhook for `inst`'s code; a truthy ok reply
        stores its text as `qr_data`, renders it (`image` is the QR library's
        data URL, `None` when rendering threw) and opens the modal. */
    method ConnectWithQr(inst: Instance, profile: Option<Profile>, reply: Reply<Body>, image: Option<string>)
      returns (sent: Option<Payload>, storedQr: Option<string>, outcome: Outcome)
      modifies this
      ensures old(user).None? ==> sent == None && storedQr == None && outcome == Ignored
                                  && connecting == old(connecting)
      ensures old(user).Some? ==> sent == Some(MakePayload(old(user).value, profile, inst.nombre, inst.numero))
                                  && connecting == None
      ensures var usable := old(user).Some? && reply.Answered? && reply.ok && BodyTruthy(reply.body);
        && (usable ==> storedQr == Some(QrText(reply.body)) && qrData == QrText(reply.body) && qrData != ""
                       && qrImageUrl == (if image.Some? then image.value else "")
                       && currentInstance == Some(inst) && showQrModal && outcome == Succeeded)
        && (!usable ==> storedQr == None && qrData == old(qrData) && qrImageUrl == old(qrImageUrl)
                        && currentInstance == old(currentInstance) && showQrModal == old(showQrModal))
        && (!usable && old(user).Some? ==>
              outcome == Failed(if reply.Unreachable? then MessageOr(reply.message, "Error al obtener el código QR")
                                else "Error al obtener el código QR"))
      ensures user == old(user) && instances == old(instances) && loading == old(loading)
      ensures showCreateForm == old(showCreateForm) && creating == old(creating) && confirming == old(confirming)
      ensures nombre == old(nombre) && numero == old(numero)
    {
      storedQr := None;
      if user.None? {
        sent := None;
        outcome := Ignored;
        return;
      }
      connecting := Some(inst.id);
      sent := Some(MakePayload(user.value, profile, inst.nombre, inst.numero));
      if reply.Answered? && reply.ok && BodyTruthy(reply.body) {
        var text := QrText(reply.body);
        storedQr := Some(text);
        qrImageUrl := if image.Some? then image.value else "";
        qrData := text;
        currentInstance := Some(inst);
        showQrModal := true;
        outcome := Succeeded;
      } else if reply.Unreachable? {
        outcome := Failed(MessageOr(reply.message, "Error al obtener el código QR"));
      } else {
        outcome := Failed("Error al obtener el código QR");
      }
      connecting := None;
    }

    /** `confirmConnection`: the user says the code was scanned; the store sets
        `conectado` on the current instance (`storeError` is its error, if any). */
    method ConfirmConnection(storeError: Option<string>) returns (updated: Option<string>, outcome: Outcome)
      modifies this
      ensures old(currentInstance).None? ==>
                && updated == None && outcome == Ignored
                && instances == old(instances) && showQrModal == old(showQrModal) && currentInstance == None
                && qrData == old(qrData) && qrImageUrl == old(qrImageUrl) && confirming == old(confirming)
      ensures old(currentInstance).Some? ==> updated == Some(old(currentInstance).value.id) && !confirming
      ensures old(currentInstance).Some? && storeError.Some? ==>
                && outcome == Failed("Error al confirmar la conexión") && instances == old(instances)
                && showQrModal == old(showQrModal) && currentInstance == old(currentInstance)
                && qrData == old(qrData) && qrImageUrl == old(qrImageUrl)
      ensures old(currentInstance).Some? && storeError.None? ==>
                && outcome == Succeeded && instances == MarkConnected(old(instances), old(currentInstance).value.id)
                && !showQrModal && currentInstance == None && qrData == "" && qrImageUrl == ""
      ensures user == old(user) && loading == old(loading) && showCreateForm == old(showCreateForm)
      ensures creating == old(creating) && connecting == old(connecting)
      ensures nombre == old(nombre) && numero == old(numero)
    {
      if currentInstance.None? {
        return None, Ignored;
      }
      var id := currentInstance.value.id;
      var marked := MarkConnected(instances, id);
      confirming := true;
      updated := Some(id);
      if storeError.Some? {
        outcome := Failed("Error al confirmar la conexión");
      } else {
        instances := marked;
        showQrModal, currentInstance, qrData, qrImageUrl := false, None, "", "";
        outcome := Succeeded;
      }
      confirming := false;
    }
  }
}
