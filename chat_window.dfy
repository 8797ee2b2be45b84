/** The WhatsApp conversation pane: it lists a conversation's messages oldest
    first, marks the conversation read, and sends typed messages as outgoing
    text messages. */
module ChatWindow {
  import opened Js
  import opened Text

  /** A row of `mensajes_whatsapp`; `createdAt` is the creation time in milliseconds. */
  datatype StoredMessage = StoredMessage(
    id: string, conversacionId: string, mensaje: string, direccion: string,
    tipoMensaje: string, urlAdjunto: Option<string>, createdAt: int)

  /** A message as the pane keeps it. */
  datatype Message = Message(
    id: string, mensaje: string, direccion: string, tipoMensaje: string,
    urlAdjunto: Option<string>, createdAt: int)

  datatype Lead = Lead(nombre: Option<string>, pushname: Option<string>, numeroWhatsapp: string)

  datatype Conversation = Conversation(id: string, leadId: string, instanciaWhatsapp: string, leads: Lead)

  /** The row the pane inserts when sending; the instance column is spelt
      `instanca_nombre` in the store. */
  datatype NewMessage = NewMessage(
    userId: string, conversacionId: string, leadId: string, instancaNombre: string,
    nombre: Option<string>, pushname: Option<string>, mensaje: string,
    direccion: string, tipoMensaje: string)

  /** Oldest first. */
  predicate Ascending(s: seq<StoredMessage>)
  {
    forall i, j :: 0 <= i < j < |s| ==> s[i].createdAt <= s[j].createdAt
  }

  /** `.eq('conversacion_id', id)`: the rows of one conversation, in table order. */
  function OfConversation(table: seq<StoredMessage>, id: string): (r: seq<StoredMessage>)
    ensures forall m :: m in r <==> m in table && m.conversacionId == id
    ensures |r| <= |table|
  {
    if table == [] then []
    else (if table[0].conversacionId == id then [table[0]] else []) + OfConversation(table[1..], id)
  }

  /** Places `m` after every row no later than it. */
  function InsertByTime(m: StoredMessage, s: seq<StoredMessage>): (r: seq<StoredMessage>)
    requires Ascending(s)
    ensures Ascending(r)
    ensures multiset(r) == multiset(s) + multiset{m}
    ensures |r| == |s| + 1
    ensures r[0] == m || (s != [] && r[0] == s[0])
  {
    if s == [] || m.createdAt < s[0].createdAt then [m] + s
    else
      var rest := InsertByTime(m, s[1..]);
      assert multiset(s) == multiset{s[0]} + multiset(s[1..]) by { assert s == [s[0]] + s[1..]; }
      assert s[0].createdAt <= rest[0].createdAt;
      [s[0]] + rest
  }

  /** `.order('created_at', { ascending: true })`. */
  function SortByTime(s: seq<StoredMessage>): (r: seq<StoredMessage>)
    ensures Ascending(r)
    ensures multiset(r) == multiset(s)
  {
    if s == [] then []
    else
      assert s == [s[0]] + s[1..];
      InsertByTime(s[0], SortByTime(s[1..]))
  }

  function ToMessage(m: StoredMessage): Message
  {
    Message(m.id, m.mensaje, m.direccion, m.tipoMensaje, m.urlAdjunto, m.createdAt)
  }

  function ToMessages(rows: seq<StoredMessage>): (r: seq<Message>)
    ensures |r| == |rows| && forall i :: 0 <= i < |rows| ==> r[i] == ToMessage(rows[i])
  {
    if rows == [] then [] else [ToMessage(rows[0])] + ToMessages(rows[1..])
  }

  /** The query `loadMessages` runs, mapped to the pane's messages. */
  function MessagesQuery(table: seq<StoredMessage>, id: string): seq<Message>
  {
    ToMessages(SortByTime(OfConversation(table, id)))
  }

  /** The loaded messages are oldest first, and as many as the conversation's rows. */
  lemma MessagesAscending(table: seq<StoredMessage>, id: string)
    ensures var q := MessagesQuery(table, id);
            forall i, j :: 0 <= i < j < |q| ==> q[i].createdAt <= q[j].createdAt
    ensures |MessagesQuery(table, id)| == |OfConversation(table, id)|
  {
    var rows := SortByTime(OfConversation(table, id));
    assert |rows| == |multiset(rows)|;
  }

  /** Every row of the conversation is loaded. */
  lemma MessagesComplete(table: seq<StoredMessage>, id: string, m: StoredMessage)
    requires m in table && m.conversacionId == id
    ensures ToMessage(m) in MessagesQuery(table, id)
  {
    var rows := SortByTime(OfConversation(table, id));
    assert m in multiset(OfConversation(table, id));
    assert m in multiset(rows);
    var k :| 0 <= k < |rows| && rows[k] == m;
    assert MessagesQuery(table, id)[k] == ToMessage(m);
  }

  /** Every loaded message is a row of the conversation. */
  lemma MessagesSound(table: seq<StoredMessage>, id: string, k: nat)
    requires k < |MessagesQuery(table, id)|
    ensures exists m :: m in table && m.conversacionId == id && MessagesQuery(table, id)[k] == ToMessage(m)
  {
    var rows := SortByTime(OfConversation(table, id));
    assert rows[k] in multiset(rows);
    assert rows[k] in OfConversation(table, id);
  }

  /** The header's avatar: `nombre || pushname`. */
  function HeaderName(lead: Lead): (r: Option<string>)
    ensures lead.nombre.Some? && lead.nombre.value != "" ==> r == lead.nombre
    ensures !(lead.nombre.Some? && lead.nombre.value != "") ==> r == lead.pushname
  {
    if lead.nombre.Some? && lead.nombre.value != "" then lead.nombre else lead.pushname
  }

  /** The header's avatar: `getInitials(nombre || pushname)`. */
  function HeaderInitials(lead: Lead): (r: string)
    ensures 1 <= |r| <= 2
    ensures HeaderName(lead).None? ==> r == "??"
    ensures lead.nombre.Some? && lead.nombre.value != "" && lead.nombre.value[0] != ' ' ==>
              r[0] == UpperChar(lead.nombre.value[0])
    ensures HeaderName(lead).Some? && HeaderName(lead).value != [] && HeaderName(lead).value[0] != ' ' ==>
              r[0] == UpperChar(HeaderName(lead).value[0])
  {
    InitialsOr(HeaderName(lead))
  }

  /** The state of the pane: one field per `useState` variable, plus its props. */
  class Pane {
    var user: Option<User>
    var conversation: Option<Conversation>
    var messages: seq<Message>
    var newMessage: string
    var loading: bool
    var sending: bool

    constructor (user: Option<User>, conversation: Option<Conversation>)
      ensures this.user == user && this.conversation == conversation
      ensures messages == [] && newMessage == "" && loading && !sending
    {
      this.user := user;
      this.conversation := conversation;
      messages := [];
      newMessage := "";
      loading := true;
      sending := false;
    }

    /** `loadMessages`: `table` is `mensajes_whatsapp` as the query sees it, or
        the error it returns. On success the conversation is marked read
        (`markedRead`, whose own result the pane ignores). */
    method LoadMessages(table: Result<seq<StoredMessage>>) returns (markedRead: Option<string>, outcome: Outcome)
      modifies this
      ensures old(conversation).None? ==>
                markedRead == None && outcome == Ignored && loading == old(loading) && messages == old(messages)
      ensures old(conversation).Some? && table.Ok? ==>
                && messages == MessagesQuery(table.value, old(conversation).value.id)
                && markedRead == Some(old(conversation).value.id) && outcome == Succeeded && !loading
      ensures old(conversation).Some? && table.Err? ==>
                && messages == old(messages) && markedRead == None
                && outcome == Failed("Error al cargar los mensajes") && !loading
      ensures user == old(user) && conversation == old(conversation)
      ensures newMessage == old(newMessage) && sending == old(sending)
    {
      if conversation.None? {
        return None, Ignored;
      }
      if table.Err? {
        markedRead, outcome := None, Failed("Error al cargar los mensajes");
      } else {
        messages := MessagesQuery(table.value, conversation.value.id);
        markedRead, outcome := Some(conversation.value.id), Succeeded;
      }
      loading := false;
    }

    /** `sendMessage`: `insert` is the store's answer to the insert and `table`
        what the reload that follows a successful insert reads. `outcome` is
        the toast of the send; `reloaded` and `markedRead` are what the reload
        shows and which conversation it marks read. */
    method SendMessage(insert: Result<()>, table: Result<seq<StoredMessage>>)
      returns (sent: Option<NewMessage>, outcome: Outcome, reloaded: Outcome, markedRead: Option<string>)
      modifies this
      ensures Trim(old(newMessage)) == "" || old(user).None? || old(sending) ==>
                && sent == None && outcome == Ignored && reloaded == Ignored && markedRead == None
                && messages == old(messages) && newMessage == old(newMessage)
                && loading == old(loading) && sending == old(sending)
      ensures !(Trim(old(newMessage)) == "" || old(user).None? || old(sending)) ==>
                && !sending
                && (old(conversation).None? ==> sent == None)
                && (old(conversation).Some? ==>
                      sent == Some(NewMessage(
                        old(user).value.id, old(conversation).value.id, old(conversation).value.leadId,
                        old(conversation).value.instanciaWhatsapp, old(conversation).value.leads.nombre,
                        old(conversation).value.leads.pushname, old(newMessage), "enviado", "text")))
                && (old(conversation).Some? && insert.Ok? ==>
                      && outcome == Succeeded && newMessage == "" && !loading
                      && messages == (if table.Ok? then MessagesQuery(table.value, old(conversation).value.id)
                                      else old(messages))
                      && reloaded == (if table.Ok? then Succeeded else Failed("Error al cargar los mensajes"))
                      && markedRead == (if table.Ok? then Some(old(conversation).value.id) else None))
                && (old(conversation).None? || insert.Err? ==>
                      && outcome == Failed("Error al enviar el mensaje") && reloaded == Ignored && markedRead == None
                      && newMessage == old(newMessage) && messages == old(messages) && loading == old(loading))
      ensures user == old(user) && conversation == old(conversation)
    {
      reloaded, markedRead := Ignored, None;
      if Trim(newMessage) == "" || user.None? || sending {
        return None, Ignored, Ignored, None;
      }
      sending := true;
      if conversation.None? {
        // Reading `conversation.id` throws, and the error is reported like a failed insert.
        sent, outcome := None, Failed("Error al enviar el mensaje");
      } else {
        var c := conversation.value;
        sent := Some(NewMessage(user.value.id, c.id, c.leadId, c.instanciaWhatsapp,
                                c.leads.nombre, c.leads.pushname, newMessage, "enviado", "text"));
        if insert.Err? {
          outcome := Failed("Error al enviar el mensaje");
        } else {
          newMessage := "";
          markedRead, reloaded := LoadMessages(table);
          outcome := Succeeded;
        }
      }
      sending := false;
    }
  }
}
