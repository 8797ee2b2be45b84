/** The agent chat screen: the rewriting of webhook replies into HTML, the
    choice of the reply field, and the session state a send, an agent
    selection, a conversation load and a clear leave behind. */
module Chat {
  import opened Js
  import opened Text

  // ---------------------------------------------------------------------
  // formatWebhookResponse
  // ---------------------------------------------------------------------

  /** The first `**` at or after `k` that the lazy `(.*?)\*\*` reaches:
      `.` stops at a line terminator, so the search fails there. */
  function FindClose(s: string, k: nat): (r: Option<nat>)
    requires k <= |s|
    ensures r.Some? ==> k <= r.value && r.value + 2 <= |s| && s[r.value..r.value + 2] == "**"
    ensures r.Some? ==> forall i :: k <= i < r.value ==> !IsLineTerminator(s[i]) && !OccursAt(s, "**", i)
    decreases |s| - k
  {
    if k + 2 > |s| then None
    else if s[k..k + 2] == "**" then Some(k)
    else if IsLineTerminator(s[k]) then None
    else FindClose(s, k + 1)
  }

  /** A `**` with no line terminator and no earlier `**` before it is the one found. */
  lemma {:induction false} FindCloseAt(s: string, k: nat, j: nat)
    requires k <= j && j + 2 <= |s| && s[j..j + 2] == "**"
    requires forall i :: k <= i < j ==> !IsLineTerminator(s[i])
    requires forall i :: k <= i < j ==> !OccursAt(s, "**", i)
    ensures FindClose(s, k) == Some(j)
    decreases j - k
  {
    if k < j {
      assert !OccursAt(s, "**", k);
      FindCloseAt(s, k + 1, j);
    }
  }

  /** `.replace(/\*\*(.*?)\*\*\/g, '<strong>$1</strong>')`: matches are tried
      left to right and resume after the closing `**`. */
  function ReplaceBold(s: string): string
    decreases |s|
  {
    if |s| < 2 then s
    else if s[..2] == "**" && FindClose(s, 2).Some? then
      var j := FindClose(s, 2).value;
      "<strong>" + s[2..j] + "</strong>" + ReplaceBold(s[j + 2..])
    else [s[0]] + ReplaceBold(s[1..])
  }

  /** Each `**x**` whose `x` has no line terminator and no `**` (and does not
      end in `*`) becomes `<strong>x</strong>`. */
  lemma BoldPair(x: string, rest: string)
    requires forall i :: 0 <= i < |x| ==> !IsLineTerminator(x[i])
    requires !Includes(x, "**")
    requires x == [] || x[|x| - 1] != '*'
    ensures ReplaceBold("**" + x + "**" + rest) == "<strong>" + x + "</strong>" + ReplaceBold(rest)
  {
    var s := "**" + x + "**" + rest;
    var j := 2 + |x|;
    assert s[..2] == "**" && s[2..j] == x && s[j..j + 2] == "**" && s[j + 2..] == rest;
    BoldInnerClear(s, x, j);
    FindCloseAt(s, 2, j);
  }

  /** The text between the two `**` of a bold pair neither ends the line nor
      holds a `**` of its own. */
  lemma BoldInnerClear(s: string, x: string, j: nat)
    requires j == 2 + |x| && j + 2 <= |s| && s[2..j] == x && s[j..j + 2] == "**"
    requires forall i :: 0 <= i < |x| ==> !IsLineTerminator(x[i])
    requires !Includes(x, "**")
    requires x == [] || x[|x| - 1] != '*'
    ensures forall i :: 2 <= i < j ==> !IsLineTerminator(s[i])
    ensures forall i :: 2 <= i < j ==> !OccursAt(s, "**", i)
  {
    forall i | 2 <= i < j
      ensures !IsLineTerminator(s[i]) && !OccursAt(s, "**", i)
    {
      assert s[i] == x[i - 2];
      if i + 1 < j {
        assert s[i + 1] == x[i - 1];
        assert s[i..i + 2] == [x[i - 2], x[i - 1]] == x[i - 2..i];
        assert !OccursAt(x, "**", i - 2);
      } else {
        assert s[i..i + 2][0] == x[|x| - 1];
      }
    }
  }

  /** Text without `**` passes through the bold step untouched. */
  lemma {:induction false} BoldAbsent(s: string)
    requires !Includes(s, "**")
    ensures ReplaceBold(s) == s
    decreases |s|
  {
    if |s| >= 2 {
      assert !OccursAt(s, "**", 0);
      assert s[0..2] == s[..2];
      if Includes(s[1..], "**") {
        IncludesTail(s, "**");
      }
      BoldAbsent(s[1..]);
    }
  }

  /** `.replace(/^(?!<p>)/, '<p>')`: `<p>` is put in front unless already there. */
  function OpenParagraph(s: string): (r: string)
    ensures StartsWith(r, "<p>")
    ensures StartsWith(s, "<p>") ==> r == s
    ensures !StartsWith(s, "<p>") ==> r == "<p>" + s
  {
    if StartsWith(s, "<p>") then s else "<p>" + s
  }

  /** `.replace(/(?!<\/p>)$/, '</p>')` as written: at the end of the input
      nothing follows, so the look-ahead always succeeds and `</p>` is
      appended even after an existing `</p>`. */
  function CloseParagraphAsWritten(s: string): (r: string)
    ensures EndsWith(r, "</p>") && |r| == |s| + 4 && r[..|s|] == s
  {
    s + "</p>"
  }

  /** The closing step as its comment intends it: `</p>` is appended only when
      the text does not already end with one. */
  function CloseParagraph(s: string): (r: string)
    ensures EndsWith(r, "</p>")
    ensures EndsWith(s, "</p>") ==> r == s
    ensures !EndsWith(s, "</p>") ==> r == s + "</p>"
  {
    if EndsWith(s, "</p>") then s else s + "</p>"
  }

  /** `.replace(/<p><\/p>/g, '')`. */
  function DropEmptyParagraphs(s: string): string
  {
    ReplaceAll(s, "<p></p>", "")
  }

  /** The steps up to and including the `<br>` rewrite. */
  function Breaks(text: string): string
  {
    ReplaceAll(ReplaceAll(ReplaceBold(text), "\n\n", "</p><p>"), "\n", "<br>")
  }

  /** `formatWebhookResponse` as written, the version the send path shows and
      stores. No formatted reply holds a newline: the paragraph and `<br>`
      rewrites consume every one, and the later steps bring none back. */
  function FormatWebhookResponse(text: string): (r: string)
    ensures text == "" ==> r == ""
    ensures '\n' !in r
  {
    if text == "" then ""
    else
      var b := Breaks(text);
      ReplaceAllRemoves(ReplaceAll(ReplaceBold(text), "\n\n", "</p><p>"), '\n', "<br>");
      var closed := CloseParagraphAsWritten(OpenParagraph(b));
      assert '\n' !in closed;
      ReplaceAllChars(closed, "<p></p>", "", '\n');
      DropEmptyParagraphs(closed)
  }

  /** `formatWebhookResponse` with the closing step as its comment intends;
      it too leaves no newline. */
  function FormatIntended(text: string): (r: string)
    ensures text == "" ==> r == ""
    ensures '\n' !in r
  {
    if text == "" then ""
    else
      var b := Breaks(text);
      ReplaceAllRemoves(ReplaceAll(ReplaceBold(text), "\n\n", "</p><p>"), '\n', "<br>");
      assert '\n' !in Wrap(b);
      ReplaceAllChars(Wrap(b), "<p></p>", "", '\n');
      DropEmptyParagraphs(Wrap(b))
  }

  /** The two versions differ only on a text that already ends with `</p>`
      once opened: elsewhere the program formats as intended. */
  lemma FormatsAgree(text: string)
    requires !EndsWith(OpenParagraph(Breaks(text)), "</p>")
    ensures FormatWebhookResponse(text) == FormatIntended(text)
  {
  }

  /** The text between the newline rewrite and the cleanup. */
  function Wrap(s: string): (r: string)
    ensures StartsWith(r, "<p>") && EndsWith(r, "</p>")
  {
    CloseParagraph(OpenParagraph(s))
  }

  /** Wrapping an already wrapped text changes nothing. */
  lemma WrapIdempotent(s: string)
    ensures Wrap(Wrap(s)) == Wrap(s)
  {
    var w := Wrap(s);
    assert OpenParagraph(w) == w;
  }

  /** Double newlines become paragraph breaks before single newlines become
      `<br>`: two lines separated by a blank line are two paragraphs, not two
      line breaks. */
  lemma DoubleNewlineIsParagraph(a: string, b: string)
    requires '\n' !in a && '\n' !in b
    ensures ReplaceAll(ReplaceAll(a + "\n\n" + b, "\n\n", "</p><p>"), "\n", "<br>") == a + "</p><p>" + b
  {
    var tail := "\n\n" + b;
    assert a + "\n\n" + b == a + tail;
    ReplaceAllSkip(a, tail, "\n\n", "</p><p>");
    NoCharNotIncluded(b, '\n', "\n\n");
    ReplaceAllAbsent(b, "\n\n", "</p><p>");
    assert tail[..2] == "\n\n" && tail[2..] == b;
    assert ReplaceAll(tail, "\n\n", "</p><p>") == "</p><p>" + b;
    var m := a + "</p><p>" + b;
    assert a + ("</p><p>" + b) == m;
    NoNewline(a, b);
    NoCharNotIncluded(m, '\n', "\n");
    ReplaceAllAbsent(m, "\n", "<br>");
  }

  lemma NoNewline(a: string, b: string)
    requires '\n' !in a && '\n' !in b
    ensures '\n' !in a + "</p><p>" + b
  {
  }

  /** A text lacking a pattern's first character does not include the pattern. */
  lemma NoCharNotIncluded(s: string, c: char, pat: string)
    requires pat != [] && pat[0] == c && c !in s
    ensures !Includes(s, pat)
  {
    forall i | 0 <= i <= |s| - |pat|
      ensures !OccursAt(s, pat, i)
    {
      assert s[i..i + |pat|][0] == s[i];
    }
  }

  /** The discrepancy: a reply that is already one closed paragraph (no `*`,
      no newline, no empty paragraph) is closed a second time as written, and
      comes through unchanged with the intended closing step. */
  lemma ClosedTwice(t: string)
    requires '*' !in t && '\n' !in t
    requires StartsWith(t, "<p>") && EndsWith(t, "</p>")
    requires !Includes(t + "</p>", "<p></p>")
    ensures FormatWebhookResponse(t) == t + "</p>"
    ensures FormatIntended(t) == t
  {
    PlainBreaks(t);
    assert OpenParagraph(t) == t;
    assert Wrap(t) == t;
    ReplaceAllAbsent(t + "</p>", "<p></p>", "");
    if Includes(t, "<p></p>") {
      IncludesPrefix(t, "</p>", "<p></p>");
    }
    ReplaceAllAbsent(t, "<p></p>", "");
  }

  /** The concrete reply "<p>hola</p>" shows the stray closing tag. */
  lemma ClosedTwiceExample()
    ensures FormatWebhookResponse("<p>hola</p>") == "<p>hola</p></p>"
    ensures FormatIntended("<p>hola</p>") == "<p>hola</p>"
  {
    var t := "<p>hola</p>";
    assert StartsWith(t, "<p>") && EndsWith(t, "</p>");
    NoEmptyParagraphIn(t + "</p>");
    ClosedTwice(t);
  }

  /** An occurrence in a prefix is an occurrence in the whole text. */
  lemma IncludesPrefix(s: string, extra: string, sub: string)
    requires Includes(s, sub)
    ensures Includes(s + extra, sub)
  {
    var i :| 0 <= i <= |s| - |sub| && OccursAt(s, sub, i);
    assert (s + extra)[i..i + |sub|] == s[i..i + |sub|];
    assert OccursAt(s + extra, sub, i);
  }

  /** Text with no `*` and no newline is left alone by the first three steps. */
  lemma PlainBreaks(t: string)
    requires '*' !in t && '\n' !in t
    ensures Breaks(t) == t
  {
    NoCharNotIncluded(t, '*', "**");
    BoldAbsent(t);
    NoCharNotIncluded(t, '\n', "\n\n");
    ReplaceAllAbsent(t, "\n\n", "</p><p>");
    NoCharNotIncluded(t, '\n', "\n");
    ReplaceAllAbsent(t, "\n", "<br>");
  }

  /** "<p>hola</p></p>" contains no `<p></p>`: a `<` starts only positions
      0, 7 and 11, and none of them begins `<p></p>`. */
  lemma NoEmptyParagraphIn(t: string)
    requires t == "<p>hola</p></p>"
    ensures !Includes(t, "<p></p>")
  {
    forall i | 0 <= i <= |t| - 7
      ensures !OccursAt(t, "<p></p>", i)
    {
      assert t[i..i + 7][1] == t[i + 1];
      assert t[i..i + 7][3] == t[i + 3];
      assert t[i..i + 7][0] == t[i];
      assert t[1] != '<' && t[2] != '<' && t[3] != '<' && t[4] != '<' && t[5] != '<' && t[6] != '<' && t[8] != '<';
      assert t[8] != 'p';
    }
  }

  // ---------------------------------------------------------------------
  // The webhook reply
  // ---------------------------------------------------------------------

  const NoReply := "No se recibió respuesta del webhook"

  /** `webhookData.output || webhookData.response || webhookData.message ||
      fallback`, then handed to `formatWebhookResponse`: `null` data raises a
      TypeError on the first read, and a truthy non-string value raises one
      when `text.replace` is called. */
  function ReplyText(data: Json): (r: Result<string>)
    ensures data == JNull ==> r == Err(NullReadMessage("output"))
    ensures data != JNull && r.Ok? ==> r.value != ""
  {
    match ReadProperty(data, "output")
    case Err(e) => Err(e)
    case Ok(output) =>
      var pick := Or(Or(output, Field(data, "response")), Field(data, "message"));
      if !Present(pick) then Ok(NoReply)
      else if pick.value.JStr? then Ok(pick.value.s)
      else Err("text.replace is not a function")
  }

  /** The reply field order: `output` first, then `response`, then `message`,
      then the fixed text. */
  lemma ReplyFallback(data: Json)
    requires data != JNull
    ensures Present(Field(data, "output")) && Field(data, "output").value.JStr? ==>
              ReplyText(data) == Ok(Field(data, "output").value.s)
    ensures !Present(Field(data, "output")) && Present(Field(data, "response")) && Field(data, "response").value.JStr? ==>
              ReplyText(data) == Ok(Field(data, "response").value.s)
    ensures !Present(Field(data, "output")) && !Present(Field(data, "response")) && Present(Field(data, "message"))
            && Field(data, "message").value.JStr? ==>
              ReplyText(data) == Ok(Field(data, "message").value.s)
    ensures !Present(Field(data, "output")) && !Present(Field(data, "response")) && !Present(Field(data, "message")) ==>
              ReplyText(data) == Ok(NoReply)
  {
  }

  /** What a send ends with: the formatted assistant text, or the message of
      the error it raised. `reply` is the webhook call; its body is the result
      of `response.json()` (an error message when the body is not JSON). */
  function Answer(reply: Reply<Result<Json>>): (r: Result<string>)
    ensures reply.Unreachable? ==> r == Err(reply.message)
    ensures reply.Answered? && !reply.ok ==> r == Err("HTTP error! status: " + IntToString(reply.status))
  {
    match reply
    case Unreachable(m) => Err(m)
    case Answered(ok, status, body) =>
      if !ok then Err("HTTP error! status: " + IntToString(status))
      else match body
        case Err(m) => Err(m)
        case Ok(data) =>
          match ReplyText(data)
          case Err(m) => Err(m)
          case Ok(t) => Ok(FormatWebhookResponse(t))
  }

  /** A send succeeds only on an ok JSON reply whose chosen field is text; what
      is shown is that text, formatted, and so it holds no newline. */
  lemma AnswerOk(reply: Reply<Result<Json>>)
    requires Answer(reply).Ok?
    ensures reply.Answered? && reply.ok && reply.body.Ok? && ReplyText(reply.body.value).Ok?
    ensures Answer(reply).value == FormatWebhookResponse(ReplyText(reply.body.value).value)
    ensures '\n' !in Answer(reply).value
  {
  }

  // ---------------------------------------------------------------------
  // Session state
  // ---------------------------------------------------------------------

  datatype Agent = Agent(id: string, nombre: string, descripcion: string, estado: string)

  /** A message on screen. `role` is a string because rows read back from the
      store carry whatever `rol` they were written with. */
  datatype Message = Message(id: string, content: string, role: string, agentId: string)

  /** A row of `mensajes` as written or read. */
  datatype MessageRow = MessageRow(conversationId: string, userId: Option<string>, rol: string, contenido: string)

  /** A row of `conversaciones` as inserted on first use. */
  datatype ConversationRow = ConversationRow(agenteId: string, userId: Option<string>, titulo: string)

  /** The text of the assistant message shown after a failed send. */
  function ErrorContent(message: string): (r: string)
    ensures StartsWith(r, "Error: No se pudo conectar con el webhook. ")
  {
    "Error: No se pudo conectar con el webhook. " + message
  }

  /** The message appended after the user's: the reply, or the error. */
  function AnswerMessage(later: nat, agentId: string, answer: Result<string>): (m: Message)
    ensures m.role == "assistant" && m.agentId == agentId
    ensures answer.Ok? ==> m.content == answer.value && m.id == NatToString(later + 1)
    ensures answer.Err? ==> m.content == ErrorContent(answer.message) && m.id == NatToString(later + 2)
  {
    match answer
    case Ok(c) => Message(NatToString(later + 1), c, "assistant", agentId)
    case Err(e) => Message(NatToString(later + 2), ErrorContent(e), "assistant", agentId)
  }

  /** The rows a send writes to `mensajes`: the user's text, then the reply when there is one. */
  function SentRows(conv: string, user: Option<string>, content: string, answer: Result<string>): (rows: seq<MessageRow>)
    ensures 1 <= |rows| <= 2 && rows[0] == MessageRow(conv, user, "usuario", content)
    ensures |rows| == 2 <==> answer.Ok?
    ensures answer.Ok? ==> rows[1] == MessageRow(conv, user, "asistente", answer.value)
  {
    [MessageRow(conv, user, "usuario", content)]
      + (if answer.Ok? then [MessageRow(conv, user, "asistente", answer.value)] else [])
  }

  /** A stored row as the screen shows it: `rol` is cast, not translated. */
  function FromRow(id: string, row: MessageRow, agentId: string): (m: Message)
    ensures m.content == row.contenido && m.role == row.rol
  {
    Message(id, row.contenido, row.rol, agentId)
  }

  /** The screen after a reload: one message per row, in the store's order. */
  function FromRows(ids: seq<string>, rows: seq<MessageRow>, agentId: string): (ms: seq<Message>)
    requires |ids| == |rows|
    ensures |ms| == |rows|
    ensures forall i :: 0 <= i < |rows| ==> ms[i] == FromRow(ids[i], rows[i], agentId)
  {
    if rows == [] then [] else [FromRow(ids[0], rows[0], agentId)] + FromRows(ids[1..], rows[1..], agentId)
  }

  /** Writes store `usuario`/`asistente`, and a reload shows those strings as
      the role, so a message sent as `user` does not come back as `user`. */
  lemma RoleNotRestored(conv: string, user: Option<string>, content: string, answer: Result<string>, id: string, agentId: string)
    ensures FromRow(id, SentRows(conv, user, content, answer)[0], agentId).role != "user"
    ensures answer.Ok? ==> FromRow(id, SentRows(conv, user, content, answer)[1], agentId).role != "assistant"
  {
  }

  /** The ids a send gives its two messages differ whenever the clock does not go back. */
  lemma SendIdsDiffer(now: nat, later: nat, answer: Result<string>)
    requires now <= later
    ensures AnswerMessage(later, "", answer).id != NatToString(now)
  {
    var k := if answer.Ok? then later + 1 else later + 2;
    if NatToString(k) == NatToString(now) {
      NatToStringInjective(k, now);
    }
  }

  /** `sendMessage` does nothing when the trimmed input is empty, no agent or
      conversation is loaded, or a send is in flight. */
  predicate CanSend(input: string, agent: Option<Agent>, conversationId: Option<string>, isLoading: bool)
  {
    Trim(input) != "" && agent.Some? && conversationId.Some? && !isLoading
  }

  /** How the conversation lookup went, as `loadConversation` reports it. */
  datatype Load = Loaded | NotLoaded(toast: string)

  /** The state of the chat screen: one field per `useState` variable. */
  class ChatSession {
    var user: Option<string>
    var agentId: string
    var agent: Option<Agent>
    var messages: seq<Message>
    var inputMessage: string
    var isLoading: bool
    var isTyping: bool
    var loadingAgent: bool
    var error: Option<string>
    var conversationId: Option<string>

    /** The agent id comes from the `agentId` URL parameter, else the prop, else "". */
    constructor (user: Option<string>, urlAgentId: Option<string>, initialAgentId: Option<string>)
      ensures this.user == user
      ensures urlAgentId.Some? && urlAgentId.value != "" ==> agentId == urlAgentId.value
      ensures !(urlAgentId.Some? && urlAgentId.value != "") && initialAgentId.Some? && initialAgentId.value != "" ==>
                agentId == initialAgentId.value
      ensures !(urlAgentId.Some? && urlAgentId.value != "") && !(initialAgentId.Some? && initialAgentId.value != "") ==>
                agentId == ""
      ensures agent == None && messages == [] && inputMessage == "" && !isLoading && !isTyping
      ensures !loadingAgent && error == None && conversationId == None
    {
      this.user := user;
      agentId := if urlAgentId.Some? && urlAgentId.value != "" then urlAgentId.value
                 else if initialAgentId.Some? && initialAgentId.value != "" then initialAgentId.value
                 else "";
      agent := None;
      messages := [];
      inputMessage := "";
      isLoading := false;
      isTyping := false;
      loadingAgent := false;
      error := None;
      conversationId := None;
    }

    /** `sendMessage`: the trimmed input is appended as the user's message and
        the input cleared; then the reply, or an error message, is appended
        after it. `now` and `later` are the clock readings the ids come from. */
    method SendMessage(now: nat, later: nat, reply: Reply<Result<Json>>)
      returns (written: seq<MessageRow>, outcome: Outcome)
      modifies this
      ensures !CanSend(old(inputMessage), old(agent), old(conversationId), old(isLoading)) ==>
                && written == [] && outcome == Ignored
                && messages == old(messages) && inputMessage == old(inputMessage)
                && isLoading == old(isLoading) && isTyping == old(isTyping)
      ensures CanSend(old(inputMessage), old(agent), old(conversationId), old(isLoading)) ==>
                && messages == old(messages)
                     + [Message(NatToString(now), Trim(old(inputMessage)), "user", old(agent).value.id),
                        AnswerMessage(later, old(agent).value.id, Answer(reply))]
                && written == SentRows(old(conversationId).value, user, Trim(old(inputMessage)), Answer(reply))
                && inputMessage == "" && !isLoading && !isTyping
                && outcome == (if Answer(reply).Ok? then Succeeded
                               else Failed("No se pudo enviar el mensaje: " + Answer(reply).message))
      ensures user == old(user) && agentId == old(agentId) && agent == old(agent)
      ensures loadingAgent == old(loadingAgent) && error == old(error) && conversationId == old(conversationId)
    {
      if !CanSend(inputMessage, agent, conversationId, isLoading) {
        return [], Ignored;
      }
      var answer := Answer(reply);
      written, outcome := Exchange(NatToString(now), AnswerMessage(later, agent.value.id, answer), answer);
    }

    /** The send past its guard: the user's message and then `reply` are
        appended, and the rows for `mensajes` are returned. */
    method Exchange(id: string, reply: Message, answer: Result<string>) returns (written: seq<MessageRow>, outcome: Outcome)
      requires agent.Some? && conversationId.Some?
      modifies this
      ensures messages == old(messages) + [Message(id, Trim(old(inputMessage)), "user", old(agent).value.id), reply]
      ensures written == SentRows(old(conversationId).value, old(user), Trim(old(inputMessage)), answer)
      ensures inputMessage == "" && !isLoading && !isTyping
      ensures outcome == (if answer.Ok? then Succeeded else Failed("No se pudo enviar el mensaje: " + answer.message))
      ensures user == old(user) && agentId == old(agentId) && agent == old(agent)
      ensures loadingAgent == old(loadingAgent) && error == old(error) && conversationId == old(conversationId)
    {
      var content := Trim(inputMessage);
      messages := messages + [Message(id, content, "user", agent.value.id)];
      inputMessage := "";
      isLoading := true;
      isTyping := true;
      written := SentRows(conversationId.value, user, content, answer);
      messages := messages + [reply];
      isTyping := false;
      isLoading := false;
      outcome := if answer.Ok? then Succeeded else Failed("No se pudo enviar el mensaje: " + answer.message);
    }

    /** `loadAgent`: fetch the agent; on success show it and load its
        conversation, otherwise show the error and no agent. */
    method LoadAgent(id: string, found: Single<Agent>, lookup: Single<string>, created: Result<string>,
                     rows: Result<seq<MessageRow>>, ids: seq<string>)
      returns (inserted: Option<ConversationRow>, load: Load)
      requires rows.Ok? ==> |ids| == |rows.value|
      modifies this
      ensures found.NoRows? ==> error == Some("Agente no encontrado o no tienes permisos para acceder a él")
      ensures found.QueryFailed? ==> error == Some("Error al cargar el agente")
      ensures !found.Found? ==>
                && agent == None && inserted == None && load == Loaded
                && messages == old(messages) && conversationId == old(conversationId)
      ensures found.Found? ==> agent == Some(found.row) && error == None
      ensures found.Found? ==> (inserted, load) == ConversationLoad(id, user, lookup, created, rows)
      ensures found.Found? ==> conversationId == LoadedConversation(lookup, created, old(conversationId))
      ensures found.Found? ==> messages == LoadedMessages(id, lookup, created, rows, ids, old(messages))
      ensures !loadingAgent
      ensures user == old(user) && agentId == old(agentId) && inputMessage == old(inputMessage)
      ensures isLoading == old(isLoading) && isTyping == old(isTyping)
    {
      loadingAgent := true;
      error := None;
      inserted, load := None, Loaded;
      match found {
        case NoRows =>
          error := Some("Agente no encontrado o no tienes permisos para acceder a él");
          agent := None;
        case QueryFailed(_) =>
          error := Some("Error al cargar el agente");
          agent := None;
        case Found(a) =>
          agent := Some(a);
          inserted, load := LoadConversation(id, lookup, created, rows, ids);
      }
      loadingAgent := false;
    }

    /** `loadConversation`: reuse the most recent conversation with the agent,
        create one only when there is none, then show its messages in order. */
    method LoadConversation(id: string, lookup: Single<string>, created: Result<string>,
                            rows: Result<seq<MessageRow>>, ids: seq<string>)
      returns (inserted: Option<ConversationRow>, load: Load)
      requires rows.Ok? ==> |ids| == |rows.value|
      modifies this
      ensures (inserted, load) == ConversationLoad(id, user, lookup, created, rows)
      ensures conversationId == LoadedConversation(lookup, created, old(conversationId))
      ensures messages == LoadedMessages(id, lookup, created, rows, ids, old(messages))
      ensures user == old(user) && agentId == old(agentId) && agent == old(agent)
      ensures inputMessage == old(inputMessage) && isLoading == old(isLoading) && isTyping == old(isTyping)
      ensures loadingAgent == old(loadingAgent) && error == old(error)
    {
      inserted, load := ConversationLoad(id, user, lookup, created, rows).0, ConversationLoad(id, user, lookup, created, rows).1;
      var conv := ConversationOf(lookup, created);
      if conv.Some? {
        conversationId := conv;
        if rows.Ok? {
          messages := FromRows(ids, rows.value, id);
        }
      }
    }

    /** The effect on `agentId`: a non-blank id loads that agent (trimmed);
        a blank one clears the agent, the messages and the conversation. */
    method AgentIdEffect(found: Single<Agent>, lookup: Single<string>, created: Result<string>,
                         rows: Result<seq<MessageRow>>, ids: seq<string>)
      returns (inserted: Option<ConversationRow>, load: Load)
      requires rows.Ok? ==> |ids| == |rows.value|
      modifies this
      ensures Trim(old(agentId)) == "" ==>
                && agent == None && messages == [] && conversationId == None
                && inserted == None && load == Loaded && error == old(error)
                && loadingAgent == old(loadingAgent)
      ensures Trim(old(agentId)) != "" ==> !loadingAgent
      ensures Trim(old(agentId)) != "" && found.Found? ==>
                && agent == Some(found.row) && error == None
                && (inserted, load) == ConversationLoad(Trim(old(agentId)), user, lookup, created, rows)
                && conversationId == LoadedConversation(lookup, created, old(conversationId))
                && messages == LoadedMessages(Trim(old(agentId)), lookup, created, rows, ids, old(messages))
      ensures Trim(old(agentId)) != "" && !found.Found? ==>
                && agent == None && inserted == None && load == Loaded
                && messages == old(messages) && conversationId == old(conversationId)
      ensures Trim(old(agentId)) != "" && found.NoRows? ==>
                error == Some("Agente no encontrado o no tienes permisos para acceder a él")
      ensures Trim(old(agentId)) != "" && found.QueryFailed? ==> error == Some("Error al cargar el agente")
      ensures user == old(user) && agentId == old(agentId) && inputMessage == old(inputMessage)
      ensures isLoading == old(isLoading) && isTyping == old(isTyping)
    {
      if Trim(agentId) != "" {
        inserted, load := LoadAgent(Trim(agentId), found, lookup, created, rows, ids);
      } else {
        agent := None;
        messages := [];
        conversationId := None;
        inserted, load := None, Loaded;
      }
    }

    /** The effect on the search parameters: a non-empty `agente` parameter
        that differs from the current id replaces it. */
    method SearchParamsEffect(agente: Option<string>)
      modifies this
      ensures agente.Some? && agente.value != "" ==> agentId == agente.value
      ensures !(agente.Some? && agente.value != "") ==> agentId == old(agentId)
      ensures user == old(user) && agent == old(agent) && messages == old(messages)
      ensures inputMessage == old(inputMessage) && isLoading == old(isLoading) && isTyping == old(isTyping)
      ensures loadingAgent == old(loadingAgent) && error == old(error) && conversationId == old(conversationId)
    {
      if agente.Some? && agente.value != "" && agente.value != agentId {
        agentId := agente.value;
      }
    }

    /** `clearConversation`: with a conversation, delete its messages in the
        store and empty the screen; the store's answer is not inspected. */
    method ClearConversation() returns (deleted: Option<string>)
      modifies this
      ensures deleted == old(conversationId)
      ensures old(conversationId).Some? ==> messages == []
      ensures old(conversationId).None? ==> messages == old(messages)
      ensures user == old(user) && agentId == old(agentId) && agent == old(agent)
      ensures inputMessage == old(inputMessage) && isLoading == old(isLoading) && isTyping == old(isTyping)
      ensures loadingAgent == old(loadingAgent) && error == old(error) && conversationId == old(conversationId)
    {
      deleted := conversationId;
      if conversationId.Some? {
        messages := [];
      }
    }
  }

  /** The conversation `loadConversation` settles on: the one found, or the one
      created when none exists; `None` when the lookup or the insert failed. */
  function ConversationOf(lookup: Single<string>, created: Result<string>): (r: Option<string>)
    ensures lookup.Found? ==> r == Some(lookup.row)
    ensures lookup.NoRows? ==> (r.Some? <==> created.Ok?) && (created.Ok? ==> r == Some(created.value))
    ensures lookup.QueryFailed? ==> r == None
  {
    match lookup
    case Found(c) => Some(c)
    case NoRows => if created.Ok? then Some(created.value) else None
    case QueryFailed(_) => None
  }

  /** The insert `loadConversation` makes (only when no conversation exists)
      and whether it ends with the conversation shown or with a toast. */
  function ConversationLoad(id: string, user: Option<string>, lookup: Single<string>, created: Result<string>,
                            rows: Result<seq<MessageRow>>): (r: (Option<ConversationRow>, Load))
    ensures r.0.Some? <==> lookup.NoRows?
    ensures r.0.Some? ==> r.0.value == ConversationRow(id, user, "Nueva conversación")
    ensures r.1 == Loaded <==> ConversationOf(lookup, created).Some? && rows.Ok?
    ensures r.1.NotLoaded? ==> r.1.toast == "No se pudo cargar la conversación"
  {
    var ins := if lookup.NoRows? then Some(ConversationRow(id, user, "Nueva conversación")) else None;
    var load := if ConversationOf(lookup, created).Some? && rows.Ok? then Loaded
                else NotLoaded("No se pudo cargar la conversación");
    (ins, load)
  }

  /** `conversationId` after a load: set as soon as a conversation is settled,
      before its messages are read. */
  function LoadedConversation(lookup: Single<string>, created: Result<string>, before: Option<string>): Option<string>
  {
    if ConversationOf(lookup, created).Some? then ConversationOf(lookup, created) else before
  }

  /** `messages` after a load: replaced by the stored rows in order, kept on any failure. */
  function LoadedMessages(id: string, lookup: Single<string>, created: Result<string>, rows: Result<seq<MessageRow>>,
                          ids: seq<string>, before: seq<Message>): seq<Message>
    requires rows.Ok? ==> |ids| == |rows.value|
  {
    if ConversationOf(lookup, created).Some? && rows.Ok? then FromRows(ids, rows.value, id) else before
  }

  /** A failed read of the messages still leaves the settled conversation selected. */
  lemma ConversationKeptOnMessageError(lookup: Single<string>, created: Result<string>, before: Option<string>, m: string)
    requires ConversationOf(lookup, created).Some?
    ensures LoadedConversation(lookup, created, before) == ConversationOf(lookup, created)
    ensures LoadedMessages("", lookup, created, Err(m), [], []) == []
  {
  }
}
