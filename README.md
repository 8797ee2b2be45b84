# WhatsApp and AI-agent dashboard: a Dafny model

This project models the client-side logic of a dashboard for AI chat agents and WhatsApp
inboxes. The dashboard is a React application backed by a hosted Postgres store and by
webhooks that run the agents and drive WhatsApp instances. The model covers the following:

- The agent chat screen (`Chat`):
  - the rewriting of webhook replies into HTML;
  - the choice of the reply field;
  - the state a send, an agent load, a conversation load and a clear leave behind.
- The WhatsApp instance screens (`WhatsAppInstances`, `WhatsAppConnection`):
  - the payload posted to the creation and QR webhooks;
  - when a reply leads to a stored instance;
  - the QR text;
  - the confirmation of a pairing.
- The WhatsApp inbox:
  - the conversation list with its search filter, relative times, avatars and unread badge (`ConversationsList`);
  - the conversation pane, which loads messages oldest first and sends outgoing text (`ChatWindow`).
- The text snippets of an agent (`TextSnippets`) and the contacts page (`Leads`).
- The agent creation and edit forms, with their field validation (`CreateAgent`, `EditAgent`).
- The application shell: page title, breadcrumbs, when the header is shown, and the context hook (`App`).

Each component's `useState` variables become the fields of a class. Each handler becomes a
method that modifies the class, and its contract states the whole new state. Everything the
handler waits for is a parameter of the method and enters the model as a plain value:

- the store's answer (`Result`, `Single`, `Lookup`, `Answer`);
- the webhook's reply (`Reply`, with the parsed body or the parse error);
- the QR library's image.

Toasts become an `Outcome` result (`Ignored`, `Refused`, `Failed(message)`, `Succeeded`) that
carries the exact text shown. JavaScript semantics the code relies on are written out in
modules `Js` and `Text`:

- truthiness and `||` fallbacks;
- property reads on `null`, which raise a `TypeError` with V8's message;
- `String.prototype.trim`, `split`, `join`, `includes`, `toLowerCase`/`toUpperCase`, `slice`, `substring` and global `replace`;
- `JSON.stringify` of strings;
- `Number.prototype.toString`.

`Lists.Subsequence` states that a filter keeps the order of what it keeps.

Files: `js.dfy`, `text.dfy`, `lists.dfy`, then one file per component.

Where the repository's written description of the system and its code disagree, the model follows the code:

- **Webhook status.** The written description gives a tolerant, case-insensitive reading of the
  webhook status that accepts "starting" or "ok". The connection form accepts only an array
  whose first element has `status` exactly `'STARTING'` (`WhatsAppConnection.Accepts`). The
  instances screen accepts any ok reply (`WhatsAppInstances.CreationOutcome`).
- **Initial status.** The written description names a "pending" status. The code stores `'pendiente'`
  (instances screen, table `whatsapp_instances`) or `'desconectado'` (connection form, table
  `instancias_whatsapp`).
- **Find-or-create.** The code does not deduplicate instances. It does not check for an existing
  instance before creating one. It sets no timeout on webhook calls.
- **Paired instances.** A paired instance is not blocked from pairing again in the store. Only
  the "connect with QR" button is hidden (`WhatsAppInstances.OffersQrConnect`).

The components also differ from one another, and the model keeps each as written:

- The instances screen uses table `whatsapp_instances` and field `estatus`. The connection form uses `instancias_whatsapp` and `estado`.
- The conversation pane resets the unread count in `no_leidos`. The conversation list reads `mensajes_no_leidos`.
- The chat screen takes its first agent id from the URL parameter `agentId`. Later changes come from `agente`.

## Model

| member | source | states |
|---|---|---|
| Js.ReadProperty | src/components/WhatsAppConnection.tsx:78 | reading a property fails exactly on `null`; otherwise it yields the object's field, or nothing |
| Js.WebhookFailure | src/components/WhatsAppInstances.tsx:162 | the error a rejected webhook reply raises: the TypeError for a `null` result, the reply's `message` when present, else "Error en el webhook" |
| Js.MessageOr | src/components/WhatsAppInstances.tsx:168 | the error's message when non-empty, else the fallback |
| Js.NatToStringValue | src/components/Chat.tsx:214 | the decimal digits of `Date.now().toString()` read back as the number they came from |
| Js.NatToStringInjective | src/components/Chat.tsx:261 | different clock readings give different message ids |
| Js.UnescapeEscape | src/components/WhatsAppInstances.tsx:242 | the escaping of a string by `JSON.stringify` is undone by JSON parsing: the QR text of a string keeps its content |
| Text.Trim | src/components/Chat.tsx:211 | `trim()` drops only white space at both ends: the result starts and ends with a non-space character |
| Text.TrimOccurs | src/components/Chat.tsx:215 | the trimmed text occurs inside the original, right after its leading white space |
| Text.TrimEmptyIff | src/components/Chat.tsx:211 | `!s.trim()` holds exactly when the text is all white space |
| Text.TrimIdempotent | src/pages/Leads.tsx:70-72 | trimming twice is trimming once |
| Text.ToLower | src/components/ConversationsList.tsx:101 | lower-casing maps each character and keeps the length |
| Text.IncludesToLower | src/components/ConversationsList.tsx:103-106 | a text that includes a term still includes it after both are lower-cased |
| Text.Split | src/components/WhatsAppInstances.tsx:102 | `split(sep)` gives at least one part, none contains the separator, and the first part is a prefix of the text |
| Text.JoinSplit | src/components/WhatsAppInstances.tsx:102 | joining the parts of a split with the separator gives the text back |
| Text.ReplaceAllRemoves | src/components/Chat.tsx:202 | replacing every newline with `<br>` leaves no newline |
| Text.ReplaceAllChars | src/components/Chat.tsx:207 | a global replace adds no character that neither the text nor the replacement has |
| Text.ReplaceAllAbsent | src/components/Chat.tsx:200 | a global replace of a pattern the text lacks changes nothing |
| Text.ReplaceAllSkip | src/components/Chat.tsx:200 | a prefix without the pattern's first character passes through a global replace untouched |
| Text.Take | src/components/CreateAgent.tsx:152 | `substring(0, n)` is the prefix of length min(n, length) |
| Text.LastTwo | src/components/ConversationsList.tsx:142 | `slice(-2)` is the suffix of length min(2, length) |
| Text.UpperOf | src/pages/Leads.tsx:106 | `toUpperCase` of one character is one character, or two for `ß`, and starts with its upper-case letter |
| Text.ToUpper | src/pages/Leads.tsx:106 | `toUpperCase` keeps or lengthens the text by at most double, starts with the first letter's upper case, and maps character by character when there is no `ß` |
| Text.Initials | src/pages/Leads.tsx:106 | the initials are at most two characters, and the first is the upper-cased first letter of a name that does not start with a space |
| Text.FirstLettersEmpty | src/pages/Leads.tsx:106 | taking each word's first letter yields nothing exactly when every word is empty |
| Text.SplitAllSeparators | src/pages/Leads.tsx:106 | splitting a run of spaces on spaces gives only empty words |
| Text.InitialsEmptyIff | src/pages/Leads.tsx:106 | the initials are empty, so that "??" is shown, exactly when the name is all spaces |
| Text.InitialsOr | src/components/ChatWindow.tsx:152-154 | `getInitials`: one or two characters; "??" for a missing or all-space name; otherwise the name's initials |
| Chat.FindClose | src/components/Chat.tsx:198 | the lazy `(.*?)\*\*` stops at the first `**` and never crosses a line terminator |
| Chat.FindCloseAt | src/components/Chat.tsx:198 | the first `**` reached without a line terminator is the one the match closes at |
| Chat.BoldPair | src/components/Chat.tsx:198 | `**x**` becomes `<strong>x</strong>` when `x` is on one line and holds no `**` |
| Chat.BoldAbsent | src/components/Chat.tsx:198 | a text without `**` is not changed by the bold rewrite |
| Chat.OpenParagraph | src/components/Chat.tsx:204 | `<p>` is put in front exactly when the text does not already start with it |
| Chat.CloseParagraphAsWritten | src/components/Chat.tsx:205 | as written, `</p>` is always appended, whatever the text ends with |
| Chat.CloseParagraph | src/components/Chat.tsx:203-205 | the corrected closing step, as the comment intends: `</p>` is appended exactly when the text does not already end with it |
| Chat.Wrap | src/components/Chat.tsx:203-205 | with the corrected closing step, the wrapped text starts with `<p>` and ends with `</p>` |
| Chat.WrapIdempotent | src/components/Chat.tsx:203-205 | with the corrected closing step, wrapping a wrapped text changes nothing |
| Chat.DoubleNewlineIsParagraph | src/components/Chat.tsx:199-202 | two lines separated by a blank line become two paragraphs, not two line breaks |
| Chat.FormatWebhookResponse | src/components/Chat.tsx:193-208 | as written: an empty reply formats to the empty text, and no formatted reply holds a newline |
| Chat.FormatIntended | src/components/Chat.tsx:193-208 | with the corrected closing step: an empty reply formats to the empty text, and no formatted reply holds a newline |
| Chat.FormatsAgree | src/components/Chat.tsx:203-205 | the as-written and corrected formatters agree on every text that does not already end with `</p>` once opened |
| Chat.ClosedTwice | src/components/Chat.tsx:205 | a reply that already is one closed paragraph gets a second `</p>` as written, and is left as it is with the intended step |
| Chat.ClosedTwiceExample | src/components/Chat.tsx:205 | "<p>hola</p>" formats to "<p>hola</p></p>" as written |
| Chat.ReplyText | src/components/Chat.tsx:258 | a `null` body raises the TypeError on `output`; any other body that succeeds gives non-empty text |
| Chat.ReplyFallback | src/components/Chat.tsx:258 | the reply is `output`, else `response`, else `message`, else "No se recibió respuesta del webhook" |
| Chat.Answer | src/components/Chat.tsx:253-255 | an unreachable webhook fails with its message, and a non-ok reply with "HTTP error! status: N" |
| Chat.AnswerOk | src/components/Chat.tsx:253-262 | a send succeeds only on an ok JSON reply with a text field, and shows that text formatted as written (stray `</p>` included), without newlines |
| Chat.ErrorContent | src/components/Chat.tsx:299 | the error message shown in the chat starts with "Error: No se pudo conectar con el webhook. " |
| Chat.AnswerMessage | src/components/Chat.tsx:260-266 | the assistant message holds the formatted reply (id now+1), or the error text (id now+2) |
| Chat.SentRows | src/components/Chat.tsx:228-235 | a send stores the user's text as `usuario`, and the reply as `asistente` exactly when there is one |
| Chat.FromRow | src/components/Chat.tsx:165-171 | a reloaded message keeps the stored content and takes the stored `rol` unchanged as its role |
| Chat.FromRows | src/components/Chat.tsx:165-171 | a reload shows one message per stored row, in order |
| Chat.RoleNotRestored | src/components/Chat.tsx:168 | a message stored as `usuario`/`asistente` does not come back as `user`/`assistant` |
| Chat.SendIdsDiffer | src/components/Chat.tsx:214 | the reply's id differs from the user message's id whenever the clock does not go back |
| Chat.ChatSession.constructor | src/components/Chat.tsx:51-60 | the agent id is the URL's `agentId`, else the prop, else ""; everything else starts empty |
| Chat.ChatSession.SendMessage | src/components/Chat.tsx:210-307 | a blocked send changes nothing; otherwise the trimmed text and then the reply (formatted as written) or error message are appended, the input is cleared, and the rows written are returned |
| Chat.ChatSession.Exchange | src/components/Chat.tsx:221-305 | the user's message and the reply are appended in order, and the loading and typing flags end cleared |
| Chat.ChatSession.LoadAgent | src/components/Chat.tsx:90-122 | PGRST116 gives the not-found error and other errors the load error, with no agent; a found agent is shown and its conversation loaded |
| Chat.ChatSession.LoadConversation | src/components/Chat.tsx:124-183 | the newest conversation is reused, and one is created only when none exists; its messages replace the screen; any failure toasts "No se pudo cargar la conversación" |
| Chat.ChatSession.AgentIdEffect | src/components/Chat.tsx:80-88 | a blank id clears the agent, messages and conversation; otherwise the trimmed id is loaded: a found agent is set with its conversation and messages, a missing one leaves them and sets the not-found or query error message |
| Chat.ChatSession.SearchParamsEffect | src/components/Chat.tsx:72-77 | a non-empty `agente` parameter becomes the agent id |
| Chat.ChatSession.ClearConversation | src/components/Chat.tsx:325-347 | with a conversation, its messages are deleted and the screen emptied; without one nothing happens |
| Chat.ConversationOf | src/components/Chat.tsx:127-152 | the conversation found, or the one created when none exists; none when the lookup or the insert fails |
| Chat.ConversationLoad | src/components/Chat.tsx:136-182 | a conversation is inserted exactly when none exists, titled "Nueva conversación"; the load succeeds exactly when a conversation is settled and its messages are read |
| Chat.ConversationKeptOnMessageError | src/components/Chat.tsx:154-163 | the conversation id is set before the messages are read, so a failed read keeps it |
| WhatsAppInstances.LocalPart | src/components/WhatsAppInstances.tsx:102 | `email.split('@')[0]` holds no '@' and is a prefix of the address |
| WhatsAppInstances.PayloadUserNameFallback | src/components/WhatsAppInstances.tsx:102 | the user name sent is never empty: the profile name, else the address before '@', else "Usuario" |
| WhatsAppInstances.PayloadPlan | src/components/WhatsAppInstances.tsx:103 | the plan sent is never empty: the profile's plan, else "freemium" |
| WhatsAppInstances.CreationResult | src/components/WhatsAppInstances.tsx:122-129 | a body that is not JSON becomes `{message: text}`; otherwise the parsed value |
| WhatsAppInstances.RawBodyFailure | src/components/WhatsAppInstances.tsx:122-129 | a rejected non-JSON reply reports its own text, or "Error en el webhook" when it is empty |
| WhatsAppInstances.CreationOutcome | src/components/WhatsAppInstances.tsx:134-170 | a creation succeeds exactly on an ok reply followed by a stored row; a non-ok reply fails with the webhook's message |
| WhatsAppInstances.QrText | src/components/WhatsAppInstances.tsx:234-242 | the QR text is a string result as it is, or anything else serialised; it is non-empty for a truthy reply |
| WhatsAppInstances.StatusText | src/components/WhatsAppInstances.tsx:331-338 | the three known statuses are shown capitalised, any other value as it is |
| WhatsAppInstances.StatusColor | src/components/WhatsAppInstances.tsx:322-329 | gray exactly for an unknown status |
| WhatsAppInstances.StatusColorDistinct | src/components/WhatsAppInstances.tsx:322-329 | two different known statuses never share a colour |
| WhatsAppInstances.MarkConnected | src/components/WhatsAppInstances.tsx:293-299 | the instance with the id becomes `conectado`, and every other entry stays as it was |
| WhatsAppInstances.MarkConnectedIdempotent | src/components/WhatsAppInstances.tsx:293-299 | confirming twice is confirming once |
| WhatsAppInstances.MarkConnectedOffers | src/components/WhatsAppInstances.tsx:293-299 | after confirming, the confirmed instance no longer offers pairing, and the others offer it as before |
| WhatsAppInstances.InstancesView.constructor | src/components/WhatsAppInstances.tsx:25-39 | the screen starts loading, with no instances, no modal and an empty form |
| WhatsAppInstances.InstancesView.LoadInstances | src/components/WhatsAppInstances.tsx:42-64 | without a user nothing happens; the rows replace the list, or the error toast is shown |
| WhatsAppInstances.InstancesView.CreateInstance | src/components/WhatsAppInstances.tsx:71-174 | the guard refuses blank fields; otherwise the trimmed payload is sent, and only a stored row enters the list, at its front, as `pendiente` |
| WhatsAppInstances.InstancesView.AddCreated | src/components/WhatsAppInstances.tsx:150-155 | the stored instance is put at the front, and the form is reset and closed |
| WhatsAppInstances.InstancesView.ConnectWithQr | src/components/WhatsAppInstances.tsx:177-276 | a truthy ok reply stores and shows its QR text and opens the modal for the instance; anything else fails with "Error al obtener el código QR" |
| WhatsAppInstances.InstancesView.ConfirmConnection | src/components/WhatsAppInstances.tsx:279-320 | without a current instance nothing happens; a store error keeps the modal; success marks the instance connected and closes the modal |
| WhatsAppConnection.MakePayload | src/components/WhatsAppConnection.tsx:54-65 | the name falls back to "Usuario" and the plan to "freemium"; the instance fields are sent untrimmed |
| WhatsAppConnection.Accepts | src/components/WhatsAppConnection.tsx:78 | accepted exactly on an ok, non-empty array whose first element has status `'STARTING'`; a `null` first element raises |
| WhatsAppConnection.AcceptsOnlyStarting | src/components/WhatsAppConnection.tsx:78 | any other status, any other case, or an empty array is refused even on an ok reply |
| WhatsAppConnection.Exchange | src/components/WhatsAppConnection.tsx:76-107 | a row is stored exactly when the reply is accepted, with estado `desconectado`; otherwise the webhook's message is raised |
| WhatsAppConnection.RejectedWritesNothing | src/components/WhatsAppConnection.tsx:105-107 | a reply that is not ok stores nothing and raises the webhook's message |
| WhatsAppConnection.ConnectionForm.constructor | src/components/WhatsAppConnection.tsx:12-16 | the form starts empty, with no created instance |
| WhatsAppConnection.ConnectionForm.CrearInstancia | src/components/WhatsAppConnection.tsx:18-118 | no user, an empty field or a failed profile read each stops with its message; an accepted and stored instance is kept and clears the form; every other failure keeps the form |
| WhatsAppConnection.ConnectionForm.ConectarConQr | src/components/WhatsAppConnection.tsx:120-140 | without a created instance nothing happens; with one it only announces "Función en desarrollo" |
| ChatWindow.OfConversation | src/components/ChatWindow.tsx:56-59 | exactly the rows of the conversation |
| ChatWindow.InsertByTime | src/components/ChatWindow.tsx:60 | inserting into an ascending list keeps it ascending and adds exactly that row |
| ChatWindow.SortByTime | src/components/ChatWindow.tsx:60 | `order('created_at', ascending)` gives an ascending permutation of the rows |
| ChatWindow.ToMessages | src/components/ChatWindow.tsx:64-71 | one message per row, in order |
| ChatWindow.MessagesAscending | src/components/ChatWindow.tsx:56-71 | the loaded messages are oldest first, one per row of the conversation |
| ChatWindow.MessagesComplete | src/components/ChatWindow.tsx:56-71 | every row of the conversation is loaded |
| ChatWindow.MessagesSound | src/components/ChatWindow.tsx:56-71 | every loaded message comes from a row of the conversation |
| ChatWindow.HeaderName | src/components/ChatWindow.tsx:175 | the header shows `nombre`, else `pushname` |
| ChatWindow.HeaderInitials | src/components/ChatWindow.tsx:175 | one or two characters; "??" without a name; starts with the upper-cased first letter of `nombre`, or of `pushname` when `nombre` is empty or missing |
| ChatWindow.Pane.constructor | src/components/ChatWindow.tsx:36-41 | the pane starts loading with no messages and an empty input |
| ChatWindow.Pane.LoadMessages | src/components/ChatWindow.tsx:52-91 | without a conversation nothing happens; the sorted messages are shown and the conversation is marked read, or "Error al cargar los mensajes" is shown |
| ChatWindow.Pane.SendMessage | src/components/ChatWindow.tsx:97-136 | a blank input, no user or a send in flight does nothing; the untrimmed text is sent as an outgoing `text` message; success clears the input and reloads, returning the reload's own toast ("Error al cargar los mensajes" when it fails) and the conversation it marks read |
| ConversationsList.Filtered | src/components/ConversationsList.tsx:100-108 | exactly the conversations whose name, pushname, last message (ignoring case) or number (as typed) includes the term |
| ConversationsList.FilteredSubsequence | src/components/ConversationsList.tsx:100-108 | the filter keeps the store's order |
| ConversationsList.EmptyTermKeepsAll | src/components/ConversationsList.tsx:100-108 | an empty search shows every conversation |
| ConversationsList.MatchIgnoresCase | src/components/ConversationsList.tsx:101-106 | a match on the text fields does not depend on the case of the term |
| ConversationsList.DisplayName | src/components/ConversationsList.tsx:145-149 | `pushname`, else the contact name, else the number |
| ConversationsList.AvatarInitials | src/components/ConversationsList.tsx:132-143 | the initials of the trimmed name, else the phone's last two digits, else "??"; always one or two characters |
| ConversationsList.FormatTime | src/components/ConversationsList.tsx:110-130 | "" without a date; "ahora" under two minutes; minutes under an hour; hours under a day; "ayer" under two days; the date after that |
| ConversationsList.Badge | src/components/ConversationsList.tsx:263-266 | no badge for no unread messages; "99+" above 99; otherwise the count's digits |
| ConversationsList.Sidebar.constructor | src/components/ConversationsList.tsx:32-36 | the list starts loading, empty, with no error and no subscription |
| ConversationsList.Sidebar.LoadConversations | src/components/ConversationsList.tsx:38-70 | without a user only loading ends; rows replace the list; a refused query or a thrown error empties it with its message |
| ConversationsList.Sidebar.Subscribe | src/components/ConversationsList.tsx:77-93 | a channel is opened only when there is a user |
| ConversationsList.Sidebar.OnTableChange | src/components/ConversationsList.tsx:89-91 | a change reloads the list only while subscribed; the reload ends not loading and sets the rows, or an empty list with "Error al cargar las conversaciones" or "Error de conexión" |
| ConversationsList.Sidebar.Unsubscribe | src/components/ConversationsList.tsx:95-97 | the channel is removed, and nothing else changes |
| TextSnippets.ReplaceById | src/components/TextSnippets.tsx:163-165 | the snippet with the id is replaced by the stored row, and the others stay in place |
| TextSnippets.ReplaceByIdIdempotent | src/components/TextSnippets.tsx:163-165 | replacing twice is replacing once |
| TextSnippets.ReplaceByIdAbsent | src/components/TextSnippets.tsx:163-165 | an id not in the list changes nothing |
| TextSnippets.RemoveById | src/components/TextSnippets.tsx:201 | exactly the snippets with another id remain |
| TextSnippets.RemoveByIdSubsequence | src/components/TextSnippets.tsx:201 | deleting keeps the order of the rest |
| TextSnippets.RemoveByIdAbsent | src/components/TextSnippets.tsx:201 | deleting an id not in the list changes nothing |
| TextSnippets.RemoveByIdIdempotent | src/components/TextSnippets.tsx:201 | deleting twice is deleting once |
| TextSnippets.Panel.constructor | src/components/TextSnippets.tsx:41-53 | the panel starts loading, empty, with nothing being edited |
| TextSnippets.Panel.LoadSnippets | src/components/TextSnippets.tsx:56-83 | without a user or an agent nothing happens; rows replace the list; an error sets "Error al cargar los snippets"; the edit and delete markers are kept |
| TextSnippets.Panel.CreateSnippet | src/components/TextSnippets.tsx:86-132 | no user or a blank field is refused with "El título y la descripción son obligatorios"; the trimmed snippet is inserted, and the stored one goes first and closes the form; loading, error and the delete marker are kept |
| TextSnippets.Panel.UpdateSnippet | src/components/TextSnippets.tsx:135-182 | no edit or a blank field is refused with the same message; the trimmed edit is saved under the given id, and the stored row replaces it; loading, error and the delete marker are kept |
| TextSnippets.Panel.Save | src/components/TextSnippets.tsx:145-181 | the save runs with `savingId` set and ends with it cleared; the stored row replaces the edited one and editing ends, or an error keeps the list and the edit; the rest is unchanged |
| TextSnippets.Panel.DeleteSnippet | src/components/TextSnippets.tsx:185-217 | without confirmation nothing happens; a delete removes the id from the list; loading and error are kept |
| TextSnippets.Panel.StartEditing | src/components/TextSnippets.tsx:220-226 | the snippet's id, title and description are copied into the edit state; the list, user, agent, loading, error and markers are kept |
| TextSnippets.Panel.CancelEditing | src/components/TextSnippets.tsx:229-231 | editing ends, and nothing else changes |
| TextSnippets.Panel.CancelCreating | src/components/TextSnippets.tsx:234-237 | the creation form closes and empties; the list, user, agent, loading, error and markers are kept |
| Leads.MakeInsert | src/pages/Leads.tsx:69-74 | the name is trimmed, or absent when blank; the pushname is trimmed, else the number as typed; the number is trimmed |
| Leads.Filtered | src/pages/Leads.tsx:99-103 | exactly the contacts whose name or pushname (ignoring case) or number includes the term |
| Leads.FilteredSubsequence | src/pages/Leads.tsx:99-103 | the filter keeps the store's order |
| Leads.EmptyTermKeepsAll | src/pages/Leads.tsx:99-103 | an empty search shows every contact |
| Leads.DisplayName | src/pages/Leads.tsx:223 | `nombre`, else `pushname` |
| Leads.Avatar | src/pages/Leads.tsx:218 | one or two characters; "??" without a name; starts with the upper-cased first letter of the name |
| Leads.Page.constructor | src/pages/Leads.tsx:23-32 | the page starts loading, empty, with the dialog closed |
| Leads.Page.LoadLeads | src/pages/Leads.tsx:34-56 | without a user nothing happens; rows replace the list; an error shows "Error al cargar los contactos" |
| Leads.Page.CreateLead | src/pages/Leads.tsx:62-97 | no user or a blank number does nothing; the contact is inserted; success resets and closes the dialog and reloads, returning the reload's own toast ("Error al cargar los contactos" when it fails); an error is shown with its message; a refusal or an error leaves the loading flag |
| Leads.Page.Insert | src/pages/Leads.tsx:65-96 | the insert runs with `creating` set and ends with it cleared; success empties the form, closes the dialog and reloads, returning the reload's own toast; an error is shown with its message and keeps the form, dialog, list and loading flag |
| CreateAgent.With | src/components/CreateAgent.tsx:103 | setting one field leaves the others as they were |
| CreateAgent.NameError | src/components/CreateAgent.tsx:85-89 | the name passes exactly when it is not blank and has 3 to 50 characters, each failure with its message |
| CreateAgent.DescriptionError | src/components/CreateAgent.tsx:90-92 | the description passes exactly when it has at most 200 characters |
| CreateAgent.PromptError | src/components/CreateAgent.tsx:93-97 | the prompt passes exactly when it is not blank and has 20 to 2000 characters, each failure with its message |
| CreateAgent.PaddedNamePasses | src/components/CreateAgent.tsx:86-87 | the length rule counts untrimmed characters: "  a" passes and "a" fails |
| CreateAgent.CollectErrors | src/components/CreateAgent.tsx:110-121 | the error map holds exactly the fields that fail, with their messages; the form is valid exactly when it is empty |
| CreateAgent.ValidIff | src/components/CreateAgent.tsx:113-120 | the form is valid exactly when every field passes |
| CreateAgent.PresetsValid | src/components/CreateAgent.tsx:39-60 | every predefined prompt passes the prompt rule |
| CreateAgent.InsertDescription | src/components/CreateAgent.tsx:152 | the trimmed description, else the prompt's first 100 characters followed by "..."; never empty |
| CreateAgent.InsertDescriptionBound | src/components/CreateAgent.tsx:152 | for a valid form the stored description has 1 to 200 characters |
| CreateAgent.Creator.constructor | src/components/CreateAgent.tsx:66-76 | the form starts empty, with no errors and no preset selected |
| CreateAgent.Creator.HandleInputChange | src/components/CreateAgent.tsx:102-108 | the field takes the value, and its error is recomputed; other fields and errors stay |
| CreateAgent.Creator.SelectPredefinedPrompt | src/components/CreateAgent.tsx:205-210 | the preset's prompt fills the prompt field and its error is cleared |
| CreateAgent.Creator.ValidateForm | src/components/CreateAgent.tsx:110-121 | the errors are recomputed for every field, each with its field's message, and the result says the form is valid |
| CreateAgent.Creator.HandleSubmit | src/components/CreateAgent.tsx:123-187 | no user changes nothing; otherwise the errors become the failing fields with their messages, and an invalid form stops with the rest unchanged; the agent is inserted `activo` with the trimmed name; success records the id and resets the form |
| CreateAgent.Creator.Insert | src/components/CreateAgent.tsx:144-185 | the insert sends the trimmed row of the current form and ends not loading; success records the id, shows success and resets the form; an error leaves the form |
| EditAgent.ValidateField | src/components/EditAgent.tsx:97-109 | the name and description rules are those of the creation form |
| EditAgent.CollectErrors | src/components/EditAgent.tsx:120-127 | the error map holds exactly the fields that fail, with their messages; the form is valid exactly when it is empty |
| EditAgent.FormOf | src/components/EditAgent.tsx:84-87 | the form takes the agent's name and description, "" when missing |
| EditAgent.UpdateDescription | src/components/EditAgent.tsx:160 | the trimmed description, else "Agente de IA personalizado" |
| EditAgent.Editor.constructor | src/components/EditAgent.tsx:45-59 | the editor starts loading the agent, with an empty form |
| EditAgent.Editor.LoadAgent | src/components/EditAgent.tsx:62-94 | without an id or a user nothing happens; PGRST116 and other errors each set their message; a found agent fills the form |
| EditAgent.Editor.HandleInputChange | src/components/EditAgent.tsx:111-117 | the field takes the value and its error is recomputed; the other stays |
| EditAgent.Editor.ValidateForm | src/components/EditAgent.tsx:119-130 | the error state becomes exactly the failing fields; the answer is whether the form is valid; the form is untouched |
| EditAgent.Editor.HandleSubmit | src/components/EditAgent.tsx:132-185 | no user or id, or an invalid form, stops with its message and the rest unchanged; the errors are the failing fields with their messages; the trimmed update is sent; success redirects to `/agentes/<id>` |
| EditAgent.Editor.Update | src/components/EditAgent.tsx:153-183 | the update sends the trimmed form under the id and ends not loading; success redirects to `/agentes/<id>`, an error reports it; the form and the rest are unchanged |
| App.NonEmptyParts | src/App.tsx:64 | `filter(Boolean)` keeps exactly the non-empty parts |
| App.Segments | src/App.tsx:64 | the path's segments are non-empty and hold no '/', and are exactly the non-empty pieces of the path split at '/' |
| App.SegmentsLeadingSlash | src/App.tsx:64 | a leading '/' adds no segment |
| App.SegmentsSingle | src/App.tsx:64 | "/x" has the single segment x |
| App.SegmentsPair | src/App.tsx:64 | "/a/b" has the segments a and b |
| App.Breadcrumbs | src/App.tsx:63-79 | "Inicio" first; "Agentes" exactly under `agentes`; "Crear Agente" exactly under `agentes` and `nuevo`, right after "Agentes"; "Chat" exactly under `chat`, and last; every other crumb is one of those three, and no crumb repeats |
| App.TrailFacts | src/App.tsx:66-77 | the crumb trail built from any segment list has those properties |
| App.CrumbsDistinct | src/App.tsx:66-77 | the four crumbs differ from one another |
| App.ChatTrail | src/App.tsx:63-79 | `/chat` shows Inicio, Chat |
| App.GetBreadcrumbs | src/App.tsx:63-79 | the trail built by successive pushes is the breadcrumb trail of the path, starting at home, with one to four crumbs |
| App.NewAgentTrail | src/App.tsx:63-79 | `/agentes/nuevo` shows Inicio, Agentes, Crear Agente |
| App.PageTitle | src/App.tsx:50-61 | the title of each known path, and "Koonetxa Chats" for any other |
| App.TitleIsLastCrumb | src/App.tsx:50-79 | on `/agentes/nuevo` and `/chat` the title is the last breadcrumb |
| App.HeaderIffChrome | src/App.tsx:81-83 | the header is drawn exactly when the layout adds its chrome: a signed-in user off the `/`, `/auth` and `/landing` pages |
| App.UseAppContext | src/App.tsx:35-41 | the context when provided, else the error "useAppContext must be used within AppProvider" |

## Left out

- Network, store and clock: the store, the webhooks, `fetch`, `response.json()`/`text()`, `Date.now()` and the QR library are not called. Their answers are parameters of the handlers.
- Concurrency: React's asynchronous state updates, effects re-running, and overlapping handlers are not modelled. A handler runs to completion on the state it started from.
- Rendering: toasts, navigation other than the edit form's redirect, dialogs, scrolling, clipboard copies and the JSX layout are left out. Only the values they show are modelled.
- Realtime: the realtime channel of the conversation list is modelled as a `subscribed` flag and a change event. The transport is left out.
- Store behaviour: the store's filtering and ordering of conversations, contacts, snippets and instances (`order(...)`, `eq(...)`) is taken as given in the rows passed in. The one exception is the message query of the conversation pane, which is modelled.
- JSON parsing: the parser is not modelled. A body arrives parsed (`Json`) or as the parser's error or raw text.
- Character handling:
  - Strings are sequences of characters, so UTF-16 lengths of astral characters differ.
  - Case mapping covers ASCII and Latin-1, including `ß` to `SS`, `ÿ` to `Ÿ` and the micro sign to `Μ`; other scripts are left unchanged.
  - `trim` white space is the ECMAScript set within the Basic Multilingual Plane.
- ConversationsList.FormatTime: time is in integer milliseconds, and `Math.floor` of the floating-point quotient is taken as integer division. The `toLocaleDateString` branch yields the date itself (`DayMonth`) rather than a locale string.
- CreateAgent.Creator.HandleInputChange, CreateAgent.Creator.SelectPredefinedPrompt and EditAgent.Editor.HandleInputChange: the JavaScript `errors` object keeps a field set to `undefined` once it passes again. The model removes that key, which renders the same.
- CreateAgent.Creator.HandleSubmit: the optional `onAgentCreated` callback is not modelled. Neither are the success toasts, whose text interpolates the name.
- Out of scope, as presentation, stubs or static content, are the following. They are not part of this model:
  - the database viewer (`src/components/DatabaseViewer.tsx`);
  - the agent playground, whose reply is simulated with a timer;
  - the badge lookups of the agent detail page and of the agents menu;
  - the dashboard's token sum;
  - the landing page, the sidebar and the QR modal;
  - the page wrappers;
  - the store's type declarations.
- Regular expressions: only the rewrite steps of `formatWebhookResponse` are modelled, as string functions. The regular-expression engine is not.

## Findings

| source | as written | input that shows it | evidently intended | confidence | as-written member | corrected member |
|---|---|---|---|---|---|---|
| src/components/Chat.tsx:205 | `.replace(/(?!<\/p>)$/, '</p>')` appends `</p>` after every text, because at the end nothing follows and the look-ahead always succeeds | the reply "<p>hola</p>" formats to "<p>hola</p></p>" | append `</p>` only when the text does not already end with it, as the comment on line 203 says | high; not executed | Chat.ClosedTwiceExample | Chat.ClosedTwice |
