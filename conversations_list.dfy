/** The WhatsApp conversations sidebar: it lists the active conversations,
    filters them by a search term, and reloads whenever the table changes. */
module ConversationsList {
  import opened Js
  import opened Text
  import opened Lists

  /** A row of `conversaciones_whatsapp`; `ultimoMensajeFecha` is in milliseconds. */
  datatype Conversation = Conversation(
    id: string, instanciaId: string, numeroWhatsapp: string,
    nombreContacto: Option<string>, pushname: Option<string>,
    ultimoMensaje: Option<string>, ultimoMensajeFecha: Option<int>,
    mensajesNoLeidos: int, estado: string)

  /** `v?.toLowerCase().includes(lower)`: a missing field never matches. */
  predicate LowerIncludes(v: Option<string>, lower: string)
  {
    v.Some? && Includes(ToLower(v.value), lower)
  }

  /** The search rule: case-insensitive on the contact name, the pushname and
      the last message, case-sensitive on the number. */
  predicate Matches(c: Conversation, term: string)
  {
    var lower := ToLower(term);
    LowerIncludes(c.nombreContacto, lower) || LowerIncludes(c.pushname, lower)
    || Includes(c.numeroWhatsapp, term) || LowerIncludes(c.ultimoMensaje, lower)
  }

  /** `filteredConversations`. */
  function Filtered(list: seq<Conversation>, term: string): (r: seq<Conversation>)
    ensures forall c :: c in r <==> c in list && Matches(c, term)
    ensures |r| <= |list|
  {
    if list == [] then []
    else (if Matches(list[0], term) then [list[0]] else []) + Filtered(list[1..], term)
  }

  /** Filtering only leaves conversations out: the rest keep their order. */
  lemma {:induction false} FilteredSubsequence(list: seq<Conversation>, term: string)
    ensures Subsequence(Filtered(list, term), list)
  {
    if list != [] {
      FilteredSubsequence(list[1..], term);
      if Matches(list[0], term) {
        assert Filtered(list, term) == [list[0]] + Filtered(list[1..], term);
        assert Filtered(list, term)[1..] == Filtered(list[1..], term);
      } else {
        assert Filtered(list, term) == Filtered(list[1..], term);
      }
    }
  }

  /** An empty search term keeps every conversation. */
  lemma {:induction false} EmptyTermKeepsAll(list: seq<Conversation>)
    ensures Filtered(list, "") == list
  {
    if list != [] {
      IncludesEmpty(list[0].numeroWhatsapp);
      EmptyTermKeepsAll(list[1..]);
    }
  }

  /** Apart from the number, matching ignores the case of the term: two terms
      that lower-case alike match the same names, pushnames and messages. */
  lemma MatchIgnoresCase(c: Conversation, t1: string, t2: string)
    requires ToLower(t1) == ToLower(t2)
    requires Matches(c, t1) && !Includes(c.numeroWhatsapp, t1)
    ensures Matches(c, t2)
  {
  }

  /** `getDisplayName`: the pushname, else the contact name, else the number. */
  function DisplayName(c: Conversation): (r: string)
    ensures c.pushname.Some? && c.pushname.value != "" ==> r == c.pushname.value
    ensures !(c.pushname.Some? && c.pushname.value != "") && c.nombreContacto.Some? && c.nombreContacto.value != "" ==>
              r == c.nombreContacto.value
    ensures !(c.pushname.Some? && c.pushname.value != "") && !(c.nombreContacto.Some? && c.nombreContacto.value != "") ==>
              r == c.numeroWhatsapp
  {
    if c.pushname.Some? && c.pushname.value != "" then c.pushname.value
    else if c.nombreContacto.Some? && c.nombreContacto.value != "" then c.nombreContacto.value
    else c.numeroWhatsapp
  }

  /** `getInitials(name, phone)`: the initials of the trimmed name when it has
      any text, else the last two characters of the phone, else `'??'`. */
  function AvatarInitials(name: Option<string>, phone: Option<string>): (r: string)
    ensures 1 <= |r| <= 2
    ensures name.Some? && Trim(name.value) != "" ==> r == Initials(Trim(name.value))
    ensures !(name.Some? && Trim(name.value) != "") && phone.Some? && phone.value != "" ==>
              r == (if |phone.value| <= 2 then phone.value else phone.value[|phone.value| - 2..])
    ensures !(name.Some? && Trim(name.value) != "") && !(phone.Some? && phone.value != "") ==> r == "??"
  {
    if name.Some? && Trim(name.value) != "" then
      var t := Trim(name.value);
      assert t[0] != ' ' by { assert !IsWhitespace(t[0]); }
      Initials(t)
    else if phone.Some? && phone.value != "" then LastTwo(phone.value)
    else "??"
  }

  /** What `formatTime` shows: a text, or the day and month of the date as the
      locale writes them. */
  datatype TimeLabel = Label(text: string) | DayMonth(at: int)

  const Minute := 60000
  const Hour := 3600000

  /** `formatTime(date)` at time `now`, both in milliseconds. */
  function FormatTime(date: Option<int>, now: int): (r: TimeLabel)
    ensures date.None? ==> r == Label("")
    ensures date.Some? ==> (r == Label("ahora") <==> now - date.value < 2 * Minute)
    ensures date.Some? && 2 * Minute <= now - date.value < Hour ==>
              exists m: nat :: 2 <= m < 60 && m * Minute <= now - date.value < (m + 1) * Minute
                               && r == Label("hace " + NatToString(m) + "m")
    ensures date.Some? && Hour <= now - date.value < 24 * Hour ==>
              exists h: nat :: 1 <= h < 24 && h * Hour <= now - date.value < (h + 1) * Hour
                               && r == Label("hace " + NatToString(h) + "h")
    ensures date.Some? ==> (r == Label("ayer") <==> 24 * Hour <= now - date.value < 48 * Hour)
    ensures date.Some? ==> (r.DayMonth? <==> now - date.value >= 48 * Hour)
    ensures r.DayMonth? ==> r.at == date.value
  {
    if date.None? then Label("")
    else
      var diff := now - date.value;
      if diff < Hour then
        var minutes := diff / Minute;
        if minutes <= 1 then Label("ahora") else Label("hace " + NatToString(minutes) + "m")
      else if diff < 24 * Hour then Label("hace " + NatToString(diff / Hour) + "h")
      else if diff < 48 * Hour then Label("ayer")
      else DayMonth(date.value)
  }

  /** The unread badge: none at zero, the count up to 99, then `'99+'`. */
  function Badge(count: int): (r: Option<string>)
    ensures r.None? <==> count <= 0
    ensures r == Some("99+") <==> count > 99
    ensures 0 < count <= 99 ==>
              && r.Some? && |r.value| <= 2
              && (forall i :: 0 <= i < |r.value| ==> '0' <= r.value[i] <= '9')
              && DigitsValue(r.value) == count
  {
    if count <= 0 then None
    else if count > 99 then Some("99+")
    else
      NatToStringValue(count);
      assert count >= 10 ==> NatToString(count) == NatToString(count / 10) + [(48 + count % 10) as char];
      Some(NatToString(count))
  }

  /** The answer to the load query: rows (or none), an error the client
      returns, or an exception it throws. */
  datatype Answer = Rows(data: Option<seq<Conversation>>) | Refused(message: string) | Thrown(message: string)

  /** The state of the sidebar: one field per `useState` variable, plus whether
      the change subscription is open. */
  class Sidebar {
    var user: Option<User>
    var conversations: seq<Conversation>
    var loading: bool
    var searchTerm: string
    var error: Option<string>
    var subscribed: bool

    constructor (user: Option<User>)
      ensures this.user == user && conversations == [] && loading && searchTerm == ""
      ensures error == None && !subscribed
    {
      this.user := user;
      conversations := [];
      loading := true;
      searchTerm := "";
      error := None;
      subscribed := false;
    }

    /** `loadConversations`. `answer` is the query for active conversations,
        most recent first. */
    method LoadConversations(answer: Answer)
      modifies this
      ensures old(user).None? ==> conversations == old(conversations) && error == old(error)
      ensures old(user).Some? && answer.Rows? ==>
                conversations == (if answer.data.Some? then answer.data.value else []) && error == None
      ensures old(user).Some? && answer.Refused? ==>
                conversations == [] && error == Some("Error al cargar las conversaciones")
      ensures old(user).Some? && answer.Thrown? ==> conversations == [] && error == Some("Error de conexión")
      ensures !loading
      ensures user == old(user) && searchTerm == old(searchTerm) && subscribed == old(subscribed)
    {
      if user.None? {
        loading := false;
        return;
      }
      loading := true;
      error := None;
      match answer {
        case Rows(data) =>
          conversations := if data.Some? then data.value else [];
        case Refused(_) =>
          error := Some("Error al cargar las conversaciones");
          conversations := [];
        case Thrown(_) =>
          error := Some("Error de conexión");
          conversations := [];
      }
      loading := false;
    }

    /** The subscription effect: opened only for a signed-in user. */
    method Subscribe()
      modifies this
      ensures subscribed == (old(user).Some? || old(subscribed))
      ensures user == old(user) && conversations == old(conversations) && error == old(error)
      ensures loading == old(loading) && searchTerm == old(searchTerm)
    {
      if user.Some? {
        subscribed := true;
      }
    }

    /** A change notification on the table: a full reload while subscribed. */
    method OnTableChange(answer: Answer) returns (reloaded: bool)
      modifies this
      ensures reloaded == old(subscribed)
      ensures !reloaded ==>
                && conversations == old(conversations) && error == old(error) && loading == old(loading)
      ensures reloaded ==> !loading
      ensures reloaded && old(user).None? ==> conversations == old(conversations) && error == old(error)
      ensures reloaded && old(user).Some? && answer.Rows? ==>
                conversations == (if answer.data.Some? then answer.data.value else []) && error == None
      ensures reloaded && old(user).Some? && answer.Refused? ==>
                conversations == [] && error == Some("Error al cargar las conversaciones")
      ensures reloaded && old(user).Some? && answer.Thrown? ==>
                conversations == [] && error == Some("Error de conexión")
      ensures user == old(user) && searchTerm == old(searchTerm) && subscribed == old(subscribed)
    {
      reloaded := subscribed;
      if subscribed {
        LoadConversations(answer);
      }
    }

    /** The effect's cleanup on unmount: the channel is removed, and later
        changes no longer reload. */
    method Unsubscribe()
      modifies this
      ensures !subscribed
      ensures user == old(user) && conversations == old(conversations) && error == old(error)
      ensures loading == old(loading) && searchTerm == old(searchTerm)
    {
      subscribed := false;
    }
  }
}
