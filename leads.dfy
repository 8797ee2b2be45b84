/** The contacts (leads) page: it lists the user's leads newest first, filters
    them by a search term, and creates leads from a three-field form. */
module Leads {
  import opened Js
  import opened Text
  import opened Lists

  /** A row of `leads`. */
  datatype Lead = Lead(id: string, nombre: Option<string>, pushname: Option<string>, numeroWhatsapp: string)

  /** The insert `createLead` sends. */
  datatype LeadInsert = LeadInsert(userId: string, nombre: Option<string>, pushname: string, numeroWhatsapp: string)

  /** The insert for the form's three fields: the trimmed name or `null`, the
      trimmed pushname or else the number as typed, and the trimmed number. */
  function MakeInsert(userId: string, nombre: string, pushname: string, numero: string): (r: LeadInsert)
    ensures r.nombre.None? <==> AllWhitespace(nombre)
    ensures r.nombre.Some? ==> r.nombre.value == Trim(nombre) && Includes(nombre, r.nombre.value)
    ensures !AllWhitespace(pushname) ==> r.pushname == Trim(pushname)
    ensures AllWhitespace(pushname) ==> r.pushname == numero
    ensures r.numeroWhatsapp == Trim(numero) && r.userId == userId
  {
    TrimEmptyIff(nombre);
    TrimEmptyIff(pushname);
    TrimOccurs(nombre);
    LeadInsert(userId,
               if Trim(nombre) != "" then Some(Trim(nombre)) else None,
               if Trim(pushname) != "" then Trim(pushname) else numero,
               Trim(numero))
  }

  /** The search rule: case-insensitive on name and pushname, case-sensitive
      on the number; a missing name never matches. */
  predicate Matches(lead: Lead, term: string)
  {
    var lower := ToLower(term);
    (lead.nombre.Some? && Includes(ToLower(lead.nombre.value), lower))
    || (lead.pushname.Some? && Includes(ToLower(lead.pushname.value), lower))
    || Includes(lead.numeroWhatsapp, term)
  }

  /** `filteredLeads`. */
  function Filtered(leads: seq<Lead>, term: string): (r: seq<Lead>)
    ensures forall l :: l in r <==> l in leads && Matches(l, term)
    ensures |r| <= |leads|
  {
    if leads == [] then []
    else (if Matches(leads[0], term) then [leads[0]] else []) + Filtered(leads[1..], term)
  }

  /** Filtering keeps the matching leads in their order. */
  lemma {:induction false} FilteredSubsequence(leads: seq<Lead>, term: string)
    ensures Subsequence(Filtered(leads, term), leads)
  {
    if leads != [] {
      FilteredSubsequence(leads[1..], term);
      if Matches(leads[0], term) {
        assert Filtered(leads, term) == [leads[0]] + Filtered(leads[1..], term);
      } else {
        assert Filtered(leads, term) == Filtered(leads[1..], term);
      }
    }
  }

  /** An empty search term keeps every lead. */
  lemma {:induction false} EmptyTermKeepsAll(leads: seq<Lead>)
    ensures Filtered(leads, "") == leads
  {
    if leads != [] {
      IncludesEmpty(leads[0].numeroWhatsapp);
      EmptyTermKeepsAll(leads[1..]);
    }
  }

  /** The name shown for a lead: `nombre || pushname`. */
  function DisplayName(lead: Lead): (r: Option<string>)
    ensures lead.nombre.Some? && lead.nombre.value != "" ==> r == lead.nombre
    ensures !(lead.nombre.Some? && lead.nombre.value != "") ==> r == lead.pushname
  {
    if lead.nombre.Some? && lead.nombre.value != "" then lead.nombre else lead.pushname
  }

  /** The avatar: `getInitials(nombre || pushname)`, at most two letters, `'??'`
      when neither name gives any. */
  function Avatar(lead: Lead): (r: string)
    ensures 1 <= |r| <= 2
    ensures DisplayName(lead).None? ==> r == "??"
    ensures DisplayName(lead).Some? && DisplayName(lead).value != [] && DisplayName(lead).value[0] != ' ' ==>
              r[0] == UpperChar(DisplayName(lead).value[0])
  {
    InitialsOr(DisplayName(lead))
  }

  /** The state of the page: one field per `useState` variable. */
  class Page {
    var user: Option<User>
    var leads: seq<Lead>
    var loading: bool
    var searchTerm: string
    var showCreateDialog: bool
    var nombre: string
    var pushname: string
    var numeroWhatsapp: string
    var creating: bool

    constructor (user: Option<User>)
      ensures this.user == user && leads == [] && loading && searchTerm == "" && !showCreateDialog
      ensures nombre == "" && pushname == "" && numeroWhatsapp == "" && !creating
    {
      this.user := user;
      leads := [];
      loading := true;
      searchTerm := "";
      showCreateDialog := false;
      nombre, pushname, numeroWhatsapp := "", "", "";
      creating := false;
    }

    /** `loadLeads`: `answer` is the user's leads, newest first, or the query's error. */
    method LoadLeads(answer: Result<Option<seq<Lead>>>) returns (outcome: Outcome)
      modifies this
      ensures old(user).None? ==> outcome == Ignored && leads == old(leads) && loading == old(loading)
      ensures old(user).Some? && answer.Ok? ==>
                leads == (if answer.value.Some? then answer.value.value else []) && outcome == Succeeded && !loading
      ensures old(user).Some? && answer.Err? ==>
                leads == old(leads) && outcome == Failed("Error al cargar los contactos") && !loading
      ensures user == old(user) && searchTerm == old(searchTerm) && showCreateDialog == old(showCreateDialog)
      ensures nombre == old(nombre) && pushname == old(pushname) && numeroWhatsapp == old(numeroWhatsapp)
      ensures creating == old(creating)
    {
      if user.None? {
        return Ignored;
      }
      if answer.Err? {
        outcome := Failed("Error al cargar los contactos");
      } else {
        leads := if answer.value.Some? then answer.value.value else [];
        outcome := Succeeded;
      }
      loading := false;
    }

    /** `createLead`: `insert` is the store's answer to the insert and `reload`
        what the reload after a successful insert reads. `outcome` is the
        toast of the insert and `reloaded` the reload's own toast, which
        `loadLeads` shows before the success toast. */
    method CreateLead(insert: Result<()>, reload: Result<Option<seq<Lead>>>)
      returns (sent: Option<LeadInsert>, outcome: Outcome, reloaded: Outcome)
      modifies this
      ensures old(user).None? || Trim(old(numeroWhatsapp)) == "" ==>
                && sent == None && outcome == Ignored && reloaded == Ignored
                && leads == old(leads) && creating == old(creating)
                && nombre == old(nombre) && pushname == old(pushname) && numeroWhatsapp == old(numeroWhatsapp)
                && showCreateDialog == old(showCreateDialog) && loading == old(loading)
      ensures old(user).Some? && Trim(old(numeroWhatsapp)) != "" ==>
                && sent == Some(MakeInsert(old(user).value.id, old(nombre), old(pushname), old(numeroWhatsapp)))
                && !creating
                && (insert.Ok? ==>
                      && outcome == Succeeded && nombre == "" && pushname == "" && numeroWhatsapp == ""
                      && !showCreateDialog && !loading
                      && leads == (if reload.Err? then old(leads)
                                   else if reload.value.Some? then reload.value.value else [])
                      && reloaded == (if reload.Err? then Failed("Error al cargar los contactos") else Succeeded))
                && (insert.Err? ==>
                      && outcome == Failed(MessageOr(insert.message, "Error al crear el contacto"))
                      && reloaded == Ignored && leads == old(leads) && showCreateDialog == old(showCreateDialog) && loading == old(loading)
                      && nombre == old(nombre) && pushname == old(pushname) && numeroWhatsapp == old(numeroWhatsapp))
      ensures user == old(user) && searchTerm == old(searchTerm)
    {
      var numero := Trim(numeroWhatsapp);
      if user.None? || numero == "" {
        return None, Ignored, Ignored;
      }
      var row := MakeInsert(user.value.id, nombre, pushname, numeroWhatsapp);
      assert row == MakeInsert(old(user).value.id, old(nombre), old(pushname), old(numeroWhatsapp));
      sent := Some(row);
      outcome, reloaded := Insert(insert, reload);
    }

    /** The part of `createLead` after its guard: the insert is sent while
        `creating` is set; success empties the form, closes the dialog and
        reloads, and an error keeps all of them and does not reload. */
    method Insert(insert: Result<()>, reload: Result<Option<seq<Lead>>>) returns (outcome: Outcome, reloaded: Outcome)
      requires user.Some?
      modifies this
      ensures !creating
      ensures insert.Ok? ==>
                && outcome == Succeeded && nombre == "" && pushname == "" && numeroWhatsapp == ""
                && !showCreateDialog && !loading
                && leads == (if reload.Err? then old(leads)
                             else if reload.value.Some? then reload.value.value else [])
                && reloaded == (if reload.Err? then Failed("Error al cargar los contactos") else Succeeded)
      ensures insert.Err? ==>
                && outcome == Failed(MessageOr(insert.message, "Error al crear el contacto")) && reloaded == Ignored
                && leads == old(leads) && showCreateDialog == old(showCreateDialog) && loading == old(loading)
                && nombre == old(nombre) && pushname == old(pushname) && numeroWhatsapp == old(numeroWhatsapp)
      ensures user == old(user) && searchTerm == old(searchTerm)
    {
      creating := true;
      if insert.Err? {
        outcome, reloaded := Failed(MessageOr(insert.message, "Error al crear el contacto")), Ignored;
      } else {
        nombre, pushname, numeroWhatsapp := "", "", "";
        showCreateDialog := false;
        reloaded := LoadLeads(reload);
        outcome := Succeeded;
      }
      creating := false;
    }
  }
}
