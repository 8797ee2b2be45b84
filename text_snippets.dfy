/** An agent's text snippets: canned title/description pairs the user creates,
    edits in place and deletes, kept newest first. */
module TextSnippets {
  import opened Js
  import opened Text
  import opened Lists

  /** A row of `snippets`. */
  datatype Snippet = Snippet(id: string, agenteId: string, userId: string, titulo: string, descripcion: string)

  /** The insert sent on creation. */
  datatype SnippetInsert = SnippetInsert(agenteId: string, userId: string, titulo: string, descripcion: string)

  /** The update sent on saving an edit. */
  datatype SnippetUpdate = SnippetUpdate(titulo: string, descripcion: string)

  /** The snippet under edit, as the edit fields hold it. */
  datatype Editing = Editing(id: string, titulo: string, descripcion: string)

  const Required := "El título y la descripción son obligatorios"

  /** `prev.map(s => s.id === id ? row : s)`. */
  function ReplaceById(list: seq<Snippet>, id: string, row: Snippet): (r: seq<Snippet>)
    ensures |r| == |list|
    ensures forall i :: 0 <= i < |list| && list[i].id == id ==> r[i] == row
    ensures forall i :: 0 <= i < |list| && list[i].id != id ==> r[i] == list[i]
  {
    if list == [] then []
    else [if list[0].id == id then row else list[0]] + ReplaceById(list[1..], id, row)
  }

  /** Replacing again with the same row changes nothing more, as long as the
      row keeps the id. */
  lemma ReplaceByIdIdempotent(list: seq<Snippet>, id: string, row: Snippet)
    requires row.id == id
    ensures ReplaceById(ReplaceById(list, id, row), id, row) == ReplaceById(list, id, row)
  {
  }

  /** A list without that id is left as it was. */
  lemma ReplaceByIdAbsent(list: seq<Snippet>, id: string, row: Snippet)
    requires forall s :: s in list ==> s.id != id
    ensures ReplaceById(list, id, row) == list
  {
  }

  /** `prev.filter(s => s.id !== id)`. */
  function RemoveById(list: seq<Snippet>, id: string): (r: seq<Snippet>)
    ensures forall s :: s in r <==> s in list && s.id != id
    ensures |r| <= |list|
  {
    if list == [] then []
    else (if list[0].id != id then [list[0]] else []) + RemoveById(list[1..], id)
  }

  /** Deleting keeps the other snippets in their order. */
  lemma {:induction false} RemoveByIdSubsequence(list: seq<Snippet>, id: string)
    ensures Subsequence(RemoveById(list, id), list)
  {
    if list != [] {
      RemoveByIdSubsequence(list[1..], id);
      if list[0].id != id {
        assert RemoveById(list, id) == [list[0]] + RemoveById(list[1..], id);
      } else {
        assert RemoveById(list, id) == RemoveById(list[1..], id);
      }
    }
  }

  /** A list without that id is left as it was. */
  lemma {:induction false} RemoveByIdAbsent(list: seq<Snippet>, id: string)
    requires forall s :: s in list ==> s.id != id
    ensures RemoveById(list, id) == list
  {
    if list != [] {
      RemoveByIdAbsent(list[1..], id);
      assert list == [list[0]] + list[1..];
    }
  }

  /** Deleting twice is deleting once. */
  lemma RemoveByIdIdempotent(list: seq<Snippet>, id: string)
    ensures RemoveById(RemoveById(list, id), id) == RemoveById(list, id)
  {
    RemoveByIdAbsent(RemoveById(list, id), id);
  }

  /** The state of the snippets panel: one field per `useState` variable, plus
      its props. */
  class Panel {
    var user: Option<User>
    var agenteId: string
    var snippets: seq<Snippet>
    var loading: bool
    var error: Option<string>
    var isCreating: bool
    var editing: Option<Editing>
    var savingId: Option<string>
    var deletingId: Option<string>
    var newTitulo: string
    var newDescripcion: string

    constructor (user: Option<User>, agenteId: string)
      ensures this.user == user && this.agenteId == agenteId && snippets == [] && loading && error == None
      ensures !isCreating && editing == None && savingId == None && deletingId == None
      ensures newTitulo == "" && newDescripcion == ""
    {
      this.user := user;
      this.agenteId := agenteId;
      snippets := [];
      loading := true;
      error := None;
      isCreating := false;
      editing := None;
      savingId := None;
      deletingId := None;
      newTitulo := "";
      newDescripcion := "";
    }

    /** `loadSnippets`: `answer` is the agent's snippets, newest first, or the
        query's error. */
    method LoadSnippets(answer: Result<Option<seq<Snippet>>>) returns (outcome: Outcome)
      modifies this
      ensures old(user).None? || old(agenteId) == "" ==>
                outcome == Ignored && snippets == old(snippets) && loading == old(loading) && error == old(error)
      ensures old(user).Some? && old(agenteId) != "" && answer.Ok? ==>
                && snippets == (if answer.value.Some? then answer.value.value else [])
                && error == None && !loading && outcome == Succeeded
      ensures old(user).Some? && old(agenteId) != "" && answer.Err? ==>
                && snippets == old(snippets) && error == Some("Error al cargar los snippets") && !loading
                && outcome == Failed("No se pudieron cargar los snippets")
      ensures user == old(user) && agenteId == old(agenteId) && editing == old(editing)
      ensures isCreating == old(isCreating) && newTitulo == old(newTitulo) && newDescripcion == old(newDescripcion)
      ensures savingId == old(savingId) && deletingId == old(deletingId)
    {
      if user.None? || agenteId == "" {
        return Ignored;
      }
      loading := true;
      error := None;
      if answer.Err? {
        error := Some("Error al cargar los snippets");
        outcome := Failed("No se pudieron cargar los snippets");
      } else {
        snippets := if answer.value.Some? then answer.value.value else [];
        outcome := Succeeded;
      }
      loading := false;
    }

    /** `createSnippet`: `answer` is the stored row the insert returns. */
    method CreateSnippet(answer: Result<Snippet>) returns (sent: Option<SnippetInsert>, outcome: Outcome)
      modifies this
      ensures old(user).None? || Trim(old(newTitulo)) == "" || Trim(old(newDescripcion)) == "" ==>
                && sent == None && outcome == Refused(Required)
                && snippets == old(snippets) && newTitulo == old(newTitulo)
                && newDescripcion == old(newDescripcion) && isCreating == old(isCreating)
                && savingId == old(savingId)
      ensures !(old(user).None? || Trim(old(newTitulo)) == "" || Trim(old(newDescripcion)) == "") ==>
                && sent == Some(SnippetInsert(old(agenteId), old(user).value.id, Trim(old(newTitulo)), Trim(old(newDescripcion))))
                && savingId == None
                && (answer.Ok? ==>
                      && snippets == [answer.value] + old(snippets) && outcome == Succeeded
                      && newTitulo == "" && newDescripcion == "" && !isCreating)
                && (answer.Err? ==>
                      && snippets == old(snippets) && outcome == Failed("No se pudo crear el snippet")
                      && newTitulo == old(newTitulo) && newDescripcion == old(newDescripcion)
                      && isCreating == old(isCreating))
      ensures user == old(user) && agenteId == old(agenteId) && editing == old(editing)
      ensures loading == old(loading) && error == old(error) && deletingId == old(deletingId)
    {
      var titulo, descripcion := Trim(newTitulo), Trim(newDescripcion);
      if user.None? || titulo == "" || descripcion == "" {
        return None, Refused(Required);
      }
      savingId := Some("new");
      sent := Some(SnippetInsert(agenteId, user.value.id, titulo, descripcion));
      if answer.Err? {
        outcome := Failed("No se pudo crear el snippet");
      } else {
        snippets := [answer.value] + snippets;
        newTitulo, newDescripcion := "", "";
        isCreating := false;
        outcome := Succeeded;
      }
      savingId := None;
    }

    /** `updateSnippet(id)`: the edit fields are saved to the snippet `id`, and
        `answer` is the stored row the update returns. */
    method UpdateSnippet(id: string, answer: Result<Snippet>) returns (sent: Option<SnippetUpdate>, outcome: Outcome)
      modifies this
      ensures old(editing).None? || Trim(old(editing).value.titulo) == "" || Trim(old(editing).value.descripcion) == "" ==>
                && sent == None && outcome == Refused(Required)
                && snippets == old(snippets) && editing == old(editing) && savingId == old(savingId)
      ensures !(old(editing).None? || Trim(old(editing).value.titulo) == "" || Trim(old(editing).value.descripcion) == "") ==>
                && sent == Some(SnippetUpdate(Trim(old(editing).value.titulo), Trim(old(editing).value.descripcion)))
                && savingId == None
                && (answer.Ok? ==>
                      snippets == ReplaceById(old(snippets), id, answer.value) && editing == None && outcome == Succeeded)
                && (answer.Err? ==>
                      && snippets == old(snippets) && editing == old(editing)
                      && outcome == Failed("No se pudo actualizar el snippet"))
      ensures user == old(user) && agenteId == old(agenteId) && isCreating == old(isCreating)
      ensures newTitulo == old(newTitulo) && newDescripcion == old(newDescripcion)
      ensures loading == old(loading) && error == old(error) && deletingId == old(deletingId)
    {
      if editing.None? || Trim(editing.value.titulo) == "" || Trim(editing.value.descripcion) == "" {
        return None, Refused(Required);
      }
      var update := SnippetUpdate(Trim(editing.value.titulo), Trim(editing.value.descripcion));
      assert update == SnippetUpdate(Trim(old(editing).value.titulo), Trim(old(editing).value.descripcion));
      sent := Some(update);
      outcome := Save(id, answer);
    }

    /** The part of `updateSnippet` after its guard: the update runs with
        `savingId` set; the stored row replaces the edited one and editing
        ends, or an error keeps both. */
    method Save(id: string, answer: Result<Snippet>) returns (outcome: Outcome)
      modifies this
      ensures savingId == None
      ensures answer.Ok? ==> snippets == ReplaceById(old(snippets), id, answer.value) && editing == None && outcome == Succeeded
      ensures answer.Err? ==>
                snippets == old(snippets) && editing == old(editing) && outcome == Failed("No se pudo actualizar el snippet")
      ensures user == old(user) && agenteId == old(agenteId) && isCreating == old(isCreating)
      ensures newTitulo == old(newTitulo) && newDescripcion == old(newDescripcion)
      ensures loading == old(loading) && error == old(error) && deletingId == old(deletingId)
    {
      savingId := Some(id);
      if answer.Err? {
        outcome := Failed("No se pudo actualizar el snippet");
      } else {
        snippets := ReplaceById(snippets, id, answer.value);
        editing := None;
        outcome := Succeeded;
      }
      savingId := None;
    }

    /** `deleteSnippet(id)`: `confirmed` is the user's answer to the
        confirmation dialog and `answer` the store's answer to the delete. */
    method DeleteSnippet(id: string, confirmed: bool, answer: Result<()>) returns (outcome: Outcome)
      modifies this
      ensures !confirmed ==> outcome == Ignored && snippets == old(snippets) && deletingId == old(deletingId)
      ensures confirmed && answer.Ok? ==> snippets == RemoveById(old(snippets), id) && outcome == Succeeded
      ensures confirmed && answer.Err? ==>
                snippets == old(snippets) && outcome == Failed("No se pudo eliminar el snippet")
      ensures confirmed ==> deletingId == None
      ensures user == old(user) && agenteId == old(agenteId) && editing == old(editing)
      ensures isCreating == old(isCreating) && savingId == old(savingId)
      ensures newTitulo == old(newTitulo) && newDescripcion == old(newDescripcion)
      ensures loading == old(loading) && error == old(error)
    {
      if !confirmed {
        return Ignored;
      }
      deletingId := Some(id);
      if answer.Err? {
        outcome := Failed("No se pudo eliminar el snippet");
      } else {
        snippets := RemoveById(snippets, id);
        outcome := Succeeded;
      }
      deletingId := None;
    }

    /** `startEditing(snippet)`: the edit fields take the snippet's id, title
        and description. */
    method StartEditing(s: Snippet)
      modifies this
      ensures editing == Some(Editing(s.id, s.titulo, s.descripcion))
      ensures snippets == old(snippets) && isCreating == old(isCreating)
      ensures newTitulo == old(newTitulo) && newDescripcion == old(newDescripcion)
      ensures user == old(user) && agenteId == old(agenteId) && loading == old(loading) && error == old(error)
      ensures savingId == old(savingId) && deletingId == old(deletingId)
    {
      editing := Some(Editing(s.id, s.titulo, s.descripcion));
    }

    /** `cancelEditing`: the edit is dropped and nothing else changes. */
    method CancelEditing()
      modifies this
      ensures editing == None
      ensures snippets == old(snippets) && isCreating == old(isCreating)
      ensures newTitulo == old(newTitulo) && newDescripcion == old(newDescripcion)
      ensures user == old(user) && agenteId == old(agenteId) && loading == old(loading) && error == old(error)
      ensures savingId == old(savingId) && deletingId == old(deletingId)
    {
      editing := None;
    }

    /** `cancelCreating`: creation mode closes and the form empties. */
    method CancelCreating()
      modifies this
      ensures !isCreating && newTitulo == "" && newDescripcion == ""
      ensures snippets == old(snippets) && editing == old(editing)
      ensures user == old(user) && agenteId == old(agenteId) && loading == old(loading) && error == old(error)
      ensures savingId == old(savingId) && deletingId == old(deletingId)
    {
      isCreating := false;
      newTitulo, newDescripcion := "", "";
    }
  }
}
