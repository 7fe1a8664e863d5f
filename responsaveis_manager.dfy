/** The responsável administration screen (`ResponsaveisManager.tsx`): a name-ordered list
    joined with regional names, an add form and inline edit of name and regional. */
module ResponsaveisManager {
  import opened Common
  import opened Text
  import opened Rows
  import opened Store

  const FillError := "Preencha todos os campos"
  const LoadError := "Erro ao carregar dados"
  const AddError := "Erro ao adicionar responsável"
  const UpdateError := "Erro ao atualizar responsável"
  const DeleteError := "Erro ao excluir responsável. Verifique se não há planos vinculados."

  /** The store's answer to each of the two loads `loadData` runs. */
  datatype LoadAnswers = LoadAnswers(regionais: Outcome, responsaveis: Outcome)

  /** The requests one `loadData` sends, both at once. */
  function LoadRequests(busy: bool): seq<Sent> {
    [Sent(Select(Regionais, AllColumns, []), busy), Sent(Select(Responsaveis, JoinParentNames, []), busy)]
  }

  class ResponsaveisScreen {
    const store: Store
    var responsaveis: seq<ResponsavelListed>
    var regionais: seq<Keyed<RegionalRow>>
    var newResponsavel: string
    var selectedRegional: string
    var editingId: Option<Id>
    var editingName: string
    var editingRegional: string
    var loading: bool
    var error: string

    /** The first render; the mount effect then runs `LoadData` once. */
    constructor (store: Store)
      ensures this.store == store
      ensures responsaveis == [] && regionais == [] && newResponsavel == "" && selectedRegional == ""
      ensures editingId.None? && editingName == "" && editingRegional == ""
      ensures !loading && error == ""
    {
      this.store := store;
      responsaveis, regionais, newResponsavel, selectedRegional := [], [], "", "";
      editingId, editingName, editingRegional := None, "", "";
      loading, error := false, "";
    }

    /** Both lists are the store's, by name, each responsável with its regional's name. */
    ghost predicate ShowsStore()
      reads this`regionais, this`responsaveis, store`regionais, store`responsaveis
    {
      && KeyedListing(regionais, store.regionais, NomeRegional, false)
      && ResponsavelListing(responsaveis, store.responsaveis, store.regionais)
    }

    /** What `loadData` leaves behind: the lists are replaced only when both arrive. */
    twostate predicate Reloaded(answers: LoadAnswers)
      reads this`regionais, this`responsaveis, this`loading, this`error, store`regionais, store`responsaveis, store`log
    {
      && store.log == old(store.log) + LoadRequests(loading)
      && (answers.regionais == Ok && answers.responsaveis == Ok ==> ShowsStore() && error == old(error))
      && (answers.regionais == Err || answers.responsaveis == Err ==>
            && regionais == old(regionais) && responsaveis == old(responsaveis) && error == LoadError)
    }

    method LoadData(answers: LoadAnswers)
      modifies this`regionais, this`responsaveis, this`error, store`log
      ensures Reloaded(answers)
    {
      var rs := store.SelectRegionais(answers.regionais, loading);
      var ps := store.SelectResponsaveisWithRegional(answers.responsaveis, loading);
      if rs.Failure? || ps.Failure? {
        error := LoadError;
        return;
      }
      regionais, responsaveis := rs.value, ps.value;
    }

    /** What the request part of `handleAdd` leaves behind: the name, as typed, is stored
        under the chosen regional with the signed-in user as creator, under the key the
        store assigns; a success clears the form and reloads both lists. */
    twostate predicate Added(user: Option<Id>, newId: Id, insertOutcome: Outcome, reload: LoadAnswers)
      reads this`regionais, this`responsaveis, this`newResponsavel, this`selectedRegional, this`loading, this`error, store
    {
      var added := insertOutcome == Ok && newId !in old(store.responsaveis);
      && !loading
      && store.regionais == old(store.regionais) && store.planos == old(store.planos)
      && store.responsaveis == (if added then old(store.responsaveis)[newId := ResponsavelRow(old(newResponsavel), old(selectedRegional), user)]
                                else old(store.responsaveis))
      && store.log == old(store.log) + [Sent(Insert(Responsaveis), true)] + (if added then LoadRequests(true) else [])
      && (!added ==> && newResponsavel == old(newResponsavel) && selectedRegional == old(selectedRegional)
                     && regionais == old(regionais) && responsaveis == old(responsaveis) && error == AddError)
      && (added ==> newResponsavel == "" && selectedRegional == "")
      && (added && reload.regionais == Ok && reload.responsaveis == Ok ==> ShowsStore() && error == "")
      && (added && (reload.regionais == Err || reload.responsaveis == Err) ==>
            regionais == old(regionais) && responsaveis == old(responsaveis) && error == LoadError)
    }

    /** `handleAdd`: a blank name or no regional is refused with a message and no request;
        after a successful add and reload the new responsável is listed with its
        regional's name. */
    method HandleAdd(user: Option<Id>, newId: Id, insertOutcome: Outcome, reload: LoadAnswers)
      modifies this`regionais, this`responsaveis, this`newResponsavel, this`selectedRegional, this`loading, this`error
      modifies store`responsaveis, store`log
      ensures Blank(old(newResponsavel)) || old(selectedRegional) == "" ==>
                && error == FillError && unchanged(store)
                && unchanged(this`regionais, this`responsaveis, this`newResponsavel, this`selectedRegional, this`loading)
      ensures !(Blank(old(newResponsavel)) || old(selectedRegional) == "") ==> Added(user, newId, insertOutcome, reload)
      ensures !(Blank(old(newResponsavel)) || old(selectedRegional) == "") && insertOutcome == Ok && newId !in old(store.responsaveis)
              && reload.regionais == Ok && reload.responsaveis == Ok ==>
                ResponsavelListed(newId, ResponsavelRow(old(newResponsavel), old(selectedRegional), user),
                                  RegionalNameOf(store.regionais, old(selectedRegional))) in responsaveis
    {
      if TrimsToEmpty(newResponsavel) || selectedRegional == "" {
        error := FillError;
        return;
      }
      SaveNew(user, newId, insertOutcome, reload);
    }

    /** The `try`/`finally` part of `handleAdd`. */
    method SaveNew(user: Option<Id>, newId: Id, insertOutcome: Outcome, reload: LoadAnswers)
      modifies this`regionais, this`responsaveis, this`newResponsavel, this`selectedRegional, this`loading, this`error
      modifies store`responsaveis, store`log
      ensures Added(user, newId, insertOutcome, reload)
      ensures insertOutcome == Ok && newId !in old(store.responsaveis) && reload.regionais == Ok && reload.responsaveis == Ok ==>
                ResponsavelListed(newId, ResponsavelRow(old(newResponsavel), old(selectedRegional), user),
                                  RegionalNameOf(store.regionais, old(selectedRegional))) in responsaveis
    {
      loading, error := true, "";
      var added := store.InsertResponsavel(newId, ResponsavelRow(newResponsavel, selectedRegional, user), insertOutcome, loading);
      if added {
        ClearInputsAndReload(reload, newId);
      } else {
        error := AddError;
      }
      loading := false;
    }

    /** The success path of `handleAdd`: both inputs are cleared and both lists reloaded, and
        a reload that succeeds lists the stored responsável `id` with its regional's name. */
    method ClearInputsAndReload(reload: LoadAnswers, ghost id: Id)
      modifies this`regionais, this`responsaveis, this`newResponsavel, this`selectedRegional, this`error, store`log
      ensures newResponsavel == "" && selectedRegional == ""
      ensures Reloaded(reload)
      ensures id in store.responsaveis && reload.regionais == Ok && reload.responsaveis == Ok ==>
                ResponsavelListed(id, store.responsaveis[id], RegionalNameOf(store.regionais, store.responsaveis[id].regional_id)) in responsaveis
    {
      newResponsavel, selectedRegional := "", "";
      LoadData(reload);
      if id in store.responsaveis && reload.regionais == Ok && reload.responsaveis == Ok {
        ResponsavelListingShows(responsaveis, store.responsaveis, store.regionais, id);
      }
    }

    /** The add button, disabled while a request runs or while there is no regional to
        choose; a disabled button submits nothing. */
    predicate AddDisabled()
      reads this
    {
      loading || |regionais| == 0
    }

    /** Pressing "Adicionar": only an enabled button reaches `handleAdd`. */
    method PressAdd(user: Option<Id>, newId: Id, insertOutcome: Outcome, reload: LoadAnswers) returns (submitted: bool)
      modifies this`regionais, this`responsaveis, this`newResponsavel, this`selectedRegional, this`loading, this`error
      modifies store`responsaveis, store`log
      ensures submitted == !old(AddDisabled())
      ensures !submitted ==> unchanged(this) && unchanged(store)
      ensures submitted && (Blank(old(newResponsavel)) || old(selectedRegional) == "") ==> error == FillError && unchanged(store)
      ensures submitted && !(Blank(old(newResponsavel)) || old(selectedRegional) == "") ==> Added(user, newId, insertOutcome, reload)
    {
      submitted := !AddDisabled();
      if submitted {
        HandleAdd(user, newId, insertOutcome, reload);
      }
    }

    /** What the request part of `handleEdit` leaves behind: name and regional, and nothing
        else, are written; a success leaves edit mode and reloads both lists. */
    twostate predicate Edited(id: Id, updateOutcome: Outcome, reload: LoadAnswers)
      reads this`regionais, this`responsaveis, this`editingId, this`editingName, this`editingRegional, this`loading, this`error, store
    {
      var updated := updateOutcome == Ok;
      && !loading
      && store.regionais == old(store.regionais) && store.planos == old(store.planos)
      && store.responsaveis == (if updated && id in old(store.responsaveis)
                                then old(store.responsaveis)[id := old(store.responsaveis)[id].(nome_responsavel := old(editingName), regional_id := old(editingRegional))]
                                else old(store.responsaveis))
      && store.log == old(store.log) + [Sent(Update(Responsaveis, id), true)] + (if updated then LoadRequests(true) else [])
      && (!updated ==> && editingId == old(editingId) && editingName == old(editingName) && editingRegional == old(editingRegional)
                       && regionais == old(regionais) && responsaveis == old(responsaveis) && error == UpdateError)
      && (updated ==> editingId.None? && editingName == "" && editingRegional == "")
      && (updated && reload.regionais == Ok && reload.responsaveis == Ok ==> ShowsStore() && error == "")
      && (updated && (reload.regionais == Err || reload.responsaveis == Err) ==>
            regionais == old(regionais) && responsaveis == old(responsaveis) && error == LoadError)
    }

    /** `handleEdit(id)`: a blank name or no regional is refused with a message and no
        request. */
    method HandleEdit(id: Id, updateOutcome: Outcome, reload: LoadAnswers)
      modifies this`regionais, this`responsaveis, this`editingId, this`editingName, this`editingRegional, this`loading, this`error
      modifies store`responsaveis, store`log
      ensures Blank(old(editingName)) || old(editingRegional) == "" ==>
                && error == FillError && unchanged(store)
                && unchanged(this`regionais, this`responsaveis, this`editingId, this`editingName, this`editingRegional, this`loading)
      ensures !(Blank(old(editingName)) || old(editingRegional) == "") ==> Edited(id, updateOutcome, reload)
    {
      if TrimsToEmpty(editingName) || editingRegional == "" {
        error := FillError;
        return;
      }
      SaveEdit(id, updateOutcome, reload);
    }

    /** The `try`/`finally` part of `handleEdit`. */
    method SaveEdit(id: Id, updateOutcome: Outcome, reload: LoadAnswers)
      modifies this`regionais, this`responsaveis, this`editingId, this`editingName, this`editingRegional, this`loading, this`error
      modifies store`responsaveis, store`log
      ensures Edited(id, updateOutcome, reload)
    {
      loading, error := true, "";
      var updated := store.UpdateResponsavel(id, editingName, editingRegional, updateOutcome, loading);
      if updated {
        EndEditAndReload(reload);
      } else {
        error := UpdateError;
      }
      loading := false;
    }

    /** The success path of `handleEdit`: edit mode ends and both lists are reloaded. */
    method EndEditAndReload(reload: LoadAnswers)
      modifies this`regionais, this`responsaveis, this`editingId, this`editingName, this`editingRegional, this`error, store`log
      ensures editingId.None? && editingName == "" && editingRegional == ""
      ensures Reloaded(reload)
    {
      editingId, editingName, editingRegional := None, "", "";
      LoadData(reload);
    }

    /** `handleDelete(id)`: nothing happens unless the user confirms; the store refuses
        the delete while planos still refer to the responsável. */
    method HandleDelete(id: Id, confirmed: bool, deleteOutcome: Outcome, reload: LoadAnswers)
      modifies this`regionais, this`responsaveis, this`loading, this`error, store`responsaveis, store`log
      ensures !confirmed ==> unchanged(this) && unchanged(store)
      ensures confirmed ==>
                var deleted := deleteOutcome == Ok;
                && !loading
                && store.responsaveis == (if deleted then old(store.responsaveis) - {id} else old(store.responsaveis))
                && store.log == old(store.log) + [Sent(Delete(Responsaveis, id), true)] + (if deleted then LoadRequests(true) else [])
                && (!deleted ==> regionais == old(regionais) && responsaveis == old(responsaveis) && error == DeleteError)
      ensures confirmed && deleteOutcome == Ok ==>
                && (reload.regionais == Ok && reload.responsaveis == Ok ==>
                      ShowsStore() && error == "" && forall i :: 0 <= i < |responsaveis| ==> responsaveis[i].id != id)
                && (reload.regionais == Err || reload.responsaveis == Err ==>
                      regionais == old(regionais) && responsaveis == old(responsaveis) && error == LoadError)
    {
      if !confirmed {
        return;
      }
      loading, error := true, "";
      var deleted := store.DeleteResponsavel(id, deleteOutcome, loading);
      if deleted {
        LoadData(reload);
      } else {
        error := DeleteError;
      }
      loading := false;
    }

    /** `startEdit`: the row enters edit mode with its current name and regional. */
    method StartEdit(responsavel: ResponsavelListed)
      modifies this`editingId, this`editingName, this`editingRegional
      ensures editingId == Some(responsavel.id)
      ensures editingName == responsavel.row.nome_responsavel && editingRegional == responsavel.row.regional_id
    {
      editingId, editingName, editingRegional := Some(responsavel.id), responsavel.row.nome_responsavel, responsavel.row.regional_id;
    }

    method CancelEdit()
      modifies this`editingId, this`editingName, this`editingRegional
      ensures editingId.None? && editingName == "" && editingRegional == ""
    {
      editingId, editingName, editingRegional := None, "", "";
    }

    /** The `onChange` handlers of the add form and of the edit row. */
    method SetNewResponsavel(value: string)
      modifies this`newResponsavel
      ensures newResponsavel == value
    {
      newResponsavel := value;
    }

    method SetSelectedRegional(value: string)
      modifies this`selectedRegional
      ensures selectedRegional == value
    {
      selectedRegional := value;
    }

    method SetEditingName(value: string)
      modifies this`editingName
      ensures editingName == value
    {
      editingName := value;
    }

    method SetEditingRegional(value: string)
      modifies this`editingRegional
      ensures editingRegional == value
    {
      editingRegional := value;
    }
  }
}
