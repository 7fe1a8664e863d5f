/** The regional administration screen (`RegionaisManager.tsx`): a name-ordered list with
    an add box, inline rename and delete. */
module RegionaisManager {
  import opened Common
  import opened Text
  import opened Rows
  import opened Store

  const LoadError := "Erro ao carregar regionais"
  const AddError := "Erro ao adicionar regional"
  const UpdateError := "Erro ao atualizar regional"
  const DeleteError := "Erro ao excluir regional. Verifique se não há responsáveis vinculados."

  class RegionaisScreen {
    const store: Store
    var regionais: seq<Keyed<RegionalRow>>
    var newRegional: string
    var editingId: Option<Id>
    var editingName: string
    var loading: bool
    var error: string

    /** The first render; the mount effect then runs `LoadRegionais` once. */
    constructor (store: Store)
      ensures this.store == store
      ensures regionais == [] && newRegional == "" && editingId.None? && editingName == ""
      ensures !loading && error == ""
    {
      this.store := store;
      regionais, newRegional, editingId, editingName := [], "", None, "";
      loading, error := false, "";
    }

    /** The list is the store's regionais, by name. */
    ghost predicate ShowsStore()
      reads this`regionais, store`regionais
    {
      KeyedListing(regionais, store.regionais, NomeRegional, false)
    }

    /** `loadRegionais`: a failure keeps the old list; a success does not clear an earlier message. */
    method LoadRegionais(outcome: Outcome)
      modifies this`regionais, this`error, store`log
      ensures outcome == Ok ==> ShowsStore() && error == old(error)
      ensures outcome == Err ==> regionais == old(regionais) && error == LoadError
      ensures store.log == old(store.log) + [Sent(Select(Regionais, AllColumns, []), loading)]
    {
      var r := store.SelectRegionais(outcome, loading);
      if r.Success? {
        regionais := r.value;
      } else {
        error := LoadError;
      }
    }

    /** What the request part of `handleAdd` leaves behind: the name, as typed and
        untrimmed, is stored with the signed-in user as creator under the key the store
        assigns; a success clears the add box and reloads the list. */
    twostate predicate Added(user: Option<Id>, newId: Id, insertOutcome: Outcome, reloadOutcome: Outcome)
      reads this, store
    {
      var added := insertOutcome == Ok && newId !in old(store.regionais);
      && !loading
      && store.responsaveis == old(store.responsaveis) && store.planos == old(store.planos)
      && store.regionais == (if added then old(store.regionais)[newId := RegionalRow(old(newRegional), user)] else old(store.regionais))
      && store.log == old(store.log) + [Sent(Insert(Regionais), true)] + (if added then [Sent(Select(Regionais, AllColumns, []), true)] else [])
      && (!added ==> newRegional == old(newRegional) && regionais == old(regionais) && error == AddError)
      && (added ==> newRegional == "")
      && (added && reloadOutcome == Ok ==> ShowsStore() && error == "")
      && (added && reloadOutcome == Err ==> regionais == old(regionais) && error == LoadError)
    }

    /** `handleAdd`: a name that is empty or all whitespace is ignored without a request;
        after a successful add and reload the new regional is listed. */
    method HandleAdd(user: Option<Id>, newId: Id, insertOutcome: Outcome, reloadOutcome: Outcome)
      modifies this`regionais, this`newRegional, this`loading, this`error, store`regionais, store`log
      ensures Blank(old(newRegional)) ==> unchanged(this) && unchanged(store)
      ensures !Blank(old(newRegional)) ==> Added(user, newId, insertOutcome, reloadOutcome)
      ensures !Blank(old(newRegional)) && insertOutcome == Ok && newId !in old(store.regionais) && reloadOutcome == Ok ==>
                Keyed(newId, RegionalRow(old(newRegional), user)) in regionais
    {
      if TrimsToEmpty(newRegional) {
        return;
      }
      SaveNew(user, newId, insertOutcome, reloadOutcome);
    }

    /** The `try`/`finally` part of `handleAdd`. */
    method SaveNew(user: Option<Id>, newId: Id, insertOutcome: Outcome, reloadOutcome: Outcome)
      modifies this`regionais, this`newRegional, this`loading, this`error, store`regionais, store`log
      ensures Added(user, newId, insertOutcome, reloadOutcome)
      ensures insertOutcome == Ok && newId !in old(store.regionais) && reloadOutcome == Ok ==>
                Keyed(newId, RegionalRow(old(newRegional), user)) in regionais
    {
      loading, error := true, "";
      var added := store.InsertRegional(newId, RegionalRow(newRegional, user), insertOutcome, loading);
      if added {
        newRegional := "";
        LoadRegionais(reloadOutcome);
        if reloadOutcome == Ok {
          KeyedListingShows(regionais, store.regionais, NomeRegional, false, newId);
        }
      } else {
        error := AddError;
      }
      loading := false;
    }

    /** What the request part of `handleEdit` leaves behind: only the name is written, as
        typed; a success leaves edit mode and reloads the list. */
    twostate predicate Edited(id: Id, updateOutcome: Outcome, reloadOutcome: Outcome)
      reads this, store
    {
      var updated := updateOutcome == Ok;
      && !loading
      && store.responsaveis == old(store.responsaveis) && store.planos == old(store.planos)
      && store.regionais == (if updated && id in old(store.regionais)
                             then old(store.regionais)[id := old(store.regionais)[id].(nome_regional := old(editingName))]
                             else old(store.regionais))
      && store.log == old(store.log) + [Sent(Update(Regionais, id), true)] + (if updated then [Sent(Select(Regionais, AllColumns, []), true)] else [])
      && (!updated ==> editingId == old(editingId) && editingName == old(editingName) && regionais == old(regionais) && error == UpdateError)
      && (updated ==> editingId.None? && editingName == "")
      && (updated && reloadOutcome == Ok ==> ShowsStore() && error == "")
      && (updated && reloadOutcome == Err ==> regionais == old(regionais) && error == LoadError)
    }

    /** `handleEdit(id)`: a blank name is ignored without a request. */
    method HandleEdit(id: Id, updateOutcome: Outcome, reloadOutcome: Outcome)
      modifies this`regionais, this`editingId, this`editingName, this`loading, this`error, store`regionais, store`log
      ensures Blank(old(editingName)) ==> unchanged(this) && unchanged(store)
      ensures !Blank(old(editingName)) ==> Edited(id, updateOutcome, reloadOutcome)
    {
      if TrimsToEmpty(editingName) {
        return;
      }
      SaveEdit(id, updateOutcome, reloadOutcome);
    }

    /** The `try`/`finally` part of `handleEdit`. */
    method SaveEdit(id: Id, updateOutcome: Outcome, reloadOutcome: Outcome)
      modifies this`regionais, this`editingId, this`editingName, this`loading, this`error, store`regionais, store`log
      ensures Edited(id, updateOutcome, reloadOutcome)
    {
      loading, error := true, "";
      var updated := store.UpdateRegional(id, editingName, updateOutcome, loading);
      if updated {
        editingId, editingName := None, "";
        LoadRegionais(reloadOutcome);
      } else {
        error := UpdateError;
      }
      loading := false;
    }

    /** `handleDelete(id)`: nothing happens unless the user confirms; the store refuses
        the delete while responsáveis still refer to the regional. */
    method HandleDelete(id: Id, confirmed: bool, deleteOutcome: Outcome, reloadOutcome: Outcome)
      modifies this`regionais, this`loading, this`error, store`regionais, store`log
      ensures !confirmed ==> unchanged(this) && unchanged(store)
      ensures confirmed ==>
                var deleted := deleteOutcome == Ok;
                && !loading
                && store.regionais == (if deleted then old(store.regionais) - {id} else old(store.regionais))
                && store.log == old(store.log) + [Sent(Delete(Regionais, id), true)]
                                + (if deleted then [Sent(Select(Regionais, AllColumns, []), true)] else [])
                && (!deleted ==> regionais == old(regionais) && error == DeleteError)
                && (deleted && reloadOutcome == Ok ==>
                      ShowsStore() && error == "" && forall i :: 0 <= i < |regionais| ==> regionais[i].id != id)
                && (deleted && reloadOutcome == Err ==> regionais == old(regionais) && error == LoadError)
    {
      if !confirmed {
        return;
      }
      loading, error := true, "";
      var deleted := store.DeleteRegional(id, deleteOutcome, loading);
      if deleted {
        LoadRegionais(reloadOutcome);
      } else {
        error := DeleteError;
      }
      loading := false;
    }

    /** `startEdit`: the row enters edit mode with its current name. */
    method StartEdit(regional: Keyed<RegionalRow>)
      modifies this`editingId, this`editingName
      ensures editingId == Some(regional.id) && editingName == regional.row.nome_regional
    {
      editingId, editingName := Some(regional.id), regional.row.nome_regional;
    }

    method CancelEdit()
      modifies this`editingId, this`editingName
      ensures editingId.None? && editingName == ""
    {
      editingId, editingName := None, "";
    }

    /** The add box's `onChange`. */
    method SetNewRegional(value: string)
      modifies this`newRegional
      ensures newRegional == value
    {
      newRegional := value;
    }

    /** The rename box's `onChange`. */
    method SetEditingName(value: string)
      modifies this`editingName
      ensures editingName == value
    {
      editingName := value;
    }
  }
}
