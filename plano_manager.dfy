/** The plano list screen (`PlanoAnualManager.tsx`): three filters that become equality
    conditions of the plano query, the lists that feed the filters, and the list/form
    switch. */
module PlanoManager {
  import opened Common
  import opened Rows
  import opened Store

  const LoadDataError := "Erro ao carregar dados"
  const LoadPlanosError := "Erro ao carregar planos"
  const DeleteError := "Erro ao excluir plano"

  /** The plano passes the screen's filters; an empty filter lets everything through. */
  predicate MatchesFilters(p: PlanoRow, filterRegional: string, filterResponsavel: string, filterStatus: string) {
    && (filterRegional == "" || p.regional_id == filterRegional)
    && (filterResponsavel == "" || p.responsavel_id == filterResponsavel)
    && (filterStatus == "" || p.status == filterStatus)
  }

  /** The condition one filter adds: none while it is empty. */
  function FilterCondition(column: Column, value: string): (eqs: seq<Eq>)
    ensures forall p :: SatisfiesAll(p, eqs) <==> (value == "" || ColumnValue(p, column) == value)
  {
    if value == "" then []
    else
      var eqs := [Eq(column, value)];
      assert forall p :: SatisfiesAll(p, eqs) <==> ColumnValue(p, eqs[0].column) == eqs[0].value;
      eqs
  }

  /** The `.eq` conditions `loadPlanos` chains onto its query, one per non-empty filter. */
  function PlanoQuery(filterRegional: string, filterResponsavel: string, filterStatus: string): (eqs: seq<Eq>)
    ensures |eqs| <= 3
    ensures forall p :: SatisfiesAll(p, eqs) <==> MatchesFilters(p, filterRegional, filterResponsavel, filterStatus)
  {
    var byRegional := FilterCondition(RegionalIdColumn, filterRegional);
    var byResponsavel := FilterCondition(ResponsavelIdColumn, filterResponsavel);
    var byStatus := FilterCondition(StatusColumn, filterStatus);
    assert forall p :: SatisfiesAll(p, byRegional + byResponsavel + byStatus)
                       <==> SatisfiesAll(p, byRegional) && SatisfiesAll(p, byResponsavel) && SatisfiesAll(p, byStatus) by {
      forall p ensures SatisfiesAll(p, byRegional + byResponsavel + byStatus)
                       <==> SatisfiesAll(p, byRegional) && SatisfiesAll(p, byResponsavel) && SatisfiesAll(p, byStatus) {
        SatisfiesAllSplit(p, byRegional, byResponsavel);
        SatisfiesAllSplit(p, byRegional + byResponsavel, byStatus);
      }
    }
    byRegional + byResponsavel + byStatus
  }

  /** Chained conditions hold together exactly when each part holds. */
  lemma SatisfiesAllSplit(p: PlanoRow, a: seq<Eq>, b: seq<Eq>)
    ensures SatisfiesAll(p, a + b) <==> SatisfiesAll(p, a) && SatisfiesAll(p, b)
  {
    if SatisfiesAll(p, a) && SatisfiesAll(p, b) {
      forall i | 0 <= i < |a + b| ensures ColumnValue(p, (a + b)[i].column) == (a + b)[i].value {
        if i >= |a| { assert (a + b)[i] == b[i - |a|]; }
      }
    }
    if SatisfiesAll(p, a + b) {
      forall i | 0 <= i < |a| ensures ColumnValue(p, a[i].column) == a[i].value {
        assert (a + b)[i] == a[i];
      }
      forall i | 0 <= i < |b| ensures ColumnValue(p, b[i].column) == b[i].value {
        assert (a + b)[|a| + i] == b[i];
      }
    }
  }

  /** A listing for the filters shows each stored plano that passes them, once, and
      nothing else, latest deadline first. */
  lemma {:induction false} ListingShowsExactlyMatches(rows: seq<PlanoListed>, planos: map<Id, PlanoRow>, regionais: map<Id, RegionalRow>,
                                                      responsaveis: map<Id, ResponsavelRow>, fr: string, fp: string, fs: string)
    requires PlanoListing(rows, planos, regionais, responsaveis, PlanoQuery(fr, fp, fs))
    ensures forall i :: 0 <= i < |rows| ==> rows[i].id in planos && MatchesFilters(rows[i].row, fr, fp, fs)
    ensures forall id :: id in planos && MatchesFilters(planos[id], fr, fp, fs) ==> exists i :: 0 <= i < |rows| && rows[i].id == id
    ensures forall i, j :: 0 <= i < j < |rows| ==> rows[i].id != rows[j].id
    ensures forall i, j :: 0 <= i < j < |rows| ==> InOrder(rows[i].row.prazo_fim, rows[j].row.prazo_fim, true)
  {
    var eqs := PlanoQuery(fr, fp, fs);
    var ids := IdsOf(rows, PlanoListedId);
    var m := Matching(planos, eqs);
    assert forall i :: 0 <= i < |rows| ==> ids[i] == rows[i].id;
    assert Enumerates(ids, m) && OrderedBy(ids, m, PrazoFim, true);
    forall i | 0 <= i < |rows| ensures rows[i].id in planos && MatchesFilters(rows[i].row, fr, fp, fs) {
      assert ids[i] in m;
      assert SatisfiesAll(planos[ids[i]], eqs);
    }
    forall id | id in planos && MatchesFilters(planos[id], fr, fp, fs)
      ensures exists i :: 0 <= i < |rows| && rows[i].id == id
    {
      assert id in m;
      var i :| 0 <= i < |ids| && ids[i] == id;
      assert rows[i].id == id;
    }
    forall i, j | 0 <= i < j < |rows| ensures InOrder(rows[i].row.prazo_fim, rows[j].row.prazo_fim, true) {
      assert PrazoFim(m[ids[i]]) == rows[i].row.prazo_fim;
      assert PrazoFim(m[ids[j]]) == rows[j].row.prazo_fim;
    }
  }

  /** With every filter cleared the query is unconditioned and matches the whole table. */
  lemma NoFilterMatchesAll(planos: map<Id, PlanoRow>)
    ensures PlanoQuery("", "", "") == []
    ensures Matching(planos, PlanoQuery("", "", "")) == planos
  {
  }

  /** The store's answer to each of the three loads `loadData` runs. */
  datatype LoadAnswers = LoadAnswers(regionais: Outcome, responsaveis: Outcome, planos: Outcome)

  class PlanoManagerScreen {
    const store: Store
    var planos: seq<PlanoListed>
    var regionais: seq<Keyed<RegionalRow>>
    var responsaveis: seq<Keyed<ResponsavelRow>>
    var showForm: bool
    var editingPlano: Option<PlanoListed>
    var loading: bool
    var error: string
    var filterRegional: string
    var filterResponsavel: string
    var filterStatus: string
    var showFilters: bool

    /** The first render; the effect then runs `LoadData` once. */
    constructor (store: Store)
      ensures this.store == store
      ensures planos == [] && regionais == [] && responsaveis == []
      ensures !showForm && editingPlano.None? && !loading && error == ""
      ensures filterRegional == "" && filterResponsavel == "" && filterStatus == "" && !showFilters
    {
      this.store := store;
      planos, regionais, responsaveis := [], [], [];
      showForm, editingPlano, loading, error := false, None, false, "";
      filterRegional, filterResponsavel, filterStatus, showFilters := "", "", "", false;
    }

    /** The query conditions of the current filters. */
    function Query(): seq<Eq>
      reads this`filterRegional, this`filterResponsavel, this`filterStatus
    {
      PlanoQuery(filterRegional, filterResponsavel, filterStatus)
    }

    /** The plano list is the store's answer to the current query. */
    ghost predicate ShowsQueryResult()
      reads this`planos, this`filterRegional, this`filterResponsavel, this`filterStatus
      reads store`planos, store`regionais, store`responsaveis
    {
      PlanoListing(planos, store.planos, store.regionais, store.responsaveis, Query())
    }

    /** The filter choices are the store's regionais and responsáveis, each by name. */
    ghost predicate ShowsLists()
      reads this`regionais, this`responsaveis, store`regionais, store`responsaveis
    {
      && KeyedListing(regionais, store.regionais, NomeRegional, false)
      && KeyedListing(responsaveis, store.responsaveis, NomeResponsavel, false)
    }

    /** `loadPlanos`: a failure keeps the old list; a success does not clear an earlier message. */
    method LoadPlanos(outcome: Outcome)
      modifies this`planos, this`error, store`log
      ensures outcome == Ok ==> ShowsQueryResult() && error == old(error)
      ensures outcome == Err ==> planos == old(planos) && error == LoadPlanosError
      ensures store.log == old(store.log) + [Sent(Select(PlanoAnual, JoinParentNames, Query()), loading)]
    {
      var r := store.SelectPlanos(Query(), outcome, loading);
      if r.Success? {
        planos := r.value;
      } else {
        error := LoadPlanosError;
      }
    }

    /** What `loadData` leaves behind: both lists are requested together; only when both
        arrive are they shown and the plano list reloaded, otherwise nothing but the
        message changes. */
    twostate predicate Reloaded(answers: LoadAnswers)
      reads this, store
    {
      var both := answers.regionais == Ok && answers.responsaveis == Ok;
      && store.log == old(store.log)
                      + [Sent(Select(Regionais, AllColumns, []), loading), Sent(Select(Responsaveis, AllColumns, []), loading)]
                      + (if both then [Sent(Select(PlanoAnual, JoinParentNames, Query()), loading)] else [])
      && if both then
           && ShowsLists()
           && (answers.planos == Ok ==> ShowsQueryResult() && error == old(error))
           && (answers.planos == Err ==> planos == old(planos) && error == LoadPlanosError)
         else
           && regionais == old(regionais) && responsaveis == old(responsaveis)
           && planos == old(planos) && error == LoadDataError
    }

    method LoadData(answers: LoadAnswers)
      modifies this`regionais, this`responsaveis, this`planos, this`error, store`log
      ensures Reloaded(answers)
    {
      var rs := store.SelectRegionais(answers.regionais, loading);
      var ps := store.SelectResponsaveis(answers.responsaveis, loading);
      if rs.Failure? || ps.Failure? {
        error := LoadDataError;
        return;
      }
      regionais, responsaveis := rs.value, ps.value;
      LoadPlanos(answers.planos);
    }

    /** A new filter triple from one event handler; the `[filters]` effect reloads
        everything only when the triple differs from the one rendered before. */
    method ApplyFilters(fr: string, fp: string, fs: string, answers: LoadAnswers)
      modifies this`filterRegional, this`filterResponsavel, this`filterStatus
      modifies this`regionais, this`responsaveis, this`planos, this`error, store`log
      ensures filterRegional == fr && filterResponsavel == fp && filterStatus == fs
      ensures (fr, fp, fs) == old((filterRegional, filterResponsavel, filterStatus)) ==>
                store.log == old(store.log) && unchanged(this`regionais, this`responsaveis, this`planos, this`error)
      ensures (fr, fp, fs) != old((filterRegional, filterResponsavel, filterStatus)) ==> Reloaded(answers)
    {
      var changed := (fr, fp, fs) != (filterRegional, filterResponsavel, filterStatus);
      filterRegional, filterResponsavel, filterStatus := fr, fp, fs;
      if changed {
        LoadData(answers);
      }
    }

    /** The regional filter's `onChange`: it also resets the responsável filter. */
    method SelectRegionalFilter(value: string, answers: LoadAnswers)
      modifies this`filterRegional, this`filterResponsavel, this`filterStatus
      modifies this`regionais, this`responsaveis, this`planos, this`error, store`log
      ensures filterRegional == value && filterResponsavel == "" && filterStatus == old(filterStatus)
      ensures (value, "") == old((filterRegional, filterResponsavel)) ==>
                store.log == old(store.log) && unchanged(this`regionais, this`responsaveis, this`planos, this`error)
      ensures (value, "") != old((filterRegional, filterResponsavel)) ==> Reloaded(answers)
    {
      ApplyFilters(value, "", filterStatus, answers);
    }

    /** The responsável select is disabled while no regional is chosen, unless there are
        no responsáveis at all. */
    predicate ResponsavelFilterDisabled()
      reads this
    {
      filterRegional == "" && |responsaveis| > 0
    }

    /** The responsável filter's `onChange`; a disabled select sends no event. */
    method SelectResponsavelFilter(value: string, answers: LoadAnswers)
      modifies this`filterRegional, this`filterResponsavel, this`filterStatus
      modifies this`regionais, this`responsaveis, this`planos, this`error, store`log
      ensures old(ResponsavelFilterDisabled()) ==>
                filterResponsavel == old(filterResponsavel) && store.log == old(store.log)
                && unchanged(this`regionais, this`responsaveis, this`planos, this`error)
      ensures filterRegional == old(filterRegional) && filterStatus == old(filterStatus)
      ensures !old(ResponsavelFilterDisabled()) ==> filterResponsavel == value
      ensures !old(ResponsavelFilterDisabled()) && value == old(filterResponsavel) ==>
                store.log == old(store.log) && unchanged(this`regionais, this`responsaveis, this`planos, this`error)
      ensures !old(ResponsavelFilterDisabled()) && value != old(filterResponsavel) ==> Reloaded(answers)
    {
      if ResponsavelFilterDisabled() {
        return;
      }
      ApplyFilters(filterRegional, value, filterStatus, answers);
    }

    /** The status filter's `onChange`. */
    method SelectStatusFilter(value: string, answers: LoadAnswers)
      modifies this`filterRegional, this`filterResponsavel, this`filterStatus
      modifies this`regionais, this`responsaveis, this`planos, this`error, store`log
      ensures filterRegional == old(filterRegional) && filterResponsavel == old(filterResponsavel)
      ensures filterStatus == value
      ensures value == old(filterStatus) ==>
                store.log == old(store.log) && unchanged(this`regionais, this`responsaveis, this`planos, this`error)
      ensures value != old(filterStatus) ==> Reloaded(answers)
    {
      ApplyFilters(filterRegional, filterResponsavel, value, answers);
    }

    /** `clearFilters`: afterwards the query has no conditions; it reloads only when some
        filter was set. */
    method ClearFilters(answers: LoadAnswers)
      modifies this`filterRegional, this`filterResponsavel, this`filterStatus
      modifies this`regionais, this`responsaveis, this`planos, this`error, store`log
      ensures filterRegional == "" && filterResponsavel == "" && filterStatus == ""
      ensures Query() == []
      ensures old(Query()) == [] ==>
                store.log == old(store.log) && unchanged(this`regionais, this`responsaveis, this`planos, this`error)
      ensures old(Query()) != [] ==> Reloaded(answers)
    {
      ApplyFilters("", "", "", answers);
    }

    /** `filteredResponsaveis`: every responsável while no regional is chosen, otherwise
        exactly those of the chosen regional. */
    function FilteredResponsaveis(): (r: seq<Keyed<ResponsavelRow>>)
      reads this
      ensures filterRegional == "" ==> r == responsaveis
      ensures filterRegional != "" ==> r == OfRegional(responsaveis, filterRegional)
      ensures forall x :: x in r <==> x in responsaveis && (filterRegional == "" || x.row.regional_id == filterRegional)
    {
      if filterRegional == "" then responsaveis else OfRegional(responsaveis, filterRegional)
    }

    /** `handleSave`, the form's `onSave`: back to the list, reloaded. */
    method HandleSave(outcome: Outcome)
      modifies this`showForm, this`editingPlano, this`planos, this`error, store`log
      ensures !showForm && editingPlano.None?
      ensures outcome == Ok ==> ShowsQueryResult() && error == old(error)
      ensures outcome == Err ==> planos == old(planos) && error == LoadPlanosError
      ensures store.log == old(store.log) + [Sent(Select(PlanoAnual, JoinParentNames, Query()), loading)]
    {
      showForm, editingPlano := false, None;
      LoadPlanos(outcome);
    }

    /** `handleEdit`: the form opens on the chosen plano. */
    method HandleEdit(plano: PlanoListed)
      modifies this`showForm, this`editingPlano
      ensures showForm && editingPlano == Some(plano)
    {
      editingPlano, showForm := Some(plano), true;
    }

    /** The "Nova Ação" button: the form opens empty. */
    method NewPlano()
      modifies this`showForm, this`editingPlano
      ensures showForm && editingPlano.None?
    {
      editingPlano, showForm := None, true;
    }

    /** The form's `onCancel`. */
    method CancelForm()
      modifies this`showForm, this`editingPlano
      ensures !showForm && editingPlano.None?
    {
      showForm, editingPlano := false, None;
    }

    /** The "Filtros" button and the panel's close button. */
    method ToggleFilters()
      modifies this`showFilters
      ensures showFilters == !old(showFilters)
    {
      showFilters := !showFilters;
    }

    method CloseFilters()
      modifies this`showFilters
      ensures !showFilters
    {
      showFilters := false;
    }

    /** `handleDelete`: nothing happens unless the user confirms; a refused delete leaves
        the table and the list as they were; an accepted one reloads the list while the
        screen shows it is busy. */
    method HandleDelete(id: Id, confirmed: bool, deleteOutcome: Outcome, reloadOutcome: Outcome)
      modifies this`loading, this`error, this`planos, store`planos, store`log
      ensures !confirmed ==> loading == old(loading)
      ensures confirmed ==> !loading
      ensures !confirmed ==> error == old(error) && planos == old(planos)
                             && store.planos == old(store.planos) && store.log == old(store.log)
      ensures confirmed && deleteOutcome == Err ==>
                && error == DeleteError && planos == old(planos) && store.planos == old(store.planos)
                && store.log == old(store.log) + [Sent(Delete(PlanoAnual, id), true)]
      ensures confirmed && deleteOutcome == Ok ==>
                && store.planos == old(store.planos) - {id}
                && id !in store.planos
                && store.log == old(store.log) + [Sent(Delete(PlanoAnual, id), true), Sent(Select(PlanoAnual, JoinParentNames, Query()), true)]
                && (reloadOutcome == Ok ==> ShowsQueryResult() && error == "")
                && (reloadOutcome == Err ==> planos == old(planos) && error == LoadPlanosError)
    {
      if !confirmed {
        return;
      }
      loading, error := true, "";
      var ok := store.DeletePlano(id, deleteOutcome, loading);
      if ok {
        LoadPlanos(reloadOutcome);
      } else {
        error := DeleteError;
      }
      loading := false;
    }
  }
}
