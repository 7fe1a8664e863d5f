/** The remote store (a hosted relational backend reached through its client library),
    modelled as three maps keyed by row id and a record of the requests it received.
    Every request takes the store's answer as an `Outcome`; what the store does with a
    request it accepts is stated here, as plain map updates and ordered selections. */
module Store {
  import opened Common
  import opened Text
  import opened Rows

  datatype Table = Regionais | Responsaveis | PlanoAnual

  /** What a `select` asks for: every column, every column with the parents' names
      joined in, or the `status` column alone. */
  datatype Columns = AllColumns | JoinParentNames | StatusOnly

  /** A request as the client sends it; `Select` carries its columns and equality filters. */
  datatype Request =
    | Select(table: Table, columns: Columns, eqs: seq<Eq>)
    | Insert(table: Table)
    | Update(table: Table, id: Id)
    | Delete(table: Table, id: Id)

  /** A request together with the issuing screen's `loading` flag at the moment it was sent. */
  datatype Sent = Sent(request: Request, screenLoading: bool)

  /** `a` comes no later than `b` in an ascending (or, if `descending`, a descending) ordering. */
  predicate InOrder(a: string, b: string, descending: bool) {
    if descending then LexLe(b, a) else LexLe(a, b)
  }

  lemma InOrderReflexive(a: string, descending: bool)
    ensures InOrder(a, a, descending)
  {
    LexLeReflexive(a);
  }

  lemma InOrderTotal(a: string, b: string, descending: bool)
    ensures InOrder(a, b, descending) || InOrder(b, a, descending)
  {
    LexLeTotal(a, b);
  }

  lemma InOrderTransitive(a: string, b: string, c: string, descending: bool)
    requires InOrder(a, b, descending) && InOrder(b, c, descending)
    ensures InOrder(a, c, descending)
  {
    if descending { LexLeTransitive(c, b, a); } else { LexLeTransitive(a, b, c); }
  }

  /** The sort keys of the three ordered queries, and the key of an unordered one. */
  function NomeRegional(r: RegionalRow): string { r.nome_regional }
  function NomeResponsavel(r: ResponsavelRow): string { r.nome_responsavel }
  function PrazoFim(p: PlanoRow): string { p.prazo_fim }
  function NoOrder<R>(r: R): string { "" }

  ghost predicate Distinct(ids: seq<Id>) {
    forall i, j :: 0 <= i < j < |ids| ==> ids[i] != ids[j]
  }

  /** `ids` lists every key of `m`, and nothing else, exactly once. */
  ghost predicate Enumerates<R>(ids: seq<Id>, m: map<Id, R>) {
    && (forall i :: 0 <= i < |ids| ==> ids[i] in m)
    && (forall k :: k in m ==> k in ids)
    && Distinct(ids)
  }

  /** The rows named by `ids` are in key order. */
  ghost predicate OrderedBy<R>(ids: seq<Id>, m: map<Id, R>, key: R -> string, descending: bool)
    requires forall i :: 0 <= i < |ids| ==> ids[i] in m
  {
    forall i, j :: 0 <= i < j < |ids| ==> InOrder(key(m[ids[i]]), key(m[ids[j]]), descending)
  }

  ghost predicate Listing<R>(ids: seq<Id>, m: map<Id, R>, key: R -> string, descending: bool) {
    Enumerates(ids, m) && OrderedBy(ids, m, key, descending)
  }

  /** A query returns one row per stored row. */
  lemma {:induction false} EnumerationLength<R>(ids: seq<Id>, m: map<Id, R>)
    requires Enumerates(ids, m)
    ensures |ids| == |m|
  {
    DistinctCardinality(ids, m.Keys);
  }

  /** A duplicate-free sequence that covers a set exactly is as long as the set is large. */
  lemma {:induction false} DistinctCardinality(ids: seq<Id>, keys: set<Id>)
    requires forall i :: 0 <= i < |ids| ==> ids[i] in keys
    requires forall k :: k in keys ==> k in ids
    requires Distinct(ids)
    ensures |ids| == |keys|
    decreases |ids|
  {
    if ids == [] {
      assert keys == {};
    } else {
      var n := |ids| - 1;
      var k := ids[n];
      var ids' := ids[..n];
      var keys' := keys - {k};
      forall j | j in keys' ensures j in ids' {
        var i :| 0 <= i < |ids| && ids[i] == j;
        assert ids'[i] == j;
      }
      DistinctCardinality(ids', keys');
      assert keys == keys' + {k};
    }
  }

  /** `k` sorts no later than any key of `rest`. */
  predicate IsFirst<R>(k: Id, rest: set<Id>, m: map<Id, R>, key: R -> string, descending: bool)
    requires k in m && rest <= m.Keys
  {
    forall j :: j in rest ==> InOrder(key(m[k]), key(m[j]), descending)
  }

  lemma {:induction false} FirstExists<R>(rest: set<Id>, m: map<Id, R>, key: R -> string, descending: bool)
    requires rest != {} && rest <= m.Keys
    ensures exists k :: k in rest && IsFirst(k, rest, m, key, descending)
    decreases rest
  {
    var x :| x in rest;
    InOrderReflexive(key(m[x]), descending);
    if rest != {x} {
      var others := rest - {x};
      FirstExists(others, m, key, descending);
      var k :| k in others && IsFirst(k, others, m, key, descending);
      InOrderTotal(key(m[x]), key(m[k]), descending);
      if InOrder(key(m[x]), key(m[k]), descending) {
        forall j | j in rest ensures InOrder(key(m[x]), key(m[j]), descending) {
          if j != x { InOrderTransitive(key(m[x]), key(m[k]), key(m[j]), descending); }
        }
        assert IsFirst(x, rest, m, key, descending);
      } else {
        InOrderReflexive(key(m[k]), descending);
        assert IsFirst(k, rest, m, key, descending);
      }
    }
  }

  /** The store's answer to an ordered query: the keys of `m`, each once, in key order
      (rows with equal keys in an order the model leaves open). */
  method OrderedIds<R>(m: map<Id, R>, key: R -> string, descending: bool) returns (ids: seq<Id>)
    ensures Listing(ids, m, key, descending)
  {
    var rest := m.Keys;
    ids := [];
    while rest != {}
      invariant rest <= m.Keys
      invariant forall i :: 0 <= i < |ids| ==> ids[i] in m && ids[i] !in rest
      invariant forall k :: k in m ==> k in rest || k in ids
      invariant Distinct(ids)
      invariant OrderedBy(ids, m, key, descending)
      invariant forall i, k :: 0 <= i < |ids| && k in rest ==> InOrder(key(m[ids[i]]), key(m[k]), descending)
      decreases rest
    {
      FirstExists(rest, m, key, descending);
      var k :| k in rest && IsFirst(k, rest, m, key, descending);
      ghost var before := ids;
      ids := ids + [k];
      rest := rest - {k};
      assert forall i :: 0 <= i < |before| ==> ids[i] == before[i];
      assert ids[|before|] == k;
    }
  }

  /** The ids of a row list, in order, through the row type's `id` projection. */
  function IdsOf<T>(rows: seq<T>, id: T -> Id): (ids: seq<Id>)
    ensures |ids| == |rows| && forall i :: 0 <= i < |rows| ==> ids[i] == id(rows[i])
  {
    seq(|rows|, i requires 0 <= i < |rows| => id(rows[i]))
  }

  function KeyedId<R>(k: Keyed<R>): Id { k.id }
  function ResponsavelListedId(r: ResponsavelListed): Id { r.id }
  function PlanoListedId(p: PlanoListed): Id { p.id }

  /** The name a join puts next to a child row: absent when the parent does not exist. */
  function RegionalNameOf(regionais: map<Id, RegionalRow>, id: Id): Option<string> {
    if id in regionais then Some(regionais[id].nome_regional) else None
  }

  function ResponsavelNameOf(responsaveis: map<Id, ResponsavelRow>, id: Id): Option<string> {
    if id in responsaveis then Some(responsaveis[id].nome_responsavel) else None
  }

  /** The rows of `planos` that pass the query's equalities. */
  function Matching(planos: map<Id, PlanoRow>, eqs: seq<Eq>): map<Id, PlanoRow> {
    map k | k in planos && SatisfiesAll(planos[k], eqs) :: planos[k]
  }

  /** The table after `update(payload).eq('id', id)`: every column is written, except that
      a payload whose `created_by` is absent (an undefined value is dropped from the
      request) leaves the stored `created_by` as it was; no row matching is not an error. */
  function PlanoUpdated(planos: map<Id, PlanoRow>, id: Id, payload: PlanoRow): (r: map<Id, PlanoRow>)
    ensures r.Keys == planos.Keys
    ensures forall k :: k in planos && k != id ==> r[k] == planos[k]
    ensures id in planos ==> r[id].(created_by := payload.created_by) == payload
    ensures id in planos ==> r[id].created_by == if payload.created_by.Some? then payload.created_by else planos[id].created_by
  {
    if id !in planos then planos
    else planos[id := if payload.created_by.None? then payload.(created_by := planos[id].created_by) else payload]
  }

  /** `rows` is what `select('*')` ordered by `key` returns from table `m`. */
  ghost predicate KeyedListing<R>(rows: seq<Keyed<R>>, m: map<Id, R>, key: R -> string, descending: bool) {
    && (forall i :: 0 <= i < |rows| ==> rows[i].id in m && rows[i].row == m[rows[i].id])
    && Listing(IdsOf(rows, KeyedId), m, key, descending)
  }

  /** A listing shows every stored row under its id. */
  lemma KeyedListingShows<R>(rows: seq<Keyed<R>>, m: map<Id, R>, key: R -> string, descending: bool, id: Id)
    requires KeyedListing(rows, m, key, descending)
    requires id in m
    ensures Keyed(id, m[id]) in rows
  {
    var ids := IdsOf(rows, KeyedId);
    var i :| 0 <= i < |ids| && ids[i] == id;
    assert rows[i] == Keyed(id, m[id]);
  }

  /** A listing shows a row under an id exactly when the table stores that row under it. */
  lemma KeyedListingContents<R>(rows: seq<Keyed<R>>, m: map<Id, R>, key: R -> string, descending: bool)
    requires KeyedListing(rows, m, key, descending)
    ensures forall id, row :: Keyed(id, row) in rows <==> id in m && m[id] == row
  {
    forall id | id in m ensures Keyed(id, m[id]) in rows {
      KeyedListingShows(rows, m, key, descending, id);
    }
  }

  /** `rows` is what the joined, name-ordered responsáveis query returns. */
  ghost predicate ResponsavelListing(rows: seq<ResponsavelListed>, responsaveis: map<Id, ResponsavelRow>, regionais: map<Id, RegionalRow>) {
    && (forall i :: 0 <= i < |rows| ==>
          && rows[i].id in responsaveis
          && rows[i].row == responsaveis[rows[i].id]
          && rows[i].nome_regional == RegionalNameOf(regionais, rows[i].row.regional_id))
    && Listing(IdsOf(rows, ResponsavelListedId), responsaveis, NomeResponsavel, false)
  }

  /** The joined listing shows every stored responsável under its id, with the name of
      its regional when that regional exists. */
  lemma ResponsavelListingShows(rows: seq<ResponsavelListed>, responsaveis: map<Id, ResponsavelRow>, regionais: map<Id, RegionalRow>, id: Id)
    requires ResponsavelListing(rows, responsaveis, regionais)
    requires id in responsaveis
    ensures ResponsavelListed(id, responsaveis[id], RegionalNameOf(regionais, responsaveis[id].regional_id)) in rows
  {
    var ids := IdsOf(rows, ResponsavelListedId);
    var i :| 0 <= i < |ids| && ids[i] == id;
    assert rows[i] == ResponsavelListed(id, responsaveis[id], RegionalNameOf(regionais, responsaveis[id].regional_id));
  }

  /** `rows` is what the plano listing query with equalities `eqs` returns: every plano
      passing them, once, with its parent names, latest `prazo_fim` first. */
  ghost predicate PlanoListing(rows: seq<PlanoListed>, planos: map<Id, PlanoRow>, regionais: map<Id, RegionalRow>,
                               responsaveis: map<Id, ResponsavelRow>, eqs: seq<Eq>) {
    && (forall i :: 0 <= i < |rows| ==>
          && rows[i].id in planos
          && rows[i].row == planos[rows[i].id]
          && rows[i].nome_regional == RegionalNameOf(regionais, rows[i].row.regional_id)
          && rows[i].nome_responsavel == ResponsavelNameOf(responsaveis, rows[i].row.responsavel_id))
    && Listing(IdsOf(rows, PlanoListedId), Matching(planos, eqs), PrazoFim, true)
  }

  class Store {
    var regionais: map<Id, RegionalRow>
    var responsaveis: map<Id, ResponsavelRow>
    var planos: map<Id, PlanoRow>
    /** Every request the store has received, in order. */
    ghost var log: seq<Sent>

    constructor (regionais: map<Id, RegionalRow>, responsaveis: map<Id, ResponsavelRow>, planos: map<Id, PlanoRow>)
      ensures this.regionais == regionais && this.responsaveis == responsaveis && this.planos == planos
      ensures log == []
    {
      this.regionais, this.responsaveis, this.planos := regionais, responsaveis, planos;
      log := [];
    }

    /** `insert([row])` into `regionais`; `id` is the key the store assigns, and a key
        already in use is refused like any other failed insert. */
    method InsertRegional(id: Id, row: RegionalRow, outcome: Outcome, ghost busy: bool) returns (ok: bool)
      modifies this`regionais, this`log
      ensures ok == (outcome == Ok && id !in old(regionais))
      ensures regionais == if ok then old(regionais)[id := row] else old(regionais)
      ensures log == old(log) + [Sent(Insert(Regionais), busy)]
    {
      ok := outcome == Ok && id !in regionais;
      if ok { regionais := regionais[id := row]; }
      log := log + [Sent(Insert(Regionais), busy)];
    }

    /** `update({ nome_regional }).eq('id', id)`: only the name changes; no row matching is not an error. */
    method UpdateRegional(id: Id, nome: string, outcome: Outcome, ghost busy: bool) returns (ok: bool)
      modifies this`regionais, this`log
      ensures ok == (outcome == Ok)
      ensures regionais == if ok && id in old(regionais)
                           then old(regionais)[id := old(regionais)[id].(nome_regional := nome)]
                           else old(regionais)
      ensures log == old(log) + [Sent(Update(Regionais, id), busy)]
    {
      ok := outcome == Ok;
      if ok && id in regionais { regionais := regionais[id := regionais[id].(nome_regional := nome)]; }
      log := log + [Sent(Update(Regionais, id), busy)];
    }

    /** `delete().eq('id', id)`. A refusal because responsáveis still reference the row
        is one of the ways the outcome can be `Err`. */
    method DeleteRegional(id: Id, outcome: Outcome, ghost busy: bool) returns (ok: bool)
      modifies this`regionais, this`log
      ensures ok == (outcome == Ok)
      ensures regionais == if ok then old(regionais) - {id} else old(regionais)
      ensures log == old(log) + [Sent(Delete(Regionais, id), busy)]
    {
      ok := outcome == Ok;
      if ok { regionais := regionais - {id}; }
      log := log + [Sent(Delete(Regionais, id), busy)];
    }

    method InsertResponsavel(id: Id, row: ResponsavelRow, outcome: Outcome, ghost busy: bool) returns (ok: bool)
      modifies this`responsaveis, this`log
      ensures ok == (outcome == Ok && id !in old(responsaveis))
      ensures responsaveis == if ok then old(responsaveis)[id := row] else old(responsaveis)
      ensures log == old(log) + [Sent(Insert(Responsaveis), busy)]
    {
      ok := outcome == Ok && id !in responsaveis;
      if ok { responsaveis := responsaveis[id := row]; }
      log := log + [Sent(Insert(Responsaveis), busy)];
    }

    /** `update({ nome_responsavel, regional_id }).eq('id', id)`: `created_by` is not written. */
    method UpdateResponsavel(id: Id, nome: string, regional: Id, outcome: Outcome, ghost busy: bool) returns (ok: bool)
      modifies this`responsaveis, this`log
      ensures ok == (outcome == Ok)
      ensures responsaveis == if ok && id in old(responsaveis)
                              then old(responsaveis)[id := old(responsaveis)[id].(nome_responsavel := nome, regional_id := regional)]
                              else old(responsaveis)
      ensures log == old(log) + [Sent(Update(Responsaveis, id), busy)]
    {
      ok := outcome == Ok;
      if ok && id in responsaveis {
        responsaveis := responsaveis[id := responsaveis[id].(nome_responsavel := nome, regional_id := regional)];
      }
      log := log + [Sent(Update(Responsaveis, id), busy)];
    }

    method DeleteResponsavel(id: Id, outcome: Outcome, ghost busy: bool) returns (ok: bool)
      modifies this`responsaveis, this`log
      ensures ok == (outcome == Ok)
      ensures responsaveis == if ok then old(responsaveis) - {id} else old(responsaveis)
      ensures log == old(log) + [Sent(Delete(Responsaveis, id), busy)]
    {
      ok := outcome == Ok;
      if ok { responsaveis := responsaveis - {id}; }
      log := log + [Sent(Delete(Responsaveis, id), busy)];
    }

    /** `insert([payload])`; a payload without `created_by` (no signed-in user) stores null. */
    method InsertPlano(id: Id, payload: PlanoRow, outcome: Outcome, ghost busy: bool) returns (ok: bool)
      modifies this`planos, this`log
      ensures ok == (outcome == Ok && id !in old(planos))
      ensures planos == if ok then old(planos)[id := payload] else old(planos)
      ensures log == old(log) + [Sent(Insert(PlanoAnual), busy)]
    {
      ok := outcome == Ok && id !in planos;
      if ok { planos := planos[id := payload]; }
      log := log + [Sent(Insert(PlanoAnual), busy)];
    }

    /** `update(payload).eq('id', id)`. */
    method UpdatePlano(id: Id, payload: PlanoRow, outcome: Outcome, ghost busy: bool) returns (ok: bool)
      modifies this`planos, this`log
      ensures ok == (outcome == Ok)
      ensures planos == if ok then PlanoUpdated(old(planos), id, payload) else old(planos)
      ensures log == old(log) + [Sent(Update(PlanoAnual, id), busy)]
    {
      ok := outcome == Ok;
      if ok { planos := PlanoUpdated(planos, id, payload); }
      log := log + [Sent(Update(PlanoAnual, id), busy)];
    }

    method DeletePlano(id: Id, outcome: Outcome, ghost busy: bool) returns (ok: bool)
      modifies this`planos, this`log
      ensures ok == (outcome == Ok)
      ensures planos == if ok then old(planos) - {id} else old(planos)
      ensures log == old(log) + [Sent(Delete(PlanoAnual, id), busy)]
    {
      ok := outcome == Ok;
      if ok { planos := planos - {id}; }
      log := log + [Sent(Delete(PlanoAnual, id), busy)];
    }

    /** `from('regionais').select('*').order('nome_regional')`. */
    method SelectRegionais(outcome: Outcome, ghost busy: bool) returns (r: Result<seq<Keyed<RegionalRow>>>)
      modifies this`log
      ensures r.Success? <==> outcome == Ok
      ensures r.Success? ==> KeyedListing(r.value, regionais, NomeRegional, false)
      ensures log == old(log) + [Sent(Select(Regionais, AllColumns, []), busy)]
    {
      log := log + [Sent(Select(Regionais, AllColumns, []), busy)];
      if outcome == Err { return Failure; }
      var m := regionais;
      var ids := OrderedIds(m, NomeRegional, false);
      var rows := seq(|ids|, i requires 0 <= i < |ids| => Keyed(ids[i], m[ids[i]]));
      assert IdsOf(rows, KeyedId) == ids;
      r := Success(rows);
    }

    /** `from('responsaveis').select('*').order('nome_responsavel')`. */
    method SelectResponsaveis(outcome: Outcome, ghost busy: bool) returns (r: Result<seq<Keyed<ResponsavelRow>>>)
      modifies this`log
      ensures r.Success? <==> outcome == Ok
      ensures r.Success? ==> KeyedListing(r.value, responsaveis, NomeResponsavel, false)
      ensures log == old(log) + [Sent(Select(Responsaveis, AllColumns, []), busy)]
    {
      log := log + [Sent(Select(Responsaveis, AllColumns, []), busy)];
      if outcome == Err { return Failure; }
      var m := responsaveis;
      var ids := OrderedIds(m, NomeResponsavel, false);
      var rows := seq(|ids|, i requires 0 <= i < |ids| => Keyed(ids[i], m[ids[i]]));
      assert IdsOf(rows, KeyedId) == ids;
      r := Success(rows);
    }

    /** `from('responsaveis').select('*, regionais(nome_regional)').order('nome_responsavel')`. */
    method SelectResponsaveisWithRegional(outcome: Outcome, ghost busy: bool) returns (r: Result<seq<ResponsavelListed>>)
      modifies this`log
      ensures r.Success? <==> outcome == Ok
      ensures r.Success? ==> ResponsavelListing(r.value, responsaveis, regionais)
      ensures log == old(log) + [Sent(Select(Responsaveis, JoinParentNames, []), busy)]
    {
      log := log + [Sent(Select(Responsaveis, JoinParentNames, []), busy)];
      if outcome == Err { return Failure; }
      var m, regs := responsaveis, regionais;
      var ids := OrderedIds(m, NomeResponsavel, false);
      var rows := seq(|ids|, i requires 0 <= i < |ids| =>
        ResponsavelListed(ids[i], m[ids[i]], RegionalNameOf(regs, m[ids[i]].regional_id)));
      assert IdsOf(rows, ResponsavelListedId) == ids;
      r := Success(rows);
    }

    /** `from('plano_anual').select('*, regionais(nome_regional), responsaveis(nome_responsavel)')
        .order('prazo_fim', { ascending: false })` followed by the equalities `eqs`. */
    method SelectPlanos(eqs: seq<Eq>, outcome: Outcome, ghost busy: bool) returns (r: Result<seq<PlanoListed>>)
      modifies this`log
      ensures r.Success? <==> outcome == Ok
      ensures r.Success? ==> PlanoListing(r.value, planos, regionais, responsaveis, eqs)
      ensures log == old(log) + [Sent(Select(PlanoAnual, JoinParentNames, eqs), busy)]
    {
      log := log + [Sent(Select(PlanoAnual, JoinParentNames, eqs), busy)];
      if outcome == Err { return Failure; }
      var matching := Matching(planos, eqs);
      var ids := OrderedIds(matching, PrazoFim, true);
      var regs, resps := regionais, responsaveis;
      var rows := seq(|ids|, i requires 0 <= i < |ids| =>
        PlanoListed(ids[i], matching[ids[i]],
                    RegionalNameOf(regs, matching[ids[i]].regional_id),
                    ResponsavelNameOf(resps, matching[ids[i]].responsavel_id)));
      assert IdsOf(rows, PlanoListedId) == ids;
      r := Success(rows);
    }

    /** `from('plano_anual').select('status')`: one status per stored plano, in the
        store's own order; `ids` names the plano each entry belongs to. */
    method SelectStatuses(outcome: Outcome, ghost busy: bool) returns (r: Result<seq<string>>, ghost ids: seq<Id>)
      modifies this`log
      ensures r.Success? <==> outcome == Ok
      ensures r.Success? ==> Enumerates(ids, planos) && |r.value| == |ids|
                             && forall i :: 0 <= i < |ids| ==> r.value[i] == planos[ids[i]].status
      ensures log == old(log) + [Sent(Select(PlanoAnual, StatusOnly, []), busy)]
    {
      log := log + [Sent(Select(PlanoAnual, StatusOnly, []), busy)];
      ids := [];
      if outcome == Err { return Failure, ids; }
      var order := OrderedIds(planos, NoOrder, false);
      var ps := planos;
      ids := order;
      r := Success(seq(|order|, i requires 0 <= i < |order| => ps[order[i]].status));
    }
  }
}
