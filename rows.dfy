/** The three tables of the remote store, as the screens see them (the column types of
    `src/lib/supabase.ts`), and the pure selections the screens make over fetched rows. */
module Rows {
  import opened Common

  /** A row identifier. The empty string never names a row the screens select: they use
      it as "nothing chosen". */
  type Id = string

  /** The status values the plano screens offer. */
  const Planejado := "Planejado"
  const EmAndamento := "Em andamento"
  const Concluido := "Concluído"
  const Atrasado := "Atrasado"

  /** A `regionais` row without its key. `created_at` is set by the store and never read. */
  datatype RegionalRow = RegionalRow(nome_regional: string, created_by: Option<Id>)

  /** A `responsaveis` row without its key. */
  datatype ResponsavelRow = ResponsavelRow(nome_responsavel: string, regional_id: Id, created_by: Option<Id>)

  /** A `plano_anual` row without its key; the three free-text columns are nullable. */
  datatype PlanoRow = PlanoRow(
    regional_id: Id,
    responsavel_id: Id,
    acao: string,
    descricao: Option<string>,
    objetivo: Option<string>,
    prazo_inicio: string,
    prazo_fim: string,
    status: string,
    observacoes: Option<string>,
    data_atualizacao: string,
    created_by: Option<Id>)

  /** A row as `select('*')` returns it: its key and its columns. */
  datatype Keyed<R> = Keyed(id: Id, row: R)

  /** A responsável as `select('*, regionais(nome_regional)')` returns it: the name of
      its regional is joined in, or absent when no regional has that id. */
  datatype ResponsavelListed = ResponsavelListed(id: Id, row: ResponsavelRow, nome_regional: Option<string>)

  /** A plano as the listing query returns it, with both parent names joined in. */
  datatype PlanoListed = PlanoListed(id: Id, row: PlanoRow, nome_regional: Option<string>, nome_responsavel: Option<string>)

  /** `responsaveis.filter(r => r.regional_id === regional)`. */
  function OfRegional(rs: seq<Keyed<ResponsavelRow>>, regional: Id): (r: seq<Keyed<ResponsavelRow>>)
    ensures |r| <= |rs|
    ensures forall x :: x in r <==> x in rs && x.row.regional_id == regional
  {
    if rs == [] then []
    else (if rs[0].row.regional_id == regional then [rs[0]] else []) + OfRegional(rs[1..], regional)
  }

  /** The filter keeps the original order: it distributes over concatenation, and so
      (with the one-element case) determines the result completely. */
  lemma {:induction false} OfRegionalConcat(a: seq<Keyed<ResponsavelRow>>, b: seq<Keyed<ResponsavelRow>>, regional: Id)
    ensures OfRegional(a + b, regional) == OfRegional(a, regional) + OfRegional(b, regional)
    decreases |a|
  {
    if a == [] {
      assert a + b == b;
    } else {
      assert (a + b)[0] == a[0];
      assert (a + b)[1..] == a[1..] + b;
      OfRegionalConcat(a[1..], b, regional);
    }
  }

  /** The columns the plano listing can be filtered on. */
  datatype Column = RegionalIdColumn | ResponsavelIdColumn | StatusColumn

  /** One `.eq(column, value)` of a query. */
  datatype Eq = Eq(column: Column, value: string)

  function ColumnValue(p: PlanoRow, c: Column): string {
    match c
    case RegionalIdColumn => p.regional_id
    case ResponsavelIdColumn => p.responsavel_id
    case StatusColumn => p.status
  }

  /** The row passes every equality of the query: chained `.eq` calls combine conjunctively. */
  predicate SatisfiesAll(p: PlanoRow, eqs: seq<Eq>) {
    forall i :: 0 <= i < |eqs| ==> ColumnValue(p, eqs[i].column) == eqs[i].value
  }
}
