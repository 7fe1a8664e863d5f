/** The plano editor (`PlanoAnualForm.tsx`): a record of string fields edited one field at
    a time, the responsável choices that depend on the chosen regional, and the save. */
module PlanoForm {
  import opened Common
  import opened Rows
  import opened Store

  /** The `formData` state record: every field is a string, the nullable columns included. */
  datatype FormData = FormData(
    regional_id: string,
    responsavel_id: string,
    acao: string,
    descricao: string,
    objetivo: string,
    prazo_inicio: string,
    prazo_fim: string,
    status: string,
    observacoes: string)

  /** The field names `handleChange` is called with. */
  datatype Field = RegionalId | ResponsavelId | Acao | Descricao | Objetivo | PrazoInicio | PrazoFim | Status | Observacoes

  function Get(fd: FormData, f: Field): string {
    match f
    case RegionalId => fd.regional_id
    case ResponsavelId => fd.responsavel_id
    case Acao => fd.acao
    case Descricao => fd.descricao
    case Objetivo => fd.objetivo
    case PrazoInicio => fd.prazo_inicio
    case PrazoFim => fd.prazo_fim
    case Status => fd.status
    case Observacoes => fd.observacoes
  }

  /** The form a new plano starts from. */
  const EmptyForm := FormData("", "", "", "", "", "", "", Planejado, "")

  const SaveError := "Erro ao salvar plano"

  /** A new form has every field empty except `status`, which is `Planejado`. */
  lemma EmptyFormFields(f: Field)
    ensures Get(EmptyForm, f) == if f == Status then Planejado else ""
  {
  }

  /** `value || ''` for a nullable text column. */
  function OrEmpty(s: Option<string>): (r: string)
    ensures s.Some? ==> r == s.value
    ensures s.None? ==> r == ""
  {
    if s.Some? then s.value else ""
  }

  /** The form the `[plano]` effect fills in for an existing plano. */
  function FromPlano(p: PlanoRow): FormData {
    FormData(p.regional_id, p.responsavel_id, p.acao, OrEmpty(p.descricao), OrEmpty(p.objetivo),
             p.prazo_inicio, p.prazo_fim, p.status, OrEmpty(p.observacoes))
  }

  /** `handleChange(field, value)`: the field takes the new value, and choosing a regional
      (even the same one again) clears the responsável. */
  function WithField(fd: FormData, f: Field, v: string): (r: FormData)
    ensures Get(r, f) == v
    ensures f == RegionalId ==> r.responsavel_id == ""
    ensures forall g :: g != f && !(f == RegionalId && g == ResponsavelId) ==> Get(r, g) == Get(fd, g)
  {
    var updated := match f
      case RegionalId => fd.(regional_id := v)
      case ResponsavelId => fd.(responsavel_id := v)
      case Acao => fd.(acao := v)
      case Descricao => fd.(descricao := v)
      case Objetivo => fd.(objetivo := v)
      case PrazoInicio => fd.(prazo_inicio := v)
      case PrazoFim => fd.(prazo_fim := v)
      case Status => fd.(status := v)
      case Observacoes => fd.(observacoes := v);
    if f == RegionalId then updated.(responsavel_id := "") else updated
  }

  /** `dataToSave`: the form, stamped with the save time and the signed-in user's id
      (`created_by` absent, and so not written, when there is no user). */
  function Payload(fd: FormData, now: string, user: Option<Id>): (p: PlanoRow)
    ensures p.data_atualizacao == now && p.created_by == user
  {
    PlanoRow(fd.regional_id, fd.responsavel_id, fd.acao, Some(fd.descricao), Some(fd.objetivo),
             fd.prazo_inicio, fd.prazo_fim, fd.status, Some(fd.observacoes), now, user)
  }

  /** Saving a form and loading the saved row back gives the same form. */
  lemma FormRoundTrip(fd: FormData, now: string, user: Option<Id>)
    ensures FromPlano(Payload(fd, now, user)) == fd
  {
  }

  /** Opening a plano and saving it unchanged rewrites the row as it was, except that
      it is re-stamped and that a null description, objective or remark becomes ''. */
  lemma UnchangedEditRewritesRow(p: PlanoRow, now: string, user: Option<Id>)
    ensures Payload(FromPlano(p), now, user)
            == p.(descricao := Some(OrEmpty(p.descricao)), objetivo := Some(OrEmpty(p.objetivo)),
                  observacoes := Some(OrEmpty(p.observacoes)), data_atualizacao := now, created_by := user)
  {
  }

  /** The value a controlled `<select>` holds for `value` over its option values: the value
      itself when an option has it, and otherwise the first option, which React selects when
      none matches. */
  function SelectedValue(value: string, options: seq<string>): (v: string)
    requires |options| > 0
    ensures v in options
    ensures value in options ==> v == value
    ensures value !in options ==> v == options[0]
  {
    if value in options then value else options[0]
  }

  /** The option values of the status select; none of them is empty. */
  const StatusOptions := [Planejado, EmAndamento, Concluido, Atrasado]

  /** The status select cannot fail its `required` check, whatever `formData.status` holds. */
  lemma StatusNeverBlocks(status: string)
    ensures SelectedValue(status, StatusOptions) != ""
  {
  }

  /** The option values of a choice select: the "Selecione" placeholder, then one per row. */
  function OptionValues<R>(rows: seq<Keyed<R>>): (vs: seq<string>)
    ensures |vs| > 0 && vs[0] == ""
  {
    [""] + IdsOf(rows, KeyedId)
  }

  /** A value is offered exactly when it is the placeholder or the id of a row. */
  lemma OptionValuesContents<R>(rows: seq<Keyed<R>>, value: string)
    ensures value in OptionValues(rows) <==> value == "" || exists r :: r in rows && r.id == value
  {
    var ids := IdsOf(rows, KeyedId);
    if value in OptionValues(rows) && value != "" {
      var i :| 0 <= i < |ids| && ids[i] == value;
      assert rows[i] in rows && rows[i].id == value;
    }
    if exists r :: r in rows && r.id == value {
      var r :| r in rows && r.id == value;
      var i :| 0 <= i < |rows| && rows[i] == r;
      assert OptionValues(rows)[i + 1] == value;
    }
  }

  predicate IsLineBreak(c: char) {
    c == '\n' || c == '\r'
  }

  /** The value a text input holds for `s`: the browser's value sanitisation strips every
      line feed and carriage return and keeps the other characters in order. */
  function TextInputValue(s: string): (v: string)
    ensures |v| <= |s|
    ensures forall i :: 0 <= i < |v| ==> !IsLineBreak(v[i])
    ensures (forall i :: 0 <= i < |s| ==> !IsLineBreak(s[i])) ==> v == s
  {
    if s == [] then []
    else if IsLineBreak(s[0]) then TextInputValue(s[1..])
    else [s[0]] + TextInputValue(s[1..])
  }

  /** A text input is empty exactly when its value is made of line breaks only. */
  lemma {:induction false} TextInputValueEmpty(s: string)
    ensures TextInputValue(s) == "" <==> forall i :: 0 <= i < |s| ==> IsLineBreak(s[i])
  {
    if s != [] {
      TextInputValueEmpty(s[1..]);
      assert forall i :: 1 <= i < |s| ==> s[i] == s[1..][i - 1];
    }
  }

  predicate IsDigit(c: char) {
    '0' <= c <= '9'
  }

  predicate AllDigits(s: string) {
    forall i :: 0 <= i < |s| ==> IsDigit(s[i])
  }

  /** The decimal value of a digit string. */
  function DigitsValue(s: string): nat
    requires AllDigits(s)
  {
    if s == [] then 0 else DigitsValue(s[..|s| - 1]) * 10 + (s[|s| - 1] as int - '0' as int)
  }

  predicate LeapYear(y: nat) {
    y % 4 == 0 && (y % 100 != 0 || y % 400 == 0)
  }

  function DaysInMonth(y: nat, m: nat): nat {
    if m == 2 then (if LeapYear(y) then 29 else 28)
    else if m == 4 || m == 6 || m == 9 || m == 11 then 30
    else 31
  }

  /** A valid date string of HTML: a year of four or more digits above zero, then `-MM-DD`
      with a month from 1 to 12 and a day that month has. */
  predicate ValidDateString(s: string) {
    && |s| >= 10
    && s[|s| - 6] == '-' && s[|s| - 3] == '-'
    && AllDigits(s[..|s| - 6]) && AllDigits(s[|s| - 5..|s| - 3]) && AllDigits(s[|s| - 2..])
    && var y, m, d := DigitsValue(s[..|s| - 6]), DigitsValue(s[|s| - 5..|s| - 3]), DigitsValue(s[|s| - 2..]);
       y > 0 && 1 <= m <= 12 && 1 <= d <= DaysInMonth(y, m)
  }

  /** The value a date input holds for `s`: the browser's value sanitisation empties a string
      that is not a valid date string. */
  function DateInputValue(s: string): (v: string)
    ensures v == "" <==> !ValidDateString(s)
    ensures v != "" ==> v == s
  {
    if ValidDateString(s) then s else ""
  }

  /** The date string of year `y`, month `m` and day `d` as written. */
  function DateOf(y: string, m: string, d: string): string {
    y + "-" + m + "-" + d
  }

  /** Every valid date string is a year, a two-digit month and a two-digit day joined by
      dashes. */
  lemma ValidDateIsDateOf(s: string)
    requires ValidDateString(s)
    ensures s == DateOf(s[..|s| - 6], s[|s| - 5..|s| - 3], s[|s| - 2..])
  {
    var y, m, d := s[..|s| - 6], s[|s| - 5..|s| - 3], s[|s| - 2..];
    assert s == y + [s[|s| - 6]] + m + [s[|s| - 3]] + d;
  }

  /** `DateOf(y, m, d)` is valid exactly when the parts are digit strings naming a day of
      the calendar: a year of four or more digits above zero, a month from 1 to 12 and a
      day the month has, 29 February in leap years only. */
  lemma ValidDateOf(y: string, m: string, d: string)
    requires |m| == 2 && |d| == 2
    ensures ValidDateString(DateOf(y, m, d)) <==>
              && |y| >= 4 && AllDigits(y) && AllDigits(m) && AllDigits(d)
              && DigitsValue(y) > 0 && 1 <= DigitsValue(m) <= 12
              && 1 <= DigitsValue(d) <= DaysInMonth(DigitsValue(y), DigitsValue(m))
  {
    var s := DateOf(y, m, d);
    assert |s| == |y| + 6;
    assert s[..|s| - 6] == y;
    assert s[|s| - 5..|s| - 3] == m;
    assert s[|s| - 2..] == d;
    assert s[|s| - 6] == '-' && s[|s| - 3] == '-';
  }


  class PlanoFormScreen {
    const store: Store
    /** The `plano` prop: the plano being edited, or none for a new one. The parent can
        change it while the form stays mounted. */
    var plano: Option<PlanoListed>
    /** The parent's current lists; it passes new ones after each reload. */
    var regionais: seq<Keyed<RegionalRow>>
    var responsaveis: seq<Keyed<ResponsavelRow>>
    var formData: FormData
    var loading: bool
    var error: string

    /** The first render, before the `[plano]` effect runs. */
    constructor (store: Store, plano: Option<PlanoListed>, regionais: seq<Keyed<RegionalRow>>, responsaveis: seq<Keyed<ResponsavelRow>>)
      ensures this.store == store && this.plano == plano
      ensures this.regionais == regionais && this.responsaveis == responsaveis
      ensures formData == EmptyForm && !loading && error == ""
    {
      this.store, this.plano := store, plano;
      this.regionais, this.responsaveis := regionais, responsaveis;
      formData := EmptyForm;
      loading, error := false, "";
    }

    /** The `[plano]` effect: an existing plano overwrites the whole form. */
    method SyncFromPlano()
      modifies this`formData
      ensures formData == if plano.Some? then FromPlano(plano.value.row) else old(formData)
    {
      if plano.Some? {
        formData := FromPlano(plano.value.row);
      }
    }

    /** The parent renders the form with a new `plano` prop, and the `[plano]` effect runs.
        Going to none keeps whatever the form holds. */
    method SetPlano(p: Option<PlanoListed>)
      modifies this`plano, this`formData
      ensures plano == p
      ensures formData == if p.Some? then FromPlano(p.value.row) else old(formData)
    {
      plano := p;
      SyncFromPlano();
    }

    /** The parent renders the form with reloaded lists. No effect depends on them, so the
        form keeps its fields; the options and the `required` gate follow the new lists. */
    method SetLists(rs: seq<Keyed<RegionalRow>>, ps: seq<Keyed<ResponsavelRow>>)
      modifies this`regionais, this`responsaveis
      ensures regionais == rs && responsaveis == ps
      ensures formData == old(formData) && plano == old(plano)
    {
      regionais, responsaveis := rs, ps;
    }

    method HandleChange(field: Field, value: string)
      modifies this`formData
      ensures formData == WithField(old(formData), field, value)
    {
      formData := WithField(formData, field, value);
    }

    /** `filteredResponsaveis`: nothing to choose before a regional is chosen, afterwards
        exactly the responsáveis of that regional, in the order of the prop. */
    function FilteredResponsaveis(): (r: seq<Keyed<ResponsavelRow>>)
      reads this`formData, this`responsaveis
      ensures formData.regional_id == "" ==> r == []
      ensures formData.regional_id != "" ==> r == OfRegional(responsaveis, formData.regional_id)
      ensures forall x :: x in r <==> x in responsaveis && formData.regional_id != "" && x.row.regional_id == formData.regional_id
    {
      if formData.regional_id == "" then [] else OfRegional(responsaveis, formData.regional_id)
    }

    /** The browser's constraint check when the form is submitted: every `required` control
        must hold a non-empty value. A select holds the option it shows, a date input holds
        its sanitised value, and the responsável select is disabled, so not checked, while no
        regional is chosen. The text input holds its value with line breaks stripped;
        spaces and tabs count as a value. */
    predicate RequiredFilled()
      reads this`formData, this`regionais, this`responsaveis
    {
      && SelectedValue(formData.regional_id, OptionValues(regionais)) != ""
      && (formData.regional_id == "" || SelectedValue(formData.responsavel_id, OptionValues(FilteredResponsaveis())) != "")
      && TextInputValue(formData.acao) != ""
      && DateInputValue(formData.prazo_inicio) != ""
      && DateInputValue(formData.prazo_fim) != ""
      && SelectedValue(formData.status, StatusOptions) != ""
    }

    /** The form submits exactly when a regional of the list is chosen, a responsável of that
        regional is chosen, the action has a character other than a line break and both
        deadlines are valid dates. A
        regional or responsável id that no option offers (a responsável since moved to
        another regional, say) blocks the submission; the status never does. */
    lemma RequiredFilledIff()
      ensures RequiredFilled() <==>
        && formData.regional_id != "" && (exists r :: r in regionais && r.id == formData.regional_id)
        && formData.responsavel_id != ""
        && (exists r :: r in responsaveis && r.row.regional_id == formData.regional_id && r.id == formData.responsavel_id)
        && (exists i :: 0 <= i < |formData.acao| && !IsLineBreak(formData.acao[i]))
        && ValidDateString(formData.prazo_inicio) && ValidDateString(formData.prazo_fim)
    {
      TextInputValueEmpty(formData.acao);
      OptionValuesContents(regionais, formData.regional_id);
      OptionValuesContents(FilteredResponsaveis(), formData.responsavel_id);
      StatusNeverBlocks(formData.status);
    }

    /** What `handleSubmit` leaves behind, given the store's answer to its write: the form
        itself untouched, the row written by id (`plano.id`) or inserted under the key the
        store assigns, success reported through `saved` (`onSave` is called) and failure
        through the message. */
    twostate predicate Handled(now: string, user: Option<Id>, newId: Id, outcome: Outcome, saved: bool)
      reads this, store
    {
      var payload := Payload(formData, now, user);
      && formData == old(formData)
      && !loading
      && (if saved then error == "" else error == SaveError)
      && store.regionais == old(store.regionais) && store.responsaveis == old(store.responsaveis)
      && if plano.Some? then
           && saved == (outcome == Ok)
           && store.planos == (if saved then PlanoUpdated(old(store.planos), plano.value.id, payload) else old(store.planos))
           && store.log == old(store.log) + [Sent(Update(PlanoAnual, plano.value.id), true)]
         else
           && saved == (outcome == Ok && newId !in old(store.planos))
           && store.planos == (if saved then old(store.planos)[newId := payload] else old(store.planos))
           && store.log == old(store.log) + [Sent(Insert(PlanoAnual), true)]
    }

    /** `handleSubmit`; it validates nothing itself. */
    method HandleSubmit(now: string, user: Option<Id>, newId: Id, outcome: Outcome) returns (saved: bool)
      modifies this`loading, this`error, store`planos, store`log
      ensures Handled(now, user, newId, outcome, saved)
    {
      error := "";
      loading := true;
      var payload := Payload(formData, now, user);
      if plano.Some? {
        saved := store.UpdatePlano(plano.value.id, payload, outcome, loading);
      } else {
        saved := store.InsertPlano(newId, payload, outcome, loading);
      }
      if !saved {
        error := SaveError;
      }
      loading := false;
    }

    /** Pressing the save button: the browser submits only when every `required` field is
        filled, so an empty `acao` never reaches the store. */
    method Submit(now: string, user: Option<Id>, newId: Id, outcome: Outcome) returns (submitted: bool, saved: bool)
      modifies this`loading, this`error, store`planos, store`log
      ensures submitted == old(RequiredFilled())
      ensures !submitted ==> !saved && unchanged(this) && unchanged(store)
      ensures submitted ==> Handled(now, user, newId, outcome, saved)
    {
      submitted := RequiredFilled();
      saved := false;
      if submitted {
        saved := HandleSubmit(now, user, newId, outcome);
      }
    }

    /** "Nova Ação" pressed while plano A is open: the form stays mounted, its prop becomes
        none and the effect leaves A's fields in place, so saving inserts a copy of A under a
        new key instead of starting from an empty form. */
    method NewPlanoWhileEditing(now: string, user: Option<Id>, newId: Id, outcome: Outcome) returns (saved: bool)
      requires plano.Some? && formData == FromPlano(plano.value.row)
      modifies this`plano, this`formData, this`loading, this`error, store`planos, store`log
      ensures plano.None? && formData == FromPlano(old(plano).value.row)
      ensures saved == (outcome == Ok && newId !in old(store.planos))
      ensures store.planos == if saved then old(store.planos)[newId := Payload(FromPlano(old(plano).value.row), now, user)]
                              else old(store.planos)
    {
      SetPlano(None);
      saved := HandleSubmit(now, user, newId, outcome);
    }
  }
}
