# Plano Anual de Segurança — a verified model of the screen logic

The application manages an annual security plan. It has regionais (regions), responsáveis
(people in charge, each belonging to one regional) and planos (actions, each with a regional,
a responsável, a deadline window and a status). The data lives in a hosted table store. Five
screens work on it: an indicators dashboard, the plano list with its filters, the plano editor,
and two administration screens.

This project models the logic of those screens against an abstract store:

- `Store` is the store. It holds three tables as maps from id to row, a query ordering
  (`OrderedIds`, a selection loop), and one method per request the screens send.
- A ghost log records every request, together with the issuing screen's `loading` flag at the
  moment it was sent. A select is logged with its table, its columns (all, all with the
  parents' names joined in, or `status` alone) and its equality filters.
- The store's answer to each request (`Ok` or `Err`) is a parameter of the handler that sends it.
  Whether a delete is refused because of a foreign key, a network error, or a policy is all the
  same `Err`.
- The id a successful insert gets is a parameter too.
- Each screen is a class whose fields are the component's state. Each event handler is a method
  whose contract gives the whole new state and the requests sent.
- Text rules are in `Text`: `trim` with the ECMAScript whitespace set, and code-point order for
  `.order(...)`.
- The counting and percentage arithmetic is in `Dashboard`. The field record of the editor is in
  `PlanoForm`. The filters of the list are in `PlanoManager`. Screen selection is in `App`.

Five behaviours of the code that a reader might not expect:

- Saving an existing plano sends `created_by` = the signed-in user. This overwrites the stored
  creator; it is not left untouched (`PlanoForm.PlanoFormScreen.HandleSubmit`, `Store.PlanoUpdated`).
  With no user the key is dropped from the request, and then the stored creator stays.
- The plano editor does no validation of its own. Only the browser's `required` check stands
  between the user and the store (`PlanoForm.PlanoFormScreen.Submit`). That check accepts an
  `acao` of spaces or tabs, but not one of line breaks only, which the text input strips. It refuses a plano whose regional or responsável is not among the
  options offered, for example a responsável since moved to another regional: the select then
  shows its empty placeholder (`PlanoForm.PlanoFormScreen.RequiredFilledIff`).
- A plano opened for editing and saved unchanged turns null `descricao`, `objetivo` and
  `observacoes` into `''` (`PlanoForm.UnchangedEditRewritesRow`).
- Pressing "Nova Ação" while a plano is open in the editor keeps the editor mounted and only
  clears its `plano` prop. The `[plano]` effect then leaves the old fields in place, so saving
  inserts a copy of the open plano (`PlanoForm.PlanoFormScreen.NewPlanoWhileEditing`).
- Signing out resets neither `currentView` nor `showRegister`. A user who came in through the
  register screen sees Register again, not Login, after signing out
  (`App.SignOutAfterRegisterShowsRegister`), and signing in again shows the last view
  (`App.SignInAgainKeepsView`).

## Model

| member | source | states |
|---|---|---|
| Text.TrimStart | src/components/Regionais/RegionaisManager.tsx:40 | the result is a suffix of the input; what was cut is all whitespace; the result does not start with whitespace |
| Text.TrimEnd | src/components/Regionais/RegionaisManager.tsx:40 | the result is a prefix of the input; what was cut is all whitespace; the result does not end with whitespace |
| Text.TrimEmptyIffBlank | src/components/Regionais/RegionaisManager.tsx:40 | `trim(s)` is empty exactly when every character of `s` is whitespace |
| Text.TrimsToEmpty | src/components/Responsaveis/ResponsaveisManager.tsx:53 | the guard `!s.trim()` holds exactly for the empty and the all-whitespace strings |
| Text.LexLeReflexive | src/components/Regionais/RegionaisManager.tsx:29 | the name order puts every string at or before itself |
| Text.LexLeTotal | src/components/Regionais/RegionaisManager.tsx:29 | any two names are comparable |
| Text.LexLeTransitive | src/components/Regionais/RegionaisManager.tsx:29 | the name order is transitive |
| Text.LexLeAntisymmetric | src/components/Regionais/RegionaisManager.tsx:29 | two names ordered both ways are equal |
| Store.InOrderReflexive | src/components/PlanoAnual/PlanoAnualManager.tsx:79 | ascending and descending order both accept equal keys |
| Store.InOrderTotal | src/components/PlanoAnual/PlanoAnualManager.tsx:79 | any two keys are ordered one way or the other |
| Store.InOrderTransitive | src/components/PlanoAnual/PlanoAnualManager.tsx:79 | the sort order is transitive, so a sorted list is sorted pairwise |
| Store.OrderedIds | src/components/PlanoAnual/PlanoAnualManager.tsx:79 | the result lists every key of the table exactly once, in key order (descending when asked); ties come out in an unspecified order |
| Store.EnumerationLength | src/components/Dashboard/Dashboard.tsx:36 | a query that returns each stored row once returns as many rows as the table has |
| Store.PlanoUpdated | src/components/PlanoAnual/PlanoAnualForm.tsx:75-78 | an update by id writes every column of the payload into that row only; an absent `created_by` keeps the stored one; a missing id changes nothing |
| Store.KeyedListingShows | src/components/Regionais/RegionaisManager.tsx:26-32 | a listing shows every stored row under its id |
| Store.KeyedListingContents | src/components/Regionais/RegionaisManager.tsx:26-32 | a listing shows a row under an id exactly when the table stores that row under it |
| Store.ResponsavelListingShows | src/components/Responsaveis/ResponsaveisManager.tsx:38 | the joined listing shows every stored responsável with its regional's name, or none when that regional is gone |
| Store.Store.InsertRegional | src/components/Regionais/RegionaisManager.tsx:46-48 | on success the table gains exactly the new row; an id in use or an error changes nothing; the insert is logged |
| Store.Store.UpdateRegional | src/components/Regionais/RegionaisManager.tsx:67-70 | on success only `nome_regional` of that row changes |
| Store.Store.DeleteRegional | src/components/Regionais/RegionaisManager.tsx:90-93 | on success exactly that row is gone; a refusal changes nothing |
| Store.Store.InsertResponsavel | src/components/Responsaveis/ResponsaveisManager.tsx:62-68 | on success the table gains exactly the new row |
| Store.Store.UpdateResponsavel | src/components/Responsaveis/ResponsaveisManager.tsx:91-97 | on success only `nome_responsavel` and `regional_id` of that row change, so `created_by` is kept |
| Store.Store.DeleteResponsavel | src/components/Responsaveis/ResponsaveisManager.tsx:118-121 | on success exactly that row is gone |
| Store.Store.InsertPlano | src/components/PlanoAnual/PlanoAnualForm.tsx:82-84 | on success the table gains exactly the payload under the new id |
| Store.Store.UpdatePlano | src/components/PlanoAnual/PlanoAnualForm.tsx:75-78 | on success the table becomes `PlanoUpdated` of the old one |
| Store.Store.DeletePlano | src/components/PlanoAnual/PlanoAnualManager.tsx:112-115 | on success exactly that row is gone |
| Store.Store.SelectRegionais | src/components/Regionais/RegionaisManager.tsx:26-29 | success iff `Ok`; the rows are the stored regionais, each once, by name ascending |
| Store.Store.SelectResponsaveis | src/components/PlanoAnual/PlanoAnualManager.tsx:59 | success iff `Ok`; the rows are the stored responsáveis, each once, by name ascending |
| Store.Store.SelectResponsaveisWithRegional | src/components/Responsaveis/ResponsaveisManager.tsx:38 | as above, each row joined with its regional's name |
| Store.Store.SelectPlanos | src/components/PlanoAnual/PlanoAnualManager.tsx:76-85 | success iff `Ok`; the rows are the stored planos passing every condition, each once, latest `prazo_fim` first, joined with both parent names |
| Store.Store.SelectStatuses | src/components/Dashboard/Dashboard.tsx:29-31 | success iff `Ok`; one status per stored plano, in some order |
| Rows.OfRegional | src/components/PlanoAnual/PlanoAnualForm.tsx:58-60 | the result holds exactly the responsáveis of the given regional and is no longer than the input |
| Rows.OfRegionalConcat | src/components/PlanoAnual/PlanoAnualManager.tsx:132-134 | filtering a concatenation is concatenating the filtered parts, so the original order is kept |
| Dashboard.Count | src/components/Dashboard/Dashboard.tsx:37-40 | a bucket never counts more rows than were fetched |
| Dashboard.CountIsMultiplicity | src/components/Dashboard/Dashboard.tsx:37-40 | a bucket is the number of occurrences of its status among the fetched rows |
| Dashboard.CountZeroIffAbsent | src/components/Dashboard/Dashboard.tsx:37-40 | a bucket is zero exactly when no row has that status |
| Dashboard.CountAllIffUniform | src/components/Dashboard/Dashboard.tsx:37-40 | a bucket equals the total exactly when every row has that status |
| Dashboard.StatsOfRows | src/components/Dashboard/Dashboard.tsx:35-41 | `total` is the number of rows; each bucket counts the rows with exactly that status; the buckets sum to at most `total`, and to `total` exactly when every status is one of the four |
| Dashboard.Percentage | src/components/Dashboard/Dashboard.tsx:51-54 | 0 when the total is 0; otherwise the integer nearest to 100·value/total, halves rounded up |
| Dashboard.PercentageUnique | src/components/Dashboard/Dashboard.tsx:53 | only one integer is within the rounding bounds, so `Percentage` is the round-half-up value |
| Dashboard.PercentageBounds | src/components/Dashboard/Dashboard.tsx:53 | for value ≤ total the percentage is in 0..100; value = total gives 100, value = 0 gives 0 |
| Dashboard.PercentagesNeedNotSumTo100 | src/components/Dashboard/Dashboard.tsx:115-145 | three planos in three buckets show 33 + 33 + 33 = 99 |
| Dashboard.FourRowScenario | src/components/Dashboard/Dashboard.tsx:35-54 | a concrete table of four planos gives counts 2/1/1/0 and percentages 50/25/25/0 |
| Dashboard.DashboardScreen.constructor | src/components/Dashboard/Dashboard.tsx:14-21 | all counts start at zero and `loading` starts true |
| Dashboard.DashboardScreen.LoadStats | src/components/Dashboard/Dashboard.tsx:27-49 | on success `stats` is computed from the status of every stored plano, each once; on failure `stats` keeps its value; `loading` is false on both paths |
| Dashboard.DashboardScreen.GetPercentage | src/components/Dashboard/Dashboard.tsx:51-54 | 0 when the current total is 0; within 0..100 for any count not above the total |
| App.PageFor | src/App.tsx:32-45 | the four view ids select their pages; any other id selects the dashboard |
| App.ScreenFor | src/App.tsx:16-51 | while auth loads only the loading screen shows; with no user Register shows iff `showRegister`, else Login; with a user the main layout shows `PageFor(currentView)` |
| App.NoPageWithoutUser | src/App.tsx:24-30 | no manager page is reachable without a user |
| App.SignedInStartsOnDashboard | src/App.tsx:13-14 | on the first render after the page loads, a signed-in user sees the dashboard |
| App.SignedOutStartsOnLogin | src/App.tsx:13-14 | on the first render after the page loads, a visitor with no user sees the login screen |
| App.SignInAgainKeepsView | src/App.tsx:13-14 | the view and register flag are never reset, so signing in again shows the page of `currentView`, not necessarily the dashboard |
| App.SignOutAfterRegisterShowsRegister | src/App.tsx:13-30 | with `showRegister` still true after sign-out, a visitor with no user sees Register, not Login |
| PlanoForm.EmptyFormFields | src/components/PlanoAnual/PlanoAnualForm.tsx:27-37 | a new form has every field empty except `status`, which is `Planejado` |
| PlanoForm.OrEmpty | src/components/PlanoAnual/PlanoAnualForm.tsx:48-53 | a null text becomes `''`; any other is kept |
| PlanoForm.WithField | src/components/PlanoAnual/PlanoAnualForm.tsx:97-107 | the named field takes the value and every other field is kept, except that choosing a regional, even the same one, clears the responsável |
| PlanoForm.Payload | src/components/PlanoAnual/PlanoAnualForm.tsx:68-72 | the saved row is stamped with the given time and the signed-in user, on insert and update alike |
| PlanoForm.FormRoundTrip | src/components/PlanoAnual/PlanoAnualForm.tsx:43-72 | saving a form and opening the saved row gives back the same form |
| PlanoForm.UnchangedEditRewritesRow | src/components/PlanoAnual/PlanoAnualForm.tsx:43-72 | opening a plano and saving it unchanged rewrites the same row, re-stamped, with null texts turned into `''` |
| PlanoForm.PlanoFormScreen.constructor | src/components/PlanoAnual/PlanoAnualForm.tsx:26-39 | the editor starts on the empty form, not loading, with no message |
| PlanoForm.PlanoFormScreen.SyncFromPlano | src/components/PlanoAnual/PlanoAnualForm.tsx:42-56 | an existing plano overwrites the whole form, null texts as `''`; with none the form is kept |
| PlanoForm.PlanoFormScreen.SetLists | src/components/PlanoAnual/PlanoAnualManager.tsx:245-249 | the parent's reloaded lists become the form's props; the form fields and the `plano` prop are kept |
| PlanoForm.PlanoFormScreen.SetPlano | src/components/PlanoAnual/PlanoAnualForm.tsx:42-56 | a new `plano` prop is stored and the effect runs again: Some overwrites the form, None keeps whatever it holds |
| PlanoForm.PlanoFormScreen.NewPlanoWhileEditing | src/components/PlanoAnual/PlanoAnualManager.tsx:149-152 | with the form open on plano A, clearing the prop and saving inserts `Payload(FromPlano(A.row), …)` under the new key on success, and nothing otherwise |
| PlanoForm.PlanoFormScreen.HandleChange | src/components/PlanoAnual/PlanoAnualForm.tsx:97-107 | the form becomes `WithField` of the old form |
| PlanoForm.PlanoFormScreen.FilteredResponsaveis | src/components/PlanoAnual/PlanoAnualForm.tsx:58-60 | empty while no regional is chosen; otherwise exactly the responsáveis of that regional, in prop order |
| PlanoForm.PlanoFormScreen.HandleSubmit | src/components/PlanoAnual/PlanoAnualForm.tsx:62-95 | an edited plano is updated by its id, a new one inserted; `saved` (`onSave` runs) only on success; on failure the message `Erro ao salvar plano` and nothing written; the form is kept and `loading` ends false |
| PlanoForm.SelectedValue | src/components/PlanoAnual/PlanoAnualForm.tsx:135-145 | a controlled select holds its value when an option has it, otherwise its first option |
| PlanoForm.StatusNeverBlocks | src/components/PlanoAnual/PlanoAnualForm.tsx:238-248 | the status select offers no empty option, so its `required` check never fails |
| PlanoForm.OptionValuesContents | src/components/PlanoAnual/PlanoAnualForm.tsx:141-144 | a select offers a value exactly when it is the placeholder `''` or the id of a listed row |
| PlanoForm.TextInputValue | src/components/PlanoAnual/PlanoAnualForm.tsx:171-178 | a text input holds its value without line feeds or carriage returns, and unchanged when it has none |
| PlanoForm.TextInputValueEmpty | src/components/PlanoAnual/PlanoAnualForm.tsx:171-178 | a text input is empty exactly when its value is made of line breaks only |
| PlanoForm.DateInputValue | src/components/PlanoAnual/PlanoAnualForm.tsx:211-231 | a date input holds the empty string exactly when its value is not a valid date string, and the value itself otherwise |
| PlanoForm.ValidDateIsDateOf | src/components/PlanoAnual/PlanoAnualForm.tsx:211-231 | a valid date string is a year, a month and a day joined by `-` |
| PlanoForm.ValidDateOf | src/components/PlanoAnual/PlanoAnualForm.tsx:211-231 | a year-month-day string is valid iff its parts are digits naming a calendar day: year of four or more digits above zero, month 1-12, day within the month, 29 February in leap years only |
| PlanoForm.PlanoFormScreen.RequiredFilledIff | src/components/PlanoAnual/PlanoAnualForm.tsx:129-248 | the form submits iff a listed regional is chosen, a responsável of that regional is chosen, `acao` has a character other than a line break, and both deadlines are valid dates; the status never blocks |
| PlanoForm.PlanoFormScreen.Submit | src/components/PlanoAnual/PlanoAnualForm.tsx:129-248 | the save runs iff the browser's `required` check passes on the values the controls hold; otherwise nothing changes and nothing is sent |
| PlanoManager.FilterCondition | src/components/PlanoAnual/PlanoAnualManager.tsx:81-83 | an empty filter adds no condition; a set one admits exactly the rows with that column value |
| PlanoManager.PlanoQuery | src/components/PlanoAnual/PlanoAnualManager.tsx:76-83 | a row satisfies the query exactly when it passes all three filters, an empty one passing everything |
| PlanoManager.SatisfiesAllSplit | src/components/PlanoAnual/PlanoAnualManager.tsx:81-83 | chained `.eq` conditions are a conjunction |
| PlanoManager.ListingShowsExactlyMatches | src/components/PlanoAnual/PlanoAnualManager.tsx:74-88 | the list shows each stored plano that passes the filters exactly once, nothing else, with `prazo_fim` non-increasing |
| PlanoManager.NoFilterMatchesAll | src/components/PlanoAnual/PlanoAnualManager.tsx:126-130 | with the filters cleared the query is unconditioned and matches the whole table |
| PlanoManager.PlanoManagerScreen.constructor | src/components/PlanoAnual/PlanoAnualManager.tsx:36-47 | empty lists, no form, no filters, not loading, no message |
| PlanoManager.PlanoManagerScreen.LoadPlanos | src/components/PlanoAnual/PlanoAnualManager.tsx:74-92 | on success the list is the store's answer to the current filters; on failure the list is kept and `Erro ao carregar planos` set |
| PlanoManager.PlanoManagerScreen.LoadData | src/components/PlanoAnual/PlanoAnualManager.tsx:55-72 | both lists are requested; only when both arrive are they shown and the planos reloaded; otherwise nothing but `Erro ao carregar dados` changes |
| PlanoManager.PlanoManagerScreen.ApplyFilters | src/components/PlanoAnual/PlanoAnualManager.tsx:51-53 | new filters reload everything when they differ from the rendered ones, and nothing is sent when they do not |
| PlanoManager.PlanoManagerScreen.SelectRegionalFilter | src/components/PlanoAnual/PlanoAnualManager.tsx:186-189 | choosing a regional filter sets it and resets the responsável filter, and reloads if that changed anything |
| PlanoManager.PlanoManagerScreen.SelectResponsavelFilter | src/components/PlanoAnual/PlanoAnualManager.tsx:203-207 | a disabled select (no regional, some responsáveis) changes nothing; otherwise the filter is set and the screen reloads on change |
| PlanoManager.PlanoManagerScreen.SelectStatusFilter | src/components/PlanoAnual/PlanoAnualManager.tsx:220-222 | the status filter is set and the screen reloads on change |
| PlanoManager.PlanoManagerScreen.ClearFilters | src/components/PlanoAnual/PlanoAnualManager.tsx:126-130 | all three filters become empty, the query unconditioned, and the screen reloads only if some filter was set; the rest of the state is untouched |
| PlanoManager.PlanoManagerScreen.FilteredResponsaveis | src/components/PlanoAnual/PlanoAnualManager.tsx:132-134 | every responsável while no regional filter is set, otherwise exactly those of the filtered regional |
| PlanoManager.PlanoManagerScreen.HandleSave | src/components/PlanoAnual/PlanoAnualManager.tsx:94-98 | the form closes, `editingPlano` is cleared and the list reloads |
| PlanoManager.PlanoManagerScreen.HandleEdit | src/components/PlanoAnual/PlanoAnualManager.tsx:100-103 | the form opens on the chosen plano |
| PlanoManager.PlanoManagerScreen.NewPlano | src/components/PlanoAnual/PlanoAnualManager.tsx:149-152 | the form opens with no plano |
| PlanoManager.PlanoManagerScreen.CancelForm | src/components/PlanoAnual/PlanoAnualManager.tsx:251-254 | the form closes and `editingPlano` is cleared |
| PlanoManager.PlanoManagerScreen.ToggleFilters | src/components/PlanoAnual/PlanoAnualManager.tsx:142 | the filter panel flips |
| PlanoManager.PlanoManagerScreen.CloseFilters | src/components/PlanoAnual/PlanoAnualManager.tsx:172 | the filter panel closes |
| PlanoManager.PlanoManagerScreen.HandleDelete | src/components/PlanoAnual/PlanoAnualManager.tsx:105-124 | unconfirmed: nothing happens; refused: `Erro ao excluir plano`, table and list kept; accepted: the row is gone and the list is reloaded while `loading` is true; `loading` ends false |
| RegionaisManager.RegionaisScreen.constructor | src/components/Regionais/RegionaisManager.tsx:12-17 | empty list and inputs, no edit session, not loading |
| RegionaisManager.RegionaisScreen.LoadRegionais | src/components/Regionais/RegionaisManager.tsx:24-36 | on success the list is the stored regionais by name; on failure the list is kept and `Erro ao carregar regionais` set |
| RegionaisManager.RegionaisScreen.HandleAdd | src/components/Regionais/RegionaisManager.tsx:38-58 | a blank name changes nothing and sends nothing; otherwise as `SaveNew`, and after a successful add and reload the new regional is listed |
| RegionaisManager.RegionaisScreen.SaveNew | src/components/Regionais/RegionaisManager.tsx:42-57 | the name is inserted as typed with the user as creator while `loading` is true; success clears the box and reloads; failure sets `Erro ao adicionar regional` and keeps the box; `loading` ends false |
| RegionaisManager.RegionaisScreen.HandleEdit | src/components/Regionais/RegionaisManager.tsx:60-81 | a blank name changes nothing and sends nothing; otherwise as `SaveEdit` |
| RegionaisManager.RegionaisScreen.SaveEdit | src/components/Regionais/RegionaisManager.tsx:63-80 | only the name is written; success ends the edit session and reloads; failure sets `Erro ao atualizar regional` and keeps the session |
| RegionaisManager.RegionaisScreen.HandleDelete | src/components/Regionais/RegionaisManager.tsx:83-102 | unconfirmed: nothing happens; refused: the "responsáveis vinculados" message; accepted: the row is gone and, after a successful reload, no longer listed |
| RegionaisManager.RegionaisScreen.StartEdit | src/components/Regionais/RegionaisManager.tsx:104-107 | the edit session takes the regional's id and name |
| RegionaisManager.RegionaisScreen.CancelEdit | src/components/Regionais/RegionaisManager.tsx:109-112 | the edit session is cleared |
| RegionaisManager.RegionaisScreen.SetNewRegional | src/components/Regionais/RegionaisManager.tsx:129 | the add box takes the typed value |
| RegionaisManager.RegionaisScreen.SetEditingName | src/components/Regionais/RegionaisManager.tsx:155 | the rename box takes the typed value |
| ResponsaveisManager.ResponsaveisScreen.constructor | src/components/Responsaveis/ResponsaveisManager.tsx:19-27 | empty lists and inputs, no edit session, not loading |
| ResponsaveisManager.ResponsaveisScreen.LoadData | src/components/Responsaveis/ResponsaveisManager.tsx:34-49 | both lists are requested; neither changes unless both arrive; a failure sets `Erro ao carregar dados` |
| ResponsaveisManager.ResponsaveisScreen.HandleAdd | src/components/Responsaveis/ResponsaveisManager.tsx:51-79 | a blank name or no regional sets `Preencha todos os campos` and sends nothing; otherwise as `SaveNew` |
| ResponsaveisManager.ResponsaveisScreen.SaveNew | src/components/Responsaveis/ResponsaveisManager.tsx:58-78 | the name is inserted as typed under the chosen regional; success clears both inputs and reloads, and the new row is then listed with its regional's name; failure sets `Erro ao adicionar responsável` |
| ResponsaveisManager.ResponsaveisScreen.ClearInputsAndReload | src/components/Responsaveis/ResponsaveisManager.tsx:71-73 | both inputs become empty, both lists are reloaded, and a successful reload lists the stored responsável with its regional's name |
| ResponsaveisManager.ResponsaveisScreen.PressAdd | src/components/Responsaveis/ResponsaveisManager.tsx:182-184 | the add button does nothing while loading or while there is no regional |
| ResponsaveisManager.ResponsaveisScreen.HandleEdit | src/components/Responsaveis/ResponsaveisManager.tsx:81-109 | a blank name or no regional sets `Preencha todos os campos` and sends nothing; otherwise as `SaveEdit` |
| ResponsaveisManager.ResponsaveisScreen.SaveEdit | src/components/Responsaveis/ResponsaveisManager.tsx:87-108 | only name and regional are written; success ends the session and reloads; failure sets `Erro ao atualizar responsável` |
| ResponsaveisManager.ResponsaveisScreen.EndEditAndReload | src/components/Responsaveis/ResponsaveisManager.tsx:100-103 | the edit session's three fields are cleared and both lists are reloaded |
| ResponsaveisManager.ResponsaveisScreen.HandleDelete | src/components/Responsaveis/ResponsaveisManager.tsx:111-130 | unconfirmed: nothing happens; refused: the "planos vinculados" message; accepted: the row is gone and, after a successful reload, no longer listed |
| ResponsaveisManager.ResponsaveisScreen.StartEdit | src/components/Responsaveis/ResponsaveisManager.tsx:132-136 | the session takes the id, name and `regional_id` |
| ResponsaveisManager.ResponsaveisScreen.CancelEdit | src/components/Responsaveis/ResponsaveisManager.tsx:138-142 | all three session fields are cleared |
| ResponsaveisManager.ResponsaveisScreen.SetNewResponsavel | src/components/Responsaveis/ResponsaveisManager.tsx:165 | the name input takes the typed value |
| ResponsaveisManager.ResponsaveisScreen.SetSelectedRegional | src/components/Responsaveis/ResponsaveisManager.tsx:171 | the regional select takes the chosen value |
| ResponsaveisManager.ResponsaveisScreen.SetEditingName | src/components/Responsaveis/ResponsaveisManager.tsx:204 | the edited name takes the typed value |
| ResponsaveisManager.ResponsaveisScreen.SetEditingRegional | src/components/Responsaveis/ResponsaveisManager.tsx:209 | the edited regional takes the chosen value |

## Left out

- The store client, its configuration check and the generated table types (`src/lib/supabase.ts`). The row datatypes follow those types; the rest is I/O.
- Network behaviour, row-level security and authentication are not modelled. Every request's answer is an input. Which refusal the store gives (foreign key, policy, network) is folded into `Err`.
- Concurrency is not modelled. Each handler runs to completion, including its awaited reload, before the next event. The two parallel fetches of `loadData` are sent one after the other in the log. This is also why `loading` is false at every event, and why the regional screen's add button being disabled while loading is not modelled.
- React scheduling is not modelled. Mount effects are the methods named `LoadStats`, `LoadRegionais` and `LoadData`, called after the constructor. The filter effect of the plano list is folded into the filter setters.
- The intermediate render while a request is pending is not modelled. The log records `loading` at send time instead.
- Dashboard.Percentage: uses the exact integer round-half-up of 100·value/total, not the floating-point `Math.round(value / total * 100)`. The two can differ only where the floating-point quotient lands beside a half.
- Dates and times are modelled only as far as the date input's validity check (`PlanoForm.ValidDateString`). The save time is a parameter, deadlines are strings compared by code point, and nothing is proved about `data_atualizacao` growing.
- String order is code-point order, not the store's collation, and ties on the order key come out in an unspecified order.
- The console message of a failed dashboard load is not modelled (I/O).
- `src/components/PlanoAnual/PlanoAnualTable.tsx` and `src/components/Layout/MainLayout.tsx` are not part of this model (presentation). That covers status colours, table markup, the sidebar, the online indicator and sign-out.
- Login and registration screens are not part of this model; `App.ScreenFor` only says which one shows.
- The `confirm()` prompts are a boolean parameter.
- The responsável select of the plano editor is disabled while no regional is chosen. The model does not block `HandleChange` for it then. A value chosen that way would be cleared by the next regional choice anyway, and the required check covers the save.
- The form field names are an enumeration, so a `handleChange` with an unknown field name cannot be expressed.
