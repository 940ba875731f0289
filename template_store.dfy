/** The template library store (apps/web/src/app/modules/campaigns/templates/stores/templateStore.ts).
    Each action's `set` calls are composed into one function from the store state to the new state;
    the store is a class whose one field is that state, with one method per action. `Date.now()` is
    the `now` parameter of each action, the simulated fetch delay and the persistence middleware are
    not modelled, and the mock template list is a constructor parameter. */
module TemplateStore {
  import opened Wrappers
  import opened Strings
  import opened Seqs
  import opened TemplateTypes

  datatype TemplateState = TemplateState(
    templates: seq<Template>, selectedTemplate: Option<Template>, isLoading: bool, error: Option<string>)

  function InitialState(mock: seq<Template>): TemplateState {
    TemplateState(mock, None, false, None)
  }

  const NotFound := "Template not found"

  /** `template-${Date.now()}` */
  function TemplateId(now: nat): string {
    "template-" + NatToString(now)
  }

  /** `structure.basicInfo?.channels`, when present. */
  function StructureChannels(s: TemplateStructure): Option<seq<string>> {
    if s.basicInfo.Some? then s.basicInfo.value.channels else None
  }

  /** The template `createTemplate` builds: the input's fields, a draft nobody has used yet, owned by
      the current user, with the channels of the structure's basic information. An empty list is
      truthy in JavaScript, so `|| []` only replaces a missing list. */
  function NewTemplate(input: CreateTemplateInput, now: nat): Template {
    Template(
      TemplateId(now), input.name, input.description, input.category, Draft, input.thumbnail,
      input.structure, input.tags.GetOr([]), StructureChannels(input.structure).GetOr([]),
      FreshStats, false, false, now, now, "current-user")
  }

  /** `createTemplate`: the new template is put first. */
  function CreateTemplate(st: TemplateState, input: CreateTemplateInput, now: nat): (TemplateState, Template) {
    var t := NewTemplate(input, now);
    (st.(templates := [t] + st.templates, isLoading := false, error := None), t)
  }

  /** The first template with the id: the `find` of `updateTemplate` and `cloneTemplate`. */
  function FindTemplate(ts: seq<Template>, id: string): (r: Option<Template>)
    ensures r.Some? ==> r.value in ts && r.value.id == id
    ensures r.Some? ==> exists i :: 0 <= i < |ts| && ts[i] == r.value && forall j :: 0 <= j < i ==> ts[j].id != id
    ensures r.None? <==> forall t :: t in ts ==> t.id != id
  {
    if ts == [] then None else if ts[0].id == id then Some(ts[0]) else FindTemplate(ts[1..], id)
  }

  lemma {:induction false} CreateTemplateEffect(st: TemplateState, input: CreateTemplateInput, now: nat)
    ensures var (r, t) := CreateTemplate(st, input, now);
      && r.templates == [t] + st.templates
      && FindTemplate(r.templates, t.id) == Some(t)
      && t.id == TemplateId(now) && t.name == input.name && t.description == input.description
      && t.category == input.category && t.structure == input.structure && t.thumbnail == input.thumbnail
      && t.status == Draft && t.stats.usageCount == 0 && t.stats == FreshStats
      && !t.isFavorite && !t.isShared && t.createdBy == "current-user"
      && t.createdAt == now && t.updatedAt == now
      && (input.tags.Some? ==> t.tags == input.tags.value) && (input.tags.None? ==> t.tags == [])
      && (t.channels == if input.structure.basicInfo.Some? && input.structure.basicInfo.value.channels.Some?
                        then input.structure.basicInfo.value.channels.value else [])
      && !r.isLoading && r.error.None? && r.selectedTemplate == st.selectedTemplate
  {
  }

  /** The in-place changes the actions make to the templates with a given id. */
  datatype Edit =
    | Update(u: UpdateTemplateInput, now: nat)
    | FlipFavorite
    | SetStatus(status: TemplateStatus, now: nat)
    | CountUse(now: nat)

  /** `{ ...t, ...updates, updatedAt, channels: updates.structure?.basicInfo?.channels || t.channels }` */
  function ApplyUpdate(t: Template, u: UpdateTemplateInput, now: nat): Template {
    var channels := if u.structure.Some? then StructureChannels(u.structure.value) else None;
    t.(name := u.name.GetOr(t.name),
       description := if u.description.Some? then u.description else t.description,
       category := u.category.GetOr(t.category),
       tags := u.tags.GetOr(t.tags),
       structure := u.structure.GetOr(t.structure),
       thumbnail := if u.thumbnail.Some? then u.thumbnail else t.thumbnail,
       updatedAt := now,
       channels := channels.GetOr(t.channels))
  }

  function Apply(t: Template, e: Edit): Template {
    match e
    case Update(u, now) => ApplyUpdate(t, u, now)
    case FlipFavorite => t.(isFavorite := !t.isFavorite)
    case SetStatus(status, now) => t.(status := status, updatedAt := now)
    case CountUse(now) => t.(stats := t.stats.(usageCount := t.stats.usageCount + 1, lastUsedAt := Some(now)))
  }

  /** `templates.map(t => t.id === id ? edited(t) : t)` */
  function EditMatching(ts: seq<Template>, id: string, e: Edit): (r: seq<Template>)
    ensures |r| == |ts|
    ensures forall i :: 0 <= i < |ts| ==> r[i] == if ts[i].id == id then Apply(ts[i], e) else ts[i]
  {
    seq(|ts|, i requires 0 <= i < |ts| => if ts[i].id == id then Apply(ts[i], e) else ts[i])
  }

  /** None of the edits changes a template's id. */
  lemma {:induction false} EditKeepsIds(ts: seq<Template>, id: string, e: Edit)
    ensures forall i :: 0 <= i < |ts| ==> EditMatching(ts, id, e)[i].id == ts[i].id
  {
  }

  /** When no template has the id, mapping changes nothing. */
  lemma {:induction false} EditNoMatch(ts: seq<Template>, id: string, e: Edit)
    requires forall t :: t in ts ==> t.id != id
    ensures EditMatching(ts, id, e) == ts
  {
    assert forall i :: 0 <= i < |ts| ==> ts[i] in ts;
  }

  /** `updateTemplate`: every template with the id is updated; the first of them is returned, or,
      when no template has the id, the error is stored and the call rejects. */
  function UpdateTemplate(st: TemplateState, u: UpdateTemplateInput, now: nat): (TemplateState, Result<Template>) {
    var ts := EditMatching(st.templates, u.id, Update(u, now));
    var found := FindTemplate(ts, u.id);
    if found.Some? then (st.(templates := ts, isLoading := false, error := None), Ok(found.value))
    else (st.(templates := ts, isLoading := false, error := Some(NotFound)), Err(NotFound))
  }

  /** Only the templates with the id change; each keeps its id, dates of creation, statistics,
      favourite and sharing flags, and takes the supplied fields. The channels follow a supplied
      structure only when it lists channels. */
  lemma {:induction false} UpdateTemplateEffect(st: TemplateState, u: UpdateTemplateInput, now: nat)
    ensures var r := UpdateTemplate(st, u, now).0;
      && |r.templates| == |st.templates|
      && (forall i :: 0 <= i < |st.templates| && st.templates[i].id != u.id ==> r.templates[i] == st.templates[i])
      && (forall i :: 0 <= i < |st.templates| && st.templates[i].id == u.id ==>
            var t, n := st.templates[i], r.templates[i];
            && n.id == t.id && n.createdAt == t.createdAt && n.stats == t.stats && n.status == t.status
            && n.isFavorite == t.isFavorite && n.isShared == t.isShared && n.createdBy == t.createdBy
            && n.updatedAt == now
            && (u.name.Some? ==> n.name == u.name.value) && (u.name.None? ==> n.name == t.name)
            && (u.tags.Some? ==> n.tags == u.tags.value) && (u.tags.None? ==> n.tags == t.tags)
            && (u.structure.Some? ==> n.structure == u.structure.value)
            && (u.structure.None? ==> n.structure == t.structure && n.channels == t.channels)
            && (u.structure.Some? && StructureChannels(u.structure.value).Some? ==>
                  n.channels == StructureChannels(u.structure.value).value))
      && !r.isLoading && r.selectedTemplate == st.selectedTemplate
  {
  }

  /** The update resolves with a template of the id exactly when one existed; an unknown id rejects
      with "Template not found" and changes no template. */
  lemma {:induction false} UpdateTemplateOutcome(st: TemplateState, u: UpdateTemplateInput, now: nat)
    ensures var (r, res) := UpdateTemplate(st, u, now);
      && (res.Ok? <==> exists t :: t in st.templates && t.id == u.id)
      && (res.Ok? ==> res.value in r.templates && res.value.id == u.id && r.error.None?)
      && (res.Err? ==> res.message == NotFound && r.templates == st.templates && r.error == Some(NotFound))
  {
    var ts := EditMatching(st.templates, u.id, Update(u, now));
    EditKeepsIds(st.templates, u.id, Update(u, now));
    if exists t :: t in st.templates && t.id == u.id {
      var t :| t in st.templates && t.id == u.id;
      var i :| 0 <= i < |st.templates| && st.templates[i] == t;
      assert ts[i].id == u.id && ts[i] in ts;
    } else {
      EditNoMatch(st.templates, u.id, Update(u, now));
    }
  }

  function NotId(id: string): Template -> bool {
    (t: Template) => t.id != id
  }

  /** `deleteTemplate`: the templates with the id are removed, and the selection is cleared when it
      is one of them. */
  function DeleteTemplate(st: TemplateState, id: string): TemplateState {
    st.(templates := Filter(st.templates, NotId(id)),
        selectedTemplate := if st.selectedTemplate.Some? && st.selectedTemplate.value.id == id then None
                            else st.selectedTemplate,
        isLoading := false, error := None)
  }

  lemma {:induction false} DeleteTemplateEffect(st: TemplateState, id: string)
    ensures var r := DeleteTemplate(st, id);
      && IsSubsequence(r.templates, st.templates)
      && (forall t :: t in r.templates <==> t in st.templates && t.id != id)
      && (r.selectedTemplate.None? <==> st.selectedTemplate.None? || st.selectedTemplate.value.id == id)
      && (r.selectedTemplate.Some? ==> r.selectedTemplate == st.selectedTemplate)
      && !r.isLoading && r.error.None?
  {
    FilterIsSubsequence(st.templates, NotId(id));
    forall t ensures t in Filter(st.templates, NotId(id)) <==> t in st.templates && t.id != id {
      FilterMembership(st.templates, NotId(id), t);
    }
  }

  /** The copy `cloneTemplate` makes: a new id and creation time, the name marked as a copy, fresh
      statistics and no favourite mark; everything else is the original's. */
  function Cloned(t: Template, now: nat): Template {
    t.(id := TemplateId(now), name := t.name + " (Copie)", createdAt := now, updatedAt := now,
       stats := FreshStats, isFavorite := false)
  }

  /** `cloneTemplate`: the copy of the first template with the id is put first; an unknown id stores
      the error and rejects. */
  function CloneTemplate(st: TemplateState, id: string, now: nat): (TemplateState, Result<Template>) {
    var found := FindTemplate(st.templates, id);
    if found.None? then (st.(isLoading := false, error := Some(NotFound)), Err(NotFound))
    else
      var c := Cloned(found.value, now);
      (st.(templates := [c] + st.templates, isLoading := false, error := None), Ok(c))
  }

  /** The copy comes first and the original list follows unchanged; the copy shares the original's
      category, status, structure, tags, channels, description and sharing flag. */
  lemma {:induction false} CloneTemplateEffect(st: TemplateState, id: string, now: nat)
    ensures var (r, res) := CloneTemplate(st, id, now);
      && (res.Ok? <==> exists t :: t in st.templates && t.id == id)
      && (res.Err? ==> res.message == NotFound && r.templates == st.templates && r.error == Some(NotFound))
      && (res.Ok? ==>
            && r.templates == [res.value] + st.templates && r.templates[1..] == st.templates
            && r.error.None?
            && exists t :: t in st.templates && t.id == id
                 && res.value.name == t.name + " (Copie)" && res.value.id == TemplateId(now)
                 && res.value.stats.usageCount == 0 && !res.value.isFavorite
                 && res.value.category == t.category && res.value.status == t.status
                 && res.value.structure == t.structure && res.value.tags == t.tags
                 && res.value.channels == t.channels && res.value.description == t.description
                 && res.value.isShared == t.isShared && res.value.createdAt == now)
      && !r.isLoading && r.selectedTemplate == st.selectedTemplate
  {
  }

  /** `toggleFavorite` */
  function ToggleFavorite(st: TemplateState, id: string): TemplateState {
    st.(templates := EditMatching(st.templates, id, FlipFavorite))
  }

  /** Exactly the templates with the id change, and only in their favourite mark. */
  lemma {:induction false} ToggleFavoriteEffect(st: TemplateState, id: string)
    ensures var r := ToggleFavorite(st, id);
      && |r.templates| == |st.templates|
      && (forall i :: 0 <= i < |st.templates| ==>
            if st.templates[i].id == id
            then r.templates[i].isFavorite == !st.templates[i].isFavorite
                 && r.templates[i].(isFavorite := st.templates[i].isFavorite) == st.templates[i]
            else r.templates[i] == st.templates[i])
      && r.isLoading == st.isLoading && r.error == st.error && r.selectedTemplate == st.selectedTemplate
  {
  }

  /** Toggling twice restores the store. */
  lemma {:induction false} ToggleFavoriteTwice(st: TemplateState, id: string)
    ensures ToggleFavorite(ToggleFavorite(st, id), id) == st
  {
    var r := ToggleFavorite(ToggleFavorite(st, id), id);
    assert r.templates == st.templates by {
      forall i | 0 <= i < |st.templates| ensures r.templates[i] == st.templates[i] {
        EditKeepsIds(st.templates, id, FlipFavorite);
      }
    }
  }

  /** `archiveTemplate` and `restoreTemplate` */
  function SetTemplateStatus(st: TemplateState, id: string, status: TemplateStatus, now: nat): TemplateState {
    st.(templates := EditMatching(st.templates, id, SetStatus(status, now)), isLoading := false, error := None)
  }

  function ArchiveTemplate(st: TemplateState, id: string, now: nat): TemplateState {
    SetTemplateStatus(st, id, Archived, now)
  }

  function RestoreTemplate(st: TemplateState, id: string, now: nat): TemplateState {
    SetTemplateStatus(st, id, Active, now)
  }

  /** Archiving marks exactly the templates with the id archived, restoring marks them active; both
      update their modification time and touch nothing else. */
  lemma {:induction false} ArchiveRestoreEffect(st: TemplateState, id: string, now: nat)
    ensures var a, r := ArchiveTemplate(st, id, now), RestoreTemplate(st, id, now);
      && |a.templates| == |st.templates| && |r.templates| == |st.templates|
      && (forall i :: 0 <= i < |st.templates| ==>
            if st.templates[i].id == id
            then a.templates[i] == st.templates[i].(status := Archived, updatedAt := now)
                 && r.templates[i] == st.templates[i].(status := Active, updatedAt := now)
            else a.templates[i] == st.templates[i] && r.templates[i] == st.templates[i])
      && !a.isLoading && a.error.None? && !r.isLoading && r.error.None?
  {
  }

  /** Restoring an archived library brings every template with the id back to active. */
  lemma {:induction false} RestoreAfterArchive(st: TemplateState, id: string, t1: nat, t2: nat)
    ensures var r := RestoreTemplate(ArchiveTemplate(st, id, t1), id, t2);
      forall i :: 0 <= i < |st.templates| && st.templates[i].id == id ==> r.templates[i].status == Active
  {
    EditKeepsIds(st.templates, id, SetStatus(Archived, t1));
  }

  /** `incrementUsage` */
  function IncrementUsage(st: TemplateState, id: string, now: nat): TemplateState {
    st.(templates := EditMatching(st.templates, id, CountUse(now)))
  }

  /** The matching templates' usage count grows by exactly one and their last use is now; their
      other statistics and their modification time are kept. */
  lemma {:induction false} IncrementUsageEffect(st: TemplateState, id: string, now: nat)
    ensures var r := IncrementUsage(st, id, now);
      && |r.templates| == |st.templates|
      && (forall i :: 0 <= i < |st.templates| ==>
            if st.templates[i].id == id
            then var t, n := st.templates[i], r.templates[i];
                 && n.stats.usageCount == t.stats.usageCount + 1 && n.stats.lastUsedAt == Some(now)
                 && n.stats.averageCTR == t.stats.averageCTR && n.stats.averageConversion == t.stats.averageConversion
                 && n.stats.successRate == t.stats.successRate
                 && n.(stats := t.stats) == t
            else r.templates[i] == st.templates[i])
      && r.isLoading == st.isLoading && r.error == st.error
  {
  }

  /** `fetchTemplates`: the mock list replaces the templates. */
  function FetchTemplates(st: TemplateState, mock: seq<Template>): TemplateState {
    st.(templates := mock, isLoading := false, error := None)
  }

  class Store {
    const mock: seq<Template>
    var state: TemplateState

    constructor (mock: seq<Template>)
      ensures this.mock == mock && state == InitialState(mock)
    {
      this.mock := mock;
      state := InitialState(mock);
    }

    method SetTemplates(templates: seq<Template>)
      modifies this
      ensures state == old(state).(templates := templates)
    {
      state := state.(templates := templates);
    }

    method SetSelectedTemplate(template: Option<Template>)
      modifies this
      ensures state == old(state).(selectedTemplate := template)
    {
      state := state.(selectedTemplate := template);
    }

    /** `createTemplate` resolves with the new template. */
    method CreateTemplateAction(input: CreateTemplateInput, now: nat) returns (t: Template)
      modifies this
      ensures (state, t) == CreateTemplate(old(state), input, now)
    {
      var r := CreateTemplate(state, input, now);
      state, t := r.0, r.1;
    }

    /** `updateTemplate` resolves with the updated template or rejects with the error. */
    method UpdateTemplateAction(u: UpdateTemplateInput, now: nat) returns (res: Result<Template>)
      modifies this
      ensures (state, res) == UpdateTemplate(old(state), u, now)
    {
      state := state.(isLoading := true, error := None);
      var ts := EditMatching(state.templates, u.id, Update(u, now));
      state := state.(templates := ts, isLoading := false);
      var found := FindTemplate(state.templates, u.id);
      if found.Some? {
        res := Ok(found.value);
      } else {
        state := state.(error := Some(NotFound), isLoading := false);
        res := Err(NotFound);
      }
    }

    method DeleteTemplateAction(id: string)
      modifies this
      ensures state == DeleteTemplate(old(state), id)
    {
      state := DeleteTemplate(state, id);
    }

    method CloneTemplateAction(id: string, now: nat) returns (res: Result<Template>)
      modifies this
      ensures (state, res) == CloneTemplate(old(state), id, now)
    {
      var r := CloneTemplate(state, id, now);
      state, res := r.0, r.1;
    }

    method ToggleFavoriteAction(id: string)
      modifies this
      ensures state == ToggleFavorite(old(state), id)
    {
      state := ToggleFavorite(state, id);
    }

    method ArchiveTemplateAction(id: string, now: nat)
      modifies this
      ensures state == ArchiveTemplate(old(state), id, now)
    {
      state := ArchiveTemplate(state, id, now);
    }

    method RestoreTemplateAction(id: string, now: nat)
      modifies this
      ensures state == RestoreTemplate(old(state), id, now)
    {
      state := RestoreTemplate(state, id, now);
    }

    method IncrementUsageAction(id: string, now: nat)
      modifies this
      ensures state == IncrementUsage(old(state), id, now)
    {
      state := IncrementUsage(state, id, now);
    }

    method FetchTemplatesAction()
      modifies this
      ensures state == FetchTemplates(old(state), mock)
    {
      state := FetchTemplates(state, mock);
    }

    method ClearError()
      modifies this
      ensures state == old(state).(error := None)
    {
      state := state.(error := None);
    }
  }

  /** Creating a template and cloning it gives two templates, the copy first, named as a copy and
      unused; an unknown id then rejects with the store's message. */
  method CreateCloneScenario(input: CreateTemplateInput, created: nat, cloned: nat)
    returns (count: nat, copyName: string, copyUses: int, missing: Result<Template>)
    ensures count == 2 && copyName == input.name + " (Copie)" && copyUses == 0
    ensures missing == Err(NotFound)
  {
    var store := new Store([]);
    var t := store.CreateTemplateAction(input, created);
    assert store.state.templates == [t];
    var copy := store.CloneTemplateAction(t.id, cloned);
    count := |store.state.templates|;
    copyName, copyUses := copy.value.name, copy.value.stats.usageCount;
    missing := store.CloneTemplateAction("", cloned + 1);
  }
}
