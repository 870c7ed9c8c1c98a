/** Stage 9, `SelectStage`: the user's choice of materials is checked
    against the catalog and stored in the state, without the model. The
    catalog itself, `MATERIAL_TYPES`, is what stage 10 generates from. */
module Select {
  import opened Wrappers
  import opened Json
  import opened Py
  import Text
  import StateStore
  import Base

  /** The stage's declared attributes. */
  const Info := Base.StageInfo(9, "09_select", "Выбор материалов", ["08_analysis.md"], "")

  /** One entry of `MATERIAL_TYPES`. */
  datatype Material = Material(id: string, name: string, description: string, promptFile: string, outputFile: string)

  /** An entry whose prompt lives under "materials/" and whose output is
      the id's Markdown file. */
  function Entry(id: string, name: string, description: string): Material {
    Material(id, name, description, "materials/" + id, id + ".md")
  }

  /** `MATERIAL_TYPES`, in its declaration order. */
  const Catalog: seq<Material> := [
    Entry("tg_vk_post", "Пост для Telegram/VK", "Короткий пост для социальных сетей с ключевым инсайтом"),
    Entry("email_announce", "Анонс для рассылки", "Email-анонс статьи для подписчиков"),
    Entry("press_release", "Пресс-релиз", "Официальный пресс-релиз о публикации"),
    Entry("cards", "Карточки для соцсетей", "Серия карточек с ключевыми тезисами и цифрами"),
    Entry("business_media", "Статья для делового СМИ", "Адаптация для РБК, Коммерсант и подобных изданий")
  ]

  /** `list(MATERIAL_TYPES.keys())`. */
  function CatalogIds(): (ids: seq<string>)
    ensures |ids| == |Catalog|
    ensures forall i :: 0 <= i < |Catalog| ==> ids[i] == Catalog[i].id
  {
    seq(|Catalog|, i requires 0 <= i < |Catalog| => Catalog[i].id)
  }

  /** `MATERIAL_TYPES[id]`, searched from entry i on. */
  function FindFrom(id: string, i: nat): (r: Option<Material>)
    requires i <= |Catalog|
    ensures r.Some? ==> r.value.id == id && r.value in Catalog[i..]
    ensures r.None? ==> forall k :: i <= k < |Catalog| ==> Catalog[k].id != id
    decreases |Catalog| - i
  {
    if i == |Catalog| then None
    else if Catalog[i].id == id then Some(Catalog[i])
    else FindFrom(id, i + 1)
  }

  /** `MATERIAL_TYPES.get(id)`: the entry with that id, if any. */
  function Find(id: string): (r: Option<Material>)
    ensures r.Some? ==> r.value.id == id && r.value in Catalog
    ensures r.None? <==> forall k :: 0 <= k < |Catalog| ==> Catalog[k].id != id
  {
    FindFrom(id, 0)
  }

  /** `id in MATERIAL_TYPES`. */
  predicate Known(id: string) {
    Find(id).Some?
  }

  /** The catalog has its five entries, with distinct ids, each with its
      prompt under "materials/" and its output in the id's Markdown file. */
  lemma CatalogShape()
    ensures |Catalog| == 5
    ensures forall i, j :: 0 <= i < j < |Catalog| ==> Catalog[i].id != Catalog[j].id
    ensures forall m :: m in Catalog ==> m.promptFile == "materials/" + m.id && m.outputFile == m.id + ".md"
  {}

  /** Every id of the catalog is known, and finds its own entry. */
  lemma {:induction false} CatalogIdsKnown(k: nat)
    requires k < |Catalog|
    ensures Find(Catalog[k].id) == Some(Catalog[k])
  {
    CatalogShape();
  }

  /** `[m for m in selected if m not in MATERIAL_TYPES]`. */
  function Invalid(selected: seq<string>): (r: seq<string>)
    ensures |r| <= |selected|
  {
    if |selected| == 0 then [] else Mark(selected[0]) + Invalid(selected[1..])
  }

  /** The one id itself when it is not in the catalog, else nothing. */
  function Mark(id: string): (r: seq<string>)
    ensures |r| <= 1
  {
    if Known(id) then [] else [id]
  }

  /** The invalid ids are the selected ones the catalog does not have,
      each as often as it was selected. */
  lemma {:induction false} InvalidMembers(selected: seq<string>)
    ensures forall x :: x in Invalid(selected) <==> x in selected && !Known(x)
    ensures forall x :: !Known(x) ==> multiset(Invalid(selected))[x] == multiset(selected)[x]
    ensures forall x :: Known(x) ==> multiset(Invalid(selected))[x] == 0
  {
    if |selected| > 0 {
      InvalidMembers(selected[1..]);
      assert selected == [selected[0]] + selected[1..];
    }
  }

  /** Nothing is invalid exactly when every selected id is in the catalog. */
  lemma {:induction false} NoneInvalid(selected: seq<string>)
    ensures Invalid(selected) == [] <==> forall k :: 0 <= k < |selected| ==> Known(selected[k])
  {
    InvalidMembers(selected);
    if Invalid(selected) != [] {
      var x := Invalid(selected)[0];
      assert x in Invalid(selected);
    }
  }

  /** Invalid ids keep the order they were selected in: the ids of a
      concatenation are the ids of each part in turn. */
  lemma {:induction false} InvalidAppend(a: seq<string>, b: seq<string>)
    ensures Invalid(a + b) == Invalid(a) + Invalid(b)
  {
    if |a| > 0 {
      InvalidAppend(a[1..], b);
      var ab := a + b;
      assert ab[0] == a[0] && ab[1..] == a[1..] + b;
      assert Invalid(ab) == Mark(a[0]) + Invalid(a[1..] + b);
    } else {
      assert a + b == b;
    }
  }

  /** The default selection, and an empty one, pass the check. */
  lemma DefaultsValid()
    ensures Invalid(CatalogIds()) == []
    ensures Invalid([]) == []
  {
    var ids := CatalogIds();
    forall k | 0 <= k < |ids| ensures Known(ids[k]) {
      CatalogIdsKnown(k);
    }
    NoneInvalid(ids);
  }

  /** The failure naming the invalid ids. */
  function InvalidMessage(invalid: seq<string>): string {
    "Invalid material types: " + Text.Join(", ", invalid)
  }

  /** The list stored as `materials["selected"]`. */
  function SelectedJson(selected: seq<string>): (j: Json)
    ensures j.JList? && |j.items| == |selected|
    ensures forall k :: 0 <= k < |selected| ==> j.items[k] == JStr(selected[k])
  {
    JList(seq(|selected|, k requires 0 <= k < |selected| => JStr(selected[k])))
  }

  /** The ids of a list of JSON strings, if it holds only strings. */
  function Ids(items: seq<Json>): Option<seq<string>> {
    if |items| == 0 then Some([])
    else if !items[0].JStr? then None
    else
      match Ids(items[1..])
      case None => None
      case Some(rest) => Some([items[0].s] + rest)
  }

  /** The ids read back from a stored selection. */
  function SelectedIds(j: Json): Option<seq<string>> {
    if j.JList? then Ids(j.items) else None
  }

  /** The stored list reads back as the selection itself: same ids, same
      order, duplicates kept. */
  lemma {:induction false} SelectedRoundTrip(selected: seq<string>)
    ensures SelectedIds(SelectedJson(selected)) == Some(selected)
    decreases |selected|
  {
    if |selected| > 0 {
      SelectedRoundTrip(selected[1..]);
      assert SelectedJson(selected).items[1..] == SelectedJson(selected[1..]).items;
      assert selected == [selected[0]] + selected[1..];
    }
  }

  /** The state after a valid selection is stored, before it is saved. */
  function Chosen(st: StateStore.ProjectState, selected: seq<string>): (r: StateStore.ProjectState)
    ensures Lookup(r.materials, "selected") == Some(SelectedJson(selected))
    ensures forall k :: k != "selected" ==> Lookup(r.materials, k) == Lookup(st.materials, k)
    ensures r.(materials := st.materials) == st
  {
    st.(materials := Put(st.materials, "selected", SelectedJson(selected)))
  }

  /** What a successful selection returns. */
  function Selected(selected: seq<string>): Base.StageResult {
    Base.StageResult(true, None, 0, None, Some(Single("selected_count", JInt(|selected|))))
  }

  /** The state and the result once the selection is settled: an id the
      catalog lacks fails the stage, naming every such id, and changes
      nothing; without a loaded state the assignment raises; otherwise
      `materials["selected"]` becomes the selection and the save stamps
      the state. */
  function Selection(st: Option<StateStore.ProjectState>, selected: seq<string>, now: string)
    : (Option<StateStore.ProjectState>, Result<Base.StageResult>)
  {
    var invalid := Invalid(selected);
    if invalid != [] then (st, Ok(Base.Failed(InvalidMessage(invalid))))
    else if st.None? then (st, Err(Error(AttributeError, "'NoneType' object has no attribute 'materials'")))
    else (Some(Chosen(st.value, selected).(updatedAt := now)), Ok(Selected(selected)))
  }

  /** A selection is refused exactly when some id is not in the catalog. */
  lemma SelectionRefused(st: Option<StateStore.ProjectState>, selected: seq<string>, now: string)
    ensures var r := Selection(st, selected, now).1;
      (exists k :: 0 <= k < |selected| && !Known(selected[k])) <==> r.Ok? && !r.value.success
  {
    NoneInvalid(selected);
  }

  /** A refused selection changes nothing and names every id the catalog
      lacks, in the order and as often as it was selected. */
  lemma RefusalNamesInvalid(st: Option<StateStore.ProjectState>, selected: seq<string>, now: string)
    ensures var (st', r) := Selection(st, selected, now);
      r.Ok? && !r.value.success ==>
        && st' == st && r.value.error == Some(InvalidMessage(Invalid(selected)))
        && (forall x :: x in Invalid(selected) <==> x in selected && !Known(x))
        && (forall x :: !Known(x) ==> multiset(Invalid(selected))[x] == multiset(selected)[x])
  {
    InvalidMembers(selected);
  }

  /** An accepted selection, with a state loaded, is stored as given,
      duplicates and order kept, leaving every other part of the state as
      it was, and its count is reported with no tokens spent. */
  lemma SelectionStored(st: StateStore.ProjectState, selected: seq<string>, now: string)
    requires forall k :: 0 <= k < |selected| ==> Known(selected[k])
    ensures var (st', r) := Selection(Some(st), selected, now);
      && r == Ok(Base.StageResult(true, None, 0, None, Some(Single("selected_count", JInt(|selected|)))))
      && st'.Some? && SelectedIds(Lookup(st'.value.materials, "selected").value) == Some(selected)
      && (forall k :: k != "selected" ==> Lookup(st'.value.materials, k) == Lookup(st.materials, k))
      && st'.value.(materials := st.materials, updatedAt := st.updatedAt) == st
  {
    NoneInvalid(selected);
    SelectedRoundTrip(selected);
  }

  /** Everything `execute` does once the selection is settled. */
  method Store(s: Base.Stage, selected: seq<string>, now: string) returns (r: Result<Base.StageResult>)
    modifies s.state`state, s.state.fs`files
    ensures (s.state.state, r) == Selection(old(s.state.state), selected, now)
    ensures s.state.fs.files == if r.Ok? && r.value.success
      then old(s.state.fs.files)[s.state.stateFile := s.state.codec.dumps(StateStore.Dump(s.state.state.value))]
      else old(s.state.fs.files)
  {
    var invalid := Invalid(selected);
    if invalid != [] {
      return Ok(Base.Failed(InvalidMessage(invalid)));
    }
    if s.state.state.None? {
      return Err(Error(AttributeError, "'NoneType' object has no attribute 'materials'"));
    }
    s.state.state := Some(Chosen(s.state.state.value, selected));
    s.state.Save(now);
    return Ok(Selected(selected));
  }

  /** `execute`: a missing selection becomes the whole catalog, in its
      order; then the selection is checked and stored. */
  method Execute(s: Base.Stage, now: string) returns (r: Result<Base.StageResult>)
    requires s.info == Info
    modifies s`selectedMaterials, s.state`state, s.state.fs`files
    ensures s.selectedMaterials == Some(old(s.selectedMaterials).GetOr(CatalogIds()))
    ensures (s.state.state, r) == Selection(old(s.state.state), s.selectedMaterials.value, now)
    ensures s.state.fs.files == if r.Ok? && r.value.success
      then old(s.state.fs.files)[s.state.stateFile := s.state.codec.dumps(StateStore.Dump(s.state.state.value))]
      else old(s.state.fs.files)
  {
    if s.selectedMaterials.None? {
      s.selectedMaterials := Some(CatalogIds());
    }
    r := Store(s, s.selectedMaterials.value, now);
  }

  /** `get_material_types()`. */
  function MaterialTypes(): (r: seq<Material>)
    ensures |r| == 5 && forall k :: 0 <= k < |r| ==> r[k].id == CatalogIds()[k]
  {
    CatalogShape();
    Catalog
  }
}
