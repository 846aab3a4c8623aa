/** The prompt-template store of ai_platform/api/prompts/template_manager.py:
    reusable prompts with `{name}` placeholders, kept by id in an
    insertion-ordered dict, filtered by category or tag, and loaded from a
    JSON document of the shape `to_dict` produces.

    A template is a value: nothing in the source assigns a template's fields
    after construction, and `render` only reads them. Only the manager's
    dict changes, so the manager is a class. */
module Templates {
  import opened Wrappers
  import opened Text
  import opened Dicts
  import opened Json
  import opened Seqs

  datatype PromptTemplate = PromptTemplate(
    id: string,
    name: string,
    description: string,
    template: string,
    variables: seq<string>,
    category: string,
    tags: seq<string>)
  {
    /** Applies the declared variables one after another, each to the text
        the previous one left, replacing every `{var}` by the supplied
        value's `str()`; a declared variable without a value is skipped. */
    method Render(kwargs: Dict<string, Json>) returns (result: string)
      ensures result == Rendered(template, variables, kwargs)
    {
      result := template;
      for i := 0 to |variables|
        invariant Rendered(template, variables, kwargs) == Rendered(result, variables[i..], kwargs)
      {
        assert variables[i..][1..] == variables[i + 1..];
        var v := variables[i];
        match Dicts.Get(kwargs, v) {
          case Some(value) =>
            result := Replace(result, Placeholder(v), Show(value));
          case None =>
        }
      }
    }
  }

  /** `PromptTemplate(...)`: an omitted or `None` list of variables or tags
      becomes `[]`, an omitted category becomes "general". */
  function NewTemplate(
    id: string, name: string, description: string, template: string,
    variables: Option<seq<string>>, category: Option<string>, tags: Option<seq<string>>): (t: PromptTemplate)
    ensures t.id == id && t.name == name && t.description == description && t.template == template
    ensures variables.None? ==> t.variables == []
    ensures tags.None? ==> t.tags == []
    ensures category.None? ==> t.category == "general"
    ensures variables.Some? ==> t.variables == variables.value
    ensures tags.Some? ==> t.tags == tags.value
    ensures category.Some? ==> t.category == category.value
  {
    PromptTemplate(id, name, description, template,
      variables.GetOr([]), category.GetOr("general"), tags.GetOr([]))
  }

  // ---------------------------------------------------------------------------
  // rendering
  // ---------------------------------------------------------------------------

  /** One step of `render`: `text.replace("{v}", str(kwargs[v]))` when `v`
      is supplied, the text unchanged otherwise. */
  function Substitute(text: string, v: string, kwargs: Dict<string, Json>): string {
    match Dicts.Get(kwargs, v)
    case Some(value) => Replace(text, Placeholder(v), Show(value))
    case None => text
  }

  /** The text after substituting `vars` in order, starting from `text`. */
  function Rendered(text: string, vars: seq<string>, kwargs: Dict<string, Json>): string
    decreases |vars|
  {
    if |vars| == 0 then text
    else Rendered(Substitute(text, vars[0], kwargs), vars[1..], kwargs)
  }

  /** Substitutions happen one variable at a time, in the order of
      `variables`: rendering with `a + b` is rendering with `a` and then
      rendering that text with `b`. */
  lemma {:induction false} RenderedAppend(text: string, a: seq<string>, b: seq<string>, kwargs: Dict<string, Json>)
    ensures Rendered(text, a + b, kwargs) == Rendered(Rendered(text, a, kwargs), b, kwargs)
    decreases |a|
  {
    if |a| == 0 {
      assert a + b == b;
    } else {
      assert (a + b)[0] == a[0];
      assert (a + b)[1..] == a[1..] + b;
      RenderedAppend(Substitute(text, a[0], kwargs), a[1..], b, kwargs);
    }
  }

  /** A supplied variable's step cuts the text at every occurrence of its
      placeholder and glues the pieces with the value; glued with the
      placeholder itself the same pieces give the text back, so every
      occurrence is replaced and nothing else changes. */
  lemma SubstituteSupplied(text: string, v: string, kwargs: Dict<string, Json>, value: Json)
    requires Dicts.Get(kwargs, v) == Some(value)
    ensures Substitute(text, v, kwargs) == Join(Show(value), SplitOn(text, Placeholder(v)))
    ensures Join(Placeholder(v), SplitOn(text, Placeholder(v))) == text
  {
    ReplaceIsJoinOfSplit(text, Placeholder(v), Show(value));
    SplitOnJoin(text, Placeholder(v));
  }

  /** A variable without a value is skipped: its placeholders stay as they
      are. */
  lemma SubstituteUnsupplied(text: string, v: string, kwargs: Dict<string, Json>)
    requires v !in Keys(kwargs)
    ensures Substitute(text, v, kwargs) == text
  {
    GetSpec(kwargs, v);
  }

  /** Only the declared variables' values matter: arguments for names the
      template does not declare are ignored. */
  lemma {:induction false} RenderedIgnoresUndeclared(
    text: string, vars: seq<string>, kwargs: Dict<string, Json>, kwargs': Dict<string, Json>)
    requires forall i :: 0 <= i < |vars| ==> Dicts.Get(kwargs, vars[i]) == Dicts.Get(kwargs', vars[i])
    ensures Rendered(text, vars, kwargs) == Rendered(text, vars, kwargs')
    decreases |vars|
  {
    if |vars| > 0 {
      assert Substitute(text, vars[0], kwargs) == Substitute(text, vars[0], kwargs');
      RenderedIgnoresUndeclared(Substitute(text, vars[0], kwargs), vars[1..], kwargs, kwargs');
    }
  }

  /** A text without `{` holds no placeholder, so rendering returns it as it
      is whatever is supplied. */
  lemma {:induction false} RenderedWithoutBraces(text: string, vars: seq<string>, kwargs: Dict<string, Json>)
    requires '{' !in text
    ensures Rendered(text, vars, kwargs) == text
    decreases |vars|
  {
    if |vars| > 0 {
      var p := Placeholder(vars[0]);
      NotContainsByFirstChar(text, p);
      ReplaceAbsent(text, p, "");
      match Dicts.Get(kwargs, vars[0]) {
        case Some(value) => ReplaceAbsent(text, p, Show(value));
        case None =>
      }
      RenderedWithoutBraces(text, vars[1..], kwargs);
    }
  }

  // ---------------------------------------------------------------------------
  // dict form
  // ---------------------------------------------------------------------------

  /** A template as a JSON object with the keys `to_dict` writes; an absent
      key is `None`. */
  datatype TemplateDict = TemplateDict(
    id: Option<string>,
    name: Option<string>,
    description: Option<string>,
    template: Option<string>,
    variables: Option<seq<string>>,
    category: Option<string>,
    tags: Option<seq<string>>)

  /** `to_dict()`: all seven keys, `created_at` not among them. */
  function ToDict(t: PromptTemplate): (d: TemplateDict)
    ensures d.id.Some? && d.name.Some? && d.description.Some? && d.template.Some?
    ensures d.variables.Some? && d.category.Some? && d.tags.Some?
  {
    TemplateDict(Some(t.id), Some(t.name), Some(t.description), Some(t.template),
      Some(t.variables), Some(t.category), Some(t.tags))
  }

  function ToDicts(ts: seq<PromptTemplate>): (r: seq<TemplateDict>)
    ensures |r| == |ts|
    ensures forall i :: 0 <= i < |ts| ==> r[i] == ToDict(ts[i])
  {
    seq(|ts|, i requires 0 <= i < |ts| => ToDict(ts[i]))
  }

  /** The template `load_from_file` builds from one entry: the KeyError of
      the first of `id`, `name`, `description`, `template` that is missing,
      taken in that order. */
  function FromDict(d: TemplateDict): (r: Result<PromptTemplate, string>)
    ensures d.id.None? ==> r == Err("'id'")
    ensures r.Ok? <==> d.id.Some? && d.name.Some? && d.description.Some? && d.template.Some?
    ensures r.Ok? ==> r.value.id == d.id.value && r.value.template == d.template.value
  {
    if d.id.None? then Err("'id'")
    else if d.name.None? then Err("'name'")
    else if d.description.None? then Err("'description'")
    else if d.template.None? then Err("'template'")
    else Ok(NewTemplate(d.id.value, d.name.value, d.description.value, d.template.value,
      d.variables, Some(d.category.GetOr("general")), d.tags))
  }

  /** An entry with only the four required keys gets no variables, no tags
      and the category "general". */
  lemma FromDictDefaults(id: string, name: string, description: string, template: string)
    ensures FromDict(TemplateDict(Some(id), Some(name), Some(description), Some(template), None, None, None))
      == Ok(PromptTemplate(id, name, description, template, [], "general", []))
  {
  }

  /** What `to_dict` writes, `load_from_file` reads back as the same
      template. */
  lemma FromToDict(t: PromptTemplate)
    ensures FromDict(ToDict(t)) == Ok(t)
  {
  }

  // ---------------------------------------------------------------------------
  // the store
  // ---------------------------------------------------------------------------

  /** Every entry is keyed by its template's own id and no id occurs twice. */
  predicate KeyedById(d: Dict<string, PromptTemplate>) {
    UniqueKeys(d) && forall i :: 0 <= i < |d| ==> d[i].0 == d[i].1.id
  }

  /** Each template's entry under its own id: what `templates[t.id] = t`
      stores for each template in turn. */
  function Entries(ts: seq<PromptTemplate>): (d: Dict<string, PromptTemplate>)
    ensures |d| == |ts|
    ensures forall i :: 0 <= i < |ts| ==> d[i] == (ts[i].id, ts[i])
  {
    seq(|ts|, i requires 0 <= i < |ts| => (ts[i].id, ts[i]))
  }

  /** The dict `load_from_file` leaves behind, with the KeyError that stopped
      it if one did; entries before the bad one stay registered. */
  function LoadDicts(d: Dict<string, PromptTemplate>, entries: seq<TemplateDict>): (Dict<string, PromptTemplate>, Option<string>)
    decreases |entries|
  {
    if |entries| == 0 then (d, None)
    else match FromDict(entries[0])
      case Err(e) => (d, Some(e))
      case Ok(t) => LoadDicts(Put(d, t.id, t), entries[1..])
  }

  /** Storing a template under its own id keeps the store keyed by id. */
  lemma PutKeyedById(d: Dict<string, PromptTemplate>, t: PromptTemplate)
    requires KeyedById(d)
    ensures KeyedById(Put(d, t.id, t))
  {
    PutUnique(d, t.id, t);
    PutIds(d, t);
  }

  lemma {:induction false} PutIds(d: Dict<string, PromptTemplate>, t: PromptTemplate)
    requires forall i :: 0 <= i < |d| ==> d[i].0 == d[i].1.id
    ensures forall i :: 0 <= i < |Put(d, t.id, t)| ==> Put(d, t.id, t)[i].0 == Put(d, t.id, t)[i].1.id
    decreases |d|
  {
    if |d| > 0 && d[0].0 != t.id {
      PutIds(d[1..], t);
      var r := Put(d, t.id, t);
      assert r == [d[0]] + Put(d[1..], t.id, t);
      forall i | 0 <= i < |r| ensures r[i].0 == r[i].1.id {
        if i > 0 {
          assert r[i] == Put(d[1..], t.id, t)[i - 1];
        }
      }
    }
  }

  lemma {:induction false} LoadDictsKeyedById(d: Dict<string, PromptTemplate>, entries: seq<TemplateDict>)
    requires KeyedById(d)
    ensures KeyedById(LoadDicts(d, entries).0)
    decreases |entries|
  {
    if |entries| > 0 {
      match FromDict(entries[0]) {
        case Err(e) =>
        case Ok(t) =>
          PutKeyedById(d, t);
          LoadDictsKeyedById(Put(d, t.id, t), entries[1..]);
      }
    }
  }

  /** Loading the dict forms of some templates registers exactly those
      templates, in order, and raises nothing. */
  lemma {:induction false} LoadToDicts(d: Dict<string, PromptTemplate>, ts: seq<PromptTemplate>)
    ensures LoadDicts(d, ToDicts(ts)) == (PutAll(d, Entries(ts)), None)
    decreases |ts|
  {
    if |ts| > 0 {
      FromToDict(ts[0]);
      assert ToDicts(ts)[1..] == ToDicts(ts[1..]);
      assert Entries(ts)[1..] == Entries(ts[1..]);
      LoadToDicts(Put(d, ts[0].id, ts[0]), ts[1..]);
    }
  }

  /** Loading what `list_all` lists for a store into an empty store rebuilds
      that store: nothing is lost, nothing reordered, nothing raised. */
  lemma ReloadListed(d: Dict<string, PromptTemplate>)
    requires KeyedById(d)
    ensures LoadDicts([], ToDicts(Values(d))) == (d, None)
  {
    LoadToDicts([], Values(d));
    assert Entries(Values(d)) == d;
    var empty: Dict<string, PromptTemplate> := [];
    assert Keys(empty) == [];
    PutAllFresh(empty, d);
    assert empty + d == d;
  }

  // ---------------------------------------------------------------------------
  // built-in templates
  // ---------------------------------------------------------------------------

  const DesignSystemHelperText := @"あなたはUIデザインとフロントエンド開発の専門家です。
デザインシステム「{design_system_name}」について質問に回答してください。

## コンテキスト
{context}

## ユーザーの質問
{question}

## 回答のガイドライン
- 具体的なコード例を含めてください
- デザイントークンの値を明示してください
- 複数の選択肢がある場合は比較してください
"

  const CodeReviewText := @"あなたは経験豊富なソフトウェアエンジニアです。
以下のコードをレビューしてください。

## レビュー対象コード
```{language}
{code}
```

## レビュー観点
- コードの品質
- ベストプラクティスへの準拠
- 潜在的なバグ
- パフォーマンス
- セキュリティ

## 回答形式
改善点を具体的に指摘し、修正例を示してください。
"

  const TaskBreakdownText := @"あなたはプロジェクトマネージャーです。
以下のタスクを実行可能な小さなステップに分解してください。

## タスク
{task_description}

## 制約・コンテキスト
{constraints}

## 回答形式
1. 各ステップを番号付きリストで
2. 各ステップの所要時間の目安
3. 依存関係があれば明示
"

  const SlackSummaryText := @"以下のSlackでの会話を要約してください。

## 会話内容
{conversation}

## 要約形式
- 主要な議論ポイント（箇条書き）
- 決定事項
- アクションアイテム（担当者がいれば明記）
- 未解決の課題
"

  const DesignSystemHelper := PromptTemplate(
    "design-system-helper",
    "デザインシステムヘルパー",
    "デザインシステムに関する質問に回答",
    DesignSystemHelperText,
    ["design_system_name", "context", "question"],
    "design",
    ["ui", "frontend", "components"])

  const CodeReview := PromptTemplate(
    "code-review",
    "コードレビュー",
    "コードのレビューとフィードバック",
    CodeReviewText,
    ["language", "code"],
    "development",
    ["code", "review", "quality"])

  const TaskBreakdown := PromptTemplate(
    "task-breakdown",
    "タスク分解",
    "大きなタスクを小さなステップに分解",
    TaskBreakdownText,
    ["task_description", "constraints"],
    "project",
    ["planning", "task", "breakdown"])

  const SlackSummary := PromptTemplate(
    "slack-summary",
    "Slack要約",
    "Slackのスレッドや会話を要約",
    SlackSummaryText,
    ["conversation"],
    "communication",
    ["slack", "summary", "meeting"])

  const Builtins := [DesignSystemHelper, CodeReview, TaskBreakdown, SlackSummary]

  /** A fresh manager holds the four built-ins under their ids, in this
      order. */
  lemma BuiltinStore()
    ensures PutAll([], Entries(Builtins)) == Entries(Builtins)
    ensures Keys(Entries(Builtins)) ==
      ["design-system-helper", "code-review", "task-breakdown", "slack-summary"]
    ensures KeyedById(Entries(Builtins))
  {
    BuiltinIds();
    FreshStore(Builtins);
  }

  /** Registering templates with distinct ids into an empty store gives one
      entry per template, keyed by its id, in order. */
  lemma FreshStore(ts: seq<PromptTemplate>)
    requires forall i, j :: 0 <= i < j < |ts| ==> ts[i].id != ts[j].id
    ensures PutAll([], Entries(ts)) == Entries(ts)
    ensures KeyedById(Entries(ts))
    ensures Keys(Entries(ts)) == seq(|ts|, i requires 0 <= i < |ts| => ts[i].id)
  {
    EntriesKeys(ts);
    var empty: Dict<string, PromptTemplate> := [];
    assert Keys(empty) == [];
    PutAllFresh(empty, Entries(ts));
    assert empty + Entries(ts) == Entries(ts);
  }

  lemma EntriesKeys(ts: seq<PromptTemplate>)
    requires forall i, j :: 0 <= i < j < |ts| ==> ts[i].id != ts[j].id
    ensures KeyedById(Entries(ts))
    ensures Keys(Entries(ts)) == seq(|ts|, i requires 0 <= i < |ts| => ts[i].id)
  {
    var d := Entries(ts);
    assert UniqueKeys(d) by {
      forall i, j | 0 <= i < j < |d| ensures d[i].0 != d[j].0 {
        assert d[i].0 == ts[i].id && d[j].0 == ts[j].id;
      }
    }
  }

  lemma BuiltinIds()
    ensures |Builtins| == 4
    ensures Builtins[0].id == "design-system-helper" && Builtins[1].id == "code-review"
    ensures Builtins[2].id == "task-breakdown" && Builtins[3].id == "slack-summary"
    ensures forall i, j :: 0 <= i < j < |Builtins| ==> Builtins[i].id != Builtins[j].id
  {
    assert Builtins[0].id[0] == 'd' && Builtins[1].id[0] == 'c';
    assert Builtins[2].id[0] == 't' && Builtins[3].id[0] == 's';
  }

  // ---------------------------------------------------------------------------
  // the manager
  // ---------------------------------------------------------------------------

  /** `f"Template not found: {template_id}"` */
  function NotFound(id: string): string {
    "Template not found: " + id
  }

  function HasCategory(category: string): PromptTemplate -> bool {
    (t: PromptTemplate) => t.category == category
  }

  function HasTag(tag: string): PromptTemplate -> bool {
    (t: PromptTemplate) => tag in t.tags
  }

  class PromptTemplateManager {
    /** Where templates would be kept on disk; no core operation reads it. */
    var templatesDir: string
    var templates: Dict<string, PromptTemplate>

    predicate Valid()
      reads this
    {
      KeyedById(templates)
    }

    /** A manager starts with the built-ins registered one by one. */
    constructor(dir: string)
      ensures templatesDir == dir
      ensures templates == Entries(Builtins)
      ensures Valid()
    {
      templatesDir := dir;
      templates := [];
      new;
      for i := 0 to |Builtins|
        invariant PutAll([], Entries(Builtins)) == PutAll(templates, Entries(Builtins)[i..])
        invariant templatesDir == dir
      {
        assert Entries(Builtins)[i..][1..] == Entries(Builtins)[i + 1..];
        templates := Put(templates, Builtins[i].id, Builtins[i]);
      }
      assert Entries(Builtins)[|Builtins|..] == [];
      BuiltinStore();
    }

    /** `templates[template.id] = template`: inserts or overwrites that one
        entry and leaves the others as they were. */
    method Register(template: PromptTemplate)
      requires Valid()
      modifies this
      ensures templates == Put(old(templates), template.id, template)
      ensures Valid()
      ensures Get(template.id) == Some(template)
      ensures forall k :: k != template.id ==> Get(k) == old(Get(k))
      ensures templatesDir == old(templatesDir)
    {
      ghost var before := templates;
      templates := Put(templates, template.id, template);
      forall k | k != template.id ensures Dicts.Get(templates, k) == Dicts.Get(before, k) {
        PutOther(before, template.id, template, k);
      }
      PutKeyedById(before, template);
    }

    /** `templates.get(template_id)`: `None` exactly for an id that was never
        registered; a found template carries the id it was looked up by. */
    function Get(id: string): (r: Option<PromptTemplate>)
      requires Valid()
      reads this
      ensures r.None? <==> id !in Keys(templates)
      ensures r.Some? ==> r.value.id == id && r.value in Values(templates)
    {
      GetSpec(templates, id);
      var r := Dicts.Get(templates, id);
      if r.Some? then
        var i :| 0 <= i < |templates| && templates[i] == (id, r.value);
        assert Values(templates)[i] == r.value;
        r
      else r
    }

    /** `[t.to_dict() for t in templates.values()]` */
    function ListAll(): (r: seq<TemplateDict>)
      reads this
      ensures |r| == |templates|
      ensures forall i :: 0 <= i < |r| ==> r[i] == ToDict(templates[i].1)
    {
      ToDicts(Values(templates))
    }

    /** The templates of one category, in insertion order. */
    function ListByCategory(category: string): (r: seq<TemplateDict>)
      reads this
      ensures |r| <= |templates|
      ensures forall t :: ToDict(t) in r <==> t in Values(templates) && t.category == category
      ensures r == ToDicts(Filter(Values(templates), HasCategory(category)))
    {
      Listed(Values(templates), HasCategory(category))
    }

    /** The templates carrying one tag, in insertion order. */
    function SearchByTag(tag: string): (r: seq<TemplateDict>)
      reads this
      ensures |r| <= |templates|
      ensures forall t :: ToDict(t) in r <==> t in Values(templates) && tag in t.tags
      ensures r == ToDicts(Filter(Values(templates), HasTag(tag)))
    {
      Listed(Values(templates), HasTag(tag))
    }

    /** `render_template`: ValueError for an unknown id, the found template's
        rendering otherwise. */
    method RenderTemplate(id: string, kwargs: Dict<string, Json>) returns (r: Result<string, string>)
      requires Valid()
      ensures id !in Keys(templates) ==> r == Err(NotFound(id))
      ensures id in Keys(templates) ==>
        r == Ok(Rendered(Get(id).value.template, Get(id).value.variables, kwargs))
    {
      var template := Get(id);
      match template {
        case None =>
          r := Err(NotFound(id));
        case Some(t) =>
          var text := t.Render(kwargs);
          r := Ok(text);
      }
    }

    /** `load_from_file` after the file is read and decoded: `entries` is
        the document's `templates` list, `None` when the key is absent. Each
        entry is built and registered in turn; the first entry missing a
        required key stops the load with its KeyError, keeping what was
        registered before it. */
    method LoadFromFile(entries: Option<seq<TemplateDict>>) returns (error: Option<string>)
      requires Valid()
      modifies this
      ensures (templates, error) == LoadDicts(old(templates), entries.GetOr([]))
      ensures templatesDir == old(templatesDir)
      ensures Valid()
    {
      var list := entries.GetOr([]);
      ghost var start := templates;
      LoadDictsKeyedById(start, list);
      error := None;
      var i := 0;
      while i < |list|
        invariant 0 <= i <= |list|
        invariant LoadDicts(start, list) == LoadDicts(templates, list[i..])
        invariant templatesDir == old(templatesDir)
      {
        assert list[i..][1..] == list[i + 1..];
        match FromDict(list[i]) {
          case Err(e) =>
            error := Some(e);
            return;
          case Ok(t) =>
            templates := Put(templates, t.id, t);
        }
        i := i + 1;
      }
    }
  }

  /** `[t.to_dict() for t in ts if keep(t)]` */
  function Listed(ts: seq<PromptTemplate>, keep: PromptTemplate -> bool): (r: seq<TemplateDict>)
    ensures |r| <= |ts|
    ensures forall t :: ToDict(t) in r <==> t in ts && keep(t)
    ensures r == ToDicts(Filter(ts, keep))
  {
    var kept := Filter(ts, keep);
    var r := ToDicts(kept);
    assert forall t :: ToDict(t) in r ==> t in kept by {
      forall t | ToDict(t) in r ensures t in kept {
        var i :| 0 <= i < |r| && r[i] == ToDict(t);
        FromToDict(t);
        FromToDict(kept[i]);
      }
    }
    r
  }

  /** The listing follows the store order: one more template at the end
      adds its dictionary at the end exactly when it passes the filter. */
  lemma ListedSnoc(ts: seq<PromptTemplate>, t: PromptTemplate, keep: PromptTemplate -> bool)
    ensures Listed(ts + [t], keep) == Listed(ts, keep) + (if keep(t) then [ToDict(t)] else [])
  {
    FilterAppend(ts, [t], keep);
    FilterSingle(t, keep);
    var a := Filter(ts, keep);
    var b: seq<PromptTemplate> := if keep(t) then [t] else [];
    assert ToDicts(a + b) == ToDicts(a) + ToDicts(b);
  }

  /** Registering a template under a new id extends every filtered listing
      of the store by that template alone, at the end, when it passes. */
  lemma ListedRegisterFresh(d: Dict<string, PromptTemplate>, t: PromptTemplate, keep: PromptTemplate -> bool)
    requires t.id !in Keys(d)
    ensures Listed(Values(Put(d, t.id, t)), keep)
            == Listed(Values(d), keep) + (if keep(t) then [ToDict(t)] else [])
  {
    PutFresh(d, t.id, t);
    assert Values(d + [(t.id, t)]) == Values(d) + [t];
    ListedSnoc(Values(d), t, keep);
  }
}
