/** The design-system MCP server: five read-only tools that render the JSON
    files of a design system (components, style types, design tokens, icons)
    as Markdown. Each tool reads its file afresh; the file's decoded contents
    are a parameter, with `None` for a file that does not exist, which
    `load_json` turns into an empty dict. Every tool builds its answer by
    appending to a string, so each is a method proved equal to a function
    that states the whole answer. */
module DesignSystem {
  import opened Wrappers
  import opened Text
  import opened Dicts
  import opened Json
  import opened Seqs

  // ---------------------------------------------------------------------------
  // The files
  // ---------------------------------------------------------------------------

  datatype Prop = Prop(
    name: string,
    typ: Option<string>,
    required: Option<Json>,
    description: Option<string>)

  datatype Component = Component(
    name: string,
    category: Option<string>,
    description: Option<string>,
    props: Option<seq<Prop>>,
    example: Option<string>)

  datatype Icon = Icon(
    name: string,
    category: Option<string>,
    description: Option<string>,
    keywords: Option<seq<string>>,
    svg: Option<string>,
    usage: Option<string>)

  /** `if category:` on an optional string argument. */
  predicate Supplied(o: Option<string>) {
    o.Some? && o.value != ""
  }

  /** `f"{x}"` for an optional string. */
  function OptText(o: Option<string>): string {
    o.GetOr("None")
  }

  /** `if x.get(key):` for an optional string field. */
  predicate NonEmpty(o: Option<string>) {
    o.Some? && o.value != ""
  }

  function RequiredText(required: bool): string {
    if required then "必須" else "任意"
  }

  // ---------------------------------------------------------------------------
  // get_components
  // ---------------------------------------------------------------------------

  const NoComponents := "コンポーネントが定義されていません"
  const ComponentsHeader := "# コンポーネント一覧\n\n"

  function NoComponentsIn(category: Option<string>): string {
    "カテゴリ '" + OptText(category) + "' のコンポーネントが見つかりません"
  }

  /** The category filter is exact equality; a component without a category
      never matches. */
  function ComponentIn(category: string): Component -> bool {
    (c: Component) => c.category == Some(category)
  }

  /** A prop is required exactly when its `required` value is truthy; the
      type defaults to `any`. */
  function PropLine(p: Prop): string {
    "  - `" + p.name + "` (" + p.typ.GetOr("any") + ", "
      + RequiredText(p.required.Some? && Truthy(p.required.value)) + "): "
      + p.description.GetOr("") + "\n"
  }

  function PropLines(ps: seq<Prop>): string {
    if |ps| == 0 then "" else PropLines(ps[..|ps| - 1]) + PropLine(ps[|ps| - 1])
  }

  function ComponentHead(c: Component): string {
    "## " + c.name + "\n" + "- **カテゴリ**: " + c.category.GetOr("N/A") + "\n"
      + "- **説明**: " + c.description.GetOr("N/A") + "\n"
  }

  function PropsSection(c: Component): string {
    if c.props.Some? && |c.props.value| > 0 then "- **Props**:\n" + PropLines(c.props.value) else ""
  }

  function ExampleSection(c: Component): string {
    if NonEmpty(c.example) then "- **使用例**:\n```tsx\n" + c.example.value + "\n```\n" else ""
  }

  function ComponentBlock(c: Component): string {
    ComponentHead(c) + PropsSection(c) + ExampleSection(c) + "\n"
  }

  function ComponentBlocks(cs: seq<Component>): string {
    if |cs| == 0 then "" else ComponentBlocks(cs[..|cs| - 1]) + ComponentBlock(cs[|cs| - 1])
  }

  /** The components `get_components(category)` shows. */
  function ShownComponents(all: seq<Component>, category: Option<string>): seq<Component> {
    if Supplied(category) then Filter(all, ComponentIn(category.value)) else all
  }

  /** The whole answer of `get_components`. */
  function ComponentsText(file: Option<seq<Component>>, category: Option<string>): string {
    var all := file.GetOr([]);
    if |all| == 0 then NoComponents
    else
      var shown := ShownComponents(all, category);
      if |shown| == 0 then NoComponentsIn(category) else ComponentsHeader + ComponentBlocks(shown)
  }

  /** With a category, exactly the components of that category are shown. */
  lemma ShownByCategory(all: seq<Component>, category: string, c: Component)
    requires category != ""
    ensures c in ShownComponents(all, Some(category)) <==> c in all && c.category == Some(category)
  {
    var shown := ShownComponents(all, Some(category));
    if c in all && c.category == Some(category) {
      var i :| 0 <= i < |all| && all[i] == c;
      assert ComponentIn(category)(all[i]);
    }
    if c in shown {
      var i :| 0 <= i < |shown| && shown[i] == c;
      assert ComponentIn(category)(shown[i]);
    }
  }

  /** A category that no component has gives the not-found message, which
      names it. */
  lemma UnknownComponentCategory(all: seq<Component>, category: string)
    requires |all| > 0 && category != ""
    requires forall i :: 0 <= i < |all| ==> all[i].category != Some(category)
    ensures ComponentsText(Some(all), Some(category)) == NoComponentsIn(Some(category))
  {
    forall i | 0 <= i < |all| ensures !ComponentIn(category)(all[i]) {
    }
    FilterNone(all, ComponentIn(category));
  }

  method PropLinesText(ps: seq<Prop>) returns (s: string)
    ensures s == PropLines(ps)
  {
    s := "";
    for k := 0 to |ps|
      invariant s == PropLines(ps[..k])
    {
      TakeStep(ps, k);
      var p := ps[k];
      var required := if p.required.Some? && Truthy(p.required.value) then "必須" else "任意";
      s := s + ("  - `" + p.name + "` (" + p.typ.GetOr("any") + ", " + required + "): "
                + p.description.GetOr("") + "\n");
    }
    TakeAll(ps);
  }

  method ComponentBlockText(c: Component) returns (s: string)
    ensures s == ComponentBlock(c)
  {
    s := ComponentHead(c);
    if c.props.Some? && |c.props.value| > 0 {
      var lines := PropLinesText(c.props.value);
      s := s + ("- **Props**:\n" + lines);
    }
    if c.example.Some? && c.example.value != "" {
      s := s + ("- **使用例**:\n```tsx\n" + c.example.value + "\n```\n");
    }
    s := s + "\n";
  }

  /** `get_components(category)`. */
  method GetComponents(file: Option<seq<Component>>, category: Option<string>) returns (r: string)
    ensures r == ComponentsText(file, category)
  {
    var components := file.GetOr([]);
    if |components| == 0 {
      return NoComponents;
    }
    if category.Some? && category.value != "" {
      components := Filter(components, ComponentIn(category.value));
    }
    if |components| == 0 {
      return NoComponentsIn(category);
    }
    r := ComponentsHeader;
    for i := 0 to |components|
      invariant r == ComponentsHeader + ComponentBlocks(components[..i])
    {
      TakeStep(components, i);
      var block := ComponentBlockText(components[i]);
      AppendAssoc(ComponentsHeader, ComponentBlocks(components[..i]), block);
      r := r + block;
    }
    TakeAll(components);
  }

  // ---------------------------------------------------------------------------
  // get_style_types
  // ---------------------------------------------------------------------------

  const NoStyles := "スタイルタイプが定義されていません"
  const StylesHeader := "# スタイルタイプ一覧\n\n"

  /** A list item: a dict shows its `name` (itself when missing) and its
      `description`; anything else shows bare. */
  function StyleItemLine(v: Json): string {
    match v
    case JObj(f) => "- `" + Show(Field(f, "name").GetOr(v)) + "`: " + Show(Field(f, "description").GetOr(JStr(""))) + "\n"
    case _ => "- `" + Show(v) + "`\n"
  }

  function StyleItemLines(items: seq<Json>): string {
    if |items| == 0 then "" else StyleItemLines(items[..|items| - 1]) + StyleItemLine(items[|items| - 1])
  }

  /** A dict entry shows as `key: value`. */
  function EntryLines(fields: Dict<string, Json>): string {
    if |fields| == 0 then ""
    else
      var (k, v) := fields[|fields| - 1];
      EntryLines(fields[..|fields| - 1]) + ("- `" + k + "`: " + Show(v) + "\n")
  }

  /** A list renders item by item, a dict entry by entry, anything else as
      nothing. */
  function StyleValues(values: Json): string {
    match values
    case JArr(items) => StyleItemLines(items)
    case JObj(fields) => EntryLines(fields)
    case _ => ""
  }

  function StyleBlocks(styles: Dict<string, Json>): string {
    if |styles| == 0 then ""
    else
      var (name, values) := styles[|styles| - 1];
      StyleBlocks(styles[..|styles| - 1]) + ("## " + name + "\n" + StyleValues(values) + "\n")
  }

  /** The whole answer of `get_style_types`. */
  function StyleTypesText(file: Option<Dict<string, Json>>): string {
    var styles := file.GetOr([]);
    if |styles| == 0 then NoStyles else StylesHeader + StyleBlocks(styles)
  }

  /** A list of plain strings, as JSON. */
  function Strs(names: seq<string>): (r: seq<Json>)
    ensures |r| == |names|
    decreases |names|
  {
    if |names| == 0 then [] else Strs(names[..|names| - 1]) + [JStr(names[|names| - 1])]
  }

  lemma PlainItemLine(name: string)
    ensures StyleItemLine(JStr(name)) == "- `" + name + "`\n"
  {
  }

  /** A list of plain strings renders one bare line per string, in order. */
  lemma {:induction false} PlainStyleItems(names: seq<string>)
    ensures StyleItemLines(Strs(names)) == Bulleted(names)
    decreases |names|
  {
    if |names| > 0 {
      var n := |names| - 1;
      var items := Strs(names);
      PlainStyleItems(names[..n]);
      assert items[..n] == Strs(names[..n]);
      assert items[n] == JStr(names[n]);
      PlainItemLine(names[n]);
    }
  }

  /** Each name on its own line, in backquotes, as a Markdown bullet. */
  function Bulleted(names: seq<string>): string {
    if |names| == 0 then "" else Bulleted(names[..|names| - 1]) + ("- `" + names[|names| - 1] + "`\n")
  }

  method StyleItemsText(items: seq<Json>) returns (s: string)
    ensures s == StyleItemLines(items)
  {
    s := "";
    for k := 0 to |items|
      invariant s == StyleItemLines(items[..k])
    {
      TakeStep(items, k);
      var v := items[k];
      if v.JObj? {
        s := s + ("- `" + Show(Field(v.fields, "name").GetOr(v)) + "`: "
                  + Show(Field(v.fields, "description").GetOr(JStr(""))) + "\n");
      } else {
        s := s + ("- `" + Show(v) + "`\n");
      }
    }
    TakeAll(items);
  }

  method EntriesText(fields: Dict<string, Json>) returns (s: string)
    ensures s == EntryLines(fields)
  {
    s := "";
    for k := 0 to |fields|
      invariant s == EntryLines(fields[..k])
    {
      TakeStep(fields, k);
      s := s + ("- `" + fields[k].0 + "`: " + Show(fields[k].1) + "\n");
    }
    TakeAll(fields);
  }

  /** `get_style_types()`. */
  method GetStyleTypes(file: Option<Dict<string, Json>>) returns (r: string)
    ensures r == StyleTypesText(file)
  {
    var styles := file.GetOr([]);
    if |styles| == 0 {
      return NoStyles;
    }
    r := StylesHeader;
    for i := 0 to |styles|
      invariant r == StylesHeader + StyleBlocks(styles[..i])
    {
      TakeStep(styles, i);
      var (name, values) := styles[i];
      var lines := "";
      if values.JArr? {
        lines := StyleItemsText(values.items);
      } else if values.JObj? {
        lines := EntriesText(values.fields);
      }
      var block := "## " + name + "\n" + lines + "\n";
      AppendAssoc(StylesHeader, StyleBlocks(styles[..i]), block);
      r := r + block;
    }
    TakeAll(styles);
  }

  // ---------------------------------------------------------------------------
  // get_design_tokens
  // ---------------------------------------------------------------------------

  const NoTokens := "デザイントークンが定義されていません"
  const TokensHeader := "# デザイントークン\n\n"

  /** The message for an unknown token type, listing every type there is. */
  function UnknownTokenType(tokenType: string, tokens: Dict<string, Json>): string {
    UnknownTokenPrefix(tokenType) + Join(", ", Keys(tokens))
  }

  function UnknownTokenPrefix(tokenType: string): string {
    "トークンタイプ '" + tokenType + "' が見つかりません。利用可能: "
  }

  function InnerTokenLines(fields: Dict<string, Json>): string {
    if |fields| == 0 then ""
    else
      var (k, v) := fields[|fields| - 1];
      InnerTokenLines(fields[..|fields| - 1]) + ("  - " + k + ": `" + Show(v) + "`\n")
  }

  /** A token whose value is a dict shows one sub-line per entry; any other
      value shows inline. */
  function TokenLine(name: string, value: Json): string {
    match value
    case JObj(inner) => "- `" + name + "`:\n" + InnerTokenLines(inner)
    case _ => "- `" + name + "`: `" + Show(value) + "`\n"
  }

  function TokenLines(fields: Dict<string, Json>): string {
    if |fields| == 0 then ""
    else
      var (k, v) := fields[|fields| - 1];
      TokenLines(fields[..|fields| - 1]) + TokenLine(k, v)
  }

  /** A category whose value is not a dict shows only its heading. */
  function TokenBlock(category: string, values: Json): string {
    "## " + category + "\n" + (if values.JObj? then TokenLines(values.fields) else "") + "\n"
  }

  function TokenBlocks(tokens: Dict<string, Json>): string {
    if |tokens| == 0 then ""
    else
      var (category, values) := tokens[|tokens| - 1];
      TokenBlocks(tokens[..|tokens| - 1]) + TokenBlock(category, values)
  }

  /** The whole answer of `get_design_tokens(token_type)`. */
  function TokensText(file: Option<Dict<string, Json>>, tokenType: Option<string>): string {
    var tokens := file.GetOr([]);
    if |tokens| == 0 then NoTokens
    else if Supplied(tokenType) then
      match Get(tokens, tokenType.value)
      case None => UnknownTokenType(tokenType.value, tokens)
      case Some(values) => TokensHeader + TokenBlocks([(tokenType.value, values)])
    else TokensHeader + TokenBlocks(tokens)
  }

  /** A known token type renders that one category and nothing else. */
  lemma KnownTokenType(tokens: Dict<string, Json>, tokenType: string, values: Json)
    requires tokenType != "" && Get(tokens, tokenType) == Some(values)
    ensures TokensText(Some(tokens), Some(tokenType)) == TokensHeader + TokenBlock(tokenType, values)
  {
    assert |tokens| > 0;
    var one := [(tokenType, values)];
    assert one[..0] == [];
    assert TokenBlocks(one) == "" + TokenBlock(tokenType, values);
    assert "" + TokenBlock(tokenType, values) == TokenBlock(tokenType, values);
  }

  /** An unknown token type gives a message that names every token type of the
      file. */
  lemma UnknownTokenTypeListsAll(tokens: Dict<string, Json>, tokenType: string)
    requires |tokens| > 0 && tokenType != "" && tokenType !in Keys(tokens)
    ensures TokensText(Some(tokens), Some(tokenType)) == UnknownTokenType(tokenType, tokens)
    ensures forall i :: 0 <= i < |tokens| ==> Contains(UnknownTokenType(tokenType, tokens), tokens[i].0)
  {
    GetSpec(tokens, tokenType);
    forall i | 0 <= i < |tokens|
      ensures Contains(UnknownTokenType(tokenType, tokens), tokens[i].0)
    {
      MessageNamesKey(tokenType, tokens, i);
    }
  }

  lemma MessageNamesKey(tokenType: string, tokens: Dict<string, Json>, i: nat)
    requires i < |tokens|
    ensures Contains(UnknownTokenType(tokenType, tokens), tokens[i].0)
  {
    var keys := Keys(tokens);
    JoinContainsPart(", ", keys, i);
    ContainsPrepend(UnknownTokenPrefix(tokenType), Join(", ", keys), keys[i]);
  }

  method InnerTokensText(fields: Dict<string, Json>) returns (s: string)
    ensures s == InnerTokenLines(fields)
  {
    s := "";
    for k := 0 to |fields|
      invariant s == InnerTokenLines(fields[..k])
    {
      TakeStep(fields, k);
      s := s + ("  - " + fields[k].0 + ": `" + Show(fields[k].1) + "`\n");
    }
    TakeAll(fields);
  }

  method TokenLinesText(fields: Dict<string, Json>) returns (s: string)
    ensures s == TokenLines(fields)
  {
    s := "";
    for k := 0 to |fields|
      invariant s == TokenLines(fields[..k])
    {
      TakeStep(fields, k);
      var (name, value) := fields[k];
      if value.JObj? {
        var inner := InnerTokensText(value.fields);
        s := s + ("- `" + name + "`:\n" + inner);
      } else {
        s := s + ("- `" + name + "`: `" + Show(value) + "`\n");
      }
    }
    TakeAll(fields);
  }

  /** `get_design_tokens(token_type)`. */
  method GetDesignTokens(file: Option<Dict<string, Json>>, tokenType: Option<string>) returns (r: string)
    ensures r == TokensText(file, tokenType)
  {
    var tokens := file.GetOr([]);
    if |tokens| == 0 {
      return NoTokens;
    }
    if tokenType.Some? && tokenType.value != "" {
      var found := Get(tokens, tokenType.value);
      if found.None? {
        return UnknownTokenType(tokenType.value, tokens);
      }
      tokens := [(tokenType.value, found.value)];
    }
    r := TokensHeader;
    for i := 0 to |tokens|
      invariant r == TokensHeader + TokenBlocks(tokens[..i])
    {
      TakeStep(tokens, i);
      var (category, values) := tokens[i];
      var lines := "";
      if values.JObj? {
        lines := TokenLinesText(values.fields);
      }
      var block := "## " + category + "\n" + lines + "\n";
      AppendAssoc(TokensHeader, TokenBlocks(tokens[..i]), block);
      r := r + block;
    }
    TakeAll(tokens);
  }

  // ---------------------------------------------------------------------------
  // get_icon_list
  // ---------------------------------------------------------------------------

  const NoIcons := "アイコンが定義されていません"
  const IconsHeader := "# アイコン一覧\n\n"

  function NoIconsIn(category: Option<string>): string {
    "カテゴリ '" + OptText(category) + "' のアイコンが見つかりません"
  }

  function IconIn(category: string): Icon -> bool {
    (i: Icon) => i.category == Some(category)
  }

  /** The group an icon is listed under. */
  function GroupOf(icon: Icon): string {
    icon.category.GetOr("other")
  }

  function InGroup(g: string): Icon -> bool {
    (i: Icon) => GroupOf(i) == g
  }

  function Groups(icons: seq<Icon>): (r: seq<string>)
    ensures |r| == |icons|
    ensures forall k :: 0 <= k < |icons| ==> r[k] == GroupOf(icons[k])
  {
    seq(|icons|, k requires 0 <= k < |icons| => GroupOf(icons[k]))
  }

  /** The distinct elements of `s` in order of first appearance. */
  function FirstAppearances(s: seq<string>): (r: seq<string>)
    ensures forall k :: 0 <= k < |r| ==> r[k] in s
    ensures forall k :: 0 <= k < |s| ==> s[k] in r
    ensures forall j, k :: 0 <= j < k < |r| ==> r[j] != r[k]
  {
    if |s| == 0 then []
    else
      var init, last := s[..|s| - 1], s[|s| - 1];
      var r := FirstAppearances(init);
      assert forall k :: 0 <= k < |init| ==> init[k] == s[k];
      if last in init then r else r + [last]
  }

  /** `categories.setdefault(cat, []).append(icon)`. */
  function AddIcon(groups: Dict<string, seq<Icon>>, icon: Icon): Dict<string, seq<Icon>> {
    Put(groups, GroupOf(icon), Get(groups, GroupOf(icon)).GetOr([]) + [icon])
  }

  /** The grouping dict after all icons are added in order. */
  function Grouped(icons: seq<Icon>): Dict<string, seq<Icon>> {
    if |icons| == 0 then [] else AddIcon(Grouped(icons[..|icons| - 1]), icons[|icons| - 1])
  }

  lemma {:induction false} NoneKept(icons: seq<Icon>, g: string)
    requires g !in Groups(icons)
    ensures Filter(icons, InGroup(g)) == []
    decreases |icons|
  {
    if |icons| > 0 {
      assert Groups(icons)[0] != g;
      assert Groups(icons[1..]) == Groups(icons)[1..];
      NoneKept(icons[1..], g);
    }
  }

  /** Every icon is in exactly the group of its category, and a group holds
      its icons in input order. */
  lemma {:induction false} GroupedGet(icons: seq<Icon>, g: string)
    ensures Get(Grouped(icons), g) == if g in Groups(icons) then Some(Filter(icons, InGroup(g))) else None
    decreases |icons|
  {
    if |icons| > 0 {
      var init, x := icons[..|icons| - 1], icons[|icons| - 1];
      var before := Grouped(init);
      var keep := InGroup(g);
      GroupedGet(init, g);
      assert icons == init + [x];
      assert Groups(icons) == Groups(init) + [GroupOf(x)];
      FilterAppend(init, [x], keep);
      FilterSingle(x, keep);
      var v := Get(before, GroupOf(x)).GetOr([]) + [x];
      assert Grouped(icons) == Put(before, GroupOf(x), v);
      if g == GroupOf(x) {
        if g !in Groups(init) {
          NoneKept(init, g);
        }
        assert Get(before, g).GetOr([]) == Filter(init, keep);
        assert keep(x);
        assert Filter(icons, keep) == v;
        assert g in Groups(icons);
      } else {
        PutOther(before, GroupOf(x), v, g);
        assert !keep(x);
        assert Filter(icons, keep) == Filter(init, keep) + [];
        assert Filter(icons, keep) == Filter(init, keep);
        assert g in Groups(icons) <==> g in Groups(init);
      }
    }
  }

  /** Groups appear in the order their categories first appear. */
  lemma {:induction false} GroupedKeys(icons: seq<Icon>)
    ensures Keys(Grouped(icons)) == FirstAppearances(Groups(icons))
    decreases |icons|
  {
    if |icons| > 0 {
      var init, x := icons[..|icons| - 1], icons[|icons| - 1];
      var before := Grouped(init);
      var cx := GroupOf(x);
      var v := Get(before, cx).GetOr([]) + [x];
      GroupedKeys(init);
      assert FirstAppearances(Groups(icons))
          == FirstAppearances(Groups(init)) + if cx in Groups(init) then [] else [cx] by {
        assert Groups(icons)[..|icons| - 1] == Groups(init);
        assert Groups(icons)[|icons| - 1] == cx;
      }
      assert cx in Keys(before) <==> cx in Groups(init) by {
        GroupedGet(init, cx);
        GetSpec(before, cx);
      }
      assert Keys(Grouped(icons)) == if cx in Keys(before) then Keys(before) else Keys(before) + [cx] by {
        assert Grouped(icons) == Put(before, cx, v);
        PutKeys(before, cx, v);
      }
    }
  }

  function IconLines(icons: seq<Icon>): string {
    if |icons| == 0 then ""
    else
      var icon := icons[|icons| - 1];
      IconLines(icons[..|icons| - 1]) + ("- `" + icon.name + "`: " + icon.description.GetOr("") + "\n")
  }

  function GroupBlocks(groups: Dict<string, seq<Icon>>): string {
    if |groups| == 0 then ""
    else
      var (g, icons) := groups[|groups| - 1];
      GroupBlocks(groups[..|groups| - 1]) + ("## " + g + "\n" + IconLines(icons) + "\n")
  }

  /** The icons `get_icon_list(category)` shows. */
  function ShownIcons(all: seq<Icon>, category: Option<string>): seq<Icon> {
    if Supplied(category) then Filter(all, IconIn(category.value)) else all
  }

  /** The whole answer of `get_icon_list`. */
  function IconListText(file: Option<seq<Icon>>, category: Option<string>): string {
    var all := file.GetOr([]);
    if |all| == 0 then NoIcons
    else
      var shown := ShownIcons(all, category);
      if |shown| == 0 then NoIconsIn(category) else IconsHeader + GroupBlocks(Grouped(shown))
  }

  method IconLinesText(icons: seq<Icon>) returns (s: string)
    ensures s == IconLines(icons)
  {
    s := "";
    for k := 0 to |icons|
      invariant s == IconLines(icons[..k])
    {
      TakeStep(icons, k);
      s := s + ("- `" + icons[k].name + "`: " + icons[k].description.GetOr("") + "\n");
    }
    TakeAll(icons);
  }

  /** The grouping loop: a category seen for the first time gets an empty
      list, then the icon is appended to its category's list. */
  method GroupIcons(icons: seq<Icon>) returns (categories: Dict<string, seq<Icon>>)
    ensures categories == Grouped(icons)
  {
    categories := [];
    for i := 0 to |icons|
      invariant categories == Grouped(icons[..i])
    {
      TakeStep(icons, i);
      var icon := icons[i];
      var cat := icon.category.GetOr("other");
      ghost var before := categories;
      if cat !in Keys(categories) {
        categories := Put(categories, cat, []);
        PutPut(before, cat, [], [icon]);
        assert [] + [icon] == [icon];
      } else {
        GetSpec(categories, cat);
      }
      categories := Put(categories, cat, Get(categories, cat).value + [icon]);
      GetSpec(before, cat);
    }
    TakeAll(icons);
  }

  /** `get_icon_list(category)`. */
  method GetIconList(file: Option<seq<Icon>>, category: Option<string>) returns (r: string)
    ensures r == IconListText(file, category)
  {
    var icons := file.GetOr([]);
    if |icons| == 0 {
      return NoIcons;
    }
    if category.Some? && category.value != "" {
      icons := Filter(icons, IconIn(category.value));
    }
    if |icons| == 0 {
      return NoIconsIn(category);
    }
    r := IconsHeader;
    var categories := GroupIcons(icons);
    for i := 0 to |categories|
      invariant r == IconsHeader + GroupBlocks(categories[..i])
    {
      TakeStep(categories, i);
      var (cat, catIcons) := categories[i];
      var lines := IconLinesText(catIcons);
      var block := "## " + cat + "\n" + lines + "\n";
      AppendAssoc(IconsHeader, GroupBlocks(categories[..i]), block);
      r := r + block;
    }
    TakeAll(categories);
  }

  // ---------------------------------------------------------------------------
  // get_icon_detail
  // ---------------------------------------------------------------------------

  /** The first icon with this exact name. */
  function FindIcon(icons: seq<Icon>, name: string): (r: Option<nat>)
    ensures r.Some? ==> r.value < |icons| && icons[r.value].name == name
    ensures r.Some? ==> forall k :: 0 <= k < r.value ==> icons[k].name != name
    ensures r.None? ==> forall k :: 0 <= k < |icons| ==> icons[k].name != name
    decreases |icons|
  {
    if |icons| == 0 then None
    else if icons[0].name == name then Some(0)
    else
      match FindIcon(icons[1..], name)
      case None => None
      case Some(k) => Some(k + 1)
  }

  /** The names shown as examples when an icon is not found: those of the
      first ten icons. */
  function ExampleNames(icons: seq<Icon>): (r: seq<string>)
    ensures |r| <= 10 && |r| <= |icons|
    ensures forall k :: 0 <= k < |r| ==> r[k] == icons[k].name
    ensures |icons| > 10 ==> |r| == 10
  {
    var shown := if |icons| <= 10 then icons else icons[..10];
    seq(|shown|, k requires 0 <= k < |shown| => shown[k].name)
  }

  function IconNotFound(name: string, icons: seq<Icon>): string {
    "アイコン '" + name + "' が見つかりません。例: " + Join(", ", ExampleNames(icons))
  }

  function IconText(icon: Icon): string {
    "# " + icon.name + "\n\n"
      + "- **カテゴリ**: " + icon.category.GetOr("N/A") + "\n"
      + "- **説明**: " + icon.description.GetOr("N/A") + "\n"
      + (if icon.keywords.Some? && |icon.keywords.value| > 0
         then "- **キーワード**: " + Join(", ", icon.keywords.value) + "\n" else "")
      + (if NonEmpty(icon.svg) then "\n## SVG\n```svg\n" + icon.svg.value + "\n```\n" else "")
      + (if NonEmpty(icon.usage) then "\n## 使用例\n```tsx\n" + icon.usage.value + "\n```\n" else "")
  }

  /** `get_icon_detail(icon_name)`: the detail of the first icon with that
      name, or a message naming the first ten icons. */
  function IconDetail(file: Option<seq<Icon>>, name: string): (r: string)
    ensures file.None? ==> r == NoIcons
    ensures file.Some? && |file.value| > 0 ==>
              (r == IconNotFound(name, file.value) <==> forall k :: 0 <= k < |file.value| ==> file.value[k].name != name)
  {
    var icons := file.GetOr([]);
    if |icons| == 0 then NoIcons
    else
      match FindIcon(icons, name)
      case None => IconNotFound(name, icons)
      case Some(k) =>
        assert IconText(icons[k])[0] == '#';
        assert IconNotFound(name, icons)[0] != '#';
        IconText(icons[k])
  }
}
