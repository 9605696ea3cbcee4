/** The model-role configuration tree of a model pack and its flattening into
    the rows of the "Models" table (renderModelPack and its recursive
    addModelRow in app/cli/cmd/models.go). Table drawing, colours and the
    "%.1f" formatting are not modelled: a row carries the values the table
    shows. */
module RoleTree {
  import opened Common

  /** The nine fixed roles of a model pack. */
  datatype Role =
    | Planner | Architect | Coder | PlanSummary | Builder
    | WholeFileBuilder | Namer | CommitMsg | ExecStatus

  /** Every role, in the order the roles are listed and rendered. */
  const AllRoles: seq<Role> :=
    [Planner, Architect, Coder, PlanSummary, Builder, WholeFileBuilder, Namer, CommitMsg, ExecStatus]

  /** The role's name as the command line and the table spell it. */
  function RoleName(r: Role): string {
    match r
    case Planner => "planner"
    case Architect => "architect"
    case Coder => "coder"
    case PlanSummary => "summarizer"
    case Builder => "builder"
    case WholeFileBuilder => "whole-file-builder"
    case Namer => "names"
    case CommitMsg => "commit-messages"
    case ExecStatus => "auto-continue"
  }

  lemma RoleNamesDistinct(r: Role, s: Role)
    ensures RoleName(r) == RoleName(s) ==> r == s
    ensures Lower(RoleName(r)) == RoleName(r)
  {
    RoleNameLower(r);
  }

  lemma RoleNameLower(r: Role)
    ensures Lower(RoleName(r)) == RoleName(r)
  {
    var n := RoleName(r);
    assert forall i :: 0 <= i < |n| ==> !('A' <= n[i] <= 'Z');
    LowerKeeps(n);
  }

  lemma LowerKeeps(n: string)
    requires forall i :: 0 <= i < |n| ==> !('A' <= n[i] <= 'Z')
    ensures Lower(n) == n
  {
  }

  /** One node of the tree: a model, its sampling parameters, and up to four
      fallback configurations of the same shape, each owned by this node. */
  datatype RoleConfig = RoleConfig(
    modelId: string,
    temperature: real,
    topP: real,
    reservedOutputTokens: int,
    largeContext: Option<RoleConfig>,
    largeOutput: Option<RoleConfig>,
    strong: Option<RoleConfig>,
    errorFallback: Option<RoleConfig>)

  /** A model pack: one root configuration per role. Architect, coder and
      whole-file-builder are optional and fall back to planner, builder and
      builder. `localProvider` is non-empty for packs that need a locally
      running provider. */
  datatype ModelPack = ModelPack(
    name: string,
    description: string,
    localProvider: string,
    planner: RoleConfig,
    architect: Option<RoleConfig>,
    coder: Option<RoleConfig>,
    planSummary: RoleConfig,
    builder: RoleConfig,
    wholeFileBuilder: Option<RoleConfig>,
    namer: RoleConfig,
    commitMsg: RoleConfig,
    execStatus: RoleConfig)

  /** The configuration a role effectively uses (GetArchitect, GetCoder and
      GetWholeFileBuilder for the three optional roles). */
  function EffectiveRoot(p: ModelPack, r: Role): RoleConfig {
    match r
    case Planner => p.planner
    case Architect => if p.architect.Some? then p.architect.value else p.planner
    case Coder => if p.coder.Some? then p.coder.value else p.builder
    case PlanSummary => p.planSummary
    case Builder => p.builder
    case WholeFileBuilder => if p.wholeFileBuilder.Some? then p.wholeFileBuilder.value else p.builder
    case Namer => p.namer
    case CommitMsg => p.commitMsg
    case ExecStatus => p.execStatus
  }

  /** One row of the "Models" table: the indented role title, the model id,
      the depth in the tree and the temperature and top-p shown; `disabled`
      marks forced values (shown with a leading "*"). */
  datatype Row = Row(title: string, modelId: string, depth: nat, temperature: real, topP: real, maxInput: int, disabled: bool)

  /** What a row reads from the node's base model and the shared package:
      the RoleParamsDisabled flag and MaxTokens of the base model, by model
      id, and GetReservedOutputTokens of a configuration. */
  datatype BaseModels = BaseModels(paramsDisabled: string -> bool, maxTokens: string -> int, reservedOutput: RoleConfig -> int)

  function Spaces(n: nat): (r: string)
    ensures |r| == n && forall i :: 0 <= i < n ==> r[i] == ' '
  {
    seq(n, _ => ' ')
  }

  const Branch: string := "└─ "

  /** The labels of the four fallback slots. */
  const LargeContextRole: string := "large-context"
  const LargeOutputRole: string := "large-output"
  const StrongRole: string := "strong"
  const ErrorRole: string := "error"

  /** The title of a node `depth` hops below a root. */
  function Indent(role: string, depth: nat): string {
    if depth == 0 then role else Spaces(depth - 1) + Branch + role
  }

  /** A node's row: temperature and top-p as rendered (a model that rejects
      them shows 1 and 1, whatever the node stores), and the "Max Input"
      column, the base model's max tokens less the reserved output tokens. */
  function NodeRow(title: string, c: RoleConfig, depth: nat, base: BaseModels): (row: Row)
    ensures row.disabled <==> base.paramsDisabled(c.modelId)
    ensures row.disabled ==> row.temperature == 1.0 && row.topP == 1.0
    ensures !row.disabled ==> row.temperature == c.temperature && row.topP == c.topP
    ensures row.maxInput == base.maxTokens(c.modelId) - base.reservedOutput(c)
    ensures row.title == title && row.modelId == c.modelId && row.depth == depth
  {
    var maxInput := base.maxTokens(c.modelId) - base.reservedOutput(c);
    if base.paramsDisabled(c.modelId) then Row(title, c.modelId, depth, 1.0, 1.0, maxInput, true)
    else Row(title, c.modelId, depth, c.temperature, c.topP, maxInput, false)
  }

  function ChildRows(role: string, child: Option<RoleConfig>, depth: nat, base: BaseModels): seq<Row>
    decreases child, 2
  {
    match child
    case None => []
    case Some(c) => Flatten(role, c, depth, base)
  }

  /** Pre-order flattening: the node, then its large-context, large-output,
      strong and error fallbacks one level deeper; absent slots add no row. */
  function Flatten(role: string, c: RoleConfig, depth: nat, base: BaseModels): seq<Row>
    decreases c, 1
  {
    [NodeRow(Indent(role, depth), c, depth, base)] + FallbackRows(c, depth + 1, base)
  }

  /** The rows below a node, its fallback slots in fixed order. */
  function FallbackRows(c: RoleConfig, depth: nat, base: BaseModels): seq<Row>
    decreases c, 0
  {
    ChildRows(LargeContextRole, c.largeContext, depth, base)
    + ChildRows(LargeOutputRole, c.largeOutput, depth, base)
    + ChildRows(StrongRole, c.strong, depth, base)
    + ChildRows(ErrorRole, c.errorFallback, depth, base)
  }

  /** The nodes of a tree in pre-order, an independent reference for the rows. */
  function Nodes(c: RoleConfig): seq<RoleConfig>
    decreases c, 1
  {
    [c] + FallbackNodes(c)
  }

  function FallbackNodes(c: RoleConfig): seq<RoleConfig>
    decreases c, 0
  {
    ChildNodes(c.largeContext) + ChildNodes(c.largeOutput) + ChildNodes(c.strong) + ChildNodes(c.errorFallback)
  }

  function ChildNodes(child: Option<RoleConfig>): seq<RoleConfig>
    decreases child, 2
  {
    match child
    case None => []
    case Some(c) => Nodes(c)
  }

  /** The rows of one role: its effective root at depth 0 and everything below. */
  function RootRows(p: ModelPack, r: Role, base: BaseModels): seq<Row> {
    Flatten(RoleName(r), EffectiveRoot(p, r), 0, base)
  }

  /** The rows of the given roles, one after the other. */
  function RolesRows(p: ModelPack, roles: seq<Role>, base: BaseModels): seq<Row> {
    if |roles| == 0 then [] else RolesRows(p, roles[..|roles| - 1], base) + RootRows(p, roles[|roles| - 1], base)
  }

  /** The rows of the whole pack: the nine roles in fixed order. */
  function PackRows(p: ModelPack, base: BaseModels): seq<Row> {
    RolesRows(p, AllRoles, base)
  }

  /** The nodes of the given roles' trees, one role after the other. */
  function RolesNodes(p: ModelPack, roles: seq<Role>): seq<RoleConfig> {
    if |roles| == 0 then [] else RolesNodes(p, roles[..|roles| - 1]) + Nodes(EffectiveRoot(p, roles[|roles| - 1]))
  }

  /** The nodes of the whole pack, the nine trees in fixed order. */
  function PackNodes(p: ModelPack): seq<RoleConfig> {
    RolesNodes(p, AllRoles)
  }

  predicate AnyDisabled(rows: seq<Row>) {
    exists i :: 0 <= i < |rows| && rows[i].disabled
  }

  lemma AnyDisabledAppend(a: seq<Row>, b: seq<Row>)
    ensures AnyDisabled(a + b) <==> AnyDisabled(a) || AnyDisabled(b)
  {
    if AnyDisabled(a + b) {
      var i :| 0 <= i < |a + b| && (a + b)[i].disabled;
      if i >= |a| { assert b[i - |a|].disabled; }
    }
    if AnyDisabled(a) {
      var i :| 0 <= i < |a| && a[i].disabled;
      assert (a + b)[i].disabled;
    }
    if AnyDisabled(b) {
      var i :| 0 <= i < |b| && b[i].disabled;
      assert (a + b)[|a| + i].disabled;
    }
  }

  /** The role label of addModelRow: below the root, "└─ " is prefixed and
      then one space per level beyond the first. */
  method IndentRole(role: string, indent: nat) returns (title: string)
    ensures title == Indent(role, indent)
    ensures indent > 0 ==> |title| == indent + 2 + |role| && title[indent - 1..indent + 2] == Branch
  {
    title := role;
    if indent > 0 {
      title := Branch + title;
      var i := 0;
      while i < indent - 1
        invariant 0 <= i <= indent - 1
        invariant title == Spaces(i) + Branch + role
      {
        title := " " + title;
        i := i + 1;
        assert Spaces(i) == [' '] + Spaces(i - 1);
      }
      assert title[indent - 1..indent + 2] == (Spaces(indent - 1) + Branch + role)[indent - 1..indent + 2];
    }
  }

  /** addModelRow: appends the rows of `config` and its fallbacks to `rows0`
      and raises the captured "any role params disabled" flag. */
  method AddModelRow(role: string, config: RoleConfig, indent: nat, base: BaseModels,
                     rows0: seq<Row>, any0: bool)
    returns (rows: seq<Row>, any: bool)
    ensures rows == rows0 + Flatten(role, config, indent, base)
    ensures any <==> any0 || AnyDisabled(Flatten(role, config, indent, base))
    decreases config, 1
  {
    var title := IndentRole(role, indent);
    var row := NodeRow(title, config, indent, base);
    rows := rows0 + [row];
    any := any0 || row.disabled;
    assert [row][0] == row;
    assert AnyDisabled([row]) <==> row.disabled;
    rows, any := AddFallbacks(config, indent + 1, base, rows, any);
    AppendAssoc(rows0, [row], FallbackRows(config, indent + 1, base));
    AnyDisabledAppend([row], FallbackRows(config, indent + 1, base));
  }

  /** The four `if config.X != nil { addModelRow(...) }` of addModelRow. */
  method AddFallbacks(config: RoleConfig, indent: nat, base: BaseModels,
                      rows0: seq<Row>, any0: bool)
    returns (rows: seq<Row>, any: bool)
    ensures rows == rows0 + FallbackRows(config, indent, base)
    ensures any <==> any0 || AnyDisabled(FallbackRows(config, indent, base))
    decreases config, 0
  {
    ghost var c1 := ChildRows(LargeContextRole, config.largeContext, indent, base);
    ghost var c2 := ChildRows(LargeOutputRole, config.largeOutput, indent, base);
    ghost var c3 := ChildRows(StrongRole, config.strong, indent, base);
    ghost var c4 := ChildRows(ErrorRole, config.errorFallback, indent, base);
    assert FallbackRows(config, indent, base) == c1 + c2 + c3 + c4;
    rows, any := AddFallback(LargeContextRole, config.largeContext, indent, base, rows0, any0);
    rows, any := AddFallback(LargeOutputRole, config.largeOutput, indent, base, rows, any);
    AppendAssoc(rows0, c1, c2);
    AnyDisabledAppend(c1, c2);
    rows, any := AddFallback(StrongRole, config.strong, indent, base, rows, any);
    AppendAssoc(rows0, c1 + c2, c3);
    AnyDisabledAppend(c1 + c2, c3);
    rows, any := AddFallback(ErrorRole, config.errorFallback, indent, base, rows, any);
    AppendAssoc(rows0, c1 + c2 + c3, c4);
    AnyDisabledAppend(c1 + c2 + c3, c4);
  }

  /** One `if config.X != nil { addModelRow(...) }` of addModelRow. */
  method AddFallback(role: string, child: Option<RoleConfig>, indent: nat, base: BaseModels,
                     rows0: seq<Row>, any0: bool)
    returns (rows: seq<Row>, any: bool)
    ensures rows == rows0 + ChildRows(role, child, indent, base)
    ensures any <==> any0 || AnyDisabled(ChildRows(role, child, indent, base))
    decreases child, 2
  {
    rows, any := rows0, any0;
    if child.Some? {
      rows, any := AddModelRow(role, child.value, indent, base, rows0, any0);
    } else {
      assert !AnyDisabled([]);
    }
  }

  /** renderModelPack: a first table headed by the pack's name with its
      description as the one row, then the "Models" table of the nine roots
      in fixed order, then the footnote about forced values, shown only with
      all properties on. */
  method RenderModelPack(pack: ModelPack, allProperties: bool, base: BaseModels)
    returns (heading: string, description: string, rows: seq<Row>, footnote: bool)
    ensures heading == pack.name && description == pack.description
    ensures rows == PackRows(pack, base)
    ensures footnote <==> allProperties && AnyDisabled(rows)
  {
    heading, description := pack.name, pack.description;
    var any;
    rows, any := AddRoleRows(pack, AllRoles, base);
    footnote := any && allProperties;
  }

  /** The addModelRow calls, one per role in the given order. Architect,
      Coder and WholeFileBuilder are read through their getters, which fall
      back to planner, builder and builder. */
  method AddRoleRows(pack: ModelPack, roles: seq<Role>, base: BaseModels)
    returns (rows: seq<Row>, any: bool)
    ensures rows == RolesRows(pack, roles, base)
    ensures any <==> AnyDisabled(rows)
  {
    any := false;
    rows := [];
    for k := 0 to |roles|
      invariant rows == RolesRows(pack, roles[..k], base)
      invariant any <==> AnyDisabled(rows)
    {
      var root := EffectiveRoot(pack, roles[k]);
      ghost var before := rows;
      rows, any := AddModelRow(RoleName(roles[k]), root, 0, base, rows, any);
      AnyDisabledAppend(before, RootRows(pack, roles[k], base));
      assert roles[..k + 1][..k] == roles[..k];
    }
    assert roles[..|roles|] == roles;
  }

  // ----- What the rows say about the tree -----

  /** A row shows a node: its model id, and the effective temperature and
      top-p (forced to 1 and 1 when the model rejects them). */
  ghost predicate Shows(row: Row, node: RoleConfig, base: BaseModels) {
    && row.modelId == node.modelId
    && (row.disabled <==> base.paramsDisabled(node.modelId))
    && (row.disabled ==> row.temperature == 1.0 && row.topP == 1.0)
    && (!row.disabled ==> row.temperature == node.temperature && row.topP == node.topP)
    && row.maxInput == base.maxTokens(node.modelId) - base.reservedOutput(node)
  }

  /** Row `i` shows node `i`, for every `i`. */
  ghost predicate Renders(rows: seq<Row>, nodes: seq<RoleConfig>, base: BaseModels) {
    |rows| == |nodes| && forall i :: 0 <= i < |rows| ==> Shows(rows[i], nodes[i], base)
  }

  /** A row below the roots is labelled depth-1 spaces, then "└─ ". */
  ghost predicate Titled(row: Row) {
    row.depth > 0 ==>
      |row.title| >= row.depth + 2
      && row.title[..row.depth - 1] == Spaces(row.depth - 1)
      && row.title[row.depth - 1..row.depth + 2] == Branch
  }

  /** Every row is at depth `d` or deeper and correctly labelled. */
  ghost predicate Below(rows: seq<Row>, d: nat) {
    forall i :: 0 <= i < |rows| ==> rows[i].depth >= d && Titled(rows[i])
  }

  lemma RendersAppend(a: seq<Row>, x: seq<RoleConfig>, b: seq<Row>, y: seq<RoleConfig>, pd: BaseModels)
    requires Renders(a, x, pd) && Renders(b, y, pd)
    ensures Renders(a + b, x + y, pd)
  {
    forall i | 0 <= i < |a + b|
      ensures Shows((a + b)[i], (x + y)[i], pd)
    {
      if i >= |a| {
        assert (a + b)[i] == b[i - |a|] && (x + y)[i] == y[i - |x|];
      }
    }
  }

  lemma BelowAppend(a: seq<Row>, b: seq<Row>, d: nat)
    requires Below(a, d) && Below(b, d)
    ensures Below(a + b, d)
  {
  }

  lemma TitledIndent(role: string, d: nat)
    ensures d > 0 ==> Titled(Row(Indent(role, d), "", d, 0.0, 0.0, 0, false))
  {
    if d > 0 {
      var t := Indent(role, d);
      assert t == Spaces(d - 1) + Branch + role;
      assert t[..d - 1] == Spaces(d - 1);
      assert t[d - 1..d + 2] == Branch;
    }
  }

  /** Flattening shows every node of the tree once, in pre-order: the first
      row is the node itself at depth `d`, every later row lies deeper, and
      every row below the roots carries the indented label. */
  lemma {:induction false} FlattenShowsNodes(role: string, c: RoleConfig, d: nat, pd: BaseModels)
    ensures Renders(Flatten(role, c, d, pd), Nodes(c), pd)
    ensures Flatten(role, c, d, pd)[0] == NodeRow(Indent(role, d), c, d, pd)
    ensures Below(Flatten(role, c, d, pd), d)
    ensures Below(Flatten(role, c, d, pd)[1..], d + 1)
    decreases c, 1
  {
    var row := NodeRow(Indent(role, d), c, d, pd);
    var rest := FallbackRows(c, d + 1, pd);
    FallbackShowsNodes(c, d + 1, pd);
    TitledIndent(role, d);
    assert Titled(row);
    assert Renders([row], [c], pd);
    RendersAppend([row], [c], rest, FallbackNodes(c), pd);
    assert Flatten(role, c, d, pd)[1..] == rest;
    BelowAppend([row], rest, d);
  }

  lemma {:induction false} FallbackShowsNodes(c: RoleConfig, d: nat, pd: BaseModels)
    ensures Renders(FallbackRows(c, d, pd), FallbackNodes(c), pd)
    ensures Below(FallbackRows(c, d, pd), d)
    decreases c, 0
  {
    ChildShowsNodes(LargeContextRole, c.largeContext, d, pd);
    ChildShowsNodes(LargeOutputRole, c.largeOutput, d, pd);
    ChildShowsNodes(StrongRole, c.strong, d, pd);
    ChildShowsNodes(ErrorRole, c.errorFallback, d, pd);
    var r1 := ChildRows(LargeContextRole, c.largeContext, d, pd);
    var r2 := ChildRows(LargeOutputRole, c.largeOutput, d, pd);
    var r3 := ChildRows(StrongRole, c.strong, d, pd);
    var r4 := ChildRows(ErrorRole, c.errorFallback, d, pd);
    var n1, n2, n3, n4 := ChildNodes(c.largeContext), ChildNodes(c.largeOutput), ChildNodes(c.strong), ChildNodes(c.errorFallback);
    RendersAppend(r1, n1, r2, n2, pd);
    RendersAppend(r1 + r2, n1 + n2, r3, n3, pd);
    RendersAppend(r1 + r2 + r3, n1 + n2 + n3, r4, n4, pd);
    BelowAppend(r1, r2, d);
    BelowAppend(r1 + r2, r3, d);
    BelowAppend(r1 + r2 + r3, r4, d);
  }

  lemma {:induction false} ChildShowsNodes(role: string, child: Option<RoleConfig>, d: nat, pd: BaseModels)
    ensures Renders(ChildRows(role, child, d, pd), ChildNodes(child), pd)
    ensures Below(ChildRows(role, child, d, pd), d)
    decreases child, 2
  {
    if child.Some? {
      FlattenShowsNodes(role, child.value, d, pd);
    }
  }

  /** Every row of the pack shows its node of the pack's trees, role by role
      in pre-order: in particular a disabled row shows 1 and 1 whatever the
      node stores, and an enabled row shows the stored values. */
  lemma {:induction false} RolesRowsShowNodes(p: ModelPack, roles: seq<Role>, pd: BaseModels)
    ensures Renders(RolesRows(p, roles, pd), RolesNodes(p, roles), pd)
    ensures Below(RolesRows(p, roles, pd), 0)
  {
    if |roles| > 0 {
      var init := roles[..|roles| - 1];
      var last := roles[|roles| - 1];
      RolesRowsShowNodes(p, init, pd);
      FlattenShowsNodes(RoleName(last), EffectiveRoot(p, last), 0, pd);
      RendersAppend(RolesRows(p, init, pd), RolesNodes(p, init), RootRows(p, last, pd), Nodes(EffectiveRoot(p, last)), pd);
      BelowAppend(RolesRows(p, init, pd), RootRows(p, last, pd), 0);
    }
  }

  /** The footnote condition: some row is disabled iff some node's model
      rejects temperature and top-p. */
  lemma RendersDisabled(rows: seq<Row>, nodes: seq<RoleConfig>, pd: BaseModels)
    requires Renders(rows, nodes, pd)
    ensures AnyDisabled(rows) <==> exists i :: 0 <= i < |nodes| && pd.paramsDisabled(nodes[i].modelId)
  {
    if exists i :: 0 <= i < |nodes| && pd.paramsDisabled(nodes[i].modelId) {
      var i :| 0 <= i < |nodes| && pd.paramsDisabled(nodes[i].modelId);
      assert Shows(rows[i], nodes[i], pd);
    }
  }

  lemma PackFootnote(p: ModelPack, pd: BaseModels)
    ensures AnyDisabled(PackRows(p, pd)) <==>
      exists i :: 0 <= i < |PackNodes(p)| && pd.paramsDisabled(PackNodes(p)[i].modelId)
  {
    RolesRowsShowNodes(p, AllRoles, pd);
    RendersDisabled(PackRows(p, pd), PackNodes(p), pd);
  }

  /** The titles of the depth-0 rows, in order. */
  function RootTitles(rows: seq<Row>): seq<string> {
    if |rows| == 0 then []
    else (if rows[0].depth == 0 then [rows[0].title] else []) + RootTitles(rows[1..])
  }

  lemma {:induction false} RootTitlesAppend(a: seq<Row>, b: seq<Row>)
    ensures RootTitles(a + b) == RootTitles(a) + RootTitles(b)
  {
    if |a| > 0 {
      assert (a + b)[1..] == a[1..] + b;
      RootTitlesAppend(a[1..], b);
    } else {
      assert a + b == b;
    }
  }

  lemma {:induction false} RootTitlesNone(rows: seq<Row>)
    requires Below(rows, 1)
    ensures RootTitles(rows) == []
  {
    if |rows| > 0 {
      RootTitlesNone(rows[1..]);
    }
  }

  function RoleNames(roles: seq<Role>): seq<string> {
    seq(|roles|, i requires 0 <= i < |roles| => RoleName(roles[i]))
  }

  lemma RoleNamesSnoc(roles: seq<Role>)
    requires |roles| > 0
    ensures RoleNames(roles) == RoleNames(roles[..|roles| - 1]) + [RoleName(roles[|roles| - 1])]
  {
    var a, b := RoleNames(roles), RoleNames(roles[..|roles| - 1]) + [RoleName(roles[|roles| - 1])];
    assert |a| == |b|;
    forall i | 0 <= i < |a|
      ensures a[i] == b[i]
    {
      if i < |roles| - 1 {
        assert b[i] == RoleNames(roles[..|roles| - 1])[i];
      }
    }
  }

  /** Each role contributes exactly one depth-0 row, its own, so the roots
      of the table are the roles in the order they are rendered. */
  lemma {:induction false} RolesRowsRoots(p: ModelPack, roles: seq<Role>, pd: BaseModels)
    ensures RootTitles(RolesRows(p, roles, pd)) == RoleNames(roles)
  {
    if |roles| > 0 {
      var init := roles[..|roles| - 1];
      var last := roles[|roles| - 1];
      var f := RootRows(p, last, pd);
      RolesRowsRoots(p, init, pd);
      OneRoot(p, last, pd);
      assert RolesRows(p, roles, pd) == RolesRows(p, init, pd) + f;
      RootTitlesAppend(RolesRows(p, init, pd), f);
      RoleNamesSnoc(roles);
    }
  }

  /** A role's tree has one depth-0 row, its first, titled with the role. */
  lemma OneRoot(p: ModelPack, r: Role, pd: BaseModels)
    ensures RootTitles(RootRows(p, r, pd)) == [RoleName(r)]
  {
    var f := RootRows(p, r, pd);
    FlattenShowsNodes(RoleName(r), EffectiveRoot(p, r), 0, pd);
    RootTitlesNone(f[1..]);
    assert f == [f[0]] + f[1..];
    RootTitlesAppend([f[0]], f[1..]);
  }

  /** The nine roots are listed at depth 0 in the fixed role order. */
  lemma PackRoots(p: ModelPack, pd: BaseModels)
    ensures RootTitles(PackRows(p, pd))
         == ["planner", "architect", "coder", "summarizer", "builder",
             "whole-file-builder", "names", "commit-messages", "auto-continue"]
  {
    RolesRowsRoots(p, AllRoles, pd);
    assert PackRows(p, pd) == RolesRows(p, AllRoles, pd);
  }

  /** A root with a large-context and an error fallback, both leaves, is
      flattened to exactly three rows: the root, then the two fallbacks one
      level down, in slot order. */
  lemma TwoFallbacks(role: string, c: RoleConfig, pd: BaseModels)
    requires c.largeContext.Some? && c.largeOutput.None? && c.strong.None? && c.errorFallback.Some?
    requires FallbackNodes(c.largeContext.value) == [] && FallbackNodes(c.errorFallback.value) == []
    ensures |Flatten(role, c, 0, pd)| == 3
    ensures Flatten(role, c, 0, pd)[0].title == role && Flatten(role, c, 0, pd)[0].depth == 0
    ensures Flatten(role, c, 0, pd)[1].title == "└─ large-context" && Flatten(role, c, 0, pd)[1].depth == 1
    ensures Flatten(role, c, 0, pd)[2].title == "└─ error" && Flatten(role, c, 0, pd)[2].depth == 1
  {
    var lc, ef := c.largeContext.value, c.errorFallback.value;
    var lcRow := LeafFlatten(LargeContextRole, lc, 1, pd);
    var efRow := LeafFlatten(ErrorRole, ef, 1, pd);
    assert FallbackRows(c, 1, pd) == [lcRow] + [] + [] + [efRow];
    assert Indent(LargeContextRole, 1) == "└─ large-context";
    assert Indent(ErrorRole, 1) == "└─ error";
  }

  /** A node without fallbacks is flattened to its own row alone. */
  lemma LeafFlatten(role: string, c: RoleConfig, d: nat, pd: BaseModels) returns (row: Row)
    requires FallbackNodes(c) == []
    ensures row == NodeRow(Indent(role, d), c, d, pd)
    ensures Flatten(role, c, d, pd) == [row]
  {
    row := NodeRow(Indent(role, d), c, d, pd);
    FallbackShowsNodes(c, d + 1, pd);
  }
}
