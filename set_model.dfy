/** `plandex set-model`: updateModelSettings in app/cli/cmd/set_model.go.
    The first argument is resolved to a built-in model pack, a role or an
    override setting (in that order, with an interactive menu when it
    resolves to none); the value is parsed and range-checked; exactly one
    field of the addressed role's root configuration or one override is
    changed; and "no update" is reported when the result equals the
    original settings.

    Settings are values, so the JSON round trip the Go code uses as a deep
    copy is the identity here and the caller's settings are never changed.
    Prompts, the server's lists and the functions of the shared package
    (Compact, the compatibility filters, number parsing) are inputs. */
module SetModel {
  import opened Common
  import opened RoleTree

  /** The override scalars of a plan's settings; None is Go's nil pointer. */
  datatype ModelOverrides = ModelOverrides(
    maxTokens: Option<int>,
    maxConvoTokens: Option<int>,
    reservedOutputTokens: Option<int>)

  /** A plan's model settings: the pack (possibly unset) and the overrides. */
  datatype PlanSettings = PlanSettings(modelPack: Option<ModelPack>, overrides: ModelOverrides)

  /** Everything the update reads besides its arguments and the prompts. */
  datatype Env = Env(
    isCloud: bool,
    builtInPacks: seq<ModelPack>,
    defaultPack: ModelPack,
    /** ModelOverridePropsDasherized, in its order. */
    overrideProps: seq<string>,
    compact: string -> string,
    /** strconv.ParseFloat; None is a parse error. */
    parseFloat: string -> Option<real>,
    /** strconv.Atoi; None is a parse error. */
    atoi: string -> Option<int>,
    /** The ids of the built-in base models compatible with a role, in order. */
    builtInCompatible: Role -> seq<string>,
    /** The ids of the account's custom models compatible with a role, in order. */
    customCompatible: Role -> seq<string>,
    /** Whether the model search's listing of the account's custom models
        succeeds; the property menu lists them again on its own. */
    modelsFetched: bool,
    /** The account's custom model packs; None when listing them fails. */
    customPacks: Option<seq<ModelPack>>)

  /** The entries of the first menu: the pack list, a role, an override. */
  datatype MainChoice = ChoosePacks | ChooseRole(role: Role) | ChooseSetting(index: nat)

  /** The entries of the pack menu: built-in packs then custom packs, by
      position, then "go back". */
  datatype PackChoice = PackAt(index: nat) | PacksGoBack

  /** The entries of the property menu of a role. "Select a model" lists
      the account's custom models again: `picked` is None when that listing
      fails, and otherwise the model id the model picker returned ("" when
      none was picked). */
  datatype PropertyChoice = SelectModel(picked: Option<string>) | SetTemperature | SetTopP | SetReserved | PropertiesGoBack

  /** What the user answers to each prompt; the property menu may be shown
      several times, once per element of `properties`. */
  datatype Prompts = Prompts(
    main: Answer<MainChoice>,
    pack: Answer<PackChoice>,
    settingValue: Answer<string>,
    properties: seq<Answer<PropertyChoice>>,
    propertyValue: Answer<string>)

  datatype Reason = NoChange | InvalidValue | Interrupt

  /** How the update ends. `NoUpdate` is the nil result (with the reason the
      Go code may report); `Exit` is OutputErrorAndExit;
      `Restart` is the recursive call with no arguments that "go back"
      makes; `Crash` is a nil dereference of an unset optional role. */
  datatype Outcome = Updated(settings: PlanSettings) | NoUpdate(reason: Reason) | Exit | Restart | Crash

  /** An intermediate result or the outcome that ends the update early. */
  datatype Got<T> = Got(value: T) | Halt(outcome: Outcome)

  /** What the first argument (or the menu) selects. `setting` is the
      compacted override name, `dasherized` its listed spelling. */
  datatype Selection = PackSel(pack: ModelPack) | RoleSel(role: Role) | SettingSel(setting: string, dasherized: string) | Unresolved

  /** The one change a role edit makes to its root configuration. */
  datatype Edit = NewModel(id: string) | NewTemperature(t: real) | NewTopP(p: real) | NoEdit

  // ----- Specification -----

  /** A pack that needs no local provider. */
  predicate Hosted(p: ModelPack) {
    p.localProvider == ""
  }

  /** The built-in packs on offer: on cloud, packs that need a local
      provider are excluded. */
  function Offered(env: Env): seq<ModelPack> {
    if env.isCloud then Filter(env.builtInPacks, Hosted) else env.builtInPacks
  }

  /** The two exact aliases of pack names. */
  function Alias(a: string): string {
    if a == "daily" then "daily-driver" else if a == "opus-4-planner" then "opus-planner" else a
  }

  /** The search predicates: a pack named `compare` up to case, a role
      named `arg` up to case, a setting whose compacted name is the
      compacted `arg` up to case. */
  function PackNamed(compare: string): ModelPack -> bool {
    (p: ModelPack) => EqualFold(p.name, compare)
  }

  function RoleNamed(arg: string): Role -> bool {
    (r: Role) => EqualFold(RoleName(r), arg)
  }

  function SettingNamed(compact: string -> string, arg: string): string -> bool {
    (s: string) => EqualFold(compact(s), compact(arg))
  }

  /** Resolution of the first argument: a built-in pack (case-insensitive,
      after the aliases), else a role (case-insensitive), else an override
      setting (compacted, case-insensitive). */
  function ResolveArg(arg: string, env: Env): Selection {
    match First(Offered(env), PackNamed(Alias(arg)))
    case Some(p) => PackSel(p)
    case None =>
      match First(AllRoles, RoleNamed(arg))
      case Some(r) => RoleSel(r)
      case None =>
        match First(env.overrideProps, SettingNamed(env.compact, arg))
        case Some(s) => SettingSel(env.compact(s), s)
        case None => Unresolved
  }

  /** Whether a selection stops the menu from being shown. */
  predicate Picked(sel: Selection) {
    sel.PackSel? || sel.RoleSel? || (sel.SettingSel? && sel.setting != "")
  }

  /** A property-menu answer that leaves the menu. */
  predicate Leaves(a: Answer<PropertyChoice>) {
    !(a.Chose? && a.choice.SelectModel? && a.choice.picked == Some(""))
  }

  /** The property menu is eventually left. */
  predicate PropertiesEnd(answers: seq<Answer<PropertyChoice>>) {
    exists i :: 0 <= i < |answers| && Leaves(answers[i])
  }

  /** The prompts only ever return entries of the lists they show. */
  predicate PromptsFit(env: Env, prompts: Prompts) {
    && (prompts.main.Chose? && prompts.main.choice.ChooseSetting? ==>
          prompts.main.choice.index < |env.overrideProps|)
    && (prompts.pack.Chose? && prompts.pack.choice.PackAt? && env.customPacks.Some? ==>
          prompts.pack.choice.index < |Offered(env)| + |env.customPacks.value|)
    && PropertiesEnd(prompts.properties)
  }

  /** The labels of the pack menu: built-in packs, then custom packs. */
  function PackLabels(builtIn: seq<ModelPack>, custom: seq<ModelPack>): (labels: seq<string>)
    ensures |labels| == |builtIn| + |custom|
    ensures forall i :: 0 <= i < |builtIn| ==> labels[i] == "Built-in | " + builtIn[i].name
    ensures forall i :: 0 <= i < |custom| ==> labels[|builtIn| + i] == "Custom | " + custom[i].name
  {
    seq(|builtIn|, i requires 0 <= i < |builtIn| => "Built-in | " + builtIn[i].name)
    + seq(|custom|, i requires 0 <= i < |custom| => "Custom | " + custom[i].name)
  }

  /** The position of the first label equal to `entry`: the menu answers
      with a label, and the code maps it back to the first identical one. */
  function FirstEqual(labels: seq<string>, entry: string, k: nat): (j: nat)
    requires k < |labels| && labels[k] == entry
    ensures j <= k && labels[j] == entry
    ensures forall m :: 0 <= m < j ==> labels[m] != entry
  {
    if labels[0] == entry then 0 else 1 + FirstEqual(labels[1..], entry, k - 1)
  }

  /** The first menu, shown when the first argument selects nothing. A
      chosen pack is the first whose label equals the chosen entry's, so of
      two custom packs with the same name the first is taken. */
  function Menu(env: Env, prompts: Prompts): (r: Got<Selection>)
    requires PromptsFit(env, prompts)
    ensures r.Halt? ==> r.outcome in [NoUpdate(Interrupt), Exit, Restart]
    ensures r.Got? ==> Picked(r.value) || (r.value.SettingSel? && r.value.dasherized in env.overrideProps)
  {
    match prompts.main
    case Interrupted => Halt(NoUpdate(Interrupt))
    case Failed => Halt(Exit)
    case Chose(ChoosePacks) =>
      if env.customPacks.None? then Halt(Exit)
      else (
        match prompts.pack
        case Interrupted => Halt(NoUpdate(Interrupt))
        case Failed => Halt(Exit)
        case Chose(PacksGoBack) => Halt(Restart)
        case Chose(PackAt(i)) =>
          var labels := PackLabels(Offered(env), env.customPacks.value);
          Got(PackSel((Offered(env) + env.customPacks.value)[FirstEqual(labels, labels[i], i)])))
    case Chose(ChooseRole(r)) => Got(RoleSel(r))
    case Chose(ChooseSetting(i)) => Got(SettingSel(env.compact(env.overrideProps[i]), env.overrideProps[i]))
  }

  /** The selection: from the first argument, or else from the menu. */
  function Select(args: seq<string>, env: Env, prompts: Prompts): (r: Got<Selection>)
    requires PromptsFit(env, prompts)
    ensures r.Halt? ==> r.outcome in [NoUpdate(Interrupt), Exit, Restart]
  {
    var sel := if |args| > 0 then ResolveArg(args[0], env) else Unresolved;
    if Picked(sel) then Got(sel) else Menu(env, prompts)
  }

  /** The property named by the second argument, for a role only. */
  function PropertyArg(args: seq<string>, sel: Selection, env: Env): string {
    if |args| > 1 && sel.RoleSel? then Lower(env.compact(args[1])) else ""
  }

  /** The value: the third argument, or the second one when no role is
      selected. */
  function ValueArg(args: seq<string>, sel: Selection): string {
    if |args| > 2 then args[2] else if |args| > 1 && !sel.RoleSel? then args[1] else ""
  }

  /** A value given on the command line, or else asked for. */
  function ReadValue(value: string, answer: Answer<string>): Got<string> {
    if value != "" then Got(value)
    else match answer
      case Interrupted => Halt(NoUpdate(Interrupt))
      case Failed => Halt(Exit)
      case Chose(v) => Got(v)
  }

  /** An integer override: an empty value clears it, an integer sets it,
      anything else is rejected. */
  function IntOverride(v: string, atoi: string -> Option<int>): Got<Option<int>> {
    if v == "" then Got(None)
    else match atoi(v)
      case None => Halt(NoUpdate(InvalidValue))
      case Some(n) => Got(Some(n))
  }

  /** The override settings path: only max-convo-tokens and max-tokens are
      acted on. */
  function SetOverride(o: ModelOverrides, setting: string, v: string, atoi: string -> Option<int>): Got<ModelOverrides> {
    if setting == "maxconvotokens" then
      match IntOverride(v, atoi)
      case Halt(out) => Halt(out)
      case Got(n) => Got(o.(maxConvoTokens := n))
    else if setting == "maxtokens" then
      match IntOverride(v, atoi)
      case Halt(out) => Halt(out)
      case Got(n) => Got(o.(maxTokens := n))
    else Got(o)
  }

  function SettingSpec(original: PlanSettings, env: Env, prompts: Prompts, setting: string, value: string): Got<PlanSettings> {
    match ReadValue(value, prompts.settingValue)
    case Halt(out) => Halt(out)
    case Got(v) =>
      match SetOverride(original.overrides, setting, v, env.atoi)
      case Halt(out) => Halt(out)
      case Got(o) => Got(original.(overrides := o))
  }

  /** The first compatible model id whose "<role>/<compacted id>" is the
      property argument, or "" when there is none. */
  function SearchModelId(ids: seq<string>, r: Role, pc: string, compact: string -> string): (id: string)
    ensures id != "" ==> id in ids && pc == RoleName(r) + "/" + compact(id)
    ensures (forall k :: 0 <= k < |ids| ==> pc != RoleName(r) + "/" + compact(ids[k])) ==> id == ""
  {
    match First(ids, (id: string) => pc == RoleName(r) + "/" + compact(id))
    case Some(id) => id
    case None => ""
  }

  /** What the property menu of a role picks. */
  datatype Pick = ModelPicked(id: string) | PropertyPicked(property: string) | Abort(outcome: Outcome)

  /** The property menu, shown again while the model picker returns no
      model. */
  function PropertyMenu(answers: seq<Answer<PropertyChoice>>): (pick: Pick)
    requires PropertiesEnd(answers)
    ensures pick.ModelPicked? ==> pick.id != "" && Chose(SelectModel(Some(pick.id))) in answers
    ensures pick.PropertyPicked? ==> pick.property in ["temperature", "topp", "reservedoutputtokens"]
    ensures pick.Abort? ==> pick.outcome in [NoUpdate(Interrupt), Exit, Restart]
    decreases |answers|
  {
    match answers[0]
    case Interrupted => Abort(NoUpdate(Interrupt))
    case Failed => Abort(Exit)
    case Chose(PropertiesGoBack) => Abort(Restart)
    case Chose(SelectModel(None)) => Abort(Exit)
    case Chose(SelectModel(Some(id))) =>
      if id != "" then ModelPicked(id)
      else (
        var i :| 0 <= i < |answers| && Leaves(answers[i]);
        assert answers[1..][i - 1] == answers[i];
        PropertyMenu(answers[1..]))
    case Chose(SetTemperature) => PropertyPicked("temperature")
    case Chose(SetTopP) => PropertyPicked("topp")
    case Chose(SetReserved) => PropertyPicked("reservedoutputtokens")
  }

  /** The values a role edit may set, before the priority is applied. */
  datatype Params = Params(selected: string, temperature: Option<real>, topP: Option<real>, overrides: ModelOverrides)

  /** A property value: temperature within [-2, 2], top-p within [0, 1],
      reserved output tokens as an integer override; an unknown property
      changes nothing. */
  function ParseProperty(property: string, v: string, env: Env, o: ModelOverrides): Got<Params> {
    if property == "temperature" then
      match env.parseFloat(v)
      case None => Halt(NoUpdate(InvalidValue))
      case Some(f) => if f < -2.0 || f > 2.0 then Halt(NoUpdate(InvalidValue)) else Got(Params("", Some(f), None, o))
    else if property == "topp" then
      match env.parseFloat(v)
      case None => Halt(NoUpdate(InvalidValue))
      case Some(f) => if f < 0.0 || f > 1.0 then Halt(NoUpdate(InvalidValue)) else Got(Params("", None, Some(f), o))
    else if property == "reservedoutputtokens" then
      match env.atoi(v)
      case None => Halt(NoUpdate(InvalidValue))
      case Some(n) => Got(Params("", None, None, o.(reservedOutputTokens := Some(n))))
    else Got(Params("", None, None, o))
  }

  /** The priority of a role edit: model id, then temperature, then top-p. */
  function Priority(selected: string, temperature: Option<real>, topP: Option<real>): (e: Edit)
    ensures selected != "" ==> e == NewModel(selected)
    ensures selected == "" && temperature.Some? ==> e == NewTemperature(temperature.value)
    ensures selected == "" && temperature.None? && topP.Some? ==> e == NewTopP(topP.value)
    ensures e == NoEdit <==> selected == "" && temperature.None? && topP.None?
  {
    if selected != "" then NewModel(selected)
    else if temperature.Some? then NewTemperature(temperature.value)
    else if topP.Some? then NewTopP(topP.value)
    else NoEdit
  }

  /** The root configuration a role edit writes to; the three optional
      roles may be unset. */
  function Slot(p: ModelPack, r: Role): Option<RoleConfig> {
    match r
    case Planner => Some(p.planner)
    case Architect => p.architect
    case Coder => p.coder
    case PlanSummary => Some(p.planSummary)
    case Builder => Some(p.builder)
    case WholeFileBuilder => p.wholeFileBuilder
    case Namer => Some(p.namer)
    case CommitMsg => Some(p.commitMsg)
    case ExecStatus => Some(p.execStatus)
  }

  function EditRoot(c: RoleConfig, e: Edit): RoleConfig {
    match e
    case NewModel(id) => c.(modelId := id)
    case NewTemperature(t) => c.(temperature := t)
    case NewTopP(t) => c.(topP := t)
    case NoEdit => c
  }

  /** The role edit on a pack whose addressed slot is set. */
  function ApplyEdit(p: ModelPack, r: Role, e: Edit): ModelPack
    requires e == NoEdit || Slot(p, r).Some?
  {
    if e == NoEdit then p
    else match r
      case Planner => p.(planner := EditRoot(p.planner, e))
      case Architect => p.(architect := Some(EditRoot(p.architect.value, e)))
      case Coder => p.(coder := Some(EditRoot(p.coder.value, e)))
      case PlanSummary => p.(planSummary := EditRoot(p.planSummary, e))
      case Builder => p.(builder := EditRoot(p.builder, e))
      case WholeFileBuilder => p.(wholeFileBuilder := Some(EditRoot(p.wholeFileBuilder.value, e)))
      case Namer => p.(namer := EditRoot(p.namer, e))
      case CommitMsg => p.(commitMsg := EditRoot(p.commitMsg, e))
      case ExecStatus => p.(execStatus := EditRoot(p.execStatus, e))
  }

  /** The pack a role edit starts from: the plan's, or the default pack
      when the plan has none. */
  function Base(original: PlanSettings, env: Env): ModelPack {
    if original.modelPack.Some? then original.modelPack.value else env.defaultPack
  }

  /** The end of a role edit: an unset pack is first replaced by the
      default pack, then the edit is written (a nil optional role crashes). */
  function EditSpec(original: PlanSettings, env: Env, r: Role, params: Params): Got<PlanSettings> {
    var base := Base(original, env);
    var e := Priority(params.selected, params.temperature, params.topP);
    if e != NoEdit && Slot(base, r).None? then Halt(Crash)
    else Got(PlanSettings(Some(ApplyEdit(base, r, e)), params.overrides))
  }

  /** What the role path acts on: the model search (skipped for
      temperature and top-p) and, when it finds nothing and no property was
      named, the property menu. */
  function RolePick(env: Env, prompts: Prompts, r: Role, pc: string): Pick
    requires PropertiesEnd(prompts.properties)
  {
    var search := !(pc == "temperature" || pc == "topp");
    if search && !env.modelsFetched then Abort(Exit)
    else
      var found := if search then SearchModelId(env.builtInCompatible(r) + env.customCompatible(r), r, pc, env.compact) else "";
      if found != "" then ModelPicked(found)
      else if pc == "" then PropertyMenu(prompts.properties)
      else PropertyPicked(pc)
  }

  /** The role path: what is picked, the value, and the edit. */
  function RoleSpec(original: PlanSettings, env: Env, prompts: Prompts, r: Role, pc: string, value: string): Got<PlanSettings>
    requires PropertiesEnd(prompts.properties)
  {
    match RolePick(env, prompts, r, pc)
    case Abort(out) => Halt(out)
    case ModelPicked(id) => EditSpec(original, env, r, Params(id, None, None, original.overrides))
    case PropertyPicked(property) =>
      match PropertyParams(original.overrides, env, prompts, property, value)
      case Halt(out) => Halt(out)
      case Got(params) => EditSpec(original, env, r, params)
  }

  /** A named property's value, asked for when none was given, parsed. */
  function PropertyParams(o: ModelOverrides, env: Env, prompts: Prompts, property: string, value: string): Got<Params> {
    match ReadValue(value, prompts.propertyValue)
    case Halt(out) => Halt(out)
    case Got(v) => ParseProperty(property, v, env, o)
  }

  /** Everything after the selection. */
  function Apply(args: seq<string>, original: PlanSettings, env: Env, prompts: Prompts, sel: Selection): (r: Got<PlanSettings>)
    requires PropertiesEnd(prompts.properties)
    ensures r.Halt? ==> r.outcome in [NoUpdate(Interrupt), NoUpdate(InvalidValue), Exit, Restart, Crash]
  {
    match sel
    case PackSel(p) => Got(original.(modelPack := Some(p)))
    case SettingSel(setting, _) =>
      if setting == "" then Got(original) else SettingSpec(original, env, prompts, setting, ValueArg(args, sel))
    case RoleSel(r) => RoleSpec(original, env, prompts, r, PropertyArg(args, sel, env), ValueArg(args, sel))
    case Unresolved => Got(original)
  }

  /** The nil result when nothing changed, the new settings otherwise. */
  function Finish(original: PlanSettings, settings: PlanSettings): Outcome {
    if settings == original then NoUpdate(NoChange) else Updated(settings)
  }

  /** updateModelSettings, as a function of its inputs. */
  function UpdateSpec(args: seq<string>, original: PlanSettings, env: Env, prompts: Prompts): Outcome
    requires PromptsFit(env, prompts)
  {
    match Select(args, env, prompts)
    case Halt(out) => out
    case Got(sel) =>
      match Apply(args, original, env, prompts, sel)
      case Halt(out) => out
      case Got(settings) => Finish(original, settings)
  }

  // ----- updateModelSettings -----

  /** The cloud exclusion loop over the built-in packs. */
  method OfferedPacks(env: Env) returns (packs: seq<ModelPack>)
    ensures packs == Offered(env)
  {
    packs := env.builtInPacks;
    if env.isCloud {
      var all := env.builtInPacks;
      var filtered := [];
      for i := 0 to |all|
        invariant filtered == Filter(all[..i], Hosted)
      {
        if Hosted(all[i]) {
          filtered := filtered + [all[i]];
        }
        FilterAppend(all[..i], [all[i]], Hosted);
        assert all[..i + 1] == all[..i] + [all[i]];
      }
      assert all[..|all|] == all;
      packs := filtered;
    }
  }

  /** The first pack whose name equals `compare` up to case. */
  method FindPack(packs: seq<ModelPack>, compare: string) returns (found: Option<ModelPack>)
    ensures found == First(packs, PackNamed(compare))
  {
    found := None;
    var i := 0;
    while i < |packs|
      invariant 0 <= i <= |packs|
      invariant forall j :: 0 <= j < i ==> !EqualFold(packs[j].name, compare)
    {
      if EqualFold(packs[i].name, compare) {
        found := Some(packs[i]);
        break;
      }
      i := i + 1;
    }
    FirstFrom(packs, PackNamed(compare), i);
  }

  /** The first role whose name equals `arg` up to case. */
  method FindRole(arg: string) returns (found: Option<Role>)
    ensures found == First(AllRoles, RoleNamed(arg))
  {
    found := None;
    var i := 0;
    while i < |AllRoles|
      invariant 0 <= i <= |AllRoles|
      invariant forall j :: 0 <= j < i ==> !EqualFold(RoleName(AllRoles[j]), arg)
    {
      if EqualFold(RoleName(AllRoles[i]), arg) {
        found := Some(AllRoles[i]);
        break;
      }
      i := i + 1;
    }
    FirstFrom(AllRoles, RoleNamed(arg), i);
  }

  /** The first override setting whose compacted name equals the compacted
      `arg` up to case. */
  method FindSetting(props: seq<string>, compact: string -> string, arg: string) returns (found: Option<string>)
    ensures found == First(props, SettingNamed(compact, arg))
  {
    found := None;
    var i := 0;
    while i < |props|
      invariant 0 <= i <= |props|
      invariant forall j :: 0 <= j < i ==> !EqualFold(compact(props[j]), compact(arg))
    {
      if EqualFold(compact(props[i]), compact(arg)) {
        found := Some(props[i]);
        break;
      }
      i := i + 1;
    }
    FirstFrom(props, SettingNamed(compact, arg), i);
  }

  /** The resolution of the first argument (the pack, role and setting
      searches, each only when the previous one found nothing). */
  method ResolveArgument(arg: string, builtInModelPacks: seq<ModelPack>, env: Env) returns (sel: Selection)
    requires builtInModelPacks == Offered(env)
    ensures sel == ResolveArg(arg, env)
  {
    var modelPack := FindPack(builtInModelPacks, Alias(arg));
    if modelPack.Some? {
      return PackSel(modelPack.value);
    }
    var role := FindRole(arg);
    if role.Some? {
      return RoleSel(role.value);
    }
    var setting := FindSetting(env.overrideProps, env.compact, arg);
    if setting.Some? {
      return SettingSel(env.compact(setting.value), setting.value);
    }
    return Unresolved;
  }

  /** The two loops that label the pack menu's entries. */
  method MenuLabels(builtInModelPacks: seq<ModelPack>, customModelPacks: seq<ModelPack>) returns (opts: seq<string>)
    ensures opts == PackLabels(builtInModelPacks, customModelPacks)
  {
    opts := [];
    for i := 0 to |builtInModelPacks|
      invariant opts == PackLabels(builtInModelPacks[..i], [])
    {
      opts := opts + ["Built-in | " + builtInModelPacks[i].name];
    }
    assert builtInModelPacks[..|builtInModelPacks|] == builtInModelPacks;
    for i := 0 to |customModelPacks|
      invariant opts == PackLabels(builtInModelPacks, customModelPacks[..i])
    {
      opts := opts + ["Custom | " + customModelPacks[i].name];
    }
    assert customModelPacks[..|customModelPacks|] == customModelPacks;
  }

  /** The pack behind the chosen entry of the pack menu: the first entry
      with the same label, then built-in or custom by position. */
  method ChosenPack(builtInModelPacks: seq<ModelPack>, customModelPacks: seq<ModelPack>, chosen: nat)
    returns (modelPack: ModelPack)
    requires chosen < |builtInModelPacks| + |customModelPacks|
    ensures var labels := PackLabels(builtInModelPacks, customModelPacks);
      modelPack == (builtInModelPacks + customModelPacks)[FirstEqual(labels, labels[chosen], chosen)]
  {
    var opts := MenuLabels(builtInModelPacks, customModelPacks);
    var selection := opts[chosen];
    var idx := 0;
    while opts[idx] != selection
      invariant idx <= chosen
      invariant forall m :: 0 <= m < idx ==> opts[m] != selection
      decreases chosen - idx
    {
      idx := idx + 1;
    }
    assert idx == FirstEqual(opts, selection, chosen);
    if idx < |builtInModelPacks| {
      modelPack := builtInModelPacks[idx];
    } else {
      modelPack := customModelPacks[idx - |builtInModelPacks|];
    }
  }

  /** The first menu and, for "model pack", the pack menu (which first
      lists the account's custom packs). */
  method ShowMenu(builtInModelPacks: seq<ModelPack>, env: Env, prompts: Prompts) returns (r: Got<Selection>)
    requires builtInModelPacks == Offered(env)
    requires PromptsFit(env, prompts)
    ensures r == Menu(env, prompts)
  {
    match prompts.main {
      case Interrupted => return Halt(NoUpdate(Interrupt));
      case Failed => return Halt(Exit);
      case Chose(ChooseRole(role)) => return Got(RoleSel(role));
      case Chose(ChooseSetting(i)) =>
        var dasherized := env.overrideProps[i];
        return Got(SettingSel(env.compact(dasherized), dasherized));
      case Chose(ChoosePacks) =>
        if env.customPacks.None? {
          return Halt(Exit);
        }
        var customModelPacks := env.customPacks.value;
        match prompts.pack {
          case Interrupted => return Halt(NoUpdate(Interrupt));
          case Failed => return Halt(Exit);
          case Chose(PacksGoBack) => return Halt(Restart);
          case Chose(PackAt(chosen)) =>
            var modelPack := ChosenPack(builtInModelPacks, customModelPacks, chosen);
            return Got(PackSel(modelPack));
        }
    }
  }

  /** The search of the compatible model ids, built-in then custom, for
      the first whose "<role>/<compacted id>" is the property argument. */
  method FindModelId(ids: seq<string>, role: Role, propertyCompact: string, compact: string -> string)
    returns (selectedModelId: string)
    ensures selectedModelId == SearchModelId(ids, role, propertyCompact, compact)
  {
    selectedModelId := "";
    var i := 0;
    while i < |ids|
      invariant 0 <= i <= |ids|
      invariant forall j :: 0 <= j < i ==> propertyCompact != RoleName(role) + "/" + compact(ids[j])
    {
      if propertyCompact == RoleName(role) + "/" + compact(ids[i]) {
        selectedModelId := ids[i];
        break;
      }
      i := i + 1;
    }
    FirstFrom(ids, (id: string) => propertyCompact == RoleName(role) + "/" + compact(id), i);
  }

  /** The property menu loop: it is left by a property, a picked model,
      "go back", an interrupt or an error. */
  method PropertyMenuLoop(answers: seq<Answer<PropertyChoice>>) returns (pick: Pick)
    requires PropertiesEnd(answers)
    ensures pick == PropertyMenu(answers)
  {
    var k := 0;
    while true
      invariant 0 <= k < |answers|
      invariant PropertiesEnd(answers[k..])
      invariant PropertyMenu(answers) == PropertyMenu(answers[k..])
      decreases |answers| - k
    {
      var rest := answers[k..];
      match answers[k] {
        case Interrupted => return Abort(NoUpdate(Interrupt));
        case Failed => return Abort(Exit);
        case Chose(PropertiesGoBack) => return Abort(Restart);
        case Chose(SetTemperature) => return PropertyPicked("temperature");
        case Chose(SetTopP) => return PropertyPicked("topp");
        case Chose(SetReserved) => return PropertyPicked("reservedoutputtokens");
        case Chose(SelectModel(None)) => return Abort(Exit);
        case Chose(SelectModel(Some(selectedModelId))) =>
          if selectedModelId != "" {
            return ModelPicked(selectedModelId);
          }
      }
      var i :| 0 <= i < |rest| && Leaves(rest[i]);
      assert i > 0;
      assert rest[1..] == answers[k + 1..];
      assert answers[k + 1..][i - 1] == rest[i];
      k := k + 1;
    }
  }

  /** The override settings path: the value is asked for when none was
      given, then max-convo-tokens or max-tokens is cleared or set. */
  method SetOverrideSetting(settings0: PlanSettings, env: Env, prompts: Prompts, settingCompact: string, value0: string)
    returns (r: Got<PlanSettings>)
    ensures r == SettingSpec(settings0, env, prompts, settingCompact, value0)
  {
    var settings, value := settings0, value0;
    if value == "" {
      match prompts.settingValue {
        case Interrupted => return Halt(NoUpdate(Interrupt));
        case Failed => return Halt(Exit);
        case Chose(v) => value := v;
      }
    }
    if settingCompact == "maxconvotokens" {
      if value == "" {
        settings := settings.(overrides := settings.overrides.(maxConvoTokens := None));
      } else {
        var n := env.atoi(value);
        if n.None? {
          return Halt(NoUpdate(InvalidValue));
        }
        settings := settings.(overrides := settings.overrides.(maxConvoTokens := n));
      }
    } else if settingCompact == "maxtokens" {
      if value == "" {
        settings := settings.(overrides := settings.overrides.(maxTokens := None));
      } else {
        var n := env.atoi(value);
        if n.None? {
          return Halt(NoUpdate(InvalidValue));
        }
        settings := settings.(overrides := settings.overrides.(maxTokens := n));
      }
    }
    return Got(settings);
  }

  /** One role's `if selectedModelId != "" {...} else if temperature != nil
      {...} else if topP != nil {...}` chain. */
  method EditConfig(config: RoleConfig, selectedModelId: string, temperature: Option<real>, topP: Option<real>)
    returns (c: RoleConfig)
    ensures c == EditRoot(config, Priority(selectedModelId, temperature, topP))
  {
    c := config;
    if selectedModelId != "" {
      c := c.(modelId := selectedModelId);
    } else if temperature.Some? {
      c := c.(temperature := temperature.value);
    } else if topP.Some? {
      c := c.(topP := topP.value);
    }
  }

  /** The write of a role edit: an unset pack becomes the default pack
      (the Go code assigns the shared default pack by pointer and then
      writes through it, an aliasing a value model does not have), then the
      addressed root is edited; the optional roles are written without a
      nil check. The planner's branch on the local reservedOutputTokens is
      not modelled: that local is never assigned. */
  method WriteEdit(settings0: PlanSettings, env: Env, role: Role,
                   selectedModelId: string, temperature: Option<real>, topP: Option<real>)
    returns (r: Got<PlanSettings>)
    ensures r == EditSpec(settings0, env, role, Params(selectedModelId, temperature, topP, settings0.overrides))
  {
    var settings := settings0;
    if settings.modelPack.None? {
      settings := settings.(modelPack := Some(env.defaultPack));
    }
    var pack := settings.modelPack.value;
    var edits := selectedModelId != "" || temperature.Some? || topP.Some?;
    match role {
      case Planner =>
        var c := EditConfig(pack.planner, selectedModelId, temperature, topP);
        pack := pack.(planner := c);
      case Architect =>
        if edits {
          if pack.architect.None? {
            return Halt(Crash);
          }
          var c := EditConfig(pack.architect.value, selectedModelId, temperature, topP);
          pack := pack.(architect := Some(c));
        }
      case Coder =>
        if edits {
          if pack.coder.None? {
            return Halt(Crash);
          }
          var c := EditConfig(pack.coder.value, selectedModelId, temperature, topP);
          pack := pack.(coder := Some(c));
        }
      case PlanSummary =>
        var c := EditConfig(pack.planSummary, selectedModelId, temperature, topP);
        pack := pack.(planSummary := c);
      case Builder =>
        var c := EditConfig(pack.builder, selectedModelId, temperature, topP);
        pack := pack.(builder := c);
      case WholeFileBuilder =>
        if edits {
          if pack.wholeFileBuilder.None? {
            return Halt(Crash);
          }
          var c := EditConfig(pack.wholeFileBuilder.value, selectedModelId, temperature, topP);
          pack := pack.(wholeFileBuilder := Some(c));
        }
      case Namer =>
        var c := EditConfig(pack.namer, selectedModelId, temperature, topP);
        pack := pack.(namer := c);
      case CommitMsg =>
        var c := EditConfig(pack.commitMsg, selectedModelId, temperature, topP);
        pack := pack.(commitMsg := c);
      case ExecStatus =>
        var c := EditConfig(pack.execStatus, selectedModelId, temperature, topP);
        pack := pack.(execStatus := c);
    }
    settings := settings.(modelPack := Some(pack));
    return Got(settings);
  }

  /** The value of a named property: asked for when none was given, then
      parsed and range-checked; reserved output tokens go to the overrides. */
  method ReadProperty(overrides: ModelOverrides, env: Env, prompts: Prompts, propertyCompact: string, value0: string)
    returns (r: Got<Params>)
    ensures r == PropertyParams(overrides, env, prompts, propertyCompact, value0)
  {
    var value := value0;
    var temperature: Option<real> := None;
    var topP: Option<real> := None;
    var o := overrides;
    if value == "" {
      match prompts.propertyValue {
        case Interrupted => return Halt(NoUpdate(Interrupt));
        case Failed => return Halt(Exit);
        case Chose(v) => value := v;
      }
    }
    if propertyCompact == "temperature" {
      var f := env.parseFloat(value);
      if f.None? || f.value < -2.0 || f.value > 2.0 {
        return Halt(NoUpdate(InvalidValue));
      }
      temperature := f;
    } else if propertyCompact == "topp" {
      var f := env.parseFloat(value);
      if f.None? || f.value < 0.0 || f.value > 1.0 {
        return Halt(NoUpdate(InvalidValue));
      }
      topP := f;
    } else if propertyCompact == "reservedoutputtokens" {
      var n := env.atoi(value);
      if n.None? {
        return Halt(NoUpdate(InvalidValue));
      }
      o := o.(reservedOutputTokens := n);
    }
    return Got(Params("", temperature, topP, o));
  }

  /** The model search over the role's compatible ids and, when it finds
      nothing and no property was named, the property menu. */
  method PickRoleProperty(env: Env, prompts: Prompts, role: Role, propertyCompact: string) returns (pick: Pick)
    requires PropertiesEnd(prompts.properties)
    ensures pick == RolePick(env, prompts, role, propertyCompact)
  {
    var selectedModelId := "";
    if !(propertyCompact == "temperature" || propertyCompact == "topp") {
      if !env.modelsFetched {
        return Abort(Exit);
      }
      var modelIds := env.builtInCompatible(role) + env.customCompatible(role);
      selectedModelId := FindModelId(modelIds, role, propertyCompact, env.compact);
    }
    if selectedModelId != "" {
      return ModelPicked(selectedModelId);
    }
    if propertyCompact == "" {
      pick := PropertyMenuLoop(prompts.properties);
    } else {
      pick := PropertyPicked(propertyCompact);
    }
  }

  /** The role path: the pick, then (for a property) its value, then the
      write. */
  method EditRole(settings0: PlanSettings, env: Env, prompts: Prompts, role: Role, propertyCompact: string, value: string)
    returns (r: Got<PlanSettings>)
    requires PropertiesEnd(prompts.properties)
    ensures r == RoleSpec(settings0, env, prompts, role, propertyCompact, value)
  {
    var pick := PickRoleProperty(env, prompts, role, propertyCompact);
    match pick {
      case Abort(out) =>
        return Halt(out);
      case ModelPicked(selectedModelId) =>
        r := WriteEdit(settings0, env, role, selectedModelId, None, None);
      case PropertyPicked(property) =>
        var params := ReadProperty(settings0.overrides, env, prompts, property, value);
        if params.Halt? {
          return Halt(params.outcome);
        }
        var settings := settings0.(overrides := params.value.overrides);
        r := WriteEdit(settings, env, role, "", params.value.temperature, params.value.topP);
        EditSpecReadsPack(settings, settings0, env, role, params.value);
    }
  }

  /** The edit reads only the pack of the settings it is given. */
  lemma EditSpecReadsPack(a: PlanSettings, b: PlanSettings, env: Env, r: Role, params: Params)
    requires a.modelPack == b.modelPack
    ensures EditSpec(a, env, r, params) == EditSpec(b, env, r, params)
  {
    assert Base(a, env) == Base(b, env);
  }

  /** updateModelSettings: resolution, then the pack, setting or role path,
      then the comparison with the original settings. */
  method UpdateModelSettings(args: seq<string>, originalSettings: PlanSettings, env: Env, prompts: Prompts)
    returns (outcome: Outcome)
    requires PromptsFit(env, prompts)
    ensures outcome == UpdateSpec(args, originalSettings, env, prompts)
  {
    var settings := originalSettings;
    var builtInModelPacks := OfferedPacks(env);
    var sel := Unresolved;
    if |args| > 0 {
      sel := ResolveArgument(args[0], builtInModelPacks, env);
    }
    if !Picked(sel) {
      var chosen := ShowMenu(builtInModelPacks, env, prompts);
      if chosen.Halt? {
        return chosen.outcome;
      }
      sel := chosen.value;
    }
    if sel.PackSel? {
      settings := settings.(modelPack := Some(sel.pack));
    } else {
      var propertyCompact, value := "", "";
      if |args| > 1 {
        if sel.RoleSel? {
          propertyCompact := Lower(env.compact(args[1]));
        } else {
          value := args[1];
        }
      }
      if |args| > 2 {
        value := args[2];
      }
      if sel.SettingSel? && sel.setting != "" {
        var r := SetOverrideSetting(settings, env, prompts, sel.setting, value);
        if r.Halt? {
          return r.outcome;
        }
        settings := r.value;
      }
      if sel.RoleSel? {
        var r := EditRole(settings, env, prompts, sel.role, propertyCompact, value);
        if r.Halt? {
          return r.outcome;
        }
        settings := r.value;
      }
    }
    if settings == originalSettings {
      outcome := NoUpdate(NoChange);
    } else {
      outcome := Updated(settings);
    }
  }

  // ----- Properties -----

  /** A built-in pack comes first: the first argument selects an offered
      pack exactly when one is named by it, up to case, after the aliases. */
  lemma PackFirst(arg: string, env: Env)
    ensures ResolveArg(arg, env).PackSel? <==>
      exists i :: 0 <= i < |Offered(env)| && EqualFold(Offered(env)[i].name, Alias(arg))
    ensures ResolveArg(arg, env).PackSel? ==>
      ResolveArg(arg, env).pack in Offered(env) && EqualFold(ResolveArg(arg, env).pack.name, Alias(arg))
  {
  }

  /** A role comes second: it is selected exactly when no offered pack is
      named and the argument is a role's name up to case. */
  lemma RoleSecond(arg: string, env: Env)
    ensures ResolveArg(arg, env).RoleSel? <==>
      (forall i :: 0 <= i < |Offered(env)| ==> !EqualFold(Offered(env)[i].name, Alias(arg)))
      && exists r :: EqualFold(RoleName(r), arg)
    ensures ResolveArg(arg, env).RoleSel? ==> EqualFold(RoleName(ResolveArg(arg, env).role), arg)
  {
    NoRoleNamed(arg);
    var role := RoleSearched(arg, env);
    if role.Some? {
      assert RoleNamed(arg)(role.value);
    }
  }

  /** The role branch of the resolution, in terms of the first two searches. */
  lemma RoleSearched(arg: string, env: Env) returns (role: Option<Role>)
    ensures role == First(AllRoles, RoleNamed(arg))
    ensures ResolveArg(arg, env).RoleSel? <==> First(Offered(env), PackNamed(Alias(arg))).None? && role.Some?
    ensures ResolveArg(arg, env).RoleSel? ==> ResolveArg(arg, env) == RoleSel(role.value)
  {
    role := First(AllRoles, RoleNamed(arg));
    var pack := First(Offered(env), PackNamed(Alias(arg)));
    if pack.None? && role.None? {
      var setting := First(env.overrideProps, SettingNamed(env.compact, arg));
      assert ResolveArg(arg, env) == if setting.Some? then SettingSel(env.compact(setting.value), setting.value) else Unresolved;
    }
  }

  /** An override setting comes last: it is selected exactly when neither
      a pack nor a role is named and some setting's compacted name equals
      the compacted argument up to case; the first such setting wins. */
  lemma SettingLast(arg: string, env: Env)
    ensures ResolveArg(arg, env).SettingSel? <==>
      (forall i :: 0 <= i < |Offered(env)| ==> !EqualFold(Offered(env)[i].name, Alias(arg)))
      && (forall r :: !EqualFold(RoleName(r), arg))
      && exists i :: 0 <= i < |env.overrideProps| && EqualFold(env.compact(env.overrideProps[i]), env.compact(arg))
    ensures ResolveArg(arg, env).SettingSel? ==>
      EqualFold(ResolveArg(arg, env).setting, env.compact(arg))
      && ResolveArg(arg, env).dasherized in env.overrideProps
      && ResolveArg(arg, env).setting == env.compact(ResolveArg(arg, env).dasherized)
  {
    NoRoleNamed(arg);
    var setting := SettingSearched(arg, env);
    if setting.Some? {
      assert SettingNamed(env.compact, arg)(setting.value);
    }
  }

  /** The setting branch of the resolution, in terms of the three searches. */
  lemma SettingSearched(arg: string, env: Env) returns (setting: Option<string>)
    ensures setting == First(env.overrideProps, SettingNamed(env.compact, arg))
    ensures ResolveArg(arg, env).SettingSel? <==>
      First(Offered(env), PackNamed(Alias(arg))).None? && First(AllRoles, RoleNamed(arg)).None? && setting.Some?
    ensures ResolveArg(arg, env).SettingSel? ==> ResolveArg(arg, env) == SettingSel(env.compact(setting.value), setting.value)
  {
    setting := First(env.overrideProps, SettingNamed(env.compact, arg));
  }

  /** No role is named by `arg` exactly when the role search finds none. */
  lemma NoRoleNamed(arg: string)
    ensures First(AllRoles, RoleNamed(arg)).None? <==> forall r :: !EqualFold(RoleName(r), arg)
  {
    if First(AllRoles, RoleNamed(arg)).None? {
      forall r: Role
        ensures !EqualFold(RoleName(r), arg)
      {
        var i := RoleListed(r);
        assert !RoleNamed(arg)(AllRoles[i]);
      }
    }
  }

  /** Every role is in the role list. */
  lemma RoleListed(r: Role) returns (i: nat)
    ensures i < |AllRoles| && AllRoles[i] == r
  {
    match r
    case Planner => i := 0;
    case Architect => i := 1;
    case Coder => i := 2;
    case PlanSummary => i := 3;
    case Builder => i := 4;
    case WholeFileBuilder => i := 5;
    case Namer => i := 6;
    case CommitMsg => i := 7;
    case ExecStatus => i := 8;
  }

  /** On cloud, a pack that needs a local provider is never offered, and
      every other built-in pack is. */
  lemma CloudExcludesLocal(env: Env)
    requires env.isCloud
    ensures forall i :: 0 <= i < |Offered(env)| ==> Offered(env)[i].localProvider == ""
    ensures forall i :: 0 <= i < |env.builtInPacks| && env.builtInPacks[i].localProvider == "" ==>
      env.builtInPacks[i] in Offered(env)
  {
  }

  /** Selecting a pack replaces the plan's pack wholesale and touches
      nothing else. */
  lemma PackReplacesOnlyPack(args: seq<string>, original: PlanSettings, env: Env, prompts: Prompts, p: ModelPack)
    requires PromptsFit(env, prompts)
    requires Select(args, env, prompts) == Got(PackSel(p))
    ensures UpdateSpec(args, original, env, prompts) == Finish(original, PlanSettings(Some(p), original.overrides))
  {
  }

  /** The settings of an override path: clearing or setting one of the two
      integer overrides, everything else as before. */
  function WithOverride(original: PlanSettings, setting: string, n: Option<int>): PlanSettings
    requires setting in ["maxtokens", "maxconvotokens"]
  {
    if setting == "maxtokens" then original.(overrides := original.overrides.(maxTokens := n))
    else original.(overrides := original.overrides.(maxConvoTokens := n))
  }

  /** max-tokens and max-convo-tokens: an empty value clears the override,
      an integer sets it, anything else is rejected with no update. */
  lemma IntegerOverride(args: seq<string>, original: PlanSettings, env: Env, prompts: Prompts, setting: string, d: string)
    requires PromptsFit(env, prompts)
    requires setting in ["maxtokens", "maxconvotokens"]
    requires Select(args, env, prompts) == Got(SettingSel(setting, d))
    requires ReadValue(ValueArg(args, SettingSel(setting, d)), prompts.settingValue).Got?
    ensures var v := ReadValue(ValueArg(args, SettingSel(setting, d)), prompts.settingValue).value;
      && (v == "" ==> UpdateSpec(args, original, env, prompts) == Finish(original, WithOverride(original, setting, None)))
      && (v != "" && env.atoi(v).Some? ==>
            UpdateSpec(args, original, env, prompts) == Finish(original, WithOverride(original, setting, env.atoi(v))))
      && (v != "" && env.atoi(v).None? ==> UpdateSpec(args, original, env, prompts) == NoUpdate(InvalidValue))
  {
  }

  /** A value that is not given is asked for: an interrupt ends the update
      with no change and a failed prompt exits. */
  lemma MissingSettingValue(args: seq<string>, original: PlanSettings, env: Env, prompts: Prompts, setting: string, d: string)
    requires PromptsFit(env, prompts)
    requires setting != ""
    requires Select(args, env, prompts) == Got(SettingSel(setting, d))
    requires ValueArg(args, SettingSel(setting, d)) == ""
    ensures prompts.settingValue.Interrupted? ==> UpdateSpec(args, original, env, prompts) == NoUpdate(Interrupt)
    ensures prompts.settingValue.Failed? ==> UpdateSpec(args, original, env, prompts) == Exit
  {
  }

  /** At most one of model id, temperature and top-p differs; the
      fallbacks and the reserved output tokens are the same. */
  ghost predicate AtMostOneField(c: RoleConfig, d: RoleConfig) {
    && d.reservedOutputTokens == c.reservedOutputTokens
    && d.largeContext == c.largeContext && d.largeOutput == c.largeOutput
    && d.strong == c.strong && d.errorFallback == c.errorFallback
    && ((d.modelId == c.modelId && d.temperature == c.temperature)
        || (d.modelId == c.modelId && d.topP == c.topP)
        || (d.temperature == c.temperature && d.topP == c.topP))
  }

  /** `q` is `p` except for at most one field of role `r`'s root. */
  ghost predicate OnlyRoot(p: ModelPack, q: ModelPack, r: Role) {
    && q.name == p.name && q.description == p.description && q.localProvider == p.localProvider
    && (forall o: Role :: o != r ==> Slot(q, o) == Slot(p, o))
    && Slot(q, r).Some? == Slot(p, r).Some?
    && (Slot(p, r).Some? ==> AtMostOneField(Slot(p, r).value, Slot(q, r).value))
  }

  lemma PrefixCancelNot(prefix: string, x: string, y: string)
    requires x != y
    ensures prefix + x != prefix + y
  {
    assert x == (prefix + x)[|prefix|..];
    assert y == (prefix + y)[|prefix|..];
  }

  /** The label at position `m` is not the custom label of `name` when it
      belongs to a built-in pack or to a custom pack with another name. */
  lemma LabelNotChosen(builtIn: seq<ModelPack>, custom: seq<ModelPack>, m: nat, name: string)
    requires m < |builtIn| + |custom|
    requires m >= |builtIn| ==> custom[m - |builtIn|].name != name
    ensures PackLabels(builtIn, custom)[m] != "Custom | " + name
  {
    var l := PackLabels(builtIn, custom)[m];
    if m < |builtIn| {
      assert l == "Built-in | " + builtIn[m].name;
      assert l[0] == 'B';
    } else {
      var n := m - |builtIn|;
      assert l == "Custom | " + custom[n].name;
      PrefixCancelNot("Custom | ", custom[n].name, name);
    }
  }

  /** The first equal label is the only equal label with none equal before it. */
  lemma FirstEqualAt(labels: seq<string>, entry: string, k: nat, t: nat)
    requires k < |labels| && labels[k] == entry && t < |labels| && labels[t] == entry
    requires forall m :: 0 <= m < t ==> labels[m] != entry
    ensures FirstEqual(labels, entry, k) == t
  {
  }

  /** The label of the `n`-th custom pack. */
  lemma CustomLabel(builtIn: seq<ModelPack>, custom: seq<ModelPack>, n: nat)
    requires n < |custom|
    ensures PackLabels(builtIn, custom)[|builtIn| + n] == "Custom | " + custom[n].name
  {
  }

  /** No entry before the first custom pack of a name carries its label. */
  lemma NoEarlierLabel(builtIn: seq<ModelPack>, custom: seq<ModelPack>, a: nat)
    requires a < |custom|
    requires forall m :: 0 <= m < a ==> custom[m].name != custom[a].name
    ensures forall m :: 0 <= m < |builtIn| + a ==> PackLabels(builtIn, custom)[m] != "Custom | " + custom[a].name
  {
    forall m | 0 <= m < |builtIn| + a
      ensures PackLabels(builtIn, custom)[m] != "Custom | " + custom[a].name
    {
      LabelNotChosen(builtIn, custom, m, custom[a].name);
    }
  }

  /** Of two custom packs with the same name, the pack menu yields the
      first, whichever of the two entries is chosen. */
  lemma SameNameTakesFirst(env: Env, prompts: Prompts, a: nat, b: nat)
    requires PromptsFit(env, prompts)
    requires prompts.main == Chose(ChoosePacks) && env.customPacks.Some?
    requires a <= b < |env.customPacks.value|
    requires env.customPacks.value[a].name == env.customPacks.value[b].name
    requires forall m :: 0 <= m < a ==> env.customPacks.value[m].name != env.customPacks.value[a].name
    requires prompts.pack == Chose(PackAt(|Offered(env)| + b))
    ensures Menu(env, prompts) == Got(PackSel(env.customPacks.value[a]))
  {
    var builtIn, custom := Offered(env), env.customPacks.value;
    var labels := PackLabels(builtIn, custom);
    CustomLabel(builtIn, custom, a);
    CustomLabel(builtIn, custom, b);
    NoEarlierLabel(builtIn, custom, a);
    FirstEqualAt(labels, labels[|builtIn| + b], |builtIn| + b, |builtIn| + a);
    assert (builtIn + custom)[|builtIn| + a] == custom[a];
  }

  lemma ApplyEditShape(p: ModelPack, r: Role, e: Edit)
    requires e == NoEdit || Slot(p, r).Some?
    ensures OnlyRoot(p, ApplyEdit(p, r, e), r)
    ensures e != NoEdit ==> Slot(ApplyEdit(p, r, e), r) == Some(EditRoot(Slot(p, r).value, e))
  {
  }

  lemma EditSpecShape(original: PlanSettings, env: Env, r: Role, params: Params)
    requires EditSpec(original, env, r, params).Got?
    ensures var s := EditSpec(original, env, r, params).value;
      s.modelPack.Some? && OnlyRoot(Base(original, env), s.modelPack.value, r) && s.overrides == params.overrides
  {
    ApplyEditShape(Base(original, env), r, Priority(params.selected, params.temperature, params.topP));
  }

  /** The role path changes at most one field of the role's root, and
      neither integer override. */
  lemma RoleSpecShape(original: PlanSettings, env: Env, prompts: Prompts, r: Role, pc: string, value: string)
    requires PropertiesEnd(prompts.properties)
    requires RoleSpec(original, env, prompts, r, pc, value).Got?
    ensures var s := RoleSpec(original, env, prompts, r, pc, value).value;
      && s.modelPack.Some? && OnlyRoot(Base(original, env), s.modelPack.value, r)
      && s.overrides.maxTokens == original.overrides.maxTokens
      && s.overrides.maxConvoTokens == original.overrides.maxConvoTokens
  {
    match RolePick(env, prompts, r, pc)
    case Abort(_) =>
    case ModelPicked(id) =>
      EditSpecShape(original, env, r, Params(id, None, None, original.overrides));
    case PropertyPicked(property) =>
      var pp := PropertyParams(original.overrides, env, prompts, property, value);
      if pp.Got? {
        EditSpecShape(original, env, r, pp.value);
      }
  }

  /** A role edit changes at most one of the model id, temperature and
      top-p of that role's root: fallbacks, other roles and the integer
      overrides stay as they were; an unset pack is first replaced by the
      default pack. */
  lemma RoleEditTouchesOneRoot(args: seq<string>, original: PlanSettings, env: Env, prompts: Prompts, r: Role)
    requires PromptsFit(env, prompts)
    requires Select(args, env, prompts) == Got(RoleSel(r))
    requires UpdateSpec(args, original, env, prompts).Updated?
    ensures var s := UpdateSpec(args, original, env, prompts).settings;
      && s.modelPack.Some? && OnlyRoot(Base(original, env), s.modelPack.value, r)
      && s.overrides.maxTokens == original.overrides.maxTokens
      && s.overrides.maxConvoTokens == original.overrides.maxConvoTokens
  {
    var sel := RoleSel(r);
    var pc, value := PropertyArg(args, sel, env), ValueArg(args, sel);
    assert Apply(args, original, env, prompts, sel) == RoleSpec(original, env, prompts, r, pc, value);
    RoleSpecShape(original, env, prompts, r, pc, value);
  }

  /** Reserved output tokens never reach a role configuration: after a
      role edit every root keeps its reserved output tokens. */
  lemma ReservedNeverReachesRoles(args: seq<string>, original: PlanSettings, env: Env, prompts: Prompts, r: Role, q: Role)
    requires PromptsFit(env, prompts)
    requires Select(args, env, prompts) == Got(RoleSel(r))
    requires UpdateSpec(args, original, env, prompts).Updated?
    requires Slot(Base(original, env), q).Some?
    ensures var s := UpdateSpec(args, original, env, prompts).settings;
      s.modelPack.Some? && Slot(s.modelPack.value, q).Some?
      && Slot(s.modelPack.value, q).value.reservedOutputTokens == Slot(Base(original, env), q).value.reservedOutputTokens
  {
    RoleEditTouchesOneRoot(args, original, env, prompts, r);
  }

  /** How the role path picks: a named temperature or top-p skips the
      model search; with no property named the search cannot match, so
      the property menu runs (once the models were listed). */
  lemma PickPaths(env: Env, prompts: Prompts, r: Role)
    requires PropertiesEnd(prompts.properties)
    ensures RolePick(env, prompts, r, "temperature") == PropertyPicked("temperature")
    ensures RolePick(env, prompts, r, "topp") == PropertyPicked("topp")
    ensures !env.modelsFetched ==> RolePick(env, prompts, r, "") == Abort(Exit)
    ensures env.modelsFetched ==> RolePick(env, prompts, r, "") == PropertyMenu(prompts.properties)
  {
    var ids := env.builtInCompatible(r) + env.customCompatible(r);
    assert forall k :: 0 <= k < |ids| ==> |RoleName(r) + "/" + env.compact(ids[k])| > 0;
  }

  /** With no property named, the property menu's own listing decides
      once the search's listing has succeeded: a failed listing exits, and a
      picked model is the role's new model. */
  lemma MenuListing(env: Env, prompts: Prompts, r: Role, id: string)
    requires PropertiesEnd(prompts.properties) && env.modelsFetched
    ensures prompts.properties[0] == Chose(SelectModel(None)) ==> RolePick(env, prompts, r, "") == Abort(Exit)
    ensures prompts.properties[0] == Chose(SelectModel(Some(id))) && id != "" ==> RolePick(env, prompts, r, "") == ModelPicked(id)
  {
    PickPaths(env, prompts, r);
  }

  /** A parsed property value: no model id, temperature within [-2, 2],
      top-p within [0, 1], and only the reserved output tokens among the
      overrides may change. */
  lemma ParseRange(property: string, v: string, env: Env, o: ModelOverrides)
    requires ParseProperty(property, v, env, o).Got?
    ensures var p := ParseProperty(property, v, env, o).value;
      && p.selected == ""
      && (p.temperature.Some? ==> -2.0 <= p.temperature.value <= 2.0)
      && (p.topP.Some? ==> 0.0 <= p.topP.value <= 1.0)
      && p.overrides.maxTokens == o.maxTokens && p.overrides.maxConvoTokens == o.maxConvoTokens
  {
  }

  /** Whatever is picked, by argument or from the property menu, a role
      edit that goes through leaves the root's temperature as it was or
      within [-2, 2], and its top-p as it was or within [0, 1]. */
  lemma RoleSpecRanges(original: PlanSettings, env: Env, prompts: Prompts, r: Role, pc: string, value: string)
    requires PropertiesEnd(prompts.properties)
    requires RoleSpec(original, env, prompts, r, pc, value).Got?
    requires Slot(Base(original, env), r).Some?
    ensures var s := RoleSpec(original, env, prompts, r, pc, value).value;
      && s.modelPack.Some? && Slot(s.modelPack.value, r).Some?
      && var c, d := Slot(Base(original, env), r).value, Slot(s.modelPack.value, r).value;
      && (d.temperature == c.temperature || -2.0 <= d.temperature <= 2.0)
      && (d.topP == c.topP || 0.0 <= d.topP <= 1.0)
  {
    var base := Base(original, env);
    var params: Params;
    match RolePick(env, prompts, r, pc)
    case Abort(_) =>
      assert false;
    case ModelPicked(id) =>
      params := Params(id, None, None, original.overrides);
    case PropertyPicked(property) =>
      var pp := PropertyParams(original.overrides, env, prompts, property, value);
      params := pp.value;
      ParseRange(property, ReadValue(value, prompts.propertyValue).value, env, original.overrides);
    assert RoleSpec(original, env, prompts, r, pc, value) == EditSpec(original, env, r, params);
    ApplyEditShape(base, r, Priority(params.selected, params.temperature, params.topP));
  }

  /** The range rule for the whole command: when a role's update goes
      through, its root's temperature and top-p are unchanged or in range. */
  lemma UpdateRanges(args: seq<string>, original: PlanSettings, env: Env, prompts: Prompts, r: Role)
    requires PromptsFit(env, prompts)
    requires Select(args, env, prompts) == Got(RoleSel(r))
    requires UpdateSpec(args, original, env, prompts).Updated?
    requires Slot(Base(original, env), r).Some?
    ensures var s := UpdateSpec(args, original, env, prompts).settings;
      && s.modelPack.Some? && Slot(s.modelPack.value, r).Some?
      && var c, d := Slot(Base(original, env), r).value, Slot(s.modelPack.value, r).value;
      && (d.temperature == c.temperature || -2.0 <= d.temperature <= 2.0)
      && (d.topP == c.topP || 0.0 <= d.topP <= 1.0)
  {
    var sel := RoleSel(r);
    var pc, value := PropertyArg(args, sel, env), ValueArg(args, sel);
    assert Apply(args, original, env, prompts, sel) == RoleSpec(original, env, prompts, r, pc, value);
    RoleSpecRanges(original, env, prompts, r, pc, value);
  }

  /** "reserved-output-tokens", named or chosen from the property menu,
      sets the override and never the role: an integer yields the base
      pack unchanged and the new override, anything else gives nil. */
  lemma ReservedGoesToOverrides(args: seq<string>, original: PlanSettings, env: Env, prompts: Prompts, r: Role)
    requires PromptsFit(env, prompts)
    requires Select(args, env, prompts) == Got(RoleSel(r))
    requires RolePick(env, prompts, r, PropertyArg(args, RoleSel(r), env)) == PropertyPicked("reservedoutputtokens")
    requires ReadValue(ValueArg(args, RoleSel(r)), prompts.propertyValue).Got?
    ensures var n := env.atoi(ReadValue(ValueArg(args, RoleSel(r)), prompts.propertyValue).value);
      var out := UpdateSpec(args, original, env, prompts);
      && (n.None? ==> out == NoUpdate(InvalidValue))
      && (n.Some? ==> out == Finish(original, PlanSettings(Some(Base(original, env)),
                                    original.overrides.(reservedOutputTokens := n))))
  {
    var sel := RoleSel(r);
    var pc, value := PropertyArg(args, sel, env), ValueArg(args, sel);
    assert Apply(args, original, env, prompts, sel) == RoleSpec(original, env, prompts, r, pc, value);
    RoleSpecReserved(original, env, prompts, r, pc, value);
  }

  /** The role path once reserved output tokens are picked, by argument or
      from the property menu. */
  lemma RoleSpecReserved(original: PlanSettings, env: Env, prompts: Prompts, r: Role, pc: string, value: string)
    requires PropertiesEnd(prompts.properties)
    requires RolePick(env, prompts, r, pc) == PropertyPicked("reservedoutputtokens")
    requires ReadValue(value, prompts.propertyValue).Got?
    ensures var n := env.atoi(ReadValue(value, prompts.propertyValue).value);
      var out := RoleSpec(original, env, prompts, r, pc, value);
      && (n.None? ==> out == Halt(NoUpdate(InvalidValue)))
      && (n.Some? ==> out == Got(PlanSettings(Some(Base(original, env)), original.overrides.(reservedOutputTokens := n))))
  {
    var v := ReadValue(value, prompts.propertyValue).value;
    var parsed := ParseProperty("reservedoutputtokens", v, env, original.overrides);
    assert PropertyParams(original.overrides, env, prompts, "reservedoutputtokens", value) == parsed;
    if parsed.Got? {
      assert Priority("", None, None) == NoEdit;
      assert ApplyEdit(Base(original, env), r, NoEdit) == Base(original, env);
    }
  }

  /** The role path once temperature is picked, by argument or from the
      property menu. */
  lemma RoleSpecTemperature(original: PlanSettings, env: Env, prompts: Prompts, r: Role, pc: string, value: string)
    requires PropertiesEnd(prompts.properties)
    requires RolePick(env, prompts, r, pc) == PropertyPicked("temperature")
    requires ReadValue(value, prompts.propertyValue).Got?
    ensures var f := env.parseFloat(ReadValue(value, prompts.propertyValue).value);
      var out := RoleSpec(original, env, prompts, r, pc, value);
      && (f.None? || f.value < -2.0 || f.value > 2.0 ==> out == Halt(NoUpdate(InvalidValue)))
      && (f.Some? && -2.0 <= f.value <= 2.0 ==>
            out == EditSpec(original, env, r, Params("", f, None, original.overrides)))
  {
  }

  /** Temperature, named or chosen from the property menu, is accepted
      only within [-2, 2]; an accepted value is written to the role's root
      (a nil optional role crashes). */
  lemma TemperatureRange(args: seq<string>, original: PlanSettings, env: Env, prompts: Prompts, r: Role)
    requires PromptsFit(env, prompts)
    requires Select(args, env, prompts) == Got(RoleSel(r))
    requires RolePick(env, prompts, r, PropertyArg(args, RoleSel(r), env)) == PropertyPicked("temperature")
    requires ReadValue(ValueArg(args, RoleSel(r)), prompts.propertyValue).Got?
    ensures var f := env.parseFloat(ReadValue(ValueArg(args, RoleSel(r)), prompts.propertyValue).value);
      var out := UpdateSpec(args, original, env, prompts);
      && (f.None? || f.value < -2.0 || f.value > 2.0 ==> out == NoUpdate(InvalidValue))
      && (f.Some? && -2.0 <= f.value <= 2.0 && Slot(Base(original, env), r).None? ==> out == Crash)
      && (f.Some? && -2.0 <= f.value <= 2.0 && Slot(Base(original, env), r).Some? ==>
            out == Finish(original, PlanSettings(Some(ApplyEdit(Base(original, env), r, NewTemperature(f.value))), original.overrides)))
  {
    var pc, value := PropertyArg(args, RoleSel(r), env), ValueArg(args, RoleSel(r));
    assert Apply(args, original, env, prompts, RoleSel(r)) == RoleSpec(original, env, prompts, r, pc, value);
    RoleSpecTemperature(original, env, prompts, r, pc, value);
  }

  /** Top-p, named or chosen from the property menu, is accepted only
      within [0, 1]; an accepted value is written to the role's root (a nil
      optional role crashes). */
  lemma TopPRange(args: seq<string>, original: PlanSettings, env: Env, prompts: Prompts, r: Role)
    requires PromptsFit(env, prompts)
    requires Select(args, env, prompts) == Got(RoleSel(r))
    requires RolePick(env, prompts, r, PropertyArg(args, RoleSel(r), env)) == PropertyPicked("topp")
    requires ReadValue(ValueArg(args, RoleSel(r)), prompts.propertyValue).Got?
    ensures var f := env.parseFloat(ReadValue(ValueArg(args, RoleSel(r)), prompts.propertyValue).value);
      var out := UpdateSpec(args, original, env, prompts);
      && (f.None? || f.value < 0.0 || f.value > 1.0 ==> out == NoUpdate(InvalidValue))
      && (f.Some? && 0.0 <= f.value <= 1.0 && Slot(Base(original, env), r).None? ==> out == Crash)
      && (f.Some? && 0.0 <= f.value <= 1.0 && Slot(Base(original, env), r).Some? ==>
            out == Finish(original, PlanSettings(Some(ApplyEdit(Base(original, env), r, NewTopP(f.value))), original.overrides)))
  {
    var pc, value := PropertyArg(args, RoleSel(r), env), ValueArg(args, RoleSel(r));
    assert Apply(args, original, env, prompts, RoleSel(r)) == RoleSpec(original, env, prompts, r, pc, value);
    RoleSpecTopP(original, env, prompts, r, pc, value);
  }

  /** The role path once top-p is picked, by argument or from the
      property menu. */
  lemma RoleSpecTopP(original: PlanSettings, env: Env, prompts: Prompts, r: Role, pc: string, value: string)
    requires PropertiesEnd(prompts.properties)
    requires RolePick(env, prompts, r, pc) == PropertyPicked("topp")
    requires ReadValue(value, prompts.propertyValue).Got?
    ensures var f := env.parseFloat(ReadValue(value, prompts.propertyValue).value);
      var out := RoleSpec(original, env, prompts, r, pc, value);
      && (f.None? || f.value < 0.0 || f.value > 1.0 ==> out == Halt(NoUpdate(InvalidValue)))
      && (f.Some? && 0.0 <= f.value <= 1.0 ==>
            out == EditSpec(original, env, r, Params("", None, f, original.overrides)))
  {
  }

  /** The model search returns the first id, built-in ids before custom
      ones, whose "<role>/<compacted id>" is the property argument. */
  lemma {:induction false} SearchFindsFirst(ids: seq<string>, r: Role, pc: string, compact: string -> string, k: nat)
    requires k < |ids| && pc == RoleName(r) + "/" + compact(ids[k])
    requires forall j :: 0 <= j < k ==> pc != RoleName(r) + "/" + compact(ids[j])
    ensures SearchModelId(ids, r, pc, compact) == ids[k]
  {
    FirstFrom(ids, (id: string) => pc == RoleName(r) + "/" + compact(id), k);
  }

  /** A model named on the command line is written to the role's root,
      and nothing else changes. */
  lemma ModelByArgument(args: seq<string>, original: PlanSettings, env: Env, prompts: Prompts, r: Role)
    requires PromptsFit(env, prompts)
    requires Select(args, env, prompts) == Got(RoleSel(r))
    requires env.modelsFetched
    requires PropertyArg(args, RoleSel(r), env) != "temperature" && PropertyArg(args, RoleSel(r), env) != "topp"
    requires SearchModelId(env.builtInCompatible(r) + env.customCompatible(r), r, PropertyArg(args, RoleSel(r), env), env.compact) != ""
    requires Slot(Base(original, env), r).Some?
    ensures var id := SearchModelId(env.builtInCompatible(r) + env.customCompatible(r), r, PropertyArg(args, RoleSel(r), env), env.compact);
      UpdateSpec(args, original, env, prompts)
      == Finish(original, PlanSettings(Some(ApplyEdit(Base(original, env), r, NewModel(id))), original.overrides))
  {
  }

  /** The result is nil exactly when the edited copy equals the original
      or the update ended early; otherwise it is the edited copy, which
      differs from the original. */
  lemma NilIffUnchanged(args: seq<string>, original: PlanSettings, env: Env, prompts: Prompts)
    requires PromptsFit(env, prompts)
    ensures var out := UpdateSpec(args, original, env, prompts);
      && (out.Updated? ==>
            && out.settings != original
            && Select(args, env, prompts).Got?
            && Apply(args, original, env, prompts, Select(args, env, prompts).value) == Got(out.settings))
      && (out == NoUpdate(NoChange) <==>
            Select(args, env, prompts).Got?
            && Apply(args, original, env, prompts, Select(args, env, prompts).value) == Got(original))
  {
    var out := UpdateSpec(args, original, env, prompts);
    var selected := Select(args, env, prompts);
    if selected.Halt? {
      assert out == selected.outcome;
    } else {
      var applied := Apply(args, original, env, prompts, selected.value);
      if applied.Halt? {
        assert out == applied.outcome;
      } else {
        assert out == Finish(original, applied.value);
      }
    }
  }
}
