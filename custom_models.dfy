/** `plandex models custom`: manageCustomModels in app/cli/cmd/models.go.
    The account's custom providers, models and model packs are fetched from
    the server and written to a local JSON file for editing (after a
    conflict check against the hash recorded beside the file), then the
    edited file is validated, pushed, and the differences are reported.

    The file system, the editor and the server are inputs; the shared
    package's Hash, Equals, PrepareUpdate, FilterUnchanged,
    CheckNoDuplicates, ValidateModelsInputJSON and the JSON encoding are
    function parameters whose internals are not modelled. */
module CustomModels {
  import opened Common

  /** A custom inference provider, keyed by `name`. */
  datatype CustomProvider = CustomProvider(name: string, baseUrl: string, apiKeyEnvVar: string)

  /** The provider kinds a model binding may name. */
  datatype Provider = OpenRouter | CustomKind | OtherProvider(provider: string)

  /** Which provider serves a model, and under which remote name; a
      custom-kind binding names its custom provider. */
  datatype ProviderUse = ProviderUse(provider: Provider, customProvider: Option<string>, modelName: string)

  datatype Compatibility = FullCompatibility | OtherCompatibility(compatibility: string)

  datatype OutputFormat = OutputFormatXml | OtherFormat(format: string)

  /** A custom model, keyed by `modelId`. */
  datatype CustomModel = CustomModel(
    modelId: string,
    publisher: string,
    description: string,
    defaultMaxConvoTokens: int,
    maxTokens: int,
    maxOutputTokens: int,
    reservedOutputTokens: int,
    compatibility: Compatibility,
    outputFormat: OutputFormat,
    providers: seq<ProviderUse>)

  /** A role of a model pack in its input form: the model it uses. */
  datatype RoleSchema = RoleSchema(modelId: string)

  /** A model pack in its input form, keyed by `name`; architect, coder and
      whole-file-builder are optional. */
  datatype PackSchema = PackSchema(
    name: string,
    description: string,
    planner: RoleSchema,
    architect: Option<RoleSchema>,
    coder: Option<RoleSchema>,
    planSummary: RoleSchema,
    builder: RoleSchema,
    wholeFileBuilder: Option<RoleSchema>,
    namer: RoleSchema,
    commitMsg: RoleSchema,
    execStatus: RoleSchema)

  /** The document: a schema tag and the three keyed lists. */
  datatype ModelsInput = ModelsInput(
    schemaUrl: string,
    models: seq<CustomModel>,
    providers: seq<CustomProvider>,
    packs: seq<PackSchema>)

  /** A document with no entity at all. */
  predicate IsEmpty(m: ModelsInput) {
    |m.models| == 0 && |m.providers| == 0 && |m.packs| == 0
  }

  /** The keys of each list, in order. */
  function ProviderNames(ps: seq<CustomProvider>): (keys: seq<string>)
    ensures |keys| == |ps| && forall i :: 0 <= i < |ps| ==> keys[i] == ps[i].name
  {
    seq(|ps|, i requires 0 <= i < |ps| => ps[i].name)
  }

  function ModelIds(ms: seq<CustomModel>): (keys: seq<string>)
    ensures |keys| == |ms| && forall i :: 0 <= i < |ms| ==> keys[i] == ms[i].modelId
  {
    seq(|ms|, i requires 0 <= i < |ms| => ms[i].modelId)
  }

  function PackNames(ps: seq<PackSchema>): (keys: seq<string>)
    ensures |keys| == |ps| && forall i :: 0 <= i < |ps| ==> keys[i] == ps[i].name
  {
    seq(|ps|, i requires 0 <= i < |ps| => ps[i].name)
  }

  // ----- The example document -----

  const ExampleProviderName: string := "togetherai"
  const ExampleModelId: string := "meta-llama/llama-4-maverick"

  /** The example document written when the account has nothing yet. On
      cloud it has no custom provider and the model is served through
      OpenRouter only; otherwise the model is first bound to the example
      custom provider. */
  function ExampleTemplate(isCloud: bool, schemaUrl: string): (m: ModelsInput)
    ensures m.schemaUrl == schemaUrl && |m.models| == 1 && |m.packs| == 1
    ensures isCloud ==> |m.providers| == 0 && |m.models[0].providers| == 1
    ensures !isCloud ==> |m.providers| == 1 && |m.models[0].providers| == 2
    ensures m.models[0].providers[|m.models[0].providers| - 1].provider == OpenRouter
    ensures m.packs[0].planSummary.modelId == m.models[0].modelId
  {
    var customProviders :=
      if isCloud then []
      else [CustomProvider(ExampleProviderName, "https://api.together.xyz/v1", "TOGETHER_API_KEY")];
    var usesProviders :=
      (if isCloud then []
       else [ProviderUse(CustomKind, Some(ExampleProviderName), "meta-llama/Llama-4-Maverick-17B-128E-Instruct-FP8")])
      + [ProviderUse(OpenRouter, None, ExampleModelId)];
    ModelsInput(
      schemaUrl,
      [CustomModel(ExampleModelId, "meta-llama", "Meta Llama 4 Maverick",
                   75000, 1048576, 16000, 16000, FullCompatibility, OutputFormatXml, usesProviders)],
      customProviders,
      [PackSchema(
        "example-model-pack", "Example model pack",
        RoleSchema("deepseek/r1"),
        Some(RoleSchema("deepseek/r1")),
        Some(RoleSchema("deepseek/v3-0324")),
        RoleSchema(ExampleModelId),
        RoleSchema("deepseek/r1-hidden"),
        Some(RoleSchema("deepseek/r1-hidden")),
        RoleSchema(ExampleModelId),
        RoleSchema(ExampleModelId),
        RoleSchema("deepseek/r1-hidden"))])
  }

  /** Every custom-provider binding of the example model names a provider
      the example document defines. */
  lemma ExampleBindingsResolve(isCloud: bool, schemaUrl: string)
    ensures var m := ExampleTemplate(isCloud, schemaUrl);
      forall i :: 0 <= i < |m.models[0].providers| && m.models[0].providers[i].provider == CustomKind ==>
        m.models[0].providers[i].customProvider.Some?
        && m.models[0].providers[i].customProvider.value in ProviderNames(m.providers)
  {
    var m := ExampleTemplate(isCloud, schemaUrl);
    if !isCloud {
      assert ProviderNames(m.providers)[0] == ExampleProviderName;
    }
  }

  // ----- The change report -----

  datatype Action = Added | Updated | Removed

  /** The three keyed lists, in the order the report walks them. */
  datatype Kind = ProviderEntry | ModelEntry | PackEntry

  /** One report line: "Added custom model → <key>" and so on. */
  datatype Line = Line(action: Action, kind: Kind, key: string)

  /** The three groups of lines; they are printed added, then updated,
      then removed. */
  datatype Report = Report(added: seq<Line>, updated: seq<Line>, deleted: seq<Line>)

  function Printed(r: Report): seq<Line> {
    r.added + r.updated + r.deleted
  }

  /** One line per key, in order, for the keys whose membership in `s` is
      `member`. */
  function Tag(keys: seq<string>, action: Action, kind: Kind, s: set<string>, member: bool): seq<Line> {
    if |keys| == 0 then []
    else
      var last := keys[|keys| - 1];
      Tag(keys[..|keys| - 1], action, kind, s, member)
      + (if (last in s) == member then [Line(action, kind, last)] else [])
  }

  /** The lines of `Tag` are exactly those of the selected keys. */
  lemma {:induction false} TagLines(keys: seq<string>, action: Action, kind: Kind, s: set<string>, member: bool)
    ensures forall l :: l in Tag(keys, action, kind, s, member) ==>
      l.action == action && l.kind == kind && l.key in keys && (l.key in s <==> member)
    ensures forall i :: 0 <= i < |keys| && (keys[i] in s <==> member) ==>
      Line(action, kind, keys[i]) in Tag(keys, action, kind, s, member)
  {
    if |keys| > 0 {
      var init := keys[..|keys| - 1];
      TagLines(init, action, kind, s, member);
      assert forall i :: 0 <= i < |init| ==> init[i] == keys[i];
    }
  }

  /** The single existsById map: server model ids, provider names and pack
      names all in one key space. */
  function ExistsById(server: ModelsInput): set<string> {
    (set k | k in ModelIds(server.models)) + (set k | k in ProviderNames(server.providers))
    + (set k | k in PackNames(server.packs))
  }

  /** The report for the validated input, the server state and the
      entities FilterUnchanged kept: a kept entity is Updated when its key
      is in existsById and Added otherwise; a server entity is Removed when
      its key is not among the input's keys of the same kind. */
  function ReportSpec(input: ModelsInput, server: ModelsInput, changed: ModelsInput): Report {
    var known := ExistsById(server);
    Report(
      Tag(ProviderNames(changed.providers), Added, ProviderEntry, known, false)
      + Tag(ModelIds(changed.models), Added, ModelEntry, known, false)
      + Tag(PackNames(changed.packs), Added, PackEntry, known, false),
      Tag(ProviderNames(changed.providers), Updated, ProviderEntry, known, true)
      + Tag(ModelIds(changed.models), Updated, ModelEntry, known, true)
      + Tag(PackNames(changed.packs), Updated, PackEntry, known, true),
      Tag(ProviderNames(server.providers), Removed, ProviderEntry, set k | k in ProviderNames(input.providers), false)
      + Tag(ModelIds(server.models), Removed, ModelEntry, set k | k in ModelIds(input.models), false)
      + Tag(PackNames(server.packs), Removed, PackEntry, set k | k in PackNames(input.packs), false))
  }

  /** A key map filled by a loop over one list. */
  method AddKeys(s0: set<string>, keys: seq<string>) returns (s: set<string>)
    ensures s == s0 + set k | k in keys
  {
    s := s0;
    for i := 0 to |keys|
      invariant s == s0 + set k | k in keys[..i]
    {
      s := s + {keys[i]};
      assert keys[..i + 1] == keys[..i] + [keys[i]];
    }
    assert keys[..|keys|] == keys;
  }

  /** One loop over kept entities: Updated when existsById has the key,
      Added otherwise. */
  method ClassifyKeys(keys: seq<string>, kind: Kind, existsById: set<string>, added0: seq<Line>, updated0: seq<Line>)
    returns (added: seq<Line>, updated: seq<Line>)
    ensures added == added0 + Tag(keys, Added, kind, existsById, false)
    ensures updated == updated0 + Tag(keys, Updated, kind, existsById, true)
  {
    added, updated := added0, updated0;
    for i := 0 to |keys|
      invariant added == added0 + Tag(keys[..i], Added, kind, existsById, false)
      invariant updated == updated0 + Tag(keys[..i], Updated, kind, existsById, true)
    {
      assert keys[..i + 1][..i] == keys[..i];
      if keys[i] in existsById {
        updated := updated + [Line(Updated, kind, keys[i])];
      } else {
        added := added + [Line(Added, kind, keys[i])];
      }
    }
    assert keys[..|keys|] == keys;
  }

  /** One loop over server entities: Removed when the input has no entity
      of the same kind with that key. */
  method RemovedKeys(keys: seq<string>, kind: Kind, inputKeys: set<string>, deleted0: seq<Line>)
    returns (deleted: seq<Line>)
    ensures deleted == deleted0 + Tag(keys, Removed, kind, inputKeys, false)
  {
    deleted := deleted0;
    for i := 0 to |keys|
      invariant deleted == deleted0 + Tag(keys[..i], Removed, kind, inputKeys, false)
    {
      assert keys[..i + 1][..i] == keys[..i];
      if keys[i] !in inputKeys {
        deleted := deleted + [Line(Removed, kind, keys[i])];
      }
    }
    assert keys[..|keys|] == keys;
  }

  /** The key maps the report loops consult: existsById over the server's
      models, providers and packs, and the input's keys of each kind. */
  method KeyMaps(input: ModelsInput, server: ModelsInput)
    returns (existsById: set<string>, inputModelIds: set<string>, inputProviderNames: set<string>, inputModelPackNames: set<string>)
    ensures existsById == ExistsById(server)
    ensures inputModelIds == set k | k in ModelIds(input.models)
    ensures inputProviderNames == set k | k in ProviderNames(input.providers)
    ensures inputModelPackNames == set k | k in PackNames(input.packs)
  {
    existsById := AddKeys({}, ModelIds(server.models));
    existsById := AddKeys(existsById, ProviderNames(server.providers));
    existsById := AddKeys(existsById, PackNames(server.packs));
    inputModelIds := AddKeys({}, ModelIds(input.models));
    inputProviderNames := AddKeys({}, ProviderNames(input.providers));
    inputModelPackNames := AddKeys({}, PackNames(input.packs));
  }

  /** The report loops: providers, models and packs, each classified and
      then checked for removals. */
  method ChangeReport(input: ModelsInput, server: ModelsInput, changed: ModelsInput) returns (report: Report)
    ensures report == ReportSpec(input, server, changed)
  {
    var existsById, inputModelIds, inputProviderNames, inputModelPackNames := KeyMaps(input, server);
    ghost var a1 := Tag(ProviderNames(changed.providers), Added, ProviderEntry, existsById, false);
    ghost var u1 := Tag(ProviderNames(changed.providers), Updated, ProviderEntry, existsById, true);
    ghost var d1 := Tag(ProviderNames(server.providers), Removed, ProviderEntry, inputProviderNames, false);
    ghost var a2 := Tag(ModelIds(changed.models), Added, ModelEntry, existsById, false);
    ghost var u2 := Tag(ModelIds(changed.models), Updated, ModelEntry, existsById, true);
    ghost var d2 := Tag(ModelIds(server.models), Removed, ModelEntry, inputModelIds, false);
    ghost var a3 := Tag(PackNames(changed.packs), Added, PackEntry, existsById, false);
    ghost var u3 := Tag(PackNames(changed.packs), Updated, PackEntry, existsById, true);
    ghost var d3 := Tag(PackNames(server.packs), Removed, PackEntry, inputModelPackNames, false);
    var added: seq<Line>, updated: seq<Line>, deleted: seq<Line> := [], [], [];
    added, updated := ClassifyKeys(ProviderNames(changed.providers), ProviderEntry, existsById, added, updated);
    deleted := RemovedKeys(ProviderNames(server.providers), ProviderEntry, inputProviderNames, deleted);
    assert added == a1 && updated == u1 && deleted == d1;
    added, updated := ClassifyKeys(ModelIds(changed.models), ModelEntry, existsById, added, updated);
    deleted := RemovedKeys(ModelIds(server.models), ModelEntry, inputModelIds, deleted);
    assert added == a1 + a2 && updated == u1 + u2 && deleted == d1 + d2;
    added, updated := ClassifyKeys(PackNames(changed.packs), PackEntry, existsById, added, updated);
    deleted := RemovedKeys(PackNames(server.packs), PackEntry, inputModelPackNames, deleted);
    assert added == a1 + a2 + a3 && updated == u1 + u2 + u3 && deleted == d1 + d2 + d3;
    report := Report(added, updated, deleted);
  }

  /** The three segments of a group, one per kind. */
  function Group(action: Action, keys1: seq<string>, keys2: seq<string>, keys3: seq<string>,
                 s1: set<string>, s2: set<string>, s3: set<string>, member: bool): seq<Line> {
    Tag(keys1, action, ProviderEntry, s1, member)
    + Tag(keys2, action, ModelEntry, s2, member)
    + Tag(keys3, action, PackEntry, s3, member)
  }

  lemma InTag(keys: seq<string>, action: Action, kind: Kind, s: set<string>, member: bool, k: string)
    ensures Line(action, kind, k) in Tag(keys, action, kind, s, member) <==> k in keys && (k in s <==> member)
  {
    TagLines(keys, action, kind, s, member);
    if k in keys && (k in s <==> member) {
      var i :| 0 <= i < |keys| && keys[i] == k;
    }
  }

  /** A line of a kind is in a group exactly when its key is selected in
      that kind's segment. */
  lemma InGroup(action: Action, keys1: seq<string>, keys2: seq<string>, keys3: seq<string>,
                s1: set<string>, s2: set<string>, s3: set<string>, member: bool, k: string)
    ensures var g := Group(action, keys1, keys2, keys3, s1, s2, s3, member);
      && (Line(action, ProviderEntry, k) in g <==> k in keys1 && (k in s1 <==> member))
      && (Line(action, ModelEntry, k) in g <==> k in keys2 && (k in s2 <==> member))
      && (Line(action, PackEntry, k) in g <==> k in keys3 && (k in s3 <==> member))
  {
    TagLines(keys1, action, ProviderEntry, s1, member);
    TagLines(keys2, action, ModelEntry, s2, member);
    TagLines(keys3, action, PackEntry, s3, member);
    InTag(keys1, action, ProviderEntry, s1, member, k);
    InTag(keys2, action, ModelEntry, s2, member, k);
    InTag(keys3, action, PackEntry, s3, member, k);
  }

  /** Every kept entity is reported Updated when its key is anywhere in
      the single cross-kind existsById map, and Added otherwise; a server
      entity is reported Removed exactly when the input has no entity of
      the same kind with its key. */
  lemma ReportClassification(input: ModelsInput, server: ModelsInput, changed: ModelsInput, k: string)
    ensures var r := ReportSpec(input, server, changed);
      var known := ExistsById(server);
      && (Line(Updated, ProviderEntry, k) in r.updated <==> k in ProviderNames(changed.providers) && k in known)
      && (Line(Updated, ModelEntry, k) in r.updated <==> k in ModelIds(changed.models) && k in known)
      && (Line(Updated, PackEntry, k) in r.updated <==> k in PackNames(changed.packs) && k in known)
      && (Line(Added, ProviderEntry, k) in r.added <==> k in ProviderNames(changed.providers) && k !in known)
      && (Line(Added, ModelEntry, k) in r.added <==> k in ModelIds(changed.models) && k !in known)
      && (Line(Added, PackEntry, k) in r.added <==> k in PackNames(changed.packs) && k !in known)
      && (Line(Removed, ProviderEntry, k) in r.deleted <==>
            k in ProviderNames(server.providers) && k !in ProviderNames(input.providers))
      && (Line(Removed, ModelEntry, k) in r.deleted <==>
            k in ModelIds(server.models) && k !in ModelIds(input.models))
      && (Line(Removed, PackEntry, k) in r.deleted <==>
            k in PackNames(server.packs) && k !in PackNames(input.packs))
  {
    var known := ExistsById(server);
    var cp, cm, ck := ProviderNames(changed.providers), ModelIds(changed.models), PackNames(changed.packs);
    var sp, sm, sk := ProviderNames(server.providers), ModelIds(server.models), PackNames(server.packs);
    var ip, im, ik := set x | x in ProviderNames(input.providers), set x | x in ModelIds(input.models), set x | x in PackNames(input.packs);
    InGroup(Added, cp, cm, ck, known, known, known, false, k);
    InGroup(Updated, cp, cm, ck, known, known, known, true, k);
    InGroup(Removed, sp, sm, sk, ip, im, ik, false, k);
  }

  /** The cross-kind quirk: a new model whose id equals an existing
      provider's name is reported as Updated, not Added. */
  lemma CrossKindQuirk(input: ModelsInput, server: ModelsInput, changed: ModelsInput, m: CustomModel)
    requires changed.models == [m] && |changed.providers| == 0 && |changed.packs| == 0
    requires |server.models| == 0 && |server.packs| == 0
    requires server.providers == [CustomProvider(m.modelId, "", "")]
    ensures ReportSpec(input, server, changed).updated == [Line(Updated, ModelEntry, m.modelId)]
    ensures ReportSpec(input, server, changed).added == []
  {
    var known := ExistsById(server);
    assert ProviderNames(server.providers) == [m.modelId];
    assert m.modelId in known;
    var ids := ModelIds(changed.models);
    assert ids == [m.modelId] && ids[..0] == [];
    assert ProviderNames(changed.providers) == [] && PackNames(changed.packs) == [];
    assert Tag(ids, Updated, ModelEntry, known, true) == [Line(Updated, ModelEntry, m.modelId)];
    assert Tag(ids, Added, ModelEntry, known, false) == [];
  }

  // ----- Print order -----

  function ActionRank(a: Action): nat {
    match a
    case Added => 0
    case Updated => 1
    case Removed => 2
  }

  function KindRank(k: Kind): nat {
    match k
    case ProviderEntry => 0
    case ModelEntry => 1
    case PackEntry => 2
  }

  /** A line's place in the printed report. */
  function Rank(l: Line): nat {
    3 * ActionRank(l.action) + KindRank(l.kind)
  }

  ghost predicate Ordered(ls: seq<Line>) {
    forall i, j :: 0 <= i < j < |ls| ==> Rank(ls[i]) <= Rank(ls[j])
  }

  ghost predicate RanksIn(ls: seq<Line>, lo: nat, hi: nat) {
    forall i :: 0 <= i < |ls| ==> lo <= Rank(ls[i]) <= hi
  }

  lemma OrderedAppend(a: seq<Line>, b: seq<Line>, lo: nat, mid: nat, hi: nat)
    requires lo <= mid <= hi
    requires Ordered(a) && Ordered(b) && RanksIn(a, lo, mid) && RanksIn(b, mid, hi)
    ensures Ordered(a + b) && RanksIn(a + b, lo, hi)
  {
    forall i, j | 0 <= i < j < |a + b|
      ensures Rank((a + b)[i]) <= Rank((a + b)[j])
    {
      if j < |a| {
      } else if i >= |a| {
        assert (a + b)[i] == b[i - |a|] && (a + b)[j] == b[j - |a|];
      } else {
        assert (a + b)[j] == b[j - |a|];
      }
    }
    forall i | 0 <= i < |a + b|
      ensures lo <= Rank((a + b)[i]) <= hi
    {
      if i >= |a| {
        assert (a + b)[i] == b[i - |a|];
      }
    }
  }

  lemma TagRank(keys: seq<string>, action: Action, kind: Kind, s: set<string>, member: bool)
    ensures var t := Tag(keys, action, kind, s, member);
      var r := 3 * ActionRank(action) + KindRank(kind);
      Ordered(t) && RanksIn(t, r, r)
  {
    var t := Tag(keys, action, kind, s, member);
    TagLines(keys, action, kind, s, member);
    assert forall i :: 0 <= i < |t| ==> t[i] in t;
  }

  lemma GroupRank(action: Action, keys1: seq<string>, keys2: seq<string>, keys3: seq<string>,
                  s1: set<string>, s2: set<string>, s3: set<string>, member: bool)
    ensures var g := Group(action, keys1, keys2, keys3, s1, s2, s3, member);
      Ordered(g) && RanksIn(g, 3 * ActionRank(action), 3 * ActionRank(action) + 2)
  {
    var base := 3 * ActionRank(action);
    var t1 := Tag(keys1, action, ProviderEntry, s1, member);
    var t2 := Tag(keys2, action, ModelEntry, s2, member);
    var t3 := Tag(keys3, action, PackEntry, s3, member);
    TagRank(keys1, action, ProviderEntry, s1, member);
    TagRank(keys2, action, ModelEntry, s2, member);
    TagRank(keys3, action, PackEntry, s3, member);
    OrderedAppend(t1, t2, base, base + 1, base + 1);
    OrderedAppend(t1 + t2, t3, base, base + 2, base + 2);
  }

  /** The report prints every Added line, then every Updated, then every
      Removed; within each group providers come first, then models, then
      packs. */
  lemma ReportOrder(input: ModelsInput, server: ModelsInput, changed: ModelsInput)
    ensures Ordered(Printed(ReportSpec(input, server, changed)))
  {
    var known := ExistsById(server);
    var cp, cm, ck := ProviderNames(changed.providers), ModelIds(changed.models), PackNames(changed.packs);
    var sp, sm, sk := ProviderNames(server.providers), ModelIds(server.models), PackNames(server.packs);
    var ip, im, ik := set x | x in ProviderNames(input.providers), set x | x in ModelIds(input.models), set x | x in PackNames(input.packs);
    var r := ReportSpec(input, server, changed);
    assert r.added == Group(Added, cp, cm, ck, known, known, known, false);
    assert r.updated == Group(Updated, cp, cm, ck, known, known, known, true);
    assert r.deleted == Group(Removed, sp, sm, sk, ip, im, ik, false);
    GroupRank(Added, cp, cm, ck, known, known, known, false);
    GroupRank(Updated, cp, cm, ck, known, known, known, true);
    GroupRank(Removed, sp, sm, sk, ip, im, ik, false);
    OrderedAppend(r.added, r.updated, 0, 3, 5);
    OrderedAppend(r.added + r.updated, r.deleted, 0, 6, 8);
  }

  /** No key selected, no line. */
  lemma {:induction false} TagNone(keys: seq<string>, action: Action, kind: Kind, s: set<string>, member: bool)
    requires forall i :: 0 <= i < |keys| ==> (keys[i] in s <==> !member)
    ensures Tag(keys, action, kind, s, member) == []
  {
    if |keys| > 0 {
      TagNone(keys[..|keys| - 1], action, kind, s, member);
    }
  }

  /** Saving the server's own document, with FilterUnchanged keeping
      nothing, reports no change. */
  lemma SelfDiffIsEmpty(server: ModelsInput, changed: ModelsInput)
    requires IsEmpty(changed)
    ensures Printed(ReportSpec(server, server, changed)) == []
  {
    TagNone(ProviderNames(server.providers), Removed, ProviderEntry, set k | k in ProviderNames(server.providers), false);
    TagNone(ModelIds(server.models), Removed, ModelEntry, set k | k in ModelIds(server.models), false);
    TagNone(PackNames(server.packs), Removed, PackEntry, set k | k in PackNames(server.packs), false);
  }

  // ----- The decision flow -----

  /** The models file as os.Stat and os.ReadFile see it: absent, a stat
      error other than "not exist", or present with its contents (None
      when reading it fails). */
  datatype FileState = Missing | StatFailed | Present(read: Option<string>)

  /** The hash sidecar beside the file: absent (reads as ""), a read error
      other than "not exist", or the recorded text. */
  datatype Sidecar = NoSidecar | SidecarFailed | Recorded(text: string)

  /** The shared-package operations the flow calls, given as parameters, and the schema
      URL constant the example document carries. `marshal` is
      the indented JSON encoding, `unmarshal` and `validate` parse (the
      latter also checks the schema), `equals`, `prepareUpdate`,
      `noDuplicates` and `filterUnchanged` are the ModelsInput methods. */
  datatype Shared = Shared(
    schemaUrl: string,
    marshal: ModelsInput -> Option<string>,
    unmarshal: string -> Option<ModelsInput>,
    validate: string -> Option<ModelsInput>,
    hash: ModelsInput -> Option<string>,
    prepareUpdate: ModelsInput -> ModelsInput,
    equals: (ModelsInput, ModelsInput) -> bool,
    noDuplicates: ModelsInput -> bool,
    filterUnchanged: (ModelsInput, ModelsInput) -> ModelsInput)

  /** Everything the command observes: whether the three list calls all
      succeeded and what they returned, the flags, the file and sidecar
      states, the user's answers, the file as re-read after editing and
      whether the push succeeded. */
  datatype Session = Session(
    fetched: bool,
    listed: ModelsInput,
    isCloud: bool,
    save: bool,
    defaultPath: bool,
    file: FileState,
    sidecar: Sidecar,
    dropLocal: Answer<bool>,
    editorOpened: bool,
    readyToSave: Answer<bool>,
    edited: Option<string>,
    pushOk: bool)

  /** The observable actions, in the order the command performs them. */
  datatype Effect = WriteModelsFile(content: string) | WriteSidecar(hash: string) | Push(doc: ModelsInput)

  /** Where the command stops: an error exit, the user declining to drop
      local changes, the manual-edit hint, the user cancelling the save, a
      validation or duplicate failure, "no changes", or the printed
      report. */
  datatype End = Exited | Declined | ManualEdit | Canceled | ValidationFailed | Duplicates | NoChanges
               | Reported(report: Report)

  datatype Run = Run(effects: seq<Effect>, end: End)

  /** The server state: providers are not listed on cloud. */
  function ServerState(s: Session): (m: ModelsInput)
    ensures s.isCloud ==> |m.providers| == 0
    ensures m.models == s.listed.models && m.packs == s.listed.packs
    ensures !s.isCloud ==> m == s.listed
  {
    if s.isCloud then s.listed.(providers := []) else s.listed
  }

  /** The outcome of the steps before the editor: stop with a run, or go
      on with the writes done so far. */
  datatype Prep = Halted(run: Run) | Ready(effects: seq<Effect>)

  /** The outcome of everything before validation: stop with a run, or
      validate `content` after the writes done so far. */
  datatype Stage = Stop(run: Run) | Submitting(effects: seq<Effect>, content: string)

  /** The whole command. A report needs the fetch and the push to have
      succeeded; a cancel is the user's no, and the manual-edit hint only
      comes without --save when no editor opened. */
  function Manage(sh: Shared, s: Session): (r: Run)
    ensures r.end.Reported? ==> s.fetched && s.pushOk
    ensures r.end == Canceled ==> !s.save && s.editorOpened && s.readyToSave == Chose(false)
    ensures r.end == ManualEdit ==> !s.save && !s.editorOpened
  {
    match Before(sh, s)
    case Stop(r) => r
    case Submitting(effects, content) => Submit(sh, s, effects, content)
  }

  /** Fetching, the file check, and either the file as it stands (--save)
      or the pre-edit preparation and the editor step. */
  function Before(sh: Shared, s: Session): (r: Stage)
    ensures r.Submitting? ==> s.fetched
    ensures r.Submitting? && s.save ==> r.effects == [] && s.file == Present(Some(r.content))
    ensures r.Submitting? && !s.save ==>
      && PreEdit(sh, s).Ready? && r.effects == PreEdit(sh, s).effects
      && s.editorOpened && s.readyToSave == Chose(true) && s.edited == Some(r.content)
    ensures r.Stop? && r.run.end == Canceled ==> !s.save && s.editorOpened && s.readyToSave == Chose(false)
    ensures r.Stop? && r.run.end == ManualEdit ==> !s.save && !s.editorOpened
  {
    if !s.fetched || s.file.StatFailed? then Stop(Run([], Exited))
    else if s.save then
      match s.file
      case Present(Some(content)) => Submitting([], content)
      case _ => Stop(Run([], Exited))
    else
      match PreEdit(sh, s)
      case Halted(r) => Stop(r)
      case Ready(effects) => Edit(sh, s, effects)
  }

  /** Before editing: write the example document when the server has
      nothing, otherwise bring the local file in line with the server. */
  function PreEdit(sh: Shared, s: Session): (r: Prep)
    ensures r.Halted? ==> r.run.effects == [] && r.run.end in {Exited, Declined}
    ensures IsEmpty(ServerState(s)) && r.Ready? ==>
      && sh.marshal(ExampleTemplate(s.isCloud, sh.schemaUrl)).Some?
      && r.effects == [WriteModelsFile(sh.marshal(ExampleTemplate(s.isCloud, sh.schemaUrl)).value)]
    ensures !IsEmpty(ServerState(s)) && r.Ready? ==> LocalDoc(sh, s).Some?
  {
    var server := ServerState(s);
    if IsEmpty(server) then
      match sh.marshal(ExampleTemplate(s.isCloud, sh.schemaUrl))
      case None => Halted(Run([], Exited))
      case Some(t) => Ready([WriteModelsFile(t)])
    else
      match LocalDoc(sh, s)
      case None => Halted(Run([], Exited))
      case Some(doc) => Gate(sh, s, doc)
  }

  /** The document read from the local file, when it can be read and
      parsed. */
  function LocalDoc(sh: Shared, s: Session): (r: Option<ModelsInput>)
    ensures r.Some? ==> s.file.Present? && s.file.read.Some? && sh.unmarshal(s.file.read.value) == r
    ensures s.file.Present? && s.file.read.Some? ==> r == sh.unmarshal(s.file.read.value)
  {
    match s.file
    case Present(Some(local)) => sh.unmarshal(local)
    case _ => None
  }

  /** The sidecar text, "" when there is none. */
  function LastSaved(c: Sidecar): string {
    if c.Recorded? then c.text else ""
  }

  /** The conflict check, on the default path only: a local hash that
      differs from the sidecar must be confirmed before the local file is
      replaced. */
  function Gate(sh: Shared, s: Session, doc: ModelsInput): (r: Prep)
    ensures r.Ready? && s.defaultPath ==>
      && !s.sidecar.SidecarFailed? && sh.hash(doc).Some?
      && (sh.hash(doc).value == LastSaved(s.sidecar) || s.dropLocal == Chose(true))
    ensures r == Halted(Run([], Declined)) <==>
      && s.defaultPath && !s.sidecar.SidecarFailed? && sh.hash(doc).Some?
      && sh.hash(doc).value != LastSaved(s.sidecar) && s.dropLocal == Chose(false)
  {
    if !s.defaultPath then Sync(sh, s, doc, "")
    else if s.sidecar.SidecarFailed? then Halted(Run([], Exited))
    else
      match sh.hash(doc)
      case None => Halted(Run([], Exited))
      case Some(h) =>
        if h == LastSaved(s.sidecar) then Sync(sh, s, doc, h)
        else
          match s.dropLocal
          case Chose(true) => Sync(sh, s, doc, h)
          case Chose(false) => Halted(Run([], Declined))
          case _ => Halted(Run([], Exited))
  }

  /** Overwrite the file with the prepared server document unless it
      equals the local one, then record the local hash when there is one. */
  function Sync(sh: Shared, s: Session, doc: ModelsInput, h: string): (r: Prep)
    ensures r.Halted? ==> r.run == Run([], Exited)
    ensures r.Ready? ==>
      && (|r.effects| > 0 && r.effects[0].WriteModelsFile? <==> !sh.equals(sh.prepareUpdate(ServerState(s)), doc))
      && (|r.effects| > 0 && r.effects[0].WriteModelsFile? ==>
            Some(r.effects[0].content) == sh.marshal(sh.prepareUpdate(ServerState(s))))
      && (h != "" <==> |r.effects| > 0 && r.effects[|r.effects| - 1] == WriteSidecar(h))
  {
    var prepared := sh.prepareUpdate(ServerState(s));
    var record := if h != "" then [WriteSidecar(h)] else [];
    if sh.equals(prepared, doc) then Ready(record)
    else
      match sh.marshal(prepared)
      case None => Halted(Run([], Exited))
      case Some(t) => Ready([WriteModelsFile(t)] + record)
  }

  /** The editor step: without an editor the user is told how to save by
      hand; otherwise the file is re-read once the user confirms. */
  function Edit(sh: Shared, s: Session, effects: seq<Effect>): (r: Stage)
    ensures r.Stop? ==> r.run.effects == effects
    ensures r.Submitting? <==> s.editorOpened && s.readyToSave == Chose(true) && s.edited.Some?
    ensures r.Submitting? ==> r.effects == effects && s.edited == Some(r.content)
    ensures r.Stop? && r.run.end == Canceled <==> s.editorOpened && s.readyToSave == Chose(false)
    ensures r.Stop? && r.run.end == ManualEdit <==> !s.editorOpened
  {
    if !s.editorOpened then Stop(Run(effects, ManualEdit))
    else
      match s.readyToSave
      case Chose(false) => Stop(Run(effects, Canceled))
      case Chose(true) =>
        (match s.edited
         case Some(content) => Submitting(effects, content)
         case None => Stop(Run(effects, Exited)))
      case _ => Stop(Run(effects, Exited))
  }

  /** Validate, reject duplicates and empty documents, push, record the
      hash on the default path, and report. */
  function Submit(sh: Shared, s: Session, effects: seq<Effect>, content: string): (r: Run)
    ensures r.end == ValidationFailed <==> sh.validate(content).None?
    ensures r.end == Duplicates <==> sh.validate(content).Some? && !sh.noDuplicates(sh.validate(content).value)
    ensures r.end.Reported? ==> s.pushOk && sh.validate(content).Some?
    ensures r.end !in {Declined, ManualEdit, Canceled}
    ensures |r.effects| > |effects| ==>
      sh.validate(content).Some? && r.effects[|effects|] == Push(sh.validate(content).value)
  {
    match sh.validate(content)
    case None => Run(effects, ValidationFailed)
    case Some(input) =>
      if !sh.noDuplicates(input) then Run(effects, Duplicates)
      else if IsEmpty(input) then Run(effects, NoChanges)
      else if !s.pushOk then Run(effects + [Push(input)], Exited)
      else if !s.defaultPath then Conclude(sh, s, effects + [Push(input)], input)
      else
        match sh.hash(input)
        case None => Run(effects + [Push(input)], Exited)
        case Some(h) => Conclude(sh, s, effects + [Push(input), WriteSidecar(h)], input)
  }

  /** Print the change report against the server state, or "no changes"
      when it prints nothing; no further effect. */
  function Conclude(sh: Shared, s: Session, effects: seq<Effect>, input: ModelsInput): (r: Run)
    ensures r.effects == effects
    ensures r.end == NoChanges <==>
      Printed(ReportSpec(input, ServerState(s), sh.filterUnchanged(input, ServerState(s)))) == []
    ensures r.end.Reported? ==>
      && r.end.report == ReportSpec(input, ServerState(s), sh.filterUnchanged(input, ServerState(s)))
      && Printed(r.end.report) != []
  {
    var server := ServerState(s);
    var r := ReportSpec(input, server, sh.filterUnchanged(input, server));
    if Printed(r) == [] then Run(effects, NoChanges) else Run(effects, Reported(r))
  }

  // ----- Properties of the flow -----

  /** Writes made before validation: no push, and a sidecar write only on
      the default path. */
  ghost predicate PreWrites(s: Session, effects: seq<Effect>) {
    forall i :: 0 <= i < |effects| ==> !effects[i].Push? && (effects[i].WriteSidecar? ==> s.defaultPath)
  }

  /** What validation may add: nothing, or the push of a valid non-empty
      document followed only by a sidecar write on the default path. */
  ghost predicate PostWrites(sh: Shared, s: Session, tail: seq<Effect>) {
    tail == []
    || (&& tail[0].Push? && sh.noDuplicates(tail[0].doc) && !IsEmpty(tail[0].doc)
        && forall j :: 1 <= j < |tail| ==> tail[j].WriteSidecar? && s.defaultPath)
  }

  /** The pre-edit steps never push; they write the sidecar only on the
      default path. */
  lemma PrepWrites(sh: Shared, s: Session)
    ensures match PreEdit(sh, s)
      case Halted(r) => r.effects == [] && r.end in {Exited, Declined}
      case Ready(effects) => PreWrites(s, effects)
  {
  }

  /** Everything before validation keeps to PreWrites, and a stop there
      is never a validation outcome. */
  lemma BeforeWrites(sh: Shared, s: Session)
    ensures match Before(sh, s)
      case Stop(r) => PreWrites(s, r.effects) && r.end in {Exited, Declined, ManualEdit, Canceled}
      case Submitting(effects, _) => PreWrites(s, effects)
  {
    PrepWrites(sh, s);
  }

  /** Validation only appends to what was done before, and what it appends
      keeps to PostWrites; a schema or duplicate failure and an empty
      document append nothing. */
  lemma SubmitWrites(sh: Shared, s: Session, effects: seq<Effect>, content: string)
    ensures var r := Submit(sh, s, effects, content);
      && |effects| <= |r.effects| && r.effects[..|effects|] == effects
      && PostWrites(sh, s, r.effects[|effects|..])
      && (r.end in {ValidationFailed, Duplicates} ==> r.effects == effects)
      && (r.end.Reported? ==> |r.effects| > |effects|)
  {
    var r := Submit(sh, s, effects, content);
    if |r.effects| > |effects| {
      var input := sh.validate(content).value;
      assert r.effects[|effects|..][0] == Push(input);
    }
  }

  lemma PrefixAt(a: seq<Effect>, b: seq<Effect>, i: nat)
    requires |a| <= |b| && b[..|a|] == a && i < |b|
    ensures i < |a| ==> b[i] == a[i]
    ensures i >= |a| ==> b[i] == b[|a|..][i - |a|]
  {
  }

  /** Only a validated, duplicate-free, non-empty document is pushed, and
      after the push nothing but the sidecar write follows; no pre-edit
      sidecar write happens off the default path either. */
  lemma PushedOnlyValid(sh: Shared, s: Session)
    ensures var r := Manage(sh, s);
      && (forall i :: 0 <= i < |r.effects| && r.effects[i].Push? ==>
            && Before(sh, s).Submitting? && sh.validate(Before(sh, s).content) == Some(r.effects[i].doc)
            && sh.noDuplicates(r.effects[i].doc) && !IsEmpty(r.effects[i].doc)
            && forall j :: i < j < |r.effects| ==> r.effects[j].WriteSidecar?)
      && (forall i :: 0 <= i < |r.effects| && r.effects[i].WriteSidecar? ==> s.defaultPath)
  {
    BeforeWrites(sh, s);
    match Before(sh, s)
    case Stop(_) =>
    case Submitting(pre, content) =>
      var r := Submit(sh, s, pre, content);
      SubmitWrites(sh, s, pre, content);
      var tail := r.effects[|pre|..];
      forall i | 0 <= i < |r.effects|
        ensures r.effects[i].Push? ==>
            && sh.validate(content) == Some(r.effects[i].doc)
            && sh.noDuplicates(r.effects[i].doc) && !IsEmpty(r.effects[i].doc)
            && forall j :: i < j < |r.effects| ==> r.effects[j].WriteSidecar?
        ensures r.effects[i].WriteSidecar? ==> s.defaultPath
      {
        PrefixAt(pre, r.effects, i);
        if r.effects[i].Push? {
          assert i == |pre|;
          forall j | i < j < |r.effects|
            ensures r.effects[j].WriteSidecar?
          {
            PrefixAt(pre, r.effects, j);
          }
        }
      }
  }

  /** A schema or duplicate failure stops before the push and before the
      post-push sidecar write: in save mode nothing at all is done, and
      otherwise exactly the pre-edit writes. */
  lemma RejectedStopsBeforePush(sh: Shared, s: Session)
    ensures var r := Manage(sh, s);
      r.end.ValidationFailed? || r.end.Duplicates? ==>
        && (forall i :: 0 <= i < |r.effects| ==> !r.effects[i].Push?)
        && (s.save ==> r.effects == [])
        && (!s.save ==> PreEdit(sh, s).Ready? && r.effects == PreEdit(sh, s).effects)
  {
    BeforeWrites(sh, s);
    match Before(sh, s)
    case Stop(_) =>
    case Submitting(pre, content) =>
      SubmitWrites(sh, s, pre, content);
  }

  /** A validated document with no entity prints "no changes" and is never
      pushed; no hash is recorded for it. */
  lemma EmptyInputNotPushed(sh: Shared, s: Session, effects: seq<Effect>, content: string)
    requires sh.validate(content).Some? && sh.noDuplicates(sh.validate(content).value)
    requires IsEmpty(sh.validate(content).value)
    ensures Submit(sh, s, effects, content) == Run(effects, NoChanges)
  {
  }

  /** With a --file path the conflict check does not run: neither the
      sidecar nor the confirmation answer has any influence. */
  lemma GateOnlyOnDefaultPath(sh: Shared, s: Session, c: Sidecar, a: Answer<bool>)
    requires !s.defaultPath
    ensures Manage(sh, s) == Manage(sh, s.(sidecar := c, dropLocal := a))
  {
    var t := s.(sidecar := c, dropLocal := a);
    assert ServerState(t) == ServerState(s) && LocalDoc(sh, t) == LocalDoc(sh, s);
    assert PreEdit(sh, t) == PreEdit(sh, s);
    assert Before(sh, t) == Before(sh, s);
  }

  /** On the default path, a local document whose hash differs from the
      sidecar text ("" without a sidecar) needs confirmation: declining
      stops before any write, an interrupted or failed prompt exits, and
      only a yes goes on. A matching hash never asks. */
  lemma ConflictGate(sh: Shared, s: Session, doc: ModelsInput, h: string)
    requires s.fetched && !s.save && s.defaultPath
    requires !IsEmpty(ServerState(s)) && LocalDoc(sh, s) == Some(doc)
    requires !s.sidecar.SidecarFailed? && sh.hash(doc) == Some(h)
    ensures h != LastSaved(s.sidecar) ==>
      && (s.dropLocal == Chose(false) <==> PreEdit(sh, s) == Halted(Run([], Declined)))
      && (s.dropLocal.Interrupted? || s.dropLocal.Failed? ==> PreEdit(sh, s) == Halted(Run([], Exited)))
      && (s.dropLocal == Chose(true) ==> PreEdit(sh, s) == Sync(sh, s, doc, h))
    ensures h == LastSaved(s.sidecar) ==> PreEdit(sh, s) == Sync(sh, s, doc, h)
  {
    if h != LastSaved(s.sidecar) && s.dropLocal == Chose(true) {
      SyncNeverDeclines(sh, s, doc, h);
    }
  }

  lemma SyncNeverDeclines(sh: Shared, s: Session, doc: ModelsInput, h: string)
    ensures Sync(sh, s, doc, h) != Halted(Run([], Declined))
  {
  }

  /** Declining the conflict prompt stops with no effect at all, and it
      can only happen on the default path outside save mode. */
  lemma DeclinedWritesNothing(sh: Shared, s: Session)
    ensures Manage(sh, s).end == Declined ==>
      && Manage(sh, s).effects == []
      && s.defaultPath && !s.save && s.dropLocal == Chose(false)
  {
    BeforeWrites(sh, s);
    match Before(sh, s)
    case Stop(_) =>
    case Submitting(pre, content) =>
      assert Submit(sh, s, pre, content).end != Declined;
  }

  /** Save mode on a missing file aborts, and save mode never writes the
      models file. */
  lemma SaveMode(sh: Shared, s: Session)
    requires s.save
    ensures s.file == Missing ==> Manage(sh, s) == Run([], Exited)
    ensures forall i :: 0 <= i < |Manage(sh, s).effects| ==> !Manage(sh, s).effects[i].WriteModelsFile?
  {
    if Before(sh, s).Submitting? {
      SubmitWrites(sh, s, [], Before(sh, s).content);
    }
  }

  /** Without --save, an account with nothing on the server gets the example
      document written first, whatever the local file holds. */
  lemma EmptyServerWritesTemplate(sh: Shared, s: Session, t: string)
    requires s.fetched && !s.save && !s.file.StatFailed?
    requires IsEmpty(ServerState(s)) && sh.marshal(ExampleTemplate(s.isCloud, sh.schemaUrl)) == Some(t)
    ensures |Manage(sh, s).effects| > 0 && Manage(sh, s).effects[0] == WriteModelsFile(t)
  {
    assert PreEdit(sh, s) == Ready([WriteModelsFile(t)]);
    if Before(sh, s).Submitting? {
      SubmitWrites(sh, s, [WriteModelsFile(t)], Before(sh, s).content);
    }
  }

  /** Once past the conflict check, the local file is overwritten with the
      prepared server document exactly when the two are not Equal. */
  lemma OverwriteOnlyWhenDifferent(sh: Shared, s: Session, doc: ModelsInput)
    requires !IsEmpty(ServerState(s)) && LocalDoc(sh, s) == Some(doc)
    ensures var prepared := sh.prepareUpdate(ServerState(s));
      match PreEdit(sh, s)
      case Halted(_) => true
      case Ready(effects) =>
        && (|effects| > 0 && effects[0].WriteModelsFile? <==> !sh.equals(prepared, doc))
        && (|effects| > 0 && effects[0].WriteModelsFile? ==> Some(effects[0].content) == sh.marshal(prepared))
  {
  }

  /** A printed report follows a successful push of the validated document
      and is the change report against the server state. */
  lemma ReportFollowsPush(sh: Shared, s: Session)
    ensures var r := Manage(sh, s);
      r.end.Reported? ==>
        exists i :: 0 <= i < |r.effects| && r.effects[i].Push?
          && Before(sh, s).Submitting? && sh.validate(Before(sh, s).content) == Some(r.effects[i].doc)
          && r.end.report == ReportSpec(r.effects[i].doc, ServerState(s),
                                        sh.filterUnchanged(r.effects[i].doc, ServerState(s)))
          && Printed(r.end.report) != []
  {
    BeforeWrites(sh, s);
    match Before(sh, s)
    case Stop(_) =>
    case Submitting(pre, content) =>
      var r := Submit(sh, s, pre, content);
      if r.end.Reported? {
        var input := sh.validate(content).value;
        assert r.effects[|pre|] == Push(input);
      }
  }
}
