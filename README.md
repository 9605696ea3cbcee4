# plandex model commands, in Dafny

This project models two commands of the plandex CLI, with proofs about the model.

**`plandex set-model`.** `updateModelSettings` resolves its first argument to one of three things:
- a built-in model pack;
- a model role;
- a model override setting.

It then changes exactly one thing in a deep copy of the plan's settings. It returns nil when the copy equals the original.

**`plandex models` and `plandex models custom`.** The model pack is rendered as a tree of role rows. `manageCustomModels` then runs in two parts:
- it reconciles the account's custom providers, models and packs with a local JSON file, guarded by a hash "sidecar" file beside it;
- after validation, it prints a report of what was added, updated and removed.

The editor launchers the command offers come from `detectEditors`.

Modules:

- `Common` (common.dfy) holds shared helpers:
  - `Option`;
  - the prompt answer `Answer` (interrupted, failed, chosen);
  - ASCII case folding, for `strings.EqualFold`;
  - `First`, the result of every search loop that ends in `break`;
  - `Filter`.
- `RoleTree` (role_tree.dfy) covers `renderModelPack` and its recursive `addModelRow`.
  - A role configuration is a record with four optional fallback children.
  - Pre-order flattening gives the rows: title, model id, depth, temperature, top-p, disabled.
  - Methods with loops are proved to produce those rows, and they set the "any disabled" flag.
- `SetModel` (set_model.dfy) covers `updateModelSettings`.
  - `UpdateModelSettings` is a method with the source's search loops and branches. It is proved equal to the function `UpdateSpec`.
  - Precedence, range checks, single-field edits and the nil result are proved as lemmas about `UpdateSpec`.
- `CustomModels` (custom_models.dfy) covers `manageCustomModels`.
  - It holds the example document (`getExampleTemplate`).
  - The decision flow is a pure function, `Manage`. It returns the ordered list of effects (model-file write, sidecar write, push) and where the command stops.
  - The change report is built by loops (`ChangeReport`) and proved equal to `ReportSpec`.
- `Editors` (editors.dfy) covers `detectEditors`.
  - It scans a fixed launcher list, adds the preferred commands, puts preferred entries first and keeps five.

These parts are inputs or function parameters:
- The shared-package operations are parameters: `Hash`, `Equals`, `PrepareUpdate`, `FilterUnchanged`, `CheckNoDuplicates`, `ValidateModelsInputJSON`, `Compact`, the compatibility filters, `RoleParamsDisabled`, `strconv.ParseFloat` and `strconv.Atoi`.
- The prompts are an answer record (`Prompts`, `Session`).
- The file system, PATH lookup and the server are also inputs.

## Model

| member | source | states |
|---|---|---|
| RoleTree.NodeRow | app/cli/cmd/models.go:716-750 | a row shows its node's model id at its depth; it is marked disabled exactly when the node's base model has role parameters disabled, and then shows temperature 1 and top-p 1, otherwise the stored values; its "Max Input" is the base model's max tokens less the configuration's reserved output tokens |
| RoleTree.IndentRole | app/cli/cmd/models.go:709-714 | a depth-d>0 label is d-1 spaces, the branch mark "└─ " and the role; depth 0 is the role alone |
| RoleTree.AddModelRow | app/cli/cmd/models.go:705-770 | the recursive row writer appends exactly the pre-order flattening of the node and raises the flag exactly when some appended row is disabled |
| RoleTree.AddFallbacks | app/cli/cmd/models.go:755-769 | the four fallback slots are visited in the order large-context, large-output, strong, error, one level deeper |
| RoleTree.AddFallback | app/cli/cmd/models.go:755-769 | an absent child adds no row; a present one adds its whole subtree |
| RoleTree.RenderModelPack | app/cli/cmd/models.go:669-786 | the first table is headed by the pack's name with its description as the row; the "Models" rows are the flattening of the nine roles in order; the footnote is shown exactly when all-properties is on and some row is disabled |
| RoleTree.AddRoleRows | app/cli/cmd/models.go:772-781 | one `addModelRow` per role in order, each root read through its getter, yields the concatenated flattening of those roles, and the disabled flag is set exactly when some row is disabled |
| RoleTree.FlattenShowsNodes | app/cli/cmd/models.go:705-770 | the rows of a subtree correspond one to one, in order, to its nodes in pre-order; the first row is the node at depth d and every other row is deeper |
| RoleTree.FallbackShowsNodes | app/cli/cmd/models.go:755-769 | the fallback rows correspond one to one to the fallback nodes, all deeper than the parent |
| RoleTree.ChildShowsNodes | app/cli/cmd/models.go:755-769 | a child slot's rows correspond one to one to the child's nodes |
| RoleTree.RolesRowsShowNodes | app/cli/cmd/models.go:772-781 | the rows of a list of roles correspond one to one to the nodes of their trees, at depth 0 or more |
| RoleTree.RendersDisabled | app/cli/cmd/models.go:720-724 | some row is disabled exactly when some rendered node's model has role parameters disabled |
| RoleTree.PackFootnote | app/cli/cmd/models.go:720-724 | the "any disabled" flag of a pack holds exactly when some node of any of its nine trees has role parameters disabled |
| RoleTree.RolesRowsRoots | app/cli/cmd/models.go:772-781 | the depth-0 rows of a list of roles are exactly the roles' names, in order |
| RoleTree.PackRoots | app/cli/cmd/models.go:772-781 | the depth-0 rows are the nine roles in the fixed order planner, architect, coder, summarizer, builder, whole-file-builder, names, commit-messages, auto-continue |
| RoleTree.TwoFallbacks | app/cli/cmd/models.go:755-769 | a role with a large-context and an error fallback (both leaves) renders as exactly three rows: the role at depth 0, then "└─ large-context" and "└─ error" at depth 1 |
| RoleTree.RoleNamesDistinct | app/cli/cmd/set_model.go:170-175 | role names are distinct and already lower case, so the case-insensitive role match finds at most one role |
| SetModel.OfferedPacks | app/cli/cmd/set_model.go:122-132 | on cloud the built-in packs offered are those without a local provider, in order; otherwise all of them |
| SetModel.CloudExcludesLocal | app/cli/cmd/set_model.go:122-132 | on cloud no offered pack needs a local provider, and every pack that needs none is offered |
| SetModel.FindPack | app/cli/cmd/set_model.go:162-167 | the pack loop with break finds the first pack whose name equals the compared name up to case |
| SetModel.FindRole | app/cli/cmd/set_model.go:170-175 | the role loop finds the first role whose name equals the argument up to case |
| SetModel.FindSetting | app/cli/cmd/set_model.go:177-184 | the setting loop finds the first override whose compacted name equals the compacted argument up to case |
| SetModel.ResolveArgument | app/cli/cmd/set_model.go:151-187 | resolution of the first argument is the pack search (after the aliases), then the role search, then the setting search |
| SetModel.PackFirst | app/cli/cmd/set_model.go:153-167 | the argument selects a pack exactly when some offered pack's name equals it, after mapping "daily" to "daily-driver" and "opus-4-planner" to "opus-planner", up to case; the pack selected is such a pack |
| SetModel.RoleSecond | app/cli/cmd/set_model.go:168-176 | a role is selected exactly when no offered pack matches and some role's name equals the argument up to case |
| SetModel.SettingLast | app/cli/cmd/set_model.go:176-187 | an override is selected exactly when neither a pack nor a role matches and some override's compacted name matches the compacted argument |
| SetModel.Menu | app/cli/cmd/set_model.go:189-275 | the menu either stops the update (interrupt → nil, prompt error → exit, "go back" → start again) or selects a pack, a role or one of the listed overrides |
| SetModel.ShowMenu | app/cli/cmd/set_model.go:189-275 | the menu code, with its pack labels and the chosen-pack lookup, selects what `Menu` says |
| SetModel.PackLabels | app/cli/cmd/set_model.go:220-236 | the pack menu lists "Built-in \| <name>" for each offered built-in pack, then "Custom \| <name>" for each custom pack |
| SetModel.MenuLabels | app/cli/cmd/set_model.go:221-237 | the two label loops build exactly `PackLabels` of the offered built-in packs and the custom packs |
| SetModel.ChosenPack | app/cli/cmd/set_model.go:255-266 | the loop with break maps the chosen label to the first identical one, and the pack taken is the built-in or custom pack at that position |
| SetModel.FirstEqual | app/cli/cmd/set_model.go:255-261 | the chosen label maps to the first position holding an identical label, at or before the chosen one |
| SetModel.NoEarlierLabel | app/cli/cmd/set_model.go:220-261 | no entry before the first custom pack of a name, built-in or custom, carries that pack's label |
| SetModel.SameNameTakesFirst | app/cli/cmd/set_model.go:255-266 | of two custom packs with the same name, choosing either yields the first |
| SetModel.SearchModelId | app/cli/cmd/set_model.go:340-361 | a found id is among the compatible ids and "<role>/<compacted id>" equals the lower-cased compacted property; no match gives "" |
| SetModel.FindModelId | app/cli/cmd/set_model.go:340-361 | the id loop with break computes `SearchModelId` |
| SetModel.SearchFindsFirst | app/cli/cmd/set_model.go:340-361 | the first matching id wins: built-in ids are searched before custom ids |
| SetModel.PropertyMenu | app/cli/cmd/set_model.go:364-415 | the property menu ends with a non-empty model id picked after a successful listing of its own (a failed listing exits), one of temperature / top-p / reserved-output-tokens, or a stop (interrupt → nil, error → exit, go back → start again) |
| SetModel.PropertyMenuLoop | app/cli/cmd/set_model.go:364-415 | the labelled loop, re-prompting while the model picker returns nothing, computes `PropertyMenu` |
| SetModel.SetOverrideSetting | app/cli/cmd/set_model.go:286-327 | the override path asks for a missing value and sets, clears or rejects the override as `SettingSpec` says |
| SetModel.IntegerOverride | app/cli/cmd/set_model.go:304-327 | for max-tokens and max-convo-tokens, an empty value clears the override to nil, an integer sets it, and a non-integer gives nil with no update |
| SetModel.MissingSettingValue | app/cli/cmd/set_model.go:290-301 | when no value is given, an interrupted prompt gives nil and a failed prompt exits |
| SetModel.ReadProperty | app/cli/cmd/set_model.go:417-461 | a property's value is asked for when missing, then parsed and range-checked as `PropertyParams` says |
| SetModel.PickRoleProperty | app/cli/cmd/set_model.go:329-415 | the model search, then the property menu when nothing was named, pick what `RolePick` says; the search's listing and each menu listing succeed or fail separately |
| SetModel.MenuListing | app/cli/cmd/set_model.go:389-402 | with the search's listing successful, a failed listing in the menu's "Select a model" exits, and a non-empty model id picked after a successful one is the role's pick |
| SetModel.Priority | app/cli/cmd/set_model.go:471-481 | a role edit writes the model id if one was selected, else the temperature if given, else top-p if given, else nothing |
| SetModel.EditConfig | app/cli/cmd/set_model.go:482-490 | one role's if-chain writes the root configuration the priority names |
| SetModel.WriteEdit | app/cli/cmd/set_model.go:466-553 | an unset pack becomes the default pack, then the role's root gets the edit; writing through an unset architect, coder or whole-file-builder crashes |
| SetModel.ApplyEditShape | app/cli/cmd/set_model.go:469-553 | a role edit changes at most one of model id, temperature and top-p of the addressed root, and nothing else in the pack |
| SetModel.EditSpecShape | app/cli/cmd/set_model.go:466-553 | the edit starts from the plan's pack (the default pack when unset), changes at most one field of the role's root and keeps the overrides it is given |
| SetModel.RoleSpecShape | app/cli/cmd/set_model.go:329-553 | the role path changes at most one field of that role's root, keeps every other role and every fallback child, and leaves max-tokens and max-convo-tokens alone |
| SetModel.EditRole | app/cli/cmd/set_model.go:329-553 | the role path (pick, value, edit) computes `RoleSpec` |
| SetModel.Apply | app/cli/cmd/set_model.go:277-557 | after the selection, the update stops only with nil for an interrupt or an invalid value, an exit, a restart or a crash |
| SetModel.UpdateModelSettings | app/cli/cmd/set_model.go:114-565 | the whole function computes `UpdateSpec`: the same selection, value parsing, edit and nil result |
| SetModel.PackReplacesOnlyPack | app/cli/cmd/set_model.go:555-557 | selecting a pack replaces the plan's pack wholesale and leaves the overrides untouched |
| SetModel.RoleEditTouchesOneRoot | app/cli/cmd/set_model.go:466-553 | a role update changes at most one field of that role's root; other roles and fallback children are unchanged; an unset pack is first replaced by the default pack |
| SetModel.ReservedNeverReachesRoles | app/cli/cmd/set_model.go:455-480 | after any role update the reserved-output-tokens of every role equals the starting pack's: that field is never written |
| SetModel.PickPaths | app/cli/cmd/set_model.go:330-415 | a named temperature or top-p skips the model search and is picked; with no property named the search cannot match, so the property menu decides (after the custom models are listed) |
| SetModel.ParseRange | app/cli/cmd/set_model.go:440-461 | a parsed property value names no model, a temperature lies in [-2, 2], a top-p in [0, 1], and only the reserved output tokens override may change |
| SetModel.RoleSpecRanges | app/cli/cmd/set_model.go:329-553 | whether the property is named or chosen from the menu, a role edit that goes through leaves the root's temperature unchanged or in [-2, 2] and its top-p unchanged or in [0, 1] |
| SetModel.UpdateRanges | app/cli/cmd/set_model.go:329-553 | the same range rule for the whole update: an updated role's temperature and top-p are unchanged or in range |
| SetModel.ReservedGoesToOverrides | app/cli/cmd/set_model.go:409-461 | "reserved-output-tokens", named or chosen from the property menu, with an integer value sets the override and leaves the pack as it was; a non-integer gives nil with no update |
| SetModel.RoleSpecReserved | app/cli/cmd/set_model.go:455-461 | once reserved output tokens are picked, by argument or from the menu, an integer value sets the override and leaves the pack as it was (the default pack when unset); a non-integer gives nil |
| SetModel.RoleSpecTemperature | app/cli/cmd/set_model.go:441-447 | once temperature is picked, by argument or from the menu, the value is parsed and accepted only within [-2, 2] |
| SetModel.TemperatureRange | app/cli/cmd/set_model.go:403-447 | a temperature, named or chosen from the menu, outside [-2, 2] or unparsable gives nil with no update; an accepted one is written to the role's root, and an unset optional role crashes |
| SetModel.RoleSpecTopP | app/cli/cmd/set_model.go:448-454 | once top-p is picked, by argument or from the menu, the value is parsed and accepted only within [0, 1] |
| SetModel.TopPRange | app/cli/cmd/set_model.go:406-454 | a top-p, named or chosen from the menu, outside [0, 1] or unparsable gives nil with no update; an accepted one is written to the role's root, and an unset optional role crashes |
| SetModel.ModelByArgument | app/cli/cmd/set_model.go:340-361 | a model named on the command line is written to the role's root model id |
| SetModel.NilIffUnchanged | app/cli/cmd/set_model.go:559-564 | an update returns the edited copy, which differs from the original; the "no change" nil is returned exactly when the selected path produced a copy equal to the original |
| CustomModels.ExampleTemplate | app/cli/cmd/models.go:938-1016 | the example document has one model and one pack; on cloud no custom provider and only the OpenRouter binding; otherwise the together.ai provider first; the pack's plan-summary uses the example model |
| CustomModels.ExampleBindingsResolve | app/cli/cmd/models.go:938-1016 | every custom-provider binding of the example model names a provider the document defines |
| CustomModels.TagLines | app/cli/cmd/models.go:448-506 | a report segment holds a line for a key exactly when the key is in the list and its membership in the map is as required |
| CustomModels.ChangeReport | app/cli/cmd/models.go:423-515 | the map-filling and builder loops produce `ReportSpec` |
| CustomModels.KeyMaps | app/cli/cmd/models.go:423-434 | the input key maps hold exactly the input keys of their kind; existsById (filled at lines 158-167) holds exactly the server's model ids, provider names and pack names |
| CustomModels.ReportClassification | app/cli/cmd/models.go:448-506 | a kept entity is Updated exactly when its key is in the one cross-kind existsById map, Added exactly when not; a server entity is Removed exactly when the input has no entity of its own kind with that key |
| CustomModels.CrossKindQuirk | app/cli/cmd/models.go:467-472 | a new model whose id equals an existing provider's name is reported as Updated, not Added |
| CustomModels.ReportOrder | app/cli/cmd/models.go:444-515 | the printed lines are Added, then Updated, then Removed, and within each group providers, models, packs |
| CustomModels.SelfDiffIsEmpty | app/cli/cmd/models.go:423-515 | saving the server's own document, with nothing left by FilterUnchanged, prints no line |
| CustomModels.ServerState | app/cli/cmd/models.go:109-150 | the listed models and packs are always the server state's; on cloud it has no providers, otherwise it is exactly what was listed |
| CustomModels.Manage | app/cli/cmd/models.go:175-421 | a report needs the fetch and the push to have succeeded; a cancel is the user's no to "Ready to save?"; the manual-edit hint comes only without --save and without an editor |
| CustomModels.Before | app/cli/cmd/models.go:187-369 | validation is reached only after a successful fetch: in save mode on the file as read, with nothing written; otherwise on the file re-read after the user confirmed in the editor, after the pre-edit writes |
| CustomModels.PreEdit | app/cli/cmd/models.go:211-323 | a stop before editing has written nothing and is an exit or a decline; with nothing on the server the only write is the marshalled example document; otherwise the local file must have been read and parsed |
| CustomModels.LocalDoc | app/cli/cmd/models.go:236-247 | the local document exists exactly when the file was read, and it is what unmarshalling its contents gives |
| CustomModels.Gate | app/cli/cmd/models.go:249-290 | on the default path, going on needs a readable sidecar, a hash, and either a hash equal to the sidecar text or the user's yes; it declines exactly on a differing hash and the user's no |
| CustomModels.Sync | app/cli/cmd/models.go:292-316 | the file is overwritten with the marshalled prepared server document exactly when it is not Equal to the local one, and the local hash is recorded last exactly when there is one; a failure writes nothing |
| CustomModels.Edit | app/cli/cmd/models.go:325-368 | the edited file is validated exactly when an editor opened, the user confirmed and the re-read succeeded; the manual-edit hint exactly when no editor opened; a cancel exactly on the user's no; no write is added |
| CustomModels.Submit | app/cli/cmd/models.go:373-421 | the schema failure and the duplicate failure each happen exactly when validation or the duplicate check fails; a report needs a successful push; anything appended starts with the push of the validated document |
| CustomModels.Conclude | app/cli/cmd/models.go:423-515 | no further effect; "no changes" exactly when the change report prints nothing, otherwise that report |
| CustomModels.PrepWrites | app/cli/cmd/models.go:211-316 | the pre-edit steps never push and write the sidecar only on the default path; when they stop they have written nothing |
| CustomModels.BeforeWrites | app/cli/cmd/models.go:186-370 | nothing before validation pushes, and a stop before it is an exit, a decline, the manual-edit hint or a cancel |
| CustomModels.SubmitWrites | app/cli/cmd/models.go:373-421 | validation only appends: nothing on a schema or duplicate failure or an empty document; otherwise a push of a valid non-empty document, then at most the sidecar write |
| CustomModels.PushedOnlyValid | app/cli/cmd/models.go:373-421 | the only document pushed is what schema validation returns for the submitted content, and it is duplicate-free and non-empty; and only a sidecar write follows it; every sidecar write is on the default path |
| CustomModels.RejectedStopsBeforePush | app/cli/cmd/models.go:373-388 | a schema or duplicate failure stops before the push and before the post-push sidecar write: nothing at all in save mode, otherwise exactly the pre-edit writes |
| CustomModels.EmptyInputNotPushed | app/cli/cmd/models.go:395-400 | an empty validated document prints "no changes" and adds no push and no sidecar write |
| CustomModels.GateOnlyOnDefaultPath | app/cli/cmd/models.go:249-252 | with a --file path neither the sidecar nor the confirmation answer changes anything |
| CustomModels.ConflictGate | app/cli/cmd/models.go:253-290 | on the default path a local hash different from the sidecar text ("" without a sidecar) needs confirmation: no stops with nothing written, an interrupted or failed prompt exits, yes goes on; a matching hash goes on without asking |
| CustomModels.DeclinedWritesNothing | app/cli/cmd/models.go:253-286 | declining stops with no effect at all, and only happens on the default path outside save mode |
| CustomModels.SaveMode | app/cli/cmd/models.go:198-209 | save mode on a missing file exits, and save mode never writes the models file |
| CustomModels.EmptyServerWritesTemplate | app/cli/cmd/models.go:210-228 | without --save an account with nothing on the server first gets the example document written |
| CustomModels.OverwriteOnlyWhenDifferent | app/cli/cmd/models.go:292-308 | past the conflict check, the local file is overwritten with the prepared server document exactly when the two are not Equal |
| CustomModels.ReportFollowsPush | app/cli/cmd/models.go:402-515 | a printed report follows a push of what validation returned for the submitted content, is the change report against the server state, and is not empty |
| Editors.Listed | app/cli/cmd/models.go:869-876 | the inner loop with break decides whether some found entry has the command |
| Editors.DetectEditors | app/cli/cmd/models.go:808-893 | the scan, append, stable sort and truncation compute `EditorsSpec` |
| Editors.Scan | app/cli/cmd/models.go:851-865 | the scan keeps, in list order, exactly the launchers on PATH that are not an unpreferred JetBrains launcher while `jb` is on PATH |
| Editors.AddPreferred | app/cli/cmd/models.go:867-880 | each preferred command on PATH that is not yet listed is appended once, as a bare candidate, in the order the preferred commands are visited |
| Editors.OfferedOnPath | app/cli/cmd/models.go:854-890 | at most five editors are offered, each on PATH |
| Editors.JetBrainsOnlyIfPreferred | app/cli/cmd/models.go:851-865 | with `jb` on PATH every JetBrains entry offered is a preferred one |
| Editors.OfferedDistinct | app/cli/cmd/models.go:867-880 | no command is offered twice, in particular a preferred command already in the list |
| Editors.PreferredComeFirst | app/cli/cmd/models.go:881-887 | preferred entries come before all others |
| Editors.PreferredFirstPermutes | app/cli/cmd/models.go:881-887 | the sort loses and adds nothing |
| Editors.PreferredOffered | app/cli/cmd/models.go:843-887 | every preferred command on PATH (at most two, from VISUAL and EDITOR) is offered |
| Editors.AppendedShape | app/cli/cmd/models.go:867-880 | appending preferred commands keeps the scanned list as a prefix and adds only bare entries for preferred commands |
| Editors.JbDropsItself | app/cli/cmd/models.go:861-863 | as written (with `jb` itself marked JetBrains at line 829), with only `jb` on PATH nothing is offered |
| Editors.IntendedOffersJb | app/cli/cmd/models.go:859-863 | with the universal launcher exempt, `jb` on PATH is offered whenever nothing is preferred |

## Left out

- The three list goroutines and their error channel are one input, `fetched`: either all succeed or the command exits.
- CustomModels.Manage: write errors are not modelled. A failing `MkdirAll`, a model-file write or a sidecar write exits in the source; the model treats every write as succeeding.
- CustomModels.Manage: the spinner, the colour codes, the printed paths and the manual-save hint are left out.
- JSON encoding is a parameter whose body is not modelled. Go's JSON deep copy of the plan settings is the value semantics of the datatypes.
- CustomModels.ReportClassification: the report compares against the server lists as fetched. In the edit path, `PrepareUpdate` may change the shared list elements in place before `FilterUnchanged` reads them. That aliasing is not modelled.
- `maybePromptAndOpen` is left out: the editor prompt and the process start. Whether an editor was opened is an input. It can also end the command, on a selection error (models.go:909-912) or a failed process start (models.go:926-930), after the pre-edit writes; the model cannot express that exit.
- The cmdPrefix REPL check is left out. So are the `pathArg` text and Cobra flag registration.
- Editors.DetectEditors: the parsing of VISUAL and EDITOR is not modelled. The source keeps the base name of the first field; the preferred commands are an input. A VISUAL or EDITOR made only of spaces indexes an empty field list in the source; that case is not modelled.
- Editors.DetectEditors: the order of the preferred commands is an input, because Go map iteration order is unspecified. The lemmas only use them as a set.
- Editors.DetectEditors: `sort.SliceStable`, in place, is modelled as the stable partition it computes (preferred first). It is not an in-place algorithm on an array.
- `strings.EqualFold` and `strings.ToLower` are modelled as ASCII case folding.
- Temperature and top-p are reals. The `float32` conversion, `ParseFloat` precision and `%.1f` formatting are left out.
- SetModel.ParseRange, SetModel.RoleSpecRanges, SetModel.UpdateRanges, SetModel.RoleSpecTemperature, SetModel.TemperatureRange, SetModel.RoleSpecTopP, SetModel.TopPRange: NaN is not modelled. `ParseFloat("NaN", 32)` succeeds, and NaN fails both comparisons of each range check (set_model.go:441-454), so the source stores a NaN temperature or top-p. These members' ranges hold only for the real values the `parseFloat` parameter returns.
- The roles' names and order (`AllModelRoles`) come from the shared package, which is not part of this model. The model uses the rendering order of models.go:772-781.
- `IsEmpty` of the shared package is not part of this model. It is taken to mean "no model, no provider and no pack".
- RoleTree.RenderModelPack: the nine `addModelRow` calls are a loop over the roles, and the table output is the row list. The tablewriter formatting is left out: column widths and alignment, and the fact that the temperature, top-p and "Max Input" columns are printed only with all properties on.
- RoleTree.NodeRow: `MaxTokens` and `RoleParamsDisabled` of a node's base model and `GetReservedOutputTokens` come from the shared package, which is not part of this model. They are the `BaseModels` parameter.
- RoleTree.EffectiveRoot: the fallbacks of `GetArchitect`, `GetCoder` and `GetWholeFileBuilder` (planner, builder and builder) are defined in the shared package, which is not part of this model. The model assumes those three fallbacks.
- SetModel.Menu: the "go back" entries restart the command recursively in the source. Here they are the `Restart` outcome.
- SetModel.PropertyMenu: the property menu is assumed to be left eventually, through a property, a model, an error or go back. This is the `PropertiesEnd` requirement; the source loops as long as the user keeps picking "select model" and choosing nothing.
- SetModel.Menu: the prompts return only entries of the lists shown. This is the `PromptsFit` requirement.
- SetModel.WriteEdit: the Planner branch that writes `reservedOutputTokens` is not modelled. That local is never assigned, so the branch cannot run (`ReservedNeverReachesRoles`).
- SetModel.WriteEdit: the global `DefaultModelPack` is assigned by pointer and then mutated, so the source changes the shared default. Packs are values here, so that aliasing is not modelled.
- Marshalling or unmarshalling the settings copy cannot fail in the model.
- The final "no model settings were updated" message is left out. So are the messages printed before each nil return.

## Findings

| source | as written | input that shows it | evidently intended | confidence | as-written member | corrected member |
|---|---|---|---|---|---|---|
| app/cli/cmd/models.go:829 | the universal launcher `jb` is marked `isJetBrains`, so when `jb` is on PATH it is dropped along with the per-IDE launchers it replaces (unless preferred) | only `jb` on PATH, VISUAL and EDITOR unset: no editor is offered | keep `jb` itself and drop only the per-IDE launchers | not executed | Editors.JbDropsItself | Editors.IntendedOffersJb |
