# Container launchers for SD-WAN components and FreeBSD, modelled in Dafny

Two vrnetlab launch scripts start a virtual appliance inside a container.
Each one picks the QEMU arguments, writes a cloud-init boot medium, and then
polls the serial console until the guest is ready.

- **SD-WAN launcher.** `cisco/sdwan-components/docker/launch.py` boots the
  Catalyst SD-WAN manager, controller or validator. It does the following:
  - finds the disk image and guesses the component type from the image's name;
  - chooses the RAM and the hostname;
  - renders a zcloud XML template, substituting the management address;
  - builds a `#cloud-config` document around that XML (data-disk setup and a
    persona file for the manager only), unless the user mounted a full
    cloud-init file or a zcloud file of their own;
  - attaches the boot medium and any extra disks;
  - builds the data plane NIC arguments;
  - runs a readiness tick that waits for `System Ready`.
- **FreeBSD launcher.** `freebsd/docker/launch.py` does the following:
  - builds a default cloud-init tree and deep-merges a user-supplied one on top;
  - restores a saved backup when the login prompt appears;
  - moves the management NIC onto PCI bus 1.

The model has one Dafny module per concern:

| module | file | what it holds |
|---|---|---|
| `Wrappers` | wrappers.dfy | `Option` and `Result` |
| `Text` | text.dfy | Python's `in`, `lower`, `replace`, `split`, `join` on strings, and decimal formatting |
| `Utf8` | utf8.dfy | strict UTF-8 decoding, as `bytes.decode()` performs it |
| `Console` | console.dfy | the console read result, the effects on the outside world, and the base VM's state |
| `Readiness` | readiness.dfy | the `bootstrap_spin` tick shared by both launchers |
| `SdwanClassifier` | sdwan_classifier.dfy | image, type, RAM and hostname selection |
| `SdwanClassifierExamples` | sdwan_classifier_examples.dfy | concrete directory listings |
| `SdwanTemplate` | sdwan_template.dfy | `load_template` |
| `SdwanCloudConfig` | sdwan_cloud_config.dfy | `gen_cloud_config` and the configuration-source precedence |
| `SdwanLauncher` | sdwan_launcher.dfy | the `SdwanVm` class: constructor, `add_disk`, `bootstrap_spin`, `gen_nics` |
| `CloudInitMerge` | cloud_init_merge.dfy | `_merge_cloud_init_config` on YAML trees |
| `FreeBsdLauncher` | freebsd_launcher.dfy | the default document, the restore hook, the `FreeBsdVm` class, `gen_mgmt` |

Pure logic is modelled as functions, and lemmas state its properties.

The parts of the source that update state are modelled as methods of a class
whose fields are the Python object's fields:
- `bootstrap_spin` updates `spins` and `running`;
- the constructor and `add_disk` extend `qemu_args`;
- `gen_nics` extends a local list;
- `gen_mgmt` overwrites an element of a list in place, which is modelled on an array.

Each such method is proved equal to a specification function (`Step`,
`NicArgs`, `FixMgmtBus`, `RenderTemplate`). The properties are proved about
those functions.

Effects on the outside world are recorded in order, in a ghost log of
`Effect` values:
- stop and start of the VM;
- console expect, write and close;
- `qemu-img` and `cloud-localds` runs;
- `/backup.sh`;
- file writes.

### Where the code and its description differ (the model follows the code)

- **Counter after console output.** Output without a match resets `spins` to
  0, and the tick then increments it, so the counter ends at 1, not 0.
- **When the restart happens.** The test `spins > limit` comes before the
  read. From a fresh counter, the first `limit + 1` silent ticks only count.
  The restart happens on the next tick (`Readiness.SilenceForcesRestart`).
- **The counter across a restart.** The restart branch itself does not touch
  `spins`. Whether the VM's `stop`/`start` reset it is decided by code that
  is not part of this model.
- **Image and type can come from different files.**
  - The disk image is the *last* listing entry matching `.qcow2$`.
  - The type is taken from the *first* matching entry whose name contains a
    keyword.
  - Both can be different files (`TypeAndImageFromDifferentFiles`).
- **The qcow2 pattern.** The dot in `.qcow2$` is unescaped, so `vbond_qcow2`
  is an image, and so is a name ending in `qcow2` followed by a newline.
- **No image found.** An empty listing fails because `disk_image` is unbound.
  The model reports `NoDiskImage`.
- **Hostname with no type.** With no hostname and no type, the hostname is
  `sdwan-None`.
- **Empty user files.**
  - An *empty* full cloud-init file falls back to the generated default,
    because of the `or`. The zcloud file is then ignored.
  - An empty zcloud file renders the template.
- **Errors in `load_template`.**
  - A management address without `/` makes `load_template` raise
    (`NoPrefix`).
  - A missing template file raises too (`TemplateMissing`).

## Model

| member | source | states |
|---|---|---|
| SdwanClassifier.LastImage | cisco/sdwan-components/docker/launch.py:52-54 | Specification function with no contract of its own: the image the scan settles on. `LastImageSpec` states its meaning. |
| SdwanClassifier.InferType | cisco/sdwan-components/docker/launch.py:55-63 | Specification function with no contract of its own: the type after the scan. `TypeKept`, `TypeFromFirstKeywordImage`, `TypeUnsetWithoutKeyword` and `KeywordPriority` state its meaning. |
| SdwanClassifier.RamFor | cisco/sdwan-components/docker/launch.py:66-71 | Specification function with no contract of its own: the RAM table with its 4096 default. `RamTable` states it. |
| SdwanClassifier.Classify | cisco/sdwan-components/docker/launch.py:52-75 | The result is absent exactly when no listing entry matches `.qcow2$`. Otherwise the image is the last matching entry, the type is the inferred one, and the RAM is the type's (one of 16384, 4096 and 2048). A given non-empty type is kept. |
| SdwanClassifier.ScanImages | cisco/sdwan-components/docker/launch.py:52-63 | The scanning loop ends with the last image of the listing and the inferred type. |
| SdwanClassifier.LastImageSpec | cisco/sdwan-components/docker/launch.py:52-54 | The chosen image is "/" plus a matching entry that has no matching entry after it. There is none exactly when nothing matches. |
| SdwanClassifier.TypeKept | cisco/sdwan-components/docker/launch.py:56 | An explicit, truthy type is never overwritten by the scan. |
| SdwanClassifier.TypeFromFirstKeywordImage | cisco/sdwan-components/docker/launch.py:55-63 | With no type given, the type is the one suggested by the first image name carrying a keyword. |
| SdwanClassifier.TypeUnsetWithoutKeyword | cisco/sdwan-components/docker/launch.py:55-63 | With no type given and no image name carrying a keyword, the type stays unset. |
| SdwanClassifier.KeywordPriority | cisco/sdwan-components/docker/launch.py:57-63 | Manager exactly when "manage" occurs in the lower-cased name. Controller when "smart" occurs but "manage" does not. Validator when only "bond" occurs. No type when none occurs. |
| SdwanClassifier.KeywordCaseInsensitive | cisco/sdwan-components/docker/launch.py:57 | A name and its lower-case form suggest the same type. |
| SdwanClassifier.RamTable | cisco/sdwan-components/docker/launch.py:66-71 | 16384 MB exactly for a manager, 2048 MB exactly for a validator, 4096 MB for every other type and for no type. |
| SdwanClassifier.HostnameFor | cisco/sdwan-components/docker/launch.py:82 | The given hostname unless it is None or empty; otherwise "sdwan-" followed by the type, printed as "None" when unset. |
| SdwanClassifierExamples.ManagerExample | cisco/sdwan-components/docker/launch.py:52-71 | `["bin", "vmanage-20.qcow2"]` boots `/vmanage-20.qcow2` as a manager with 16384 MB. |
| SdwanClassifierExamples.TypeAndImageFromDifferentFiles | cisco/sdwan-components/docker/launch.py:52-71 | `["vmanage.qcow2", "vsmart.qcow2"]` boots `/vsmart.qcow2`, as a manager with 16384 MB. |
| SdwanClassifierExamples.UnescapedDotExample | cisco/sdwan-components/docker/launch.py:53 | `vbond_qcow2` and `vbond.qcow2` followed by a newline are images; `qcow2` is not. |
| SdwanClassifierExamples.NoImageExample | cisco/sdwan-components/docker/launch.py:52-54 | A listing without an image gives no profile, even with a type given. |
| SdwanClassifierExamples.HostnameExamples | cisco/sdwan-components/docker/launch.py:82 | `sdwan-controller` by default for a controller; `sdwan-None` for an empty hostname with no type; a given hostname is kept. |
| SdwanTemplate.Render | cisco/sdwan-components/docker/launch.py:118-119 | Specification function with no contract of its own: one `replace` per key, in order. `RenderBraceFree`, `RenderUnchanged`, `RenderPieces` and `RenderKeys` state what it does. |
| SdwanTemplate.RenderTemplate | cisco/sdwan-components/docker/launch.py:101-121 | Specification function with no contract of its own: the file lookup, the substitutions and `Render`, with both failures. `LoadTemplate` is proved equal to it, and `LoadTemplateSubstitutes` states what the rendered text holds. |
| SdwanTemplate.Variables | cisco/sdwan-components/docker/launch.py:107-116 | Present exactly when the address has a `/`. The six keys come in order, paired with the hostname, username, password and gateway. The IP is the slash-free text before the first `/`. The prefix is the slash-free text after it, up to any next `/`. |
| SdwanTemplate.MgmtFields | cisco/sdwan-components/docker/launch.py:113-114 | Splitting an address with a `/` gives at least two pieces. The first is the slash-free start, followed by `/`. |
| SdwanTemplate.LoadTemplate | cisco/sdwan-components/docker/launch.py:101-121 | The substitution loop gives the rendered template of `/templates/<name>`. It fails when the file is missing or when the address has no `/`. |
| SdwanTemplate.RenderBraceFree | cisco/sdwan-components/docker/launch.py:118-119 | A template without `{` comes back unchanged. |
| SdwanTemplate.RenderUnchanged | cisco/sdwan-components/docker/launch.py:118-119 | A template containing none of the placeholders comes back unchanged. |
| SdwanTemplate.InertSkips | cisco/sdwan-components/docker/launch.py:118-119 | The replacement copies text in which no `{{` can start through unchanged, whatever follows it. |
| SdwanTemplate.SlotKept | cisco/sdwan-components/docker/launch.py:118-119 | The placeholder of a name that the key followed by ` }}` does not start is passed over whole. |
| SdwanTemplate.ReplaceStep | cisco/sdwan-components/docker/launch.py:118-119 | One `replace` on a template of literal pieces and `{{ name }}` slots turns every slot for the key into the value and keeps every other piece. This holds when the key has no space, no `{{` can start inside a literal or a slot's name, and every other slot's name is apart from the key (the key followed by ` }}` does not start the name followed by ` }}`). |
| SdwanTemplate.RenderPieces | cisco/sdwan-components/docker/launch.py:118-119 | The whole substitution loop on such a template fills every slot for a substituted name with the first value for it, and keeps the other slots and all literal text, in order. Slots may repeat. This holds when the keys have no space, no `{{` can start inside a literal, a slot's name or a value that fills a slot, and every slot's name is apart from each key other than its own. |
| SdwanTemplate.LookupFirst | cisco/sdwan-components/docker/launch.py:118-119 | When a name is substituted more than once, the first substitution is the one that takes effect. |
| SdwanTemplate.KeysUnrelated | cisco/sdwan-components/docker/launch.py:109-116 | The six keys have no `{` and no space, and no key followed by ` }}` starts another key followed by ` }}`. So each placeholder is matched only by its own key. |
| SdwanTemplate.RenderKeys | cisco/sdwan-components/docker/launch.py:108-119 | With the six keys substituted in order, every slot for a key holds that key's value, every other slot stays verbatim, and the literal text is kept. This holds when no `{{` can start inside a literal, a slot's name or a value that fills a slot, and no unknown slot's name starts with a key followed by ` }}`. |
| SdwanTemplate.LoadTemplateSubstitutes | cisco/sdwan-components/docker/launch.py:108-121 | The same for a VM's own values: each of the six placeholders renders as the VM's hostname, username, password, address, prefix or gateway, wherever and however often it occurs. |
| SdwanTemplate.RepeatedSlotExample | cisco/sdwan-components/docker/launch.py:108-119 | `{{ hostname }}-{{ hostname }} {{ host }}` with hostname `r1` renders as `r1-r1 {{ host }}`, whatever the other values. |
| SdwanTemplate.HostnameExample | cisco/sdwan-components/docker/launch.py:109-119 | `host={{ hostname }}` with hostname `r1` renders as `host=r1`, whatever the other values. |
| SdwanTemplate.UnknownKeyExample | cisco/sdwan-components/docker/launch.py:118-119 | `{{ foo }}` renders as itself. |
| SdwanCloudConfig.PersonaFor | cisco/sdwan-components/docker/launch.py:130-136 | Specification function with no contract of its own: the persona label and template per type, with the manager entry as fallback. `PersonalityLabel` and `UnrecognisedTypeFallsBack` state it. |
| SdwanCloudConfig.CloudConfigText | cisco/sdwan-components/docker/launch.py:144-185 | Specification function with no contract of its own: the generated document. `DocumentIsBlock`, `DocumentSplit`, `DocumentHeader`, `ManagerBlocksIff`, `ZcloudEmbedded` and `IndentRoundTrip` state its shape. |
| SdwanCloudConfig.GenCloudConfig | cisco/sdwan-components/docker/launch.py:136-142 | A non-empty custom zcloud text is embedded as it is. Otherwise the persona's template is rendered, and its failure is the call's failure. |
| SdwanCloudConfig.DocumentIsBlock | cisco/sdwan-components/docker/launch.py:144-185 | The document is its lines, each ended by a newline, block by block: the preamble's lines, then the indented XML lines. |
| SdwanCloudConfig.PreambleShape | cisco/sdwan-components/docker/launch.py:145-180 | The lines before the XML start with `#cloud-config`, include `write_files:` and the personality line, and end with `content: \|`. |
| SdwanCloudConfig.DocumentSplit | cisco/sdwan-components/docker/launch.py:144-185 | Splitting the document on newlines gives exactly its lines, then one empty piece. |
| SdwanCloudConfig.DocumentHeader | cisco/sdwan-components/docker/launch.py:145-164 | The document starts with `#cloud-config` and a newline, and it always has a `write_files:` line. |
| SdwanCloudConfig.MarkersInManagerBlocks | cisco/sdwan-components/docker/launch.py:147-172 | A manager's document has the `disk_setup:`, `fs_setup:`, `mounts:` and persona-file lines. |
| SdwanCloudConfig.MarkersOnlyInManagerBlocks | cisco/sdwan-components/docker/launch.py:147-172 | No other type's document has any of those lines, whatever the zcloud XML. |
| SdwanCloudConfig.ManagerBlocksIff | cisco/sdwan-components/docker/launch.py:147-172 | Each of those lines is in the document if and only if the type is exactly "manager". |
| SdwanCloudConfig.PersonalityLabel | cisco/sdwan-components/docker/launch.py:175-176 | The personality line carries the persona label of the type. |
| SdwanCloudConfig.ZcloudEmbedded | cisco/sdwan-components/docker/launch.py:180-183 | The zcloud XML comes last, right after `content: \|`. Every one of its lines appears there, prefixed by exactly four spaces. |
| SdwanCloudConfig.IndentRoundTrip | cisco/sdwan-components/docker/launch.py:182 | Removing the four spaces from the embedded lines and joining them gives back the XML. |
| SdwanCloudConfig.UnrecognisedTypeFallsBack | cisco/sdwan-components/docker/launch.py:130-148 | An unrecognised or missing type uses the manager's label and template, but gets no disk block. |
| SdwanCloudConfig.BootConfig | cisco/sdwan-components/docker/launch.py:189 | Specification function with no contract of its own: the user's configuration if truthy, otherwise the generated one. `FullFileVerbatim`, `ZcloudFileReplacesTemplate`, `DefaultConfig` and `BootConfigHeader` state the precedence. |
| SdwanCloudConfig.LoadUserConfig | cisco/sdwan-components/docker/launch.py:196-208 | A present full cloud-init file is returned as it is. With neither file present there is nothing. |
| SdwanCloudConfig.FullFileVerbatim | cisco/sdwan-components/docker/launch.py:189-201 | A non-empty full cloud-init file is the boot configuration verbatim. |
| SdwanCloudConfig.ZcloudFileReplacesTemplate | cisco/sdwan-components/docker/launch.py:203-206 | Without a full file, a non-empty zcloud file is embedded in place of the template. |
| SdwanCloudConfig.DefaultConfig | cisco/sdwan-components/docker/launch.py:189-213 | The default document is generated in three cases: with neither file, with an empty full file, and with an empty zcloud file. |
| SdwanCloudConfig.BootConfigHeader | cisco/sdwan-components/docker/launch.py:189-213 | Unless a full file is used, the boot configuration starts with the `#cloud-config` line. |
| SdwanLauncher.ExtraArgs | cisco/sdwan-components/docker/launch.py:90-99 | Specification function with no contract of its own: the arguments the constructor appends. `ManagerDataDisk`, `OtherTypesNoDataDisk` and the constructor's contract state them. |
| SdwanLauncher.DiskEffects | cisco/sdwan-components/docker/launch.py:92-99 | Specification function with no contract of its own: the image creations of the two `add_disk` calls, each only for an absent file. `ManagerDataDisk` and the constructor's contract state them. |
| SdwanLauncher.DiskFiles | cisco/sdwan-components/docker/launch.py:92-99 | Specification function with no contract of its own: the disk files the two `add_disk` calls leave present. The constructor's and `NewSdwanVm`'s contracts state them. |
| SdwanLauncher.SdwanVm.constructor | cisco/sdwan-components/docker/launch.py:73-99 | The base VM's arguments are followed by the cdrom, the manager's 50G virtio disk and the `ADD_DISK` IDE disk. The effects are the boot-medium creation and the missing disk images. Afterwards the files present are the earlier ones plus every disk file it attached. |
| SdwanLauncher.NewSdwanVm | cisco/sdwan-components/docker/launch.py:52-99 | It fails with no image, or when the boot configuration cannot be built. Otherwise it gives a fresh VM with the classified type, image and RAM, the default hostname, the given NIC count and connection mode, and the constructor's arguments and effects. |
| SdwanLauncher.SdwanVm.AddDisk | cisco/sdwan-components/docker/launch.py:260-274 | It appends `-drive if=<driveif>,file=disk_<size>.qcow2`. It creates the image only when it is not present. |
| SdwanLauncher.SdwanVm.BootstrapSpin | cisco/sdwan-components/docker/launch.py:215-248 | The tick is `Readiness.Step` with limit 6000, pattern `System Ready` and no post-boot action. It raises, with the counter unchanged, when unmatched output does not decode as UTF-8. |
| SdwanLauncher.NicArgs | cisco/sdwan-components/docker/launch.py:250-258 | Specification function with no contract of its own: the data-plane NIC arguments. `GenNics` is proved equal to it, and `NicLayout` and `NicNamesDistinct` state its layout. |
| SdwanLauncher.SdwanVm.GenNics | cisco/sdwan-components/docker/launch.py:250-258 | The loop gives `NicArgs(num_nics)`. |
| SdwanLauncher.NicLayout | cisco/sdwan-components/docker/launch.py:250-258 | There are 4(n-1) arguments. NIC i's device and tap backend sit at positions 4(i-1) to 4i. |
| SdwanLauncher.NicNamesDistinct | cisco/sdwan-components/docker/launch.py:256-257 | Below 100, different NICs get different tap interface names `pNN`. |
| SdwanLauncher.ManagerDataDisk | cisco/sdwan-components/docker/launch.py:92-94 | A manager, with no disk present, gets `disk_50G.qcow2` created and attached on virtio. |
| SdwanLauncher.OtherTypesNoDataDisk | cisco/sdwan-components/docker/launch.py:90-99 | Any other type attaches only the boot medium and the `ADD_DISK` disk. |
| Text.Pad2Value | cisco/sdwan-components/docker/launch.py:256 | `{i:02d}` consists of decimal digits and reads back as i. |
| Text.JoinSplit | cisco/sdwan-components/docker/launch.py:182 | Splitting on a character and joining the pieces with it gives back the text. |
| Readiness.Run | cisco/sdwan-components/docker/launch.py:215-248 | Specification function with no contract of its own: a sequence of ticks, stopping at the first one that raises. `QuietTicksCount`, `SilenceForcesRestart` and `OutputResetsSilence` state what it does to the counter. |
| Readiness.Step | cisco/sdwan-components/docker/launch.py:215-248 | Past the limit: stop and start, with no read and no counter change. Otherwise one read. A match at index 0 makes the VM ready only if the post-boot action returns, and then closes the console. Unmatched output that is not valid UTF-8 raises and leaves the state as it was. Other output resets the counter, leaving it at 1. Silence adds one. The tick raises exactly in those two cases. |
| Readiness.QuietTicksCount | cisco/sdwan-components/docker/launch.py:239-246 | Silent ticks below the limit count up by one each. |
| Readiness.SilenceForcesRestart | cisco/sdwan-components/docker/launch.py:218-246 | From 0, the first limit+1 silent ticks count from 0 to limit+1. The next tick stops and starts the VM. |
| Readiness.OutputResetsSilence | freebsd/docker/launch.py:192-199 | Without a match and with decodable output, the counter is the number of ticks since the last tick with output. The ticks before that one need only stay within the limit, so the whole run may be longer than the limit. |
| Readiness.SplitCharacterRaises | cisco/sdwan-components/docker/launch.py:241-242 | A character whose two bytes arrive in two reads makes both ticks raise. |
| Utf8.AsciiValid | cisco/sdwan-components/docker/launch.py:242 | ASCII output always decodes. |
| Utf8.ValidAppend | freebsd/docker/launch.py:195 | Two decodable pieces decode together. |
| Utf8.SplitCharacterExample | freebsd/docker/launch.py:195 | The two bytes of `é` decode together but not apart, and the byte 0xFF never decodes. |
| Readiness.SilenceResetExample | freebsd/docker/launch.py:192-199 | Output, four silent ticks, then output again leave the counter at 1. |
| CloudInitMerge.Merge | freebsd/docker/launch.py:70-83 | The keys are the union. One-sided keys keep their value. On shared keys, dicts merge recursively, lists concatenate with dest first, and otherwise src wins. The inputs are values and are not changed. |
| CloudInitMerge.MergeEmptySource | freebsd/docker/launch.py:72-78 | Merging an empty src gives dest. |
| CloudInitMerge.MergeEmptyDestination | freebsd/docker/launch.py:72-78 | Merging onto an empty dest gives src. |
| CloudInitMerge.MergeDisjoint | freebsd/docker/launch.py:72-78 | With disjoint keys the merge is the union, in either order. |
| CloudInitMerge.MergeSelf | freebsd/docker/launch.py:77-82 | A list-free document merged with itself is itself. |
| CloudInitMerge.MergeIdempotent | freebsd/docker/launch.py:72-83 | Merging the same list-free override a second time changes nothing. |
| CloudInitMerge.ListConcatExample | freebsd/docker/launch.py:81-82 | `{x: [1, 2]}` merged with `{x: [3]}` is `{x: [1, 2, 3]}`. |
| CloudInitMerge.MismatchExample | freebsd/docker/launch.py:72-82 | `{x: {a: 1}}` merged with `{x: [1]}` is `{x: [1]}`. |
| CloudInitMerge.DisjointExample | freebsd/docker/launch.py:72-78 | `{a: 1}` and `{b: 2}` merge to `{a: 1, b: 2}`, in either order. |
| FreeBsdLauncher.DefaultBootstrap | freebsd/docker/launch.py:87-108 | Specification function with no contract of its own: the default cloud-init tree. `DefaultDocument` and `DefaultsSurvive` state its fields. |
| FreeBsdLauncher.BootstrapData | freebsd/docker/launch.py:120-132 | There is no document exactly when reading the custom file raises an error that neither handler catches: a decode error of the text stream, or a timestamp that is no date. With no custom file, an `IOError` or a `yaml.YAMLError`, the document is the default. Otherwise its keys are the default's plus the custom file's. |
| FreeBsdLauncher.DefaultDocument | freebsd/docker/launch.py:87-108 | The fallback document has the hostname as hostname and fqdn, one wheel/sudo user, password SSH on, root login kept, UTC, and the command that disables cloud-init. |
| FreeBsdLauncher.CustomListsAppended | freebsd/docker/launch.py:120-126 | A custom `runcmd` or `users` list comes after the default entries. |
| FreeBsdLauncher.DefaultsSurvive | freebsd/docker/launch.py:120-126 | A default key that the custom document does not mention keeps its default value. |
| FreeBsdLauncher.CustomScalarsWin | freebsd/docker/launch.py:120-126 | A custom value for a scalar default replaces it. |
| FreeBsdLauncher.RestoreHook | freebsd/docker/launch.py:151-164 | No action when the backup is absent. Otherwise it runs `/backup.sh -u <user> -p <password> restore`, and its failure raises. |
| FreeBsdLauncher.FreeBsdVm.RestoreBackup | freebsd/docker/launch.py:151-164 | It runs the restore hook's effects, and reports its outcome. |
| FreeBsdLauncher.BootMediumEffects | freebsd/docker/launch.py:134-149 | Specification function with no contract of its own: the two file writes, then `cloud-localds`. The constructor's contract logs exactly these. |
| FreeBsdLauncher.NewFreeBsdVm | freebsd/docker/launch.py:56-68 | Construction fails, with nothing written, exactly when reading the custom file raises an uncaught error. Otherwise it gives a fresh VM whose document is `BootstrapData`, with the constructor's arguments and effects. |
| FreeBsdLauncher.FreeBsdVm.constructor | freebsd/docker/launch.py:56-68 | The base arguments are followed by the cdrom. The document is the one chosen. The effects write `/bootstrap_config.yaml` (`#cloud-config` and the dumped document) and `/network_config.yaml` (the dumped network data), then run `cloud-localds` with both. |
| FreeBsdLauncher.FreeBsdVm.BootstrapSpin | freebsd/docker/launch.py:166-201 | The tick is `Readiness.Step` with limit 600, pattern `login: ` and the restore hook, which runs before `running` is set. It raises, with the counter unchanged, when unmatched output does not decode as UTF-8. |
| FreeBsdLauncher.FixMgmtBus | freebsd/docker/launch.py:213-214 | It raises exactly when there are fewer than 3 elements. Only element len-3 may change. It gains `,bus=pci.1` exactly when it lacked `bus=pci.1`. |
| FreeBsdLauncher.FixMgmtBusIdempotent | freebsd/docker/launch.py:213-214 | After the fix-up the element names `bus=pci.1`, so a second fix-up changes nothing. |
| FreeBsdLauncher.FreeBsdVm.GenMgmt | freebsd/docker/launch.py:203-215 | The in-place update of the argument array is `FixMgmtBus` of its old contents. The array is unchanged when it is too short. |

## Left out

- Signal handlers, the `trace` logging patch, `logger` calls and the startup-time report: these are process-global plumbing and output only. The one exception is the trace line of unmatched console output: its argument decodes the output before the logger is called, and a failed decode is modelled as a raised tick.
- The argparse `__main__` blocks and the `Sdwan_component` and `FreeBSD` wrapper classes: these are command-line plumbing. The wrapper classes only build one VM.
- The vrnetlab `VM` base class is not part of this model. The following stand in for it:
  - its state (QEMU arguments, management address and gateway, counters) is the parameter `base`;
  - `gen_mac` is a function parameter;
  - the parent `gen_mgmt` result is `GenMgmt`'s input array;
  - `stop` and `start` are logged effects that change no field.
- The telnet transport: each tick's `(ridx, match, res)` is a parameter, and the one-second read timeout is not modelled.
- The file system and subprocesses: these are I/O. Their stand-ins are as follows:
  - file presence and contents are inputs: `UserFiles`, the `templates` map, the `present` set of disk files, and the backup flag;
  - writes and `qemu-img`, `cloud-localds` and `/backup.sh` runs are logged effects.
- The `ADD_DISK` environment variable is the parameter `addDisk`.
- SdwanLauncher.SdwanVm.AddDisk: it assumes `qemu-img create` succeeds and creates the file. Its failure is an external process error.
- FreeBsdLauncher.FreeBsdVm.RestoreBackup: only the script's failure (`check=True`) is modelled, as `ok == false`. Other exceptions of `subprocess.run` are external.
- FreeBsdLauncher.FreeBsdVm.constructor: lines 52-54 and the base VM's 512 MB are not modelled. Lines 52-54 are the disk image scan, the same as the SD-WAN scan without type inference. The base VM is given as `base`.
- YAML parsing and dumping: the configuration is modelled as a tree, not as text. The serialiser is the parameter `dump` of the FreeBSD constructor.
  - YAML mapping keys may be integers or booleans (`on:` loads as `True`), but the model's mapping keys are strings.
  - YAML scalars such as floats (`1.5`) and timestamps (`2024-01-01`) have no constructor of `Tree`. The merge treats every value that is neither a mapping nor a list alike (the source value wins), so no merge behaviour depends on them.
  - A custom file whose top level is not a mapping (such as an empty file, which loads as `None`) is not handled by the code. The parsed document is typed as a map.
- Key order of Python dicts: maps have no order here. The rendered template replaces the six keys in their fixed source order.
- Text.Lower: only ASCII case mapping. Python's full Unicode lowering is not modelled.
- SdwanTemplate.LoadTemplate: a missing template file is modelled as `TemplateMissing`. Other read errors are I/O.
- SdwanLauncher.NicNamesDistinct: it is stated for NICs below 100 only. Beyond that the names have three digits.
- SdwanTemplate.LoadTemplateSubstitutes, SdwanTemplate.RenderKeys, SdwanTemplate.RenderPieces, SdwanTemplate.ReplaceStep: templates whose literal text, slot names or substituted values can start a `{{` of their own, and slots whose name starts with a key followed by ` }}`, are not covered. There a replacement can begin inside one piece and end in the next.
