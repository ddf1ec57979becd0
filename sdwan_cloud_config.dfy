/**
 * The SD-WAN launcher's cloud-config synthesiser (`gen_cloud_config`) and the
 * choice of the boot configuration (`create_boot_image`, `_load_user_config`,
 * `_generate_default_config`).
 */
module SdwanCloudConfig {
  import opened Wrappers
  import opened Text
  import opened SdwanTemplate
  import SdwanClassifier

  /** The persona label written to `/etc/default/personality` and the zcloud template for a component type. */
  datatype Persona = Persona(personality: string, template: string)

  /** The persona table of lines 130-136; any other or no type falls back to the manager's entry. */
  function PersonaFor(t: Option<string>): Persona {
    match t
    case Some("controller") => Persona("vsmart", "controller-zcloud.xml.j2")
    case Some("validator") => Persona("vbond", "validator-zcloud.xml.j2")
    case _ => Persona("vmanage", "manager-zcloud.xml.j2")
  }

  /** The disk-setup, fs_setup and mounts block, written for the manager only. */
  const DiskSetupLines: seq<string> := [
    "disk_setup:",
    "  /dev/vda:",
    "    table_type: mbr",
    "    layout: false",
    "    overwrite: false",
    "fs_setup:",
    "- device: /dev/vda",
    "  label: data",
    "  partition: none",
    "  filesystem: ext4",
    "  overwrite: false",
    "mounts:",
    "- [ /dev/vda, /opt/data ]"]

  /** The `/opt/web-app/etc/persona` entry of `write_files`, written for the manager only. */
  const PersonaFileLines: seq<string> := [
    "- path: /opt/web-app/etc/persona",
    "  owner: vmanage:vmanage-admin",
    "  permissions: '0644'",
    "  content: '{\"persona\":\"COMPUTE_AND_DATA\"}'"]

  /** The line that writes the persona label, with a backslash-n escape for the YAML string. */
  function PersonalityLine(personality: string): string {
    "  content: \"" + personality + "\\n\""
  }

  /** The root certificate entry, which names a path only. */
  const CaCertPath: string := "/usr/share/viptela/symantec-root-ca.crt"

  /** The `write_files` entries every component gets, up to the embedded zcloud XML. */
  function CommonLines(personality: string): seq<string> {
    [ "- path: /etc/default/personality",
      PersonalityLine(personality),
      "- path: /etc/default/inited",
      "  content: \"1\\n\"",
      "- path: " + CaCertPath,
      "- path: /etc/confd/init/zcloud.xml",
      "  content: |"]
  }

  /** Each line prefixed by four spaces. */
  function Indent(lines: seq<string>): (r: seq<string>)
    ensures |r| == |lines|
  {
    seq(|lines|, i requires 0 <= i < |lines| => "    " + lines[i])
  }

  /** Each line with its first four characters removed. */
  function Dedent(lines: seq<string>): seq<string>
    requires forall i :: 0 <= i < |lines| ==> |lines[i]| >= 4
  {
    seq(|lines|, i requires 0 <= i < |lines| => lines[i][4..])
  }

  /** What `gen_cloud_config` has accumulated before the embedded XML: the header, the manager's blocks, the common files. */
  function PreambleText(t: Option<string>): string {
    var manager := t == Some("manager");
    "#cloud-config\n"
    + (if manager then Terminated(DiskSetupLines) else "")
    + "write_files:\n"
    + (if manager then Terminated(PersonaFileLines) else "")
    + Terminated(CommonLines(PersonaFor(t).personality))
  }

  /** The document `gen_cloud_config` builds for component type `t` around the zcloud XML `xml`. */
  function CloudConfigText(t: Option<string>, xml: string): string {
    PreambleText(t) + Join("\n", Indent(Split(xml, '\n'))) + "\n"
  }

  /** The document's lines before the embedded XML, block by block. */
  function Preamble(t: Option<string>): seq<string> {
    var manager := t == Some("manager");
    ["#cloud-config"]
    + (if manager then DiskSetupLines else [])
    + ["write_files:"]
    + (if manager then PersonaFileLines else [])
    + CommonLines(PersonaFor(t).personality)
  }

  /** The document's lines: the preamble, then the indented XML (the last newline ends the last of them). */
  function DocumentLines(t: Option<string>, xml: string): seq<string> {
    Preamble(t) + Indent(Split(xml, '\n'))
  }

  /**
   * `gen_cloud_config`: a truthy custom zcloud text is embedded as it is;
   * otherwise the persona's template is rendered, and its failure is the
   * call's failure.
   */
  function GenCloudConfig(id: Identity, t: Option<string>, custom: Option<string>, templates: map<string, string>): (r: Result<string, LaunchError>)
    ensures SdwanClassifier.Truthy(custom) ==> r == Success(CloudConfigText(t, custom.value))
    ensures !SdwanClassifier.Truthy(custom) ==>
      match RenderTemplate(templates, PersonaFor(t).template, id)
      case Failure(e) => r == Failure(e)
      case Success(xml) => r == Success(CloudConfigText(t, xml))
  {
    if SdwanClassifier.Truthy(custom) then Success(CloudConfigText(t, custom.value))
    else
      match RenderTemplate(templates, PersonaFor(t).template, id)
      case Failure(e) => Failure(e)
      case Success(xml) => Success(CloudConfigText(t, xml))
  }

  /** No line of `lines` contains a newline. */
  predicate NewlineFree(lines: seq<string>) {
    forall i :: 0 <= i < |lines| ==> '\n' !in lines[i]
  }

  /** Newline-free line lists stay so when concatenated. */
  lemma NewlineFreeAppend(a: seq<string>, b: seq<string>)
    requires NewlineFree(a) && NewlineFree(b)
    ensures NewlineFree(a + b)
  {
    forall i | 0 <= i < |a + b| ensures '\n' !in (a + b)[i] {
      if i >= |a| {
        assert (a + b)[i] == b[i - |a|];
      }
    }
  }

  // The literal lines are checked a few at a time: each check walks every character.

  lemma DiskSetupHeadNewlineFree()
    ensures forall i :: 0 <= i < 5 ==> '\n' !in DiskSetupLines[i]
  {
    assert '\n' !in DiskSetupLines[0] && '\n' !in DiskSetupLines[1] && '\n' !in DiskSetupLines[2];
    assert '\n' !in DiskSetupLines[3] && '\n' !in DiskSetupLines[4];
  }

  lemma DiskSetupMiddleNewlineFree()
    ensures forall i :: 5 <= i < 10 ==> '\n' !in DiskSetupLines[i]
  {
    assert '\n' !in DiskSetupLines[5] && '\n' !in DiskSetupLines[6] && '\n' !in DiskSetupLines[7];
    assert '\n' !in DiskSetupLines[8] && '\n' !in DiskSetupLines[9];
  }

  lemma DiskSetupTailNewlineFree()
    ensures forall i :: 10 <= i < 13 ==> '\n' !in DiskSetupLines[i]
  {
    assert '\n' !in DiskSetupLines[10] && '\n' !in DiskSetupLines[11] && '\n' !in DiskSetupLines[12];
  }

  /** Every line of the disk-setup block is newline-free. */
  lemma DiskSetupNewlineFree()
    ensures NewlineFree(DiskSetupLines)
  {
    DiskSetupHeadNewlineFree();
    DiskSetupMiddleNewlineFree();
    DiskSetupTailNewlineFree();
  }

  lemma PersonaFileHeadNewlineFree()
    ensures '\n' !in PersonaFileLines[0] && '\n' !in PersonaFileLines[1]
  {
  }

  lemma PersonaFileTailNewlineFree()
    ensures '\n' !in PersonaFileLines[2] && '\n' !in PersonaFileLines[3]
  {
  }

  /** Every line of the persona file entry is newline-free. */
  lemma PersonaFileNewlineFree()
    ensures NewlineFree(PersonaFileLines)
  {
    PersonaFileHeadNewlineFree();
    PersonaFileTailNewlineFree();
    forall i | 0 <= i < |PersonaFileLines| ensures '\n' !in PersonaFileLines[i] {
      assert i == 0 || i == 1 || i == 2 || i == 3;
    }
  }

  lemma CommonHeadNewlineFree(personality: string)
    requires '\n' !in personality
    ensures forall i :: 0 <= i < 3 ==> '\n' !in CommonLines(personality)[i]
  {
    assert '\n' !in PersonalityLine(personality);
    assert '\n' !in CommonLines(personality)[0] && '\n' !in CommonLines(personality)[2];
  }

  lemma CommonMiddleNewlineFree(personality: string)
    ensures '\n' !in CommonLines(personality)[3] && '\n' !in CommonLines(personality)[4]
  {
    assert '\n' !in CaCertPath;
  }

  lemma CommonTailNewlineFree(personality: string)
    ensures '\n' !in CommonLines(personality)[5] && '\n' !in CommonLines(personality)[6]
  {
    var lines := CommonLines(personality);
    assert '\n' !in lines[5] && '\n' !in lines[6];
  }

  /** Every common line is newline-free when the persona label is. */
  lemma CommonNewlineFree(personality: string)
    requires '\n' !in personality
    ensures NewlineFree(CommonLines(personality))
  {
    CommonHeadNewlineFree(personality);
    CommonMiddleNewlineFree(personality);
    CommonTailNewlineFree(personality);
    forall i | 3 <= i < 7 ensures '\n' !in CommonLines(personality)[i] {
      assert i == 3 || i == 4 || i == 5 || i == 6;
    }
  }

  /** The preamble is newline-free. */
  lemma PreambleNewlineFree(t: Option<string>)
    ensures NewlineFree(Preamble(t))
  {
    var manager := t == Some("manager");
    var p := PersonaFor(t).personality;
    var disk := if manager then DiskSetupLines else [];
    var persona := if manager then PersonaFileLines else [];
    DiskSetupNewlineFree();
    PersonaFileNewlineFree();
    assert NewlineFree(disk) && NewlineFree(persona);
    assert '\n' !in p;
    CommonNewlineFree(p);
    NewlineFreeAppend(["#cloud-config"], disk);
    NewlineFreeAppend(["#cloud-config"] + disk, ["write_files:"]);
    NewlineFreeAppend(["#cloud-config"] + disk + ["write_files:"], persona);
    NewlineFreeAppend(["#cloud-config"] + disk + ["write_files:"] + persona, CommonLines(p));
  }

  /** The indented lines of a newline split are newline-free. */
  lemma IndentedNewlineFree(xml: string)
    ensures NewlineFree(Indent(Split(xml, '\n')))
  {
    SplitPiecesFree(xml, '\n');
    var pieces := Split(xml, '\n');
    forall i | 0 <= i < |pieces| ensures '\n' !in Indent(pieces)[i] {
      assert Indent(pieces)[i] == "    " + pieces[i];
    }
  }

  /** The preamble starts with the header line, has a `write_files:` line and the personality line, and ends with `content: |`. */
  lemma PreambleShape(t: Option<string>)
    ensures |Preamble(t)| >= 9
    ensures Preamble(t)[0] == "#cloud-config"
    ensures "write_files:" in Preamble(t)
    ensures PersonalityLine(PersonaFor(t).personality) in Preamble(t)
    ensures Preamble(t)[|Preamble(t)| - 1] == "  content: |"
  {
    var manager := t == Some("manager");
    var front := ["#cloud-config"] + (if manager then DiskSetupLines else []) + ["write_files:"];
    var rest := (if manager then PersonaFileLines else []) + CommonLines(PersonaFor(t).personality);
    assert Preamble(t) == front + rest;
    assert front[|front| - 1] == "write_files:";
    var common := CommonLines(PersonaFor(t).personality);
    assert rest[|rest| - 7..] == common;
    assert rest[|rest| - 6] == common[1];
  }

  /** Five blocks written one after the other are the block of all their lines. */
  lemma BlocksJoin(a: seq<string>, b: seq<string>, c: seq<string>, d: seq<string>, e: seq<string>)
    ensures Terminated(a) + Terminated(b) + Terminated(c) + Terminated(d) + Terminated(e) == Terminated(a + b + c + d + e)
  {
    TerminatedAppend(a, b);
    TerminatedAppend(a + b, c);
    TerminatedAppend(a + b + c, d);
    TerminatedAppend(a + b + c + d, e);
  }

  /** The two single-line blocks of the document. */
  lemma HeaderBlocks()
    ensures "#cloud-config" + "\n" == "#cloud-config\n"
    ensures Terminated(["#cloud-config"]) == "#cloud-config\n"
    ensures Terminated(["write_files:"]) == "write_files:\n"
  {
    assert ["#cloud-config"][1..] == [] && ["write_files:"][1..] == [];
  }

  /** The preamble's text is the block of the preamble's lines. */
  lemma PreambleIsBlock(t: Option<string>)
    ensures PreambleText(t) == Terminated(Preamble(t))
  {
    var manager := t == Some("manager");
    var disk := if manager then DiskSetupLines else [];
    var persona := if manager then PersonaFileLines else [];
    HeaderBlocks();
    BlocksJoin(["#cloud-config"], disk, ["write_files:"], persona, CommonLines(PersonaFor(t).personality));
  }

  /** The document is the block of the preamble's lines followed by the block of the indented XML lines. */
  lemma DocumentIsBlock(t: Option<string>, xml: string)
    ensures CloudConfigText(t, xml) == Terminated(Preamble(t)) + Terminated(Indent(Split(xml, '\n')))
    ensures CloudConfigText(t, xml) == Terminated(DocumentLines(t, xml))
  {
    var zcloud := Indent(Split(xml, '\n'));
    PreambleIsBlock(t);
    JoinTerminated(zcloud);
    AppendAssoc(PreambleText(t), Join("\n", zcloud), "\n");
    TerminatedAppend(Preamble(t), zcloud);
  }

  /**
   * The document read back as lines: exactly its blocks' lines, in order,
   * followed by the empty piece after the final newline.
   */
  lemma DocumentSplit(t: Option<string>, xml: string)
    ensures Split(CloudConfigText(t, xml), '\n') == DocumentLines(t, xml) + [""]
  {
    var lines := DocumentLines(t, xml);
    PreambleNewlineFree(t);
    IndentedNewlineFree(xml);
    NewlineFreeAppend(Preamble(t), Indent(Split(xml, '\n')));
    DocumentIsBlock(t, xml);
    SplitTerminated(lines, "");
    assert Terminated(lines) + "" == Terminated(lines);
  }

  /** The document always starts with the `#cloud-config` header line and always has a `write_files:` line. */
  lemma DocumentHeader(t: Option<string>, xml: string)
    ensures IsPrefix("#cloud-config\n", CloudConfigText(t, xml))
    ensures Split(CloudConfigText(t, xml), '\n')[0] == "#cloud-config"
    ensures "write_files:" in Split(CloudConfigText(t, xml), '\n')
  {
    var doc := CloudConfigText(t, xml);
    DocumentSplit(t, xml);
    PreambleShape(t);
    var lines := Split(doc, '\n');
    assert lines == Preamble(t) + (Indent(Split(xml, '\n')) + [""]);
    assert lines[0] == Preamble(t)[0];
    SplitFirstPiece(doc, '\n');
    HeaderBlocks();
  }

  /** The lines that mark the manager-only blocks. */
  const ManagerMarkers: seq<string> := ["disk_setup:", "fs_setup:", "mounts:", "- path: /opt/web-app/etc/persona"]

  /** No line but the manager-only ones is a marker: the others start differently or are different literals. */
  lemma MarkersOnlyInManagerBlocks(t: Option<string>, xml: string, h: string)
    requires h in ManagerMarkers && t != Some("manager")
    ensures h !in DocumentLines(t, xml)
  {
    var p := PersonaFor(t).personality;
    var zcloud := Indent(Split(xml, '\n'));
    assert DocumentLines(t, xml) == ["#cloud-config", "write_files:"] + CommonLines(p) + zcloud;
    assert h[0] != ' ' && h != PersonalityLine(p);
    assert h !in CommonLines(p);
    forall i | 0 <= i < |zcloud| ensures zcloud[i] != h {
      assert zcloud[i][0] == ' ';
    }
  }

  /** The manager's document has every marker line, in its disk-setup block or its persona file entry. */
  lemma MarkersInManagerBlocks(xml: string, h: string)
    requires h in ManagerMarkers
    ensures h in DocumentLines(Some("manager"), xml)
  {
    var front := ["#cloud-config"] + DiskSetupLines + ["write_files:"] + PersonaFileLines;
    assert DocumentLines(Some("manager"), xml) == front + (CommonLines("vmanage") + Indent(Split(xml, '\n')));
    assert front[1] == "disk_setup:" && front[6] == "fs_setup:" && front[12] == "mounts:";
    assert front[15] == "- path: /opt/web-app/etc/persona";
    assert h in front;
  }

  /**
   * The disk-setup, fs_setup and mounts block and the persona file entry are
   * lines of the document exactly when the type is `manager` (an unrecognised
   * type gets neither).
   */
  lemma ManagerBlocksIff(t: Option<string>, xml: string, h: string)
    requires h in ManagerMarkers
    ensures h in Split(CloudConfigText(t, xml), '\n') <==> t == Some("manager")
  {
    DocumentSplit(t, xml);
    assert h != "";
    if t == Some("manager") {
      MarkersInManagerBlocks(xml, h);
    } else {
      MarkersOnlyInManagerBlocks(t, xml, h);
    }
  }

  /** The personality line carries the type's persona label. */
  lemma PersonalityLabel(t: Option<string>, xml: string)
    ensures PersonalityLine(PersonaFor(t).personality) in Split(CloudConfigText(t, xml), '\n')
  {
    DocumentSplit(t, xml);
    PreambleShape(t);
    assert Split(CloudConfigText(t, xml), '\n') == Preamble(t) + (Indent(Split(xml, '\n')) + [""]);
  }

  /**
   * The zcloud XML is embedded last, right after `content: |`: every one of its
   * lines (split on newline) prefixed by exactly four spaces.
   */
  lemma ZcloudEmbedded(t: Option<string>, xml: string)
    ensures
      var lines := Split(CloudConfigText(t, xml), '\n');
      var pieces := Split(xml, '\n');
      var k := |lines| - 1 - |pieces|;
      && k >= 1
      && lines[k - 1] == "  content: |"
      && lines[k..|lines| - 1] == Indent(pieces)
      && (forall i :: 0 <= i < |pieces| ==> lines[k + i] == "    " + pieces[i])
      && lines[|lines| - 1] == ""
  {
    DocumentSplit(t, xml);
    PreambleShape(t);
    var lines := Split(CloudConfigText(t, xml), '\n');
    var pieces := Split(xml, '\n');
    var zcloud := Indent(pieces);
    var before := Preamble(t);
    assert lines == before + zcloud + [""];
    LastBlock(before, zcloud, lines);
    forall i | 0 <= i < |pieces| ensures lines[|before| + i] == "    " + pieces[i] {
      assert zcloud[i] == "    " + pieces[i];
    }
  }

  /** Where a block sits in `before + block + [""]`: right after `before`'s last line and before the final empty line. */
  lemma LastBlock(before: seq<string>, block: seq<string>, lines: seq<string>)
    requires |before| >= 1 && lines == before + block + [""]
    ensures |lines| - 1 - |block| == |before|
    ensures lines[|before| - 1] == before[|before| - 1]
    ensures lines[|before|..|lines| - 1] == block
    ensures forall i :: 0 <= i < |block| ==> lines[|before| + i] == block[i]
    ensures lines[|lines| - 1] == ""
  {
  }

  /** Removing the four-space indentation from the embedded lines and joining them restores the zcloud XML. */
  lemma IndentRoundTrip(xml: string)
    ensures Join("\n", Dedent(Indent(Split(xml, '\n')))) == xml
  {
    var pieces := Split(xml, '\n');
    assert Dedent(Indent(pieces)) == pieces;
    JoinSplit(xml, '\n');
  }

  /** An unrecognised or missing type gets the manager's persona label and template, but no disk block. */
  lemma UnrecognisedTypeFallsBack(t: Option<string>, xml: string)
    requires t !in {Some("manager"), Some("controller"), Some("validator")}
    ensures PersonaFor(t) == Persona("vmanage", "manager-zcloud.xml.j2")
    ensures "disk_setup:" !in Split(CloudConfigText(t, xml), '\n')
  {
    ManagerBlocksIff(t, xml, "disk_setup:");
  }

  /** The two configuration files that may be mounted under `/config`: absent, or present with their text. */
  datatype UserFiles = UserFiles(cloudInit: Option<string>, zcloud: Option<string>)

  /**
   * `_load_user_config`: a present full cloud-init file is returned as it
   * is; otherwise a present zcloud file is embedded; otherwise nothing.
   */
  function LoadUserConfig(files: UserFiles, id: Identity, t: Option<string>, templates: map<string, string>): (r: Result<Option<string>, LaunchError>)
    ensures files.cloudInit.Some? ==> r == Success(files.cloudInit)
    ensures files.cloudInit.None? && files.zcloud.None? ==> r == Success(None)
  {
    if files.cloudInit.Some? then Success(files.cloudInit)
    else if files.zcloud.Some? then
      match GenCloudConfig(id, t, files.zcloud, templates)
      case Failure(e) => Failure(e)
      case Success(doc) => Success(Some(doc))
    else Success(None)
  }

  /** `create_boot_image`'s `self._load_user_config() or self._generate_default_config()`: an empty user result falls back. */
  function BootConfig(files: UserFiles, id: Identity, t: Option<string>, templates: map<string, string>): Result<string, LaunchError> {
    match LoadUserConfig(files, id, t, templates)
    case Failure(e) => Failure(e)
    case Success(user) =>
      if SdwanClassifier.Truthy(user) then Success(user.value) else GenCloudConfig(id, t, None, templates)
  }

  /** A present, non-empty full cloud-init file is the boot configuration verbatim, whatever else is present. */
  lemma FullFileVerbatim(files: UserFiles, id: Identity, t: Option<string>, templates: map<string, string>)
    requires files.cloudInit.Some? && files.cloudInit.value != ""
    ensures BootConfig(files, id, t, templates) == Success(files.cloudInit.value)
  {
  }

  /**
   * Without a full file, a non-empty zcloud file is embedded in place of the
   * rendered template, so the template files are not consulted at all.
   */
  lemma ZcloudFileReplacesTemplate(files: UserFiles, id: Identity, t: Option<string>, templates: map<string, string>)
    requires files.cloudInit.None? && files.zcloud.Some? && files.zcloud.value != ""
    ensures BootConfig(files, id, t, templates) == Success(CloudConfigText(t, files.zcloud.value))
  {
    DocumentHeader(t, files.zcloud.value);
  }

  /**
   * With neither file the default document is generated. So it is with an
   * empty full file (the `or` falls back, and a zcloud file is then ignored),
   * and with an empty zcloud file (`custom_zcloud` is falsy).
   */
  lemma DefaultConfig(files: UserFiles, id: Identity, t: Option<string>, templates: map<string, string>)
    requires
      || (files.cloudInit.None? && files.zcloud.None?)
      || files.cloudInit == Some("")
      || (files.cloudInit.None? && files.zcloud == Some(""))
    ensures BootConfig(files, id, t, templates) == GenCloudConfig(id, t, None, templates)
  {
    if files.cloudInit.None? && files.zcloud == Some("") {
      match RenderTemplate(templates, PersonaFor(t).template, id)
      case Failure(_) =>
      case Success(xml) => DocumentHeader(t, xml);
    }
  }

  /** The document generated for any configuration source starts with the `#cloud-config` line, unless it is a full file. */
  lemma BootConfigHeader(files: UserFiles, id: Identity, t: Option<string>, templates: map<string, string>)
    requires files.cloudInit.None? || files.cloudInit == Some("")
    requires BootConfig(files, id, t, templates).Success?
    ensures IsPrefix("#cloud-config\n", BootConfig(files, id, t, templates).value)
  {
    var r := BootConfig(files, id, t, templates);
    if files.cloudInit.None? && SdwanClassifier.Truthy(files.zcloud) {
      DocumentHeader(t, files.zcloud.value);
    } else {
      DefaultConfig(files, id, t, templates);
      var xml := RenderTemplate(templates, PersonaFor(t).template, id).value;
      DocumentHeader(t, xml);
    }
  }
}
