/**
 * The FreeBSD VM (`FreeBSD_vm`): the default cloud-init document and the
 * merge of a custom one (`create_boot_image`), the backup restore run once
 * the login prompt appears (`restore_backup`, `bootstrap_spin`), and the
 * management NIC's bus fix-up (`gen_mgmt`).
 */
module FreeBsdLauncher {
  import opened Wrappers
  import opened Console
  import opened Readiness
  import Utf8
  import opened CloudInitMerge
  import Text

  const BackupFile: string := "/config/backup.tar.gz"
  const ImageName: string := "cloud_init.iso"
  const ReadyPattern: string := "login: "
  /** The silence count past which a tick restarts the VM. */
  const SpinLimit: int := 600
  /** The first-boot command that turns cloud-init off for later boots. */
  const DisableCloudInit: string := "sed -i '' '/cloudinit_enable=\"YES\"/s/YES/NONE/' /etc/rc.conf"
  const BusSuffix: string := ",bus=pci.1"

  /** The one account the default document creates. */
  function DefaultUser(username: string, password: string): Tree {
    Dict(map[
      "name" := Str(username),
      "sudo" := Str("ALL=(ALL) NOPASSWD: ALL"),
      "groups" := Str("wheel"),
      "home" := Str("/usr/home/" + username),
      "shell" := Str("/bin/tcsh"),
      "plain_text_passwd" := Str(password),
      "lock_passwd" := Bool(false)])
  }

  /** The default cloud-init document of lines 87-108. */
  function DefaultBootstrap(hostname: string, username: string, password: string): map<string, Tree> {
    map[
      "hostname" := Str(hostname),
      "fqdn" := Str(hostname),
      "users" := List([DefaultUser(username, password)]),
      "ssh_pwauth" := Bool(true),
      "disable_root" := Bool(false),
      "timezone" := Str("UTC"),
      "runcmd" := List([Str(DisableCloudInit)])]
  }

  /** The network configuration written to `/network_config.yaml`: one static address on `vtnet0`. */
  const NetworkData: map<string, Tree> := map[
    "version" := Int(2),
    "ethernets" := Dict(map[
      "vtnet0" := Dict(map[
        "addresses" := List([Str("10.0.0.15/24")]),
        "gateway4" := Str("10.0.0.2")])])]

  /**
   * The files and the run that make the boot medium: the boot document after
   * a `#cloud-config` line, the network configuration, then `cloud-localds`
   * over both. `dump` is the YAML serialiser.
   */
  function BootMediumEffects(bootstrap: map<string, Tree>, dump: map<string, Tree> -> string): seq<Effect> {
    [ WriteFile("/bootstrap_config.yaml", "#cloud-config\n" + dump(bootstrap)),
      WriteFile("/network_config.yaml", dump(NetworkData)),
      Spawn(["cloud-localds", "-v", "--network-config=/network_config.yaml", "/" + ImageName, "/bootstrap_config.yaml"])]
  }

  /**
   * What reading `/config/cloud-init.yaml` gave: no file, an I/O error
   * (`IOError`), a YAML error (`yaml.YAMLError`), an error neither handler
   * catches, or a mapping. The uncaught errors are a `UnicodeDecodeError` of
   * the text stream for a file not valid in the locale's encoding, and the
   * `ValueError` of a timestamp that is no date (`2024-02-30`).
   */
  datatype CustomConfig = Absent | Unreadable | Unparseable | Crashes | Parsed(data: map<string, Tree>)

  /** A custom file whose reading fails in a way the code handles and so falls back to the default. */
  predicate FallsBack(custom: CustomConfig) {
    custom.Absent? || custom.Unreadable? || custom.Unparseable?
  }

  /**
   * The document written to the boot medium: the default, with a readable and
   * parseable custom document merged on top, or `None` when reading the custom
   * file raises an error that escapes `create_boot_image`.
   */
  function BootstrapData(hostname: string, username: string, password: string, custom: CustomConfig): (r: Option<map<string, Tree>>)
    ensures r.None? <==> custom.Crashes?
    ensures FallsBack(custom) ==> r == Some(DefaultBootstrap(hostname, username, password))
    ensures custom.Parsed? ==> r.Some? && r.value.Keys == DefaultBootstrap(hostname, username, password).Keys + custom.data.Keys
  {
    var defaults := DefaultBootstrap(hostname, username, password);
    match custom
    case Parsed(data) => Some(Merge(defaults, data))
    case Crashes => None
    case _ => Some(defaults)
  }

  /**
   * With no custom file, or one whose read raises `IOError` or whose parse
   * raises `yaml.YAMLError`, the document is the default: one wheel user with
   * password login, root login kept, UTC, and the command that disables
   * cloud-init.
   */
  lemma DefaultDocument(hostname: string, username: string, password: string, custom: CustomConfig)
    requires FallsBack(custom)
    ensures
      var d := BootstrapData(hostname, username, password, custom).value;
      && d["hostname"] == d["fqdn"] == Str(hostname)
      && d["users"] == List([DefaultUser(username, password)])
      && d["ssh_pwauth"] == Bool(true) && d["disable_root"] == Bool(false)
      && d["timezone"] == Str("UTC")
      && d["runcmd"] == List([Str(DisableCloudInit)])
  {
  }

  /** A custom `runcmd` or `users` list comes after the default entries, never in their place. */
  lemma CustomListsAppended(hostname: string, username: string, password: string, data: map<string, Tree>, key: string)
    requires key == "runcmd" || key == "users"
    requires key in data && data[key].List?
    ensures
      var defaults := DefaultBootstrap(hostname, username, password);
      BootstrapData(hostname, username, password, Parsed(data)).value[key] == List(defaults[key].items + data[key].items)
  {
  }

  /** Every default key survives a custom document; one the custom document does not mention keeps its default value. */
  lemma DefaultsSurvive(hostname: string, username: string, password: string, data: map<string, Tree>, key: string)
    requires key in DefaultBootstrap(hostname, username, password) && key !in data
    ensures BootstrapData(hostname, username, password, Parsed(data)).value[key] == DefaultBootstrap(hostname, username, password)[key]
  {
  }

  /** A custom value for a scalar default (hostname, fqdn, ssh_pwauth, disable_root, timezone) replaces it. */
  lemma CustomScalarsWin(hostname: string, username: string, password: string, data: map<string, Tree>, key: string)
    requires key in {"hostname", "fqdn", "ssh_pwauth", "disable_root", "timezone"} && key in data
    ensures BootstrapData(hostname, username, password, Parsed(data)).value[key] == data[key]
  {
    var defaults := DefaultBootstrap(hostname, username, password);
    assert defaults[key].Str? || defaults[key].Bool? by {
      assert key == "hostname" || key == "fqdn" || key == "ssh_pwauth" || key == "disable_root" || key == "timezone";
    }
  }

  /** The `/backup.sh` run that restores a saved backup. */
  function RestoreCommand(username: string, password: string): Effect {
    Shell("/backup.sh -u " + username + " -p " + password + " restore")
  }

  /**
   * `restore_backup` as the post-boot action of a tick: nothing when there is
   * no backup file; otherwise the restore script, whose failure raises.
   */
  function RestoreHook(backupPresent: bool, username: string, password: string, scriptOk: bool): (h: Hook)
    ensures !backupPresent ==> h == NoHook
    ensures backupPresent ==> h.effects == [RestoreCommand(username, password)] && (h.ok <==> scriptOk)
  {
    if !backupPresent then NoHook else Hook([RestoreCommand(username, password)], scriptOk)
  }

  /**
   * `gen_mgmt`'s fix-up of the parent's arguments: the element third from the
   * end gets `,bus=pci.1` unless it already mentions `bus=pci.1`. Fewer than
   * three arguments make `res[-3]` raise.
   */
  function FixMgmtBus(res: seq<string>): (r: Option<seq<string>>)
    ensures r.None? <==> |res| < 3
    ensures r.Some? ==> |r.value| == |res| && forall j :: 0 <= j < |res| && j != |res| - 3 ==> r.value[j] == res[j]
    ensures r.Some? ==>
      var i := |res| - 3;
      (if Text.Contains(res[i], "bus=pci.1") then r.value[i] == res[i] else r.value[i] == res[i] + BusSuffix)
  {
    if |res| < 3 then None
    else
      var i := |res| - 3;
      if Text.Contains(res[i], "bus=pci.1") then Some(res) else Some(res[i := res[i] + BusSuffix])
  }

  /** After the fix-up the element names bus `pci.1`, so a second fix-up changes nothing. */
  lemma FixMgmtBusIdempotent(res: seq<string>)
    requires |res| >= 3
    ensures FixMgmtBus(res).Some? && Text.Contains(FixMgmtBus(res).value[|res| - 3], "bus=pci.1")
    ensures FixMgmtBus(FixMgmtBus(res).value) == FixMgmtBus(res)
  {
    var i := |res| - 3;
    var fixed := FixMgmtBus(res).value;
    if !Text.Contains(res[i], "bus=pci.1") {
      Text.SuffixContained(res[i] + ",", "bus=pci.1");
      assert res[i] + "," + "bus=pci.1" == res[i] + BusSuffix;
    }
  }

  class FreeBsdVm {
    var qemuArgs: seq<string>
    var spins: int
    var running: bool
    /** The effects asked for so far, in order. */
    ghost var effects: seq<Effect>
    /** The document written to `/bootstrap_config.yaml` after the `#cloud-config` line. */
    const bootstrap: map<string, Tree>
    const hostname: string
    const username: string
    const password: string
    const numNics: int
    const connMode: string

    /**
     * Lines 56-68 from the base VM's state on, once the boot document is
     * known: the boot medium written and created, then attached.
     */
    constructor(base: BaseVm, hostname: string, username: string, password: string, nics: int, connMode: string,
                document: map<string, Tree>, dump: map<string, Tree> -> string)
      ensures qemuArgs == base.qemuArgs + ["-cdrom", "/" + ImageName]
      ensures bootstrap == document
      ensures effects == BootMediumEffects(document, dump)
      ensures spins == base.spins && running == base.running
      ensures this.hostname == hostname && this.username == username && this.password == password
      ensures numNics == nics && this.connMode == connMode
    {
      this.hostname, this.username, this.password := hostname, username, password;
      numNics, this.connMode := nics, connMode;
      spins, running := base.spins, base.running;
      bootstrap := document;
      effects := BootMediumEffects(document, dump);
      qemuArgs := base.qemuArgs + ["-cdrom", "/" + ImageName];
    }

    /** `restore_backup`: run the restore script when the backup file is present; `ok` is false when it fails. */
    method RestoreBackup(backupPresent: bool, scriptOk: bool) returns (ok: bool)
      modifies this
      ensures var h := RestoreHook(backupPresent, username, password, scriptOk);
        effects == old(effects) + h.effects && ok == h.ok
      ensures spins == old(spins) && running == old(running) && qemuArgs == old(qemuArgs)
    {
      if !backupPresent {
        return true;
      }
      effects := effects + [RestoreCommand(username, password)];
      ok := scriptOk;
    }

    /**
     * One readiness tick for the console read `r`; on the login prompt the
     * backup is restored before the VM counts as running. `raised` is set when
     * the restore script fails, or when the output cannot be decoded for the
     * log line; either ends the tick with an exception.
     */
    method BootstrapSpin(r: ReadResult, backupPresent: bool, scriptOk: bool) returns (raised: bool)
      modifies this
      ensures
        var t := Step(SpinLimit, ReadyPattern, old(Spin(spins, running)), r,
                      RestoreHook(backupPresent, username, password, scriptOk));
        spins == t.after.spins && running == t.after.running && effects == old(effects) + t.effects && raised == t.raised
      ensures qemuArgs == old(qemuArgs)
    {
      raised := false;
      if spins > SpinLimit {
        // too many spins with no result: give up and restart
        effects := effects + [Stop, Start];
        return;
      }
      effects := effects + [Expect(ReadyPattern)];
      if r.matched {
        if r.index == 0 {
          effects := effects + [WaitWrite("")];
          var ok := RestoreBackup(backupPresent, scriptOk);
          if !ok {
            raised := true;
            return;
          }
          running := true;
          effects := effects + [CloseConsole];
          return;
        }
      }
      if r.output != [] {
        if !Utf8.Valid(r.output) {
          // the output is decoded for the log line before the reset
          raised := true;
          return;
        }
        // output means the VM is still booting: start counting afresh
        spins := 0;
      }
      spins := spins + 1;
    }

    /** `gen_mgmt`'s fix-up, in place on the parent's argument list; `false` when it is too short and `res[-3]` raises. */
    method GenMgmt(res: array<string>) returns (ok: bool)
      modifies res
      ensures ok <==> FixMgmtBus(old(res[..])).Some?
      ensures ok ==> res[..] == FixMgmtBus(old(res[..])).value
      ensures !ok ==> res[..] == old(res[..])
    {
      if res.Length < 3 {
        return false;
      }
      var i := res.Length - 3;
      if !Text.Contains(res[i], "bus=pci.1") {
        res[i] := res[i] + BusSuffix;
      }
      ok := true;
    }
  }

  /**
   * `FreeBSD_vm(...)` from the base VM's state on: the boot document is
   * chosen, and construction raises, with nothing written, when reading the
   * custom file raises an error that no handler catches.
   */
  method NewFreeBsdVm(base: BaseVm, hostname: string, username: string, password: string, nics: int, connMode: string,
                      custom: CustomConfig, dump: map<string, Tree> -> string)
    returns (r: Option<FreeBsdVm>)
    ensures r.None? <==> custom.Crashes?
    ensures r.Some? ==>
      && fresh(r.value)
      && r.value.bootstrap == BootstrapData(hostname, username, password, custom).value
      && r.value.qemuArgs == base.qemuArgs + ["-cdrom", "/" + ImageName]
      && r.value.effects == BootMediumEffects(r.value.bootstrap, dump)
      && r.value.spins == base.spins && r.value.running == base.running
      && r.value.hostname == hostname && r.value.username == username && r.value.password == password
      && r.value.numNics == nics && r.value.connMode == connMode
  {
    var document := BootstrapData(hostname, username, password, custom);
    if document.None? {
      return None;
    }
    var vm := new FreeBsdVm(base, hostname, username, password, nics, connMode, document.value, dump);
    r := Some(vm);
  }
}
