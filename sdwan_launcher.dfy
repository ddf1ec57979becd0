/**
 * The SD-WAN component VM (`Sdwan_component_vm`): its construction from the
 * classifier's profile and the boot configuration, the extra QEMU disks
 * (`add_disk`), the readiness tick (`bootstrap_spin`) and the data plane NIC
 * arguments (`gen_nics`).
 */
module SdwanLauncher {
  import opened Wrappers
  import opened Text
  import opened Console
  import opened Readiness
  import Utf8
  import opened SdwanClassifier
  import opened SdwanTemplate
  import opened SdwanCloudConfig

  const ImageName: string := "cloud_init.iso"
  const BootstrapFile: string := "/bootstrap_config.yaml"
  const ReadyPattern: string := "System Ready"
  /** The silence count past which a tick restarts the VM. */
  const SpinLimit: int := 6000
  const NicType: string := "virtio-net-pci"

  /** The image file `add_disk` uses for a disk of `size`. */
  function DiskFile(size: string): string {
    "disk_" + size + ".qcow2"
  }

  /** The QEMU arguments `add_disk` appends for a disk of `size` on interface `driveif`. */
  function DriveArgs(size: string, driveif: string): seq<string> {
    ["-drive", "if=" + driveif + ",file=" + DiskFile(size)]
  }

  /** The `qemu-img` run that creates a missing disk image. */
  function CreateDisk(size: string): Effect {
    Spawn(["qemu-img", "create", "-f", "qcow2", DiskFile(size), size])
  }

  /** The media creation of `create_boot_image`: the configuration written, then `cloud-localds` started. */
  function BootMediaEffects(config: string): seq<Effect> {
    [WriteFile(BootstrapFile, config), Spawn(["cloud-localds", "-v", "/" + ImageName, BootstrapFile])]
  }

  /** The QEMU arguments the constructor adds after the base VM's: the boot medium, the manager's data disk, the `ADD_DISK` disk. */
  function ExtraArgs(t: Option<string>, addDisk: Option<string>): seq<string> {
    ["-cdrom", "/" + ImageName]
    + (if t == Some("manager") then DriveArgs("50G", "virtio") else [])
    + (if addDisk.Some? then DriveArgs(addDisk.value, "ide") else [])
  }

  /** The image files the constructor's disks leave present: the manager's data disk and the `ADD_DISK` disk. */
  function DiskFiles(t: Option<string>, addDisk: Option<string>): set<string> {
    (if t == Some("manager") then {DiskFile("50G")} else {})
    + (if addDisk.Some? then {DiskFile(addDisk.value)} else {})
  }

  /** The image creations the constructor's disks ask for, given the files already present. */
  function DiskEffects(t: Option<string>, addDisk: Option<string>, present: set<string>): seq<Effect> {
    var data := t == Some("manager");
    var afterData := if data then present + {DiskFile("50G")} else present;
    (if data && DiskFile("50G") !in present then [CreateDisk("50G")] else [])
    + (if addDisk.Some? && DiskFile(addDisk.value) !in afterData then [CreateDisk(addDisk.value)] else [])
  }

  /** The two arguments pairs of data plane NIC `i`: a virtio device and its tap backend `pNN`. */
  function NicPair(i: nat, mac: int -> string): (r: seq<string>)
    ensures |r| == 4
  {
    var name := "p" + Pad2(i);
    [ "-device", NicType + ",netdev=" + name + ",mac=" + mac(i),
      "-netdev", "tap,ifname=" + name + ",id=" + name + ",script=no,downscript=no"]
  }

  /** The data plane NIC arguments for NICs 1 to `n - 1` (NIC 0 is the management NIC). */
  function NicArgs(n: int, mac: int -> string): seq<string>
    decreases n
  {
    if n <= 1 then [] else NicArgs(n - 1, mac) + NicPair(n - 1, mac)
  }

  /** Slices of a concatenation inside its first part, and its second part. */
  lemma AppendSlices<T>(a: seq<T>, b: seq<T>, x: nat, y: nat)
    requires x <= y <= |a|
    ensures (a + b)[x..y] == a[x..y]
    ensures (a + b)[|a|..] == b
  {
  }

  /** Appending one four-element group keeps the earlier groups in place and puts the new one last. */
  lemma AppendGroup(front: seq<string>, last: seq<string>, m: nat)
    requires |front| == 4 * m && |last| == 4
    ensures forall i :: 1 <= i <= m ==> (front + last)[4 * (i - 1)..4 * i] == front[4 * (i - 1)..4 * i]
    ensures (front + last)[4 * m..4 * (m + 1)] == last
  {
    forall i | 1 <= i <= m ensures (front + last)[4 * (i - 1)..4 * i] == front[4 * (i - 1)..4 * i] {
      assert 4 * (i - 1) < 4 * i <= |front|;
    }
  }

  /** NIC `i`'s four arguments sit at positions 4(i-1) to 4i, and there are no others. */
  lemma {:induction false} NicLayout(n: int, mac: int -> string)
    ensures |NicArgs(n, mac)| == if n <= 1 then 0 else 4 * (n - 1)
    ensures forall i :: 1 <= i < n ==> NicArgs(n, mac)[4 * (i - 1)..4 * i] == NicPair(i, mac)
    decreases n
  {
    if n > 1 {
      NicLayout(n - 1, mac);
      var front := NicArgs(n - 1, mac);
      var last := NicPair(n - 1, mac);
      assert NicArgs(n, mac) == front + last;
      AppendGroup(front, last, n - 2);
      assert 4 * (n - 2 + 1) == 4 * (n - 1);
    }
  }

  /** Below NIC 100 the tap interface names `p01`, `p02`, ... are pairwise distinct. */
  lemma NicNamesDistinct(i: nat, j: nat, mac: int -> string)
    requires i < 100 && j < 100 && i != j
    ensures NicPair(i, mac)[3] != NicPair(j, mac)[3]
  {
    var a, b := NicPair(i, mac)[3], NicPair(j, mac)[3];
    Pad2Value(i);
    Pad2Value(j);
    assert a[12..14] == Pad2(i);
    assert b[12..14] == Pad2(j);
  }

  class SdwanVm {
    var qemuArgs: seq<string>
    var spins: int
    var running: bool
    /** The effects asked for so far, in order. */
    ghost var effects: seq<Effect>
    /** The disk image files known to be present in the working directory. */
    ghost var present: set<string>
    const componentType: Option<string>
    const hostname: string
    const diskImage: string
    const ram: int
    const numNics: int
    const connMode: string

    /**
     * Lines 73-99 once the profile and the boot configuration are known: the
     * base VM's state, the boot medium created and attached, the manager's
     * 50G virtio data disk, then the `ADD_DISK` disk on IDE.
     */
    constructor(base: BaseVm, profile: Profile, hostname: string, nics: int, connMode: string,
                bootConfig: string, present: set<string>, addDisk: Option<string>)
      ensures qemuArgs == base.qemuArgs + ExtraArgs(profile.componentType, addDisk)
      ensures effects == BootMediaEffects(bootConfig) + DiskEffects(profile.componentType, addDisk, present)
      ensures spins == base.spins && running == base.running
      ensures componentType == profile.componentType && diskImage == profile.diskImage && ram == profile.ram
      ensures this.hostname == hostname && numNics == nics && this.connMode == connMode
      ensures this.present == present + DiskFiles(profile.componentType, addDisk)
    {
      qemuArgs := base.qemuArgs;
      spins, running := base.spins, base.running;
      componentType := profile.componentType;
      diskImage, ram := profile.diskImage, profile.ram;
      this.hostname, numNics, this.connMode := hostname, nics, connMode;
      effects := BootMediaEffects(bootConfig);
      this.present := present;
      new;
      qemuArgs := qemuArgs + ["-cdrom", "/" + ImageName];
      if componentType == Some("manager") {
        AddDisk("50G", "virtio");
      }
      if addDisk.Some? {
        AddDisk(addDisk.value, "ide");
      }
    }

    /** `add_disk`: create the image when it is missing, then attach it. */
    method AddDisk(size: string, driveif: string)
      modifies this
      ensures qemuArgs == old(qemuArgs) + DriveArgs(size, driveif)
      ensures effects == old(effects) + (if DiskFile(size) in old(present) then [] else [CreateDisk(size)])
      ensures present == old(present) + {DiskFile(size)}
      ensures spins == old(spins) && running == old(running)
    {
      var file := DiskFile(size);
      if file !in present {
        effects := effects + [CreateDisk(size)];
        present := present + {file};
      }
      qemuArgs := qemuArgs + ["-drive", "if=" + driveif + ",file=" + file];
    }

    /**
     * One readiness tick for the console read `r`. `raised` is set when the
     * output cannot be decoded for the log line, which ends the tick with an
     * exception.
     */
    method BootstrapSpin(r: ReadResult) returns (raised: bool)
      modifies this
      ensures
        var t := Step(SpinLimit, ReadyPattern, old(Spin(spins, running)), r, NoHook);
        spins == t.after.spins && running == t.after.running && effects == old(effects) + t.effects && raised == t.raised
      ensures qemuArgs == old(qemuArgs) && present == old(present)
    {
      raised := false;
      if spins > SpinLimit {
        // too many spins with no result: give up and restart
        effects := effects + [Stop, Start];
        return;
      }
      effects := effects + [Expect(ReadyPattern)];
      if r.matched {
        if r.index == 0 {
          effects := effects + [WaitWrite("")];
          running := true;
          effects := effects + [CloseConsole];
          return;
        }
      }
      if r.output != [] {
        if !Utf8.Valid(r.output) {
          // the output is decoded for the log line before the reset
          raised := true;
          return;
        }
        // output means the VM is still booting: start counting afresh
        spins := 0;
      }
      spins := spins + 1;
    }

    /** `gen_nics`: the arguments of the data plane NICs, one pair of pairs per NIC. */
    method GenNics(mac: int -> string) returns (res: seq<string>)
      ensures res == NicArgs(numNics, mac)
    {
      res := [];
      var i := 1;
      while i < numNics
        invariant 1 <= i && (i <= numNics || i == 1)
        invariant res == NicArgs(i, mac)
      {
        var name := "p" + Pad2(i);
        var device := ["-device", NicType + ",netdev=" + name + ",mac=" + mac(i)];
        var netdev := ["-netdev", "tap,ifname=" + name + ",id=" + name + ",script=no,downscript=no"];
        assert device + netdev == NicPair(i, mac);
        res := res + device;
        res := res + netdev;
        i := i + 1;
      }
    }
  }

  /**
   * `Sdwan_component_vm(...)`: classify the listing, let the base VM set up
   * (its state is `base`), then build the boot configuration and the VM. It
   * fails when no image is found or the configuration cannot be built.
   */
  method NewSdwanVm(listing: seq<string>, givenHostname: Option<string>, username: string, password: string,
                    nics: int, connMode: string, givenType: Option<string>, base: BaseVm,
                    userFiles: UserFiles, templates: map<string, string>, present: set<string>,
                    addDisk: Option<string>)
    returns (r: Result<SdwanVm, LaunchError>)
    ensures Classify(listing, givenType).None? ==> r == Failure(NoDiskImage)
    ensures Classify(listing, givenType).Some? ==>
      var profile := Classify(listing, givenType).value;
      var hostname := HostnameFor(givenHostname, profile.componentType);
      var id := Identity(hostname, username, password, base.mgmtAddress, base.mgmtGateway);
      match BootConfig(userFiles, id, profile.componentType, templates)
      case Failure(e) => r == Failure(e)
      case Success(config) =>
        && r.Success? && fresh(r.value)
        && r.value.qemuArgs == base.qemuArgs + ExtraArgs(profile.componentType, addDisk)
        && r.value.effects == BootMediaEffects(config) + DiskEffects(profile.componentType, addDisk, present)
        && r.value.componentType == profile.componentType && r.value.ram == profile.ram
        && r.value.diskImage == profile.diskImage && r.value.hostname == hostname
        && r.value.spins == base.spins && r.value.running == base.running
        && r.value.numNics == nics && r.value.connMode == connMode
        && r.value.present == present + DiskFiles(profile.componentType, addDisk)
  {
    var image, t := ScanImages(listing, givenType);
    if image.None? {
      return Failure(NoDiskImage);
    }
    var profile := Profile(image.value, t, RamFor(t));
    assert Classify(listing, givenType) == Some(profile);
    var hostname := HostnameFor(givenHostname, t);
    var id := Identity(hostname, username, password, base.mgmtAddress, base.mgmtGateway);
    var config := BootConfig(userFiles, id, t, templates);
    if config.Failure? {
      return Failure(config.error);
    }
    var vm := new SdwanVm(base, profile, hostname, nics, connMode, config.value, present, addDisk);
    r := Success(vm);
  }

  /** With no disk files present, the manager gets its data disk created and attached on virtio. */
  lemma ManagerDataDisk(addDisk: Option<string>)
    ensures DiskEffects(Some("manager"), addDisk, {})[0] == CreateDisk("50G")
    ensures ExtraArgs(Some("manager"), addDisk)[2..4] == ["-drive", "if=virtio,file=disk_50G.qcow2"]
  {
    assert DiskFile("50G") == "disk_50G.qcow2";
    assert "if=" + "virtio" + ",file=" + "disk_50G.qcow2" == "if=virtio,file=disk_50G.qcow2";
    var front := ["-cdrom", "/" + ImageName] + DriveArgs("50G", "virtio");
    assert front[2..4] == DriveArgs("50G", "virtio");
    AppendSlices(front, if addDisk.Some? then DriveArgs(addDisk.value, "ide") else [], 2, 4);
  }

  /** Only the manager gets a data disk: other types attach just the boot medium and the `ADD_DISK` disk. */
  lemma OtherTypesNoDataDisk(t: Option<string>, addDisk: Option<string>)
    requires t != Some("manager")
    ensures ExtraArgs(t, addDisk) == ["-cdrom", "/cloud_init.iso"] + (if addDisk.Some? then DriveArgs(addDisk.value, "ide") else [])
  {
    assert "/" + ImageName == "/cloud_init.iso";
    assert ["-cdrom", "/" + ImageName] + [] == ["-cdrom", "/cloud_init.iso"];
  }
}
