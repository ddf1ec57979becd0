/** Concrete directory listings run through the SD-WAN classifier. */
module SdwanClassifierExamples {
  import opened Wrappers
  import opened Text
  import opened SdwanClassifier

  /** A lower-case name is its own lower-case form. */
  lemma LowerFixed(name: string)
    requires forall i :: 0 <= i < |name| ==> !('A' <= name[i] <= 'Z')
    ensures Lower(name) == name
  {
    forall i | 0 <= i < |name| ensures Lower(name)[i] == name[i] { }
  }

  /** A manager image next to a plain file: the image is booted as a manager with 16 GB. */
  lemma ManagerExample()
    ensures Classify(["bin", "vmanage-20.qcow2"], None) == Some(Profile("/vmanage-20.qcow2", Some("manager"), 16384))
  {
    var name := "vmanage-20.qcow2";
    var listing := ["bin", name];
    LowerFixed(name);
    assert OccursAt(name, "manage", 1);
    ContainsAt(name, "manage", 1);
    assert KeywordType(name) == Some("manager");
    assert name[|name| - 5..] == "qcow2";
    assert IsDiskImage(name);
    assert LastImage(listing) == Some("/" + name);
    assert !IsDiskImage("bin");
    TypeFromFirstKeywordImage(listing, None, 1);
    assert "/" + name == "/vmanage-20.qcow2";
  }

  /**
   * Two images: the type comes from the first (a manager), the booted image is
   * the last (the controller's), and the RAM follows the type.
   */
  lemma TypeAndImageFromDifferentFiles()
    ensures Classify(["vmanage.qcow2", "vsmart.qcow2"], None) == Some(Profile("/vsmart.qcow2", Some("manager"), 16384))
  {
    var first, second := "vmanage.qcow2", "vsmart.qcow2";
    var listing := [first, second];
    LowerFixed(first);
    assert OccursAt(first, "manage", 1);
    ContainsAt(first, "manage", 1);
    assert first[|first| - 5..] == "qcow2";
    assert second[|second| - 5..] == "qcow2";
    TypeFromFirstKeywordImage(listing, None, 0);
    assert LastImage(listing) == Some("/" + second);
    assert "/" + second == "/vsmart.qcow2";
  }

  /** The dot of `.qcow2$` is not escaped: any character before `qcow2` matches, and so does a final newline. */
  lemma UnescapedDotExample()
    ensures IsDiskImage("vbond_qcow2")
    ensures IsDiskImage("vbond.qcow2\n")
    ensures !IsDiskImage("qcow2")
  {
    var s := "vbond_qcow2";
    assert s[|s| - 5..] == "qcow2";
    var t := "vbond.qcow2\n";
    assert t[..|t| - 1] == "vbond.qcow2";
    var u := t[..|t| - 1];
    assert u[|u| - 5..] == "qcow2";
  }

  /** A listing without an image gives no profile, even with a type given. */
  lemma NoImageExample()
    ensures Classify(["bin", "etc", "image.qcow"], Some("manager")).None?
  {
    assert !IsDiskImage("image.qcow");
  }

  /** The hostname default spells out the type, `None` included; an empty hostname counts as none. */
  lemma HostnameExamples()
    ensures HostnameFor(None, Some("controller")) == "sdwan-controller"
    ensures HostnameFor(Some(""), None) == "sdwan-None"
    ensures HostnameFor(Some("edge1"), Some("manager")) == "edge1"
  {
  }
}
