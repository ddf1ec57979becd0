/**
 * The SD-WAN launcher's component classifier (`Sdwan_component_vm.__init__`):
 * which disk image to boot, which component type it is, how much RAM it gets
 * and which hostname it uses, all decided from the root directory listing and
 * the command-line values.
 */
module SdwanClassifier {
  import opened Wrappers
  import opened Text

  /**
   * Python's `re.search(".qcow2$", name)`: some character other than a
   * newline followed by `qcow2`, at the very end of the name or just before a
   * final newline. The dot is not escaped, so `xqcow2` matches too.
   */
  predicate IsDiskImage(name: string) {
    EndsDotQcow2(name) || (|name| > 0 && name[|name| - 1] == '\n' && EndsDotQcow2(name[..|name| - 1]))
  }

  predicate EndsDotQcow2(s: string) {
    |s| >= 6 && s[|s| - 6] != '\n' && s[|s| - 5..] == "qcow2"
  }

  /** Python truthiness of an optional string: neither `None` nor empty. */
  predicate Truthy(t: Option<string>) {
    t.Some? && t.value != ""
  }

  /** The type an image name suggests, by case-insensitive substring, "manage" first, then "smart", then "bond". */
  function KeywordType(name: string): Option<string> {
    var lower := Lower(name);
    if Contains(lower, "manage") then Some("manager")
    else if Contains(lower, "smart") then Some("controller")
    else if Contains(lower, "bond") then Some("validator")
    else None
  }

  /** The type after the loop body has looked at one directory entry. */
  function InferStep(name: string, t: Option<string>): Option<string> {
    if IsDiskImage(name) && !Truthy(t) && KeywordType(name).Some? then KeywordType(name) else t
  }

  /** The type after the loop has looked at every entry of `listing`, in order, starting from `t`. */
  function InferType(listing: seq<string>, t: Option<string>): Option<string>
    decreases |listing|
  {
    if listing == [] then t else InferType(listing[1..], InferStep(listing[0], t))
  }

  /** The disk image the loop settles on: the last image name of the listing, with a leading `/`. */
  function LastImage(listing: seq<string>): Option<string>
    decreases |listing|
  {
    if listing == [] then None
    else if IsDiskImage(listing[|listing| - 1]) then Some("/" + listing[|listing| - 1])
    else LastImage(listing[..|listing| - 1])
  }

  /** RAM in megabytes per component type, 4096 for any other or no type. */
  function RamFor(t: Option<string>): int {
    match t
    case Some("manager") => 16384
    case Some("controller") => 4096
    case Some("validator") => 2048
    case _ => 4096
  }

  /** Python's `f"{t}"` for an optional string: `None` prints as "None". */
  function TypeText(t: Option<string>): string {
    match t
    case None => "None"
    case Some(s) => s
  }

  /** The hostname: the given one unless it is `None` or empty, else "sdwan-" followed by the type. */
  function HostnameFor(given: Option<string>, t: Option<string>): (h: string)
    ensures Truthy(given) ==> h == given.value
    ensures !Truthy(given) ==> h == "sdwan-" + TypeText(t)
  {
    if Truthy(given) then given.value else "sdwan-" + TypeText(t)
  }

  /** What the classifier decides for a VM. */
  datatype Profile = Profile(diskImage: string, componentType: Option<string>, ram: int)

  /**
   * The classifier's result, or `None` when the listing has no disk image:
   * `disk_image` is then never bound and construction raises.
   */
  function Classify(listing: seq<string>, given: Option<string>): (r: Option<Profile>)
    ensures r.None? <==> forall i :: 0 <= i < |listing| ==> !IsDiskImage(listing[i])
    ensures r.Some? ==> r.value.ram in {16384, 4096, 2048}
    ensures Truthy(given) ==> r.None? || r.value.componentType == given
    // the image is the last match, the type the scan's, the RAM the table's for that type
    ensures r.Some? ==>
      && LastImage(listing) == Some(r.value.diskImage)
      && r.value.componentType == InferType(listing, given)
      && r.value.ram == RamFor(r.value.componentType)
  {
    LastImageSpec(listing);
    match LastImage(listing)
    case None => None
    case Some(image) =>
      var t := InferType(listing, given);
      assert Truthy(given) ==> t == given by {
        if Truthy(given) { TypeKept(listing, given); }
      }
      Some(Profile(image, t, RamFor(t)))
  }

  /**
   * The scanning loop of lines 52-63: one pass over the directory listing that
   * remembers the last image and lets the first image with a keyword set an
   * unset type.
   */
  method ScanImages(listing: seq<string>, given: Option<string>) returns (image: Option<string>, t: Option<string>)
    ensures image == LastImage(listing)
    ensures t == InferType(listing, given)
  {
    image, t := None, given;
    for i := 0 to |listing|
      invariant image == LastImage(listing[..i])
      invariant InferType(listing, given) == InferType(listing[i..], t)
    {
      var e := listing[i];
      assert listing[..i + 1][..i] == listing[..i];
      if IsDiskImage(e) {
        image := Some("/" + e);
        if !Truthy(t) {
          var lower := Lower(e);
          if Contains(lower, "manage") {
            t := Some("manager");
          } else if Contains(lower, "smart") {
            t := Some("controller");
          } else if Contains(lower, "bond") {
            t := Some("validator");
          }
        }
      }
      assert listing[i..][1..] == listing[i + 1..];
    }
    assert listing[..|listing|] == listing;
  }

  /**
   * The chosen image is the last image name of the listing: some entry that is
   * an image, with no image after it; and there is none exactly when no entry
   * is an image.
   */
  lemma {:induction false} LastImageSpec(listing: seq<string>)
    ensures LastImage(listing).None? <==> forall i :: 0 <= i < |listing| ==> !IsDiskImage(listing[i])
    ensures LastImage(listing).Some? ==>
      exists j :: 0 <= j < |listing| && IsDiskImage(listing[j]) && LastImage(listing).value == "/" + listing[j] &&
        forall k :: j < k < |listing| ==> !IsDiskImage(listing[k])
    decreases |listing|
  {
    if listing != [] {
      var n := |listing| - 1;
      var front := listing[..n];
      LastImageSpec(front);
      if !IsDiskImage(listing[n]) {
        assert forall i :: 0 <= i < n ==> front[i] == listing[i];
        if LastImage(front).Some? {
          var j :| 0 <= j < |front| && IsDiskImage(front[j]) && LastImage(front).value == "/" + front[j] &&
            forall k :: j < k < |front| ==> !IsDiskImage(front[k]);
          assert listing[j] == front[j];
        }
      }
    }
  }

  /** An explicit (truthy) type is never overwritten by the scan. */
  lemma {:induction false} TypeKept(listing: seq<string>, t: Option<string>)
    requires Truthy(t)
    ensures InferType(listing, t) == t
    decreases |listing|
  {
    if listing != [] {
      TypeKept(listing[1..], t);
    }
  }

  /** An image name with a keyword gives a truthy type. */
  lemma KeywordTruthy(name: string)
    requires KeywordType(name).Some?
    ensures Truthy(KeywordType(name))
  {
  }

  /**
   * With no type given, the type is the one suggested by the first image name
   * (in listing order) that contains a keyword; images before it without a
   * keyword leave the type unset.
   */
  lemma {:induction false} TypeFromFirstKeywordImage(listing: seq<string>, t: Option<string>, j: nat)
    requires !Truthy(t)
    requires j < |listing| && IsDiskImage(listing[j]) && KeywordType(listing[j]).Some?
    requires forall i :: 0 <= i < j ==> !(IsDiskImage(listing[i]) && KeywordType(listing[i]).Some?)
    ensures InferType(listing, t) == KeywordType(listing[j])
    decreases |listing|
  {
    if j == 0 {
      KeywordTruthy(listing[0]);
      TypeKept(listing[1..], KeywordType(listing[0]));
    } else {
      assert InferStep(listing[0], t) == t;
      TypeFromFirstKeywordImage(listing[1..], t, j - 1);
    }
  }

  /**
   * The keywords are tried in priority order on the lower-cased name: a name
   * is a manager exactly when "manage" occurs in it, a controller when
   * "smart" does but "manage" does not, a validator when only "bond" does.
   */
  lemma KeywordPriority(name: string)
    ensures var s := Lower(name);
      && (KeywordType(name) == Some("manager") <==> exists i :: OccursAt(s, "manage", i))
      && (KeywordType(name) == Some("controller") <==>
            (forall i :: !OccursAt(s, "manage", i)) && exists i :: OccursAt(s, "smart", i))
      && (KeywordType(name) == Some("validator") <==>
            (forall i :: !OccursAt(s, "manage", i)) && (forall i :: !OccursAt(s, "smart", i)) &&
            exists i :: OccursAt(s, "bond", i))
      && (KeywordType(name).None? <==>
            (forall i :: !OccursAt(s, "manage", i)) && (forall i :: !OccursAt(s, "smart", i)) &&
            forall i :: !OccursAt(s, "bond", i))
  {
    var s := Lower(name);
    ContainsIffOccurs(s, "manage");
    ContainsIffOccurs(s, "smart");
    ContainsIffOccurs(s, "bond");
  }

  /** The keyword test ignores case: a name and its lower-case form suggest the same type. */
  lemma KeywordCaseInsensitive(name: string)
    ensures KeywordType(Lower(name)) == KeywordType(name)
  {
    assert Lower(Lower(name)) == Lower(name) by {
      forall i | 0 <= i < |name| ensures Lower(Lower(name))[i] == Lower(name)[i] {
        assert LowerChar(LowerChar(name[i])) == LowerChar(name[i]);
      }
    }
  }

  /** The RAM table: 16384 MB exactly for a manager, 2048 MB exactly for a validator, 4096 MB for anything else. */
  lemma RamTable(t: Option<string>)
    ensures RamFor(t) == 16384 <==> t == Some("manager")
    ensures RamFor(t) == 2048 <==> t == Some("validator")
    ensures t != Some("manager") && t != Some("validator") ==> RamFor(t) == 4096
  {
  }

  /** With no type given and no image name carrying a keyword, the type stays as given. */
  lemma {:induction false} TypeUnsetWithoutKeyword(listing: seq<string>, t: Option<string>)
    requires !Truthy(t)
    requires forall i :: 0 <= i < |listing| ==> !(IsDiskImage(listing[i]) && KeywordType(listing[i]).Some?)
    ensures InferType(listing, t) == t
    decreases |listing|
  {
    if listing != [] {
      assert InferStep(listing[0], t) == t;
      TypeUnsetWithoutKeyword(listing[1..], t);
    }
  }
}
