/** How the update path turns the configured `storage_account_type` back into
    an SKU name: it walks the Disks API's list of storage account types and
    keeps the last one that equals the configured string up to case. */
module SkuResolution {
  import opened DiskApi

  /** The list of storage account type names, in the order the SDK gives them. */
  function PossibleStorageTypeNames(): (names: seq<string>)
    ensures |names| == 7
    ensures forall i :: 0 <= i < |names| ==> names[i] != ""
  {
    [PremiumLRS.Name(), PremiumV2LRS.Name(), PremiumZRS.Name(), StandardLRS.Name(),
     StandardSSDLRS.Name(), StandardSSDZRS.Name(), UltraSSDLRS.Name()]
  }

  /** Case folding of one character (ASCII letters only). */
  function FoldChar(c: char): char {
    if 'A' <= c <= 'Z' then (c as int - 'A' as int + 'a' as int) as char else c
  }

  /** Equality of two strings up to case. */
  predicate EqualFold(a: string, b: string) {
    |a| == |b| && forall i :: 0 <= i < |a| ==> FoldChar(a[i]) == FoldChar(b[i])
  }

  /** The last name in `names` that equals `s` up to case, or "" if none does. */
  function LastFoldMatch(s: string, names: seq<string>): (r: string)
    ensures r == "" || (r in names && EqualFold(s, r))
    ensures (forall n :: n in names ==> n != "") ==>
              (r == "" <==> forall n :: n in names ==> !EqualFold(s, n))
    decreases |names|
  {
    if names == [] then ""
    else
      var last := names[|names| - 1];
      var rest := names[..|names| - 1];
      assert names == rest + [last];
      assert forall n :: n in rest ==> n in names;
      if EqualFold(s, last) then last else LastFoldMatch(s, rest)
  }

  /** The loop that resolves the SKU name on update. */
  method ResolveSkuName(storageAccountType: string) returns (skuName: string)
    ensures skuName == LastFoldMatch(storageAccountType, PossibleStorageTypeNames())
  {
    var names := PossibleStorageTypeNames();
    skuName := "";
    var i := 0;
    while i < |names|
      invariant 0 <= i <= |names|
      invariant skuName == LastFoldMatch(storageAccountType, names[..i])
    {
      if EqualFold(storageAccountType, names[i]) {
        skuName := names[i];
      }
      assert names[..i + 1][..i] == names[..i];
      i := i + 1;
    }
    assert names[..i] == names;
  }

  /** No two storage account type names are equal up to case. */
  lemma NamesFoldDistinct()
    ensures forall i, j :: 0 <= i < j < |PossibleStorageTypeNames()| ==>
              !EqualFold(PossibleStorageTypeNames()[i], PossibleStorageTypeNames()[j])
  {
    var n := PossibleStorageTypeNames();
    // Names of equal length differ at some position even after folding.
    assert FoldChar(n[0][8]) != FoldChar(n[2][8]);
    assert FoldChar(n[3][0]) != FoldChar(n[6][0]);
    assert FoldChar(n[4][12]) != FoldChar(n[5][12]);
  }

  /** A configured type that equals some name up to case resolves to exactly
      that name, wherever it stands in the list; so a name spelled exactly as
      the API spells it resolves to itself. */
  lemma {:induction false} ResolvesToFoldEqualName(s: string, k: nat)
    requires k < |PossibleStorageTypeNames()|
    requires EqualFold(s, PossibleStorageTypeNames()[k])
    ensures LastFoldMatch(s, PossibleStorageTypeNames()) == PossibleStorageTypeNames()[k]
  {
    var names := PossibleStorageTypeNames();
    var r := LastFoldMatch(s, names);
    NamesFoldDistinct();
    assert r != "";
    var j :| 0 <= j < |names| && names[j] == r;
    assert EqualFold(names[j], names[k]) by {
      assert EqualFold(s, names[j]);
    }
    if j != k {
      assert false;
    }
  }

  /** Whether a configured type equals no name up to case: then the update
      sends the empty SKU name. */
  lemma UnknownTypeResolvesToEmpty(s: string)
    requires forall n :: n in PossibleStorageTypeNames() ==> !EqualFold(s, n)
    ensures LastFoldMatch(s, PossibleStorageTypeNames()) == ""
  {
  }
}
