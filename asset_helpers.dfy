/**
 * Source/Rive/Private/Rive/Assets/RiveAssetHelpers.cpp: the candidate disk
 * paths of a referenced asset, the search for the first one that exists, and
 * the mapping from Rive's asset type keys to the plugin's asset types.
 */
module AssetHelpers {
  import Wrappers
  type Option<T> = Wrappers.Option<T>

  /** ERiveAssetType. */
  datatype AssetType = None | FileBase | Image | Font | Audio

  /** A uint16 Rive type key. */
  newtype uint16 = x: int | 0 <= x < 0x1_0000
  /** A uint32 asset id. */
  newtype uint32 = x: int | 0 <= x < 0x1_0000_0000

  /** GetUnrealType: the asset type a Rive core type key stands for; exactly the four asset keys map to a type, each the one whose key it is. */
  function GetUnrealType(riveType: uint16): (r: AssetType)
    ensures r != None <==> riveType in {103, 105, 141, 406}
    ensures r != None ==> RiveTypeKey(r) == Wrappers.Some(riveType)
  {
    match riveType
    case 103 => FileBase
    case 105 => Image
    case 141 => Font
    case 406 => Audio
    case _ => None
  }

  /** The Rive core type key of each supported asset type. */
  function RiveTypeKey(t: AssetType): (r: Option<uint16>)
    ensures r.None? <==> t.None?
  {
    match t
    case None => Wrappers.None
    case FileBase => Wrappers.Some(103)
    case Image => Wrappers.Some(105)
    case Font => Wrappers.Some(141)
    case Audio => Wrappers.Some(406)
  }

  /** GetUnrealType and RiveTypeKey are inverse; every other key maps to None. */
  lemma UnrealTypeRoundTrip(t: AssetType, key: uint16)
    ensures t != None ==> GetUnrealType(RiveTypeKey(t).value) == t
    ensures GetUnrealType(key) != None ==> RiveTypeKey(GetUnrealType(key)) == Wrappers.Some(key)
    ensures key !in {103, 105, 141, 406} ==> GetUnrealType(key) == None
  {
  }

  /** The number a string of decimal digits spells, most significant digit first. */
  function DigitsValue(s: string): nat
    requires forall i :: 0 <= i < |s| ==> '0' <= s[i] <= '9'
  {
    if s == [] then 0 else DigitsValue(s[..|s| - 1]) * 10 + (s[|s| - 1] as int - '0' as int)
  }

  /** The decimal text of a number, as `%u` prints it: the digits that spell n, with no leading zero. */
  function Decimal(n: nat): (r: string)
    ensures |r| >= 1
    ensures forall i :: 0 <= i < |r| ==> '0' <= r[i] <= '9'
    ensures DigitsValue(r) == n
    ensures n > 0 ==> r[0] != '0'
  {
    if n < 10 then
      var r := [(n + '0' as int) as char];
      assert r[..0] == [];
      r
    else
      var prefix := Decimal(n / 10);
      var r := prefix + [(n % 10 + '0' as int) as char];
      assert r[..|r| - 1] == prefix;
      r
  }

  /** Distinct ids give distinct decimal texts. */
  lemma DecimalInjective(m: nat, n: nat)
    requires Decimal(m) == Decimal(n)
    ensures m == n
  {
  }

  /**
   * The candidate paths of an asset: for every extension, in order, the
   * id-qualified path "<path>-<id>.<ext>" and then the plain path "<path>.<ext>".
   */
  function CandidatePaths(combinedPath: string, id: uint32, extensions: seq<string>): (r: seq<string>)
    ensures |r| == 2 * |extensions|
    ensures forall i :: 0 <= i < |extensions| ==>
      r[2 * i] == combinedPath + "-" + Decimal(id as nat) + "." + extensions[i] &&
      r[2 * i + 1] == combinedPath + "." + extensions[i]
  {
    if extensions == [] then []
    else
      var last := extensions[|extensions| - 1];
      CandidatePaths(combinedPath, id, extensions[..|extensions| - 1]) +
        [combinedPath + "-" + Decimal(id as nat) + "." + last, combinedPath + "." + last]
  }

  /**
   * AssetPaths: the loop that builds the candidate paths.
   * `combinedPath` is FPaths::Combine of the base directory and the asset name.
   */
  method AssetPaths(combinedPath: string, id: uint32, extensions: seq<string>) returns (paths: seq<string>)
    ensures paths == CandidatePaths(combinedPath, id, extensions)
  {
    paths := [];
    var k := 0;
    while k < |extensions|
      invariant 0 <= k <= |extensions|
      invariant paths == CandidatePaths(combinedPath, id, extensions[..k])
    {
      var extension := extensions[k];
      assert extensions[..k + 1][..k] == extensions[..k];
      paths := paths + [combinedPath + "-" + Decimal(id as nat) + "." + extension];
      paths := paths + [combinedPath + "." + extension];
      k := k + 1;
    }
    assert extensions[..k] == extensions;
  }

  /** The asset fields FindDiskAsset reads and writes. */
  class RiveAsset {
    var Name: string
    var Id: uint32
    var Type: AssetType
    var AssetPath: string

    constructor (name: string, id: uint32, assetType: AssetType)
      ensures Name == name && Id == id && Type == assetType && AssetPath == ""
    {
      Name := name;
      Id := id;
      Type := assetType;
      AssetPath := "";
    }
  }

  /** The position of the first candidate that exists on disk. */
  function FirstExisting(paths: seq<string>, existing: set<string>): (r: Option<nat>)
    ensures r.Some? ==> r.value < |paths| && paths[r.value] in existing &&
                        forall j :: 0 <= j < r.value ==> paths[j] !in existing
    ensures r.None? ==> forall j :: 0 <= j < |paths| ==> paths[j] !in existing
  {
    if paths == [] then Wrappers.None
    else if paths[0] in existing then Wrappers.Some(0)
    else
      var rest := FirstExisting(paths[1..], existing);
      if rest.None? then Wrappers.None else Wrappers.Some(rest.value + 1)
  }

  /** The extension list of a supported asset type; unsupported types have none. */
  function ExtensionsFor(t: AssetType, fontExtensions: seq<string>, imageExtensions: seq<string>, audioExtensions: seq<string>): Option<seq<string>>
  {
    match t
    case Font => Wrappers.Some(fontExtensions)
    case Image => Wrappers.Some(imageExtensions)
    case Audio => Wrappers.Some(audioExtensions)
    case _ => Wrappers.None
  }

  /**
   * FindDiskAsset: for a font, image or audio asset, search the candidate paths
   * in order and record the first one that exists. The file system is the set
   * `existing`; the extension lists are parameters.
   */
  method FindDiskAsset(asset: RiveAsset, combinedPath: string, existing: set<string>,
                       fontExtensions: seq<string>, imageExtensions: seq<string>, audioExtensions: seq<string>)
    returns (found: bool)
    modifies asset`AssetPath
    ensures found <==>
      ExtensionsFor(asset.Type, fontExtensions, imageExtensions, audioExtensions).Some? &&
      FirstExisting(CandidatePaths(combinedPath, asset.Id,
                                   ExtensionsFor(asset.Type, fontExtensions, imageExtensions, audioExtensions).value), existing).Some?
    ensures !found ==> asset.AssetPath == old(asset.AssetPath)
    ensures found ==>
      var paths := CandidatePaths(combinedPath, asset.Id,
                                  ExtensionsFor(asset.Type, fontExtensions, imageExtensions, audioExtensions).value);
      asset.AssetPath == paths[FirstExisting(paths, existing).value]
  {
    var extensions := ExtensionsFor(asset.Type, fontExtensions, imageExtensions, audioExtensions);
    if extensions.None? {
      return false;
    }
    var filePaths := AssetPaths(combinedPath, asset.Id, extensions.value);
    var k := 0;
    while k < |filePaths|
      invariant 0 <= k <= |filePaths|
      invariant forall j :: 0 <= j < k ==> filePaths[j] !in existing
    {
      if filePaths[k] in existing {
        asset.AssetPath := filePaths[k];
        assert FirstExisting(filePaths, existing) == Wrappers.Some(k);
        return true;
      }
      k := k + 1;
    }
    return false;
  }

  /** An asset whose id-qualified path for the first extension exists is always found there. */
  lemma IdQualifiedPathFirst(combinedPath: string, id: uint32, extensions: seq<string>, existing: set<string>)
    requires extensions != []
    requires combinedPath + "-" + Decimal(id as nat) + "." + extensions[0] in existing
    ensures FirstExisting(CandidatePaths(combinedPath, id, extensions), existing) == Wrappers.Some(0)
  {
    var paths := CandidatePaths(combinedPath, id, extensions);
    assert paths[0] in existing;
  }
}
