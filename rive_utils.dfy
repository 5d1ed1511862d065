/**
 * Name and path helpers of Source/Rive/Public/Rive/RiveUtils.h: the generated
 * package paths of a Rive file and object-name sanitising.
 */
module RiveUtils {
  import opened AsciiText

  /**
   * The characters Unreal refuses in object names (the engine's
   * INVALID_OBJECTNAME_CHARACTERS define). The engine header is not part of
   * this model; the operations below take the set as a parameter and the
   * lemmas only rely on '_' not being in it.
   */
  const InvalidObjectNameCharacters: string := "\"' ,/.:|&!~\n\r\t@#(){}[]=;^%$`"

  const GeneratedFolderPath: string := "/Game/__RiveGenerated__/"
  const GeneratedTempFolderPath: string := "/Game/__RiveGenerated__/Tmp/"

  /** The package path of the assets generated for a Rive file named `fileName`. */
  function PackagePathForFile(fileName: string): (r: string)
    ensures StartsWith(r, GeneratedFolderPath) && r[|GeneratedFolderPath|..] == fileName
  {
    GeneratedFolderPath + fileName
  }

  /** The temporary package path used while a Rive file named `fileName` is being imported. */
  function TempPathForFile(fileName: string): (r: string)
    ensures StartsWith(r, GeneratedTempFolderPath) && r[|GeneratedTempFolderPath|..] == fileName
  {
    GeneratedTempFolderPath + fileName
  }

  /** The temporary folder sits inside the generated folder, and distinct files get distinct paths. */
  lemma GeneratedPathsRelation(a: string, b: string)
    ensures TempPathForFile(a) == PackagePathForFile("Tmp/" + a)
    ensures PackagePathForFile(a) == PackagePathForFile(b) ==> a == b
    ensures TempPathForFile(a) == TempPathForFile(b) ==> a == b
  {
    assert GeneratedTempFolderPath == GeneratedFolderPath + "Tmp/";
  }

  /** The specification of sanitising: each invalid character becomes '_', the rest stay where they are. */
  function Sanitized(name: string, invalid: string): (r: string)
    ensures |r| == |name|
  {
    if name == [] then [] else [if name[0] in invalid then '_' else name[0]] + Sanitized(name[1..], invalid)
  }

  lemma {:induction false} SanitizedAt(name: string, invalid: string, i: int)
    requires 0 <= i < |name|
    ensures Sanitized(name, invalid)[i] == if name[i] in invalid then '_' else name[i]
    decreases |name|
  {
    if i > 0 {
      SanitizedAt(name[1..], invalid, i - 1);
    }
  }

  /** FString::ReplaceCharInline with a case-sensitive search: every `from` becomes `to`. */
  method ReplaceCharInline(s: string, from: char, to: char) returns (out: string)
    ensures |out| == |s|
    ensures forall i :: 0 <= i < |s| ==> out[i] == if s[i] == from then to else s[i]
  {
    out := s;
    var k := 0;
    while k < |out|
      invariant 0 <= k <= |out| == |s|
      invariant forall i :: 0 <= i < k ==> out[i] == if s[i] == from then to else s[i]
      invariant forall i :: k <= i < |s| ==> out[i] == s[i]
    {
      if out[k] == from {
        out := out[k := to];
      }
      k := k + 1;
    }
  }

  /** SanitizeObjectName: one ReplaceCharInline pass per invalid character, in order. */
  method SanitizeObjectName(name: string, invalid: string) returns (out: string)
    requires '_' !in invalid
    ensures out == Sanitized(name, invalid)
  {
    out := name;
    var k := 0;
    while k < |invalid|
      invariant 0 <= k <= |invalid|
      invariant |out| == |name|
      invariant forall i :: 0 <= i < |name| ==> out[i] == if name[i] in invalid[..k] then '_' else name[i]
    {
      out := ReplaceCharInline(out, invalid[k], '_');
      assert invalid[..k + 1] == invalid[..k] + [invalid[k]];
      k := k + 1;
    }
    assert invalid[..k] == invalid;
    forall i | 0 <= i < |name| ensures out[i] == Sanitized(name, invalid)[i] {
      SanitizedAt(name, invalid, i);
    }
  }

  /** A sanitised name contains no invalid character, keeps every valid one, and sanitising again changes nothing. */
  lemma SanitizedProperties(name: string, invalid: string)
    requires '_' !in invalid
    ensures forall i :: 0 <= i < |name| ==> Sanitized(name, invalid)[i] !in invalid
    ensures forall i :: 0 <= i < |name| && name[i] !in invalid ==> Sanitized(name, invalid)[i] == name[i]
    ensures Sanitized(Sanitized(name, invalid), invalid) == Sanitized(name, invalid)
  {
    var s := Sanitized(name, invalid);
    forall i | 0 <= i < |name| ensures s[i] !in invalid && (name[i] !in invalid ==> s[i] == name[i]) {
      SanitizedAt(name, invalid, i);
    }
    forall i | 0 <= i < |s| ensures Sanitized(s, invalid)[i] == s[i] {
      SanitizedAt(s, invalid, i);
    }
  }
}
