/**
 * The metadata records of Source/Rive/Public/RiveInternalTypes.h, the two
 * data-type enumerations of view-model properties, and the conversions between
 * them: RiveDataTypeToDataType (Source/Rive/Private/Rive/RiveViewModel.cpp) and
 * RiveDataTypeFromDataType (Source/Rive/Private/Rive/RiveFile.cpp).
 */
module DataTypes {
  /** ERiveDataType, the plugin's enumeration. */
  datatype RiveDataType = None | String | Number | Boolean | Color | List | EnumType | Trigger | ViewModel | AssetImage | Artboard

  /** The uint8 value of each ERiveDataType enumerator; comparisons such as `Type < Trigger` use it. */
  function Code(t: RiveDataType): nat
  {
    match t
    case None => 0
    case String => 1
    case Number => 2
    case Boolean => 3
    case Color => 4
    case List => 5
    case EnumType => 6
    case Trigger => 7
    case ViewModel => 8
    case AssetImage => 11
    case Artboard => 12
  }

  /** rive::DataType, the runtime's enumeration (`string` is spelled `stringType`, a Dafny keyword); it has two kinds the plugin has no counterpart for. */
  datatype DataType = none | stringType | number | boolean | color | list | enumType | trigger | viewModel | integer | symbolListIndex | assetImage | artboard

  /** RiveDataTypeToDataType. */
  function RiveDataTypeToDataType(t: RiveDataType): (r: DataType)
    ensures !r.integer? && !r.symbolListIndex?
  {
    match t
    case None => none
    case String => stringType
    case Number => number
    case Boolean => boolean
    case Color => color
    case List => list
    case EnumType => enumType
    case Trigger => trigger
    case ViewModel => viewModel
    case AssetImage => assetImage
    case Artboard => artboard
  }

  /** RiveDataTypeFromDataType; integer and symbolListIndex are declared unreachable there. */
  function RiveDataTypeFromDataType(d: DataType): RiveDataType
    requires !d.integer? && !d.symbolListIndex?
  {
    match d
    case none => None
    case stringType => String
    case number => Number
    case boolean => Boolean
    case color => Color
    case list => List
    case enumType => EnumType
    case trigger => Trigger
    case viewModel => ViewModel
    case assetImage => AssetImage
    case artboard => Artboard
  }

  /** The conversions are inverse on their whole domains, so RiveDataTypeToDataType is injective. */
  lemma DataTypeRoundTrip(t: RiveDataType, u: RiveDataType, d: DataType)
    ensures RiveDataTypeFromDataType(RiveDataTypeToDataType(t)) == t
    ensures !d.integer? && !d.symbolListIndex? ==> RiveDataTypeToDataType(RiveDataTypeFromDataType(d)) == d
    ensures RiveDataTypeToDataType(t) == RiveDataTypeToDataType(u) ==> t == u
  {
    if RiveDataTypeToDataType(t) == RiveDataTypeToDataType(u) {
      assert RiveDataTypeFromDataType(RiveDataTypeToDataType(t)) == t;
      assert RiveDataTypeFromDataType(RiveDataTypeToDataType(u)) == u;
    }
  }

  /** Codes are distinct, so the order `Type < Trigger` used by view-model initialisation is well defined. */
  lemma CodeInjective(t: RiveDataType, u: RiveDataType)
    ensures Code(t) == Code(u) ==> t == u
    ensures Code(t) < Code(Trigger) <==> t in {None, String, Number, Boolean, Color, List, EnumType}
  {
  }

  /** FRivePropertyData: one property of a view model. */
  datatype RivePropertyData = RivePropertyData(Name: string, MetaData: string, Type: RiveDataType)

  /** FEnumDefinition. */
  datatype EnumDefinition = EnumDefinition(Name: string, Values: seq<string>)

  /** FArtboardDefinition, without the floating-point default artboard size. */
  datatype ArtboardDefinition = ArtboardDefinition(Name: string, StateMachineNames: seq<string>, DefaultViewModel: string, DefaultViewModelInstance: string)

  /** FViewModelDefinition. */
  datatype ViewModelDefinition = ViewModelDefinition(Name: string, InstanceNames: seq<string>, PropertyDefinitions: seq<RivePropertyData>)
}
