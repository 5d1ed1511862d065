/**
 * Source/RiveRenderer/Public/RiveTypeConversions.h: the plugin's alignment and
 * fit enumerations converted to the Rive runtime's.
 */
module TypeConversions {
  /** ERiveAlignment; `OtherAlignment` is a value outside the declared enumerators. */
  datatype RiveAlignment =
    | TopLeft | TopCenter | TopRight
    | CenterLeft | Center | CenterRight
    | BottomLeft | BottomCenter | BottomRight
    | OtherAlignment(code: int)

  /** rive::Alignment's named constants. */
  datatype Alignment =
    | topLeft | topCenter | topRight
    | centerLeft | center | centerRight
    | bottomLeft | bottomCenter | bottomRight

  /** ERiveFitType; `OtherFit` is a value outside the declared enumerators. */
  datatype RiveFitType = Fill | Contain | Cover | FitWidth | FitHeight | None | ScaleDown | Layout | OtherFit(code: int)

  /** rive::Fit. */
  datatype Fit = fill | contain | cover | fitWidth | fitHeight | none | scaleDown | layout

  /** RiveAlignementToAlignment: each declared alignment becomes the runtime alignment of the same name; unknown values fall back to center. */
  function RiveAlignmentToAlignment(a: RiveAlignment): (r: Alignment)
    ensures !a.OtherAlignment? ==> AlignmentToRiveAlignment(r) == a
    ensures a.OtherAlignment? ==> r == center
  {
    match a
    case TopLeft => topLeft
    case TopCenter => topCenter
    case TopRight => topRight
    case CenterLeft => centerLeft
    case CenterRight => centerRight
    case BottomLeft => bottomLeft
    case BottomCenter => bottomCenter
    case BottomRight => bottomRight
    case _ => center
  }

  /** The plugin alignment of the same name as each runtime alignment. */
  function AlignmentToRiveAlignment(a: Alignment): (r: RiveAlignment)
    ensures !r.OtherAlignment?
  {
    match a
    case topLeft => TopLeft
    case topCenter => TopCenter
    case topRight => TopRight
    case centerLeft => CenterLeft
    case center => Center
    case centerRight => CenterRight
    case bottomLeft => BottomLeft
    case bottomCenter => BottomCenter
    case bottomRight => BottomRight
  }

  /** On declared values the conversion is a bijection: distinct alignments stay distinct, and every runtime alignment is reached. */
  lemma AlignmentConversionIsBijective(a: RiveAlignment, a': RiveAlignment, b: Alignment)
    ensures !a.OtherAlignment? && !a'.OtherAlignment? && a != a' ==> RiveAlignmentToAlignment(a) != RiveAlignmentToAlignment(a')
    ensures RiveAlignmentToAlignment(AlignmentToRiveAlignment(b)) == b
  {
  }

  /** RiveFitTypeToFit: each declared fit becomes the runtime fit of the same name; None and unknown values give Fit::none. */
  function RiveFitTypeToFit(f: RiveFitType): (r: Fit)
    ensures !f.OtherFit? ==> FitToRiveFitType(r) == f
    ensures f.OtherFit? ==> r == none
  {
    match f
    case Fill => fill
    case Contain => contain
    case Cover => cover
    case FitWidth => fitWidth
    case FitHeight => fitHeight
    case ScaleDown => scaleDown
    case Layout => layout
    case _ => none
  }

  /** The plugin fit of the same name as each runtime fit. */
  function FitToRiveFitType(f: Fit): (r: RiveFitType)
    ensures !r.OtherFit?
  {
    match f
    case fill => Fill
    case contain => Contain
    case cover => Cover
    case fitWidth => FitWidth
    case fitHeight => FitHeight
    case none => None
    case scaleDown => ScaleDown
    case layout => Layout
  }

  /** On declared values the conversion is a bijection: distinct fits stay distinct, and every runtime fit is reached. */
  lemma FitConversionIsBijective(f: RiveFitType, g: RiveFitType, h: Fit)
    ensures !f.OtherFit? && !g.OtherFit? && f != g ==> RiveFitTypeToFit(f) != RiveFitTypeToFit(g)
    ensures RiveFitTypeToFit(FitToRiveFitType(h)) == h
  {
  }
}
