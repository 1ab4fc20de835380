/**
 * The immutable parts catalog of the 2D customizer: four part categories,
 * each an ordered list of options, and four colour palettes.
 * SVG markup and colours are kept as opaque strings.
 */
module Catalog {

  /** The part categories, in the order the preview paints them. */
  datatype Category = Face | Eyes | Mouth | Hair

  /** The colour palettes; the keys of `CharacterData.colors`. */
  datatype ColorSlot = SkinColor | HairColor | EyesColor | ClothesColor

  /**
   * The SVG fragments of the options, one per option, named after the
   * option; `NoMarkup` is the empty string of the "Bald" option. The
   * markup text itself is treated as opaque.
   */
  datatype Fragment =
    | FaceOriginal | FaceSharp | FaceRound
    | EyesDot | EyesSquare | EyesClosed
    | MouthSmile | MouthFlat | MouthSurprised
    | HairBowl | HairSpiky | NoMarkup

  /** One selectable option: its id, display name and SVG fragment (`path`). */
  datatype PartOption = PartOption(id: string, name: string, path: Fragment)

  /** The key of a category in `CharacterData.parts`. */
  function CategoryName(c: Category): string
  {
    match c
    case Face => "face"
    case Eyes => "eyes"
    case Mouth => "mouth"
    case Hair => "hair"
  }

  const FaceOptions: seq<PartOption> := [
    PartOption("face-1", "Original", FaceOriginal),
    PartOption("face-2", "Sharp", FaceSharp),
    PartOption("face-3", "Round", FaceRound)
  ]

  const EyesOptions: seq<PartOption> := [
    PartOption("eyes-1", "Dot", EyesDot),
    PartOption("eyes-2", "Square", EyesSquare),
    PartOption("eyes-3", "Closed", EyesClosed)
  ]

  const MouthOptions: seq<PartOption> := [
    PartOption("mouth-1", "Smile", MouthSmile),
    PartOption("mouth-2", "Flat", MouthFlat),
    PartOption("mouth-3", "Surprised", MouthSurprised)
  ]

  const HairOptions: seq<PartOption> := [
    PartOption("hair-1", "Bowl", HairBowl),
    PartOption("hair-2", "Spiky", HairSpiky),
    PartOption("hair-3", "Bald", NoMarkup)
  ]

  /** `CharacterData.parts[category]`. */
  function Options(c: Category): seq<PartOption>
  {
    match c
    case Face => FaceOptions
    case Eyes => EyesOptions
    case Mouth => MouthOptions
    case Hair => HairOptions
  }

  /** `CharacterData.colors[slot]`. */
  function Palette(slot: ColorSlot): seq<string>
  {
    match slot
    case SkinColor => ["#FFDBAC", "#F1C27D", "#E0AC69", "#8D5524", "#C68642"]
    case HairColor => ["#090806", "#2C1608", "#4E2708", "#B55239", "#D6C4C2", "#4B1910", "#E5C09B"]
    case EyesColor => ["#2D2926", "#3E2723", "#1B5E20", "#0D47A1", "#4E342E"]
    case ClothesColor => ["#6366F1", "#EC4899", "#10B981", "#F59E0B", "#3B82F6", "#EF4444"]
  }

  /** The ids of a list of options, in order. */
  function Ids(os: seq<PartOption>): (ids: seq<string>)
    ensures |ids| == |os|
    ensures forall i :: 0 <= i < |os| ==> ids[i] == os[i].id
  {
    seq(|os|, i requires 0 <= i < |os| => os[i].id)
  }

  /** No two options of the list share an id. */
  predicate UniqueIds(os: seq<PartOption>)
  {
    forall i, j :: 0 <= i < j < |os| ==> os[i].id != os[j].id
  }

  /** The digit character for 1..9. */
  function Digit(n: nat): char
    requires 1 <= n <= 9
  {
    ('0' as int + n) as char
  }

  /** Every category offers exactly three options. */
  lemma OptionCounts(c: Category)
    ensures |Options(c)| == 3
    ensures Options(c) != []
  {
  }

  /** The option at index i of a category has the id "<category>-<i+1>". */
  lemma OptionIdsNumbered(c: Category, i: nat)
    requires i < |Options(c)|
    ensures Options(c)[i].id == CategoryName(c) + "-" + [Digit(i + 1)]
  {
  }

  /** Option ids are unique within each category. */
  lemma OptionIdsUnique(c: Category)
    ensures UniqueIds(Options(c))
  {
  }

  /** "hair-3" (Bald) is the one option whose markup is empty. */
  lemma OnlyBaldIsEmpty(c: Category, i: nat)
    requires i < |Options(c)|
    ensures Options(c)[i].path == NoMarkup <==> c == Hair && i == 2
    ensures c == Hair && i == 2 ==> Options(c)[i] == PartOption("hair-3", "Bald", NoMarkup)
  {
    assert i == 0 || i == 1 || i == 2;
  }

  /** The first option of every category is "<category>-1". */
  lemma FirstOptions()
    ensures Options(Face)[0].id == "face-1"
    ensures Options(Eyes)[0].id == "eyes-1"
    ensures Options(Mouth)[0].id == "mouth-1"
    ensures Options(Hair)[0].id == "hair-1"
  {
  }

  /** Palette sizes: skin 5, hair 7, eyes 5, clothes 6; so none is empty. */
  lemma PaletteSizes()
    ensures |Palette(SkinColor)| == 5 && |Palette(HairColor)| == 7
    ensures |Palette(EyesColor)| == 5 && |Palette(ClothesColor)| == 6
    ensures forall slot :: Palette(slot) != []
  {
    forall slot ensures Palette(slot) != [] {
      match slot
      case SkinColor =>
      case HairColor =>
      case EyesColor =>
      case ClothesColor =>
    }
  }
}
