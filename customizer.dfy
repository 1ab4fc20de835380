/**
 * The 2D customizer: the customization state, the click handlers that
 * change it, the random button, and the lookup that turns the state into
 * the four painted SVG groups of the preview.
 */
module Customizer {
  import opened Wrappers
  import opened Catalog

  /** The colour part of the state (`state.colors`). */
  datatype Colors = Colors(skin: string, hair: string, eyes: string, clothes: string)
  {
    function Get(slot: ColorSlot): string
    {
      match slot
      case SkinColor => skin
      case HairColor => hair
      case EyesColor => eyes
      case ClothesColor => clothes
    }

    /** `colors[slot] = color`: that slot now holds `color`, no other slot changes. */
    function Set(slot: ColorSlot, color: string): (r: Colors)
      ensures r.Get(slot) == color
      ensures forall t :: t != slot ==> r.Get(t) == Get(t)
    {
      match slot
      case SkinColor => this.(skin := color)
      case HairColor => this.(hair := color)
      case EyesColor => this.(eyes := color)
      case ClothesColor => this.(clothes := color)
    }
  }

  /** The customization state: one option id per category and four colours. */
  datatype State = State(face: string, eyes: string, mouth: string, hair: string, colors: Colors)
  {
    /** `state[category]`. */
    function Selected(c: Category): string
    {
      match c
      case Face => face
      case Eyes => eyes
      case Mouth => mouth
      case Hair => hair
    }
  }

  /** Every selection names an option of its category, so rendering succeeds. */
  predicate Valid(s: State)
  {
    && s.face in Ids(Options(Face)) && s.eyes in Ids(Options(Eyes))
    && s.mouth in Ids(Options(Mouth)) && s.hair in Ids(Options(Hair))
  }

  /** Valid, and every colour is one of its palette's. */
  predicate FromCatalog(s: State)
  {
    Valid(s) && forall slot :: s.colors.Get(slot) in Palette(slot)
  }

  /** The state the page starts with: first option and first colour everywhere. */
  function Initial(): State
  {
    State("face-1", "eyes-1", "mouth-1", "hair-1",
          Colors(Palette(SkinColor)[0], Palette(HairColor)[0], Palette(EyesColor)[0], Palette(ClothesColor)[0]))
  }

  lemma InitialFromCatalog()
    ensures FromCatalog(Initial())
    ensures forall c :: Initial().Selected(c) == Options(c)[0].id
    ensures forall slot :: Initial().colors.Get(slot) == Palette(slot)[0]
  {
    FirstOptions();
    assert Ids(Options(Face))[0] == "face-1" && Ids(Options(Eyes))[0] == "eyes-1";
    assert Ids(Options(Mouth))[0] == "mouth-1" && Ids(Options(Hair))[0] == "hair-1";
    forall slot ensures Initial().colors.Get(slot) == Palette(slot)[0] {
      match slot
      case SkinColor =>
      case HairColor =>
      case EyesColor =>
      case ClothesColor =>
    }
  }

  // ---------------------------------------------------------------- lookup

  /** `Array.prototype.find` by id: the first option with that id, if any. */
  function Find(os: seq<PartOption>, id: string): (r: Option<PartOption>)
    ensures r.Some? <==> id in Ids(os)
    ensures r.Some? ==> r.value.id == id
  {
    if os == [] then None
    else if os[0].id == id then Some(os[0])
    else Find(os[1..], id)
  }

  /** What `find` returns is an element of the list, and no element before it has that id. */
  lemma {:induction false} FindIsFirst(os: seq<PartOption>, id: string)
    ensures Find(os, id).Some? ==>
              exists k :: 0 <= k < |os| && os[k] == Find(os, id).value && forall j :: 0 <= j < k ==> os[j].id != id
  {
    if os != [] && os[0].id != id && Find(os, id).Some? {
      var tail := os[1..];
      FindIsFirst(tail, id);
      var k :| 0 <= k < |tail| && tail[k] == Find(tail, id).value && forall j :: 0 <= j < k ==> tail[j].id != id;
      assert os[k + 1] == Find(os, id).value;
      forall j | 0 <= j < k + 1 ensures os[j].id != id {
        if j > 0 { assert os[j] == tail[j - 1]; }
      }
    }
  }

  /** With unique ids, looking up an option's own id finds that option. */
  lemma {:induction false} FindOwnId(os: seq<PartOption>, i: nat)
    requires UniqueIds(os) && i < |os|
    ensures Find(os, os[i].id) == Some(os[i])
  {
    if i > 0 {
      assert os[0].id != os[i].id;
      assert os[1..][i - 1] == os[i];
      assert UniqueIds(os[1..]) by {
        forall a, b | 0 <= a < b < |os[1..]| ensures os[1..][a].id != os[1..][b].id {
          assert os[1..][a] == os[a + 1] && os[1..][b] == os[b + 1];
        }
      }
      FindOwnId(os[1..], i - 1);
    }
  }

  // ---------------------------------------------------------------- rendering

  /** The four SVG groups of the preview. */
  datatype Group = HeadGroup | EyesGroup | MouthGroup | HairGroup

  /** What one group receives: its fragment (`innerHTML`) and its `style.color`. */
  datatype Paint = Paint(fragment: Fragment, color: string)

  /**
   * The effect of one `renderCharacter` call: the groups it wrote, and the
   * category whose lookup failed, if one did (reading `.path` of
   * `undefined` throws, so the groups after it are not written).
   */
  datatype Frame = Frame(painted: map<Group, Paint>, failure: Option<Category>)

  /** The fixed colour of the mouth group. */
  const MouthColor: string := "#333"

  /** The group a category is painted into. */
  function GroupOf(c: Category): Group
  {
    match c
    case Face => HeadGroup
    case Eyes => EyesGroup
    case Mouth => MouthGroup
    case Hair => HairGroup
  }

  /** The painting order: head, eyes, mouth, hair. */
  function Rank(c: Category): nat
  {
    match c
    case Face => 0
    case Eyes => 1
    case Mouth => 2
    case Hair => 3
  }

  /**
   * The colour a category's group is painted with: skin for the head, the
   * eye colour for the eyes, a fixed "#333" for the mouth, the hair colour
   * for the hair. The clothes colour is not among them.
   */
  function GroupColor(s: State, c: Category): string
  {
    match c
    case Face => s.colors.skin
    case Eyes => s.colors.eyes
    case Mouth => MouthColor
    case Hair => s.colors.hair
  }

  /** One group's paint: the selected option's fragment in the group's colour; `None` when the lookup fails. */
  function Layer(s: State, c: Category): (p: Option<Paint>)
    ensures p.Some? <==> s.Selected(c) in Ids(Options(c))
    ensures p.Some? ==> p.value.color == GroupColor(s, c)
  {
    match Find(Options(c), s.Selected(c))
    case None => None
    case Some(o) => Some(Paint(o.path, GroupColor(s, c)))
  }

  /** `renderCharacter`: look up the four options, then paint head, eyes, mouth and hair in that order. */
  function Render(s: State): (f: Frame)
    ensures f.failure.None? <==> Valid(s)
  {
    var face := Layer(s, Face);
    var eyes := Layer(s, Eyes);
    var mouth := Layer(s, Mouth);
    var hair := Layer(s, Hair);
    if face.None? then Frame(map[], Some(Face))
    else if eyes.None? then Frame(map[HeadGroup := face.value], Some(Eyes))
    else if mouth.None? then Frame(map[HeadGroup := face.value, EyesGroup := eyes.value], Some(Mouth))
    else if hair.None? then
      Frame(map[HeadGroup := face.value, EyesGroup := eyes.value, MouthGroup := mouth.value], Some(Hair))
    else
      Frame(map[HeadGroup := face.value, EyesGroup := eyes.value, MouthGroup := mouth.value,
                HairGroup := hair.value], None)
  }

  /** What a frame painted into group g, if anything. */
  function PaintOf(f: Frame, g: Group): Option<Paint>
  {
    if g in f.painted then Some(f.painted[g]) else None
  }

  /** A layer depends only on the category's selection and the group's colour. */
  lemma LayerDependsOn(s: State, t: State, c: Category)
    requires s.Selected(c) == t.Selected(c) && GroupColor(s, c) == GroupColor(t, c)
    ensures Layer(s, c) == Layer(t, c)
  {
  }

  /**
   * A render paints, in order, the groups before the first failing lookup
   * (all four when none fails), each with that category's layer, and
   * nothing else.
   */
  lemma RenderPaintsInOrder(s: State)
    ensures Render(s).failure.Some? ==> Layer(s, Render(s).failure.value).None?
    ensures forall c :: PaintOf(Render(s), GroupOf(c)) ==
              if Render(s).failure.None? || Rank(c) < Rank(Render(s).failure.value) then Layer(s, c) else None
  {
    // The frame of each case, spelled out, keeps the solver's work small.
    var f := Render(s);
    var face, eyes, mouth, hair := Layer(s, Face), Layer(s, Eyes), Layer(s, Mouth), Layer(s, Hair);
    if face.None? {
      assert f == Frame(map[], Some(Face));
    } else if eyes.None? {
      assert f == Frame(map[HeadGroup := face.value], Some(Eyes));
    } else if mouth.None? {
      assert f == Frame(map[HeadGroup := face.value, EyesGroup := eyes.value], Some(Mouth));
    } else if hair.None? {
      assert f == Frame(map[HeadGroup := face.value, EyesGroup := eyes.value, MouthGroup := mouth.value], Some(Hair));
    } else {
      assert f == Frame(map[HeadGroup := face.value, EyesGroup := eyes.value, MouthGroup := mouth.value,
                            HairGroup := hair.value], None);
    }
    forall c ensures PaintOf(Render(s), GroupOf(c)) ==
                       if Render(s).failure.None? || Rank(c) < Rank(Render(s).failure.value) then Layer(s, c) else None
    {
      match c
      case Face =>
      case Eyes =>
      case Mouth =>
      case Hair =>
    }
  }

  /**
   * For a valid state, the group of category c shows the fragment of the
   * option whose id is selected, in the group's colour.
   */
  lemma RenderShows(s: State, c: Category, i: nat)
    requires Valid(s) && i < |Options(c)| && Options(c)[i].id == s.Selected(c)
    ensures PaintOf(Render(s), GroupOf(c)) == Some(Paint(Options(c)[i].path, GroupColor(s, c)))
  {
    OptionIdsUnique(c);
    FindOwnId(Options(c), i);
    RenderPaintsInOrder(s);
  }

  /** The clothes colour never reaches the preview. */
  lemma ClothesNotRendered(s: State, color: string)
    ensures Render(s.(colors := s.colors.Set(ClothesColor, color))) == Render(s)
  {
    var s' := s.(colors := s.colors.Set(ClothesColor, color));
    LayerDependsOn(s', s, Face);
    LayerDependsOn(s', s, Eyes);
    LayerDependsOn(s', s, Mouth);
    LayerDependsOn(s', s, Hair);
  }

  // ---------------------------------------------------------------- updates

  /** The option click handler: `state[category] = id`. */
  function Select(s: State, c: Category, id: string): (r: State)
    ensures r.Selected(c) == id
    ensures forall d :: d != c ==> r.Selected(d) == s.Selected(d)
    ensures r.colors == s.colors
  {
    match c
    case Face => s.(face := id)
    case Eyes => s.(eyes := id)
    case Mouth => s.(mouth := id)
    case Hair => s.(hair := id)
  }

  /** Selecting an id of the category keeps the state valid (and from the catalog). */
  lemma SelectKeepsValid(s: State, c: Category, id: string)
    requires id in Ids(Options(c))
    ensures Valid(s) ==> Valid(Select(s, c, id))
    ensures FromCatalog(s) ==> FromCatalog(Select(s, c, id))
  {
  }

  /** Selecting the same id twice is the same as selecting it once. */
  lemma SelectIdempotent(s: State, c: Category, id: string)
    ensures Select(Select(s, c, id), c, id) == Select(s, c, id)
  {
  }

  /**
   * Selecting the option at index i and rendering shows its fragment in its
   * group and leaves every other group as it was.
   */
  lemma SelectThenRender(s: State, c: Category, i: nat)
    requires Valid(s) && i < |Options(c)|
    ensures Render(Select(s, c, Options(c)[i].id)).failure.None?
    ensures PaintOf(Render(Select(s, c, Options(c)[i].id)), GroupOf(c)) ==
              Some(Paint(Options(c)[i].path, GroupColor(s, c)))
    ensures forall d :: d != c ==>
              PaintOf(Render(Select(s, c, Options(c)[i].id)), GroupOf(d)) == PaintOf(Render(s), GroupOf(d))
  {
    var s' := Select(s, c, Options(c)[i].id);
    assert Options(c)[i].id == Ids(Options(c))[i];
    SelectKeepsValid(s, c, Options(c)[i].id);
    RenderShows(s', c, i);
    RenderPaintsInOrder(s);
    RenderPaintsInOrder(s');
    forall d | d != c ensures Layer(s', d) == Layer(s, d) {
      LayerDependsOn(s', s, d);
    }
  }

  /**
   * From the initial state, choosing "hair-3" (Bald) paints an empty hair
   * group and keeps the default face, eyes and mouth in their colours.
   */
  lemma BaldScenario()
    ensures Render(Select(Initial(), Hair, "hair-3")).failure.None?
    ensures PaintOf(Render(Select(Initial(), Hair, "hair-3")), HairGroup) == Some(Paint(NoMarkup, "#090806"))
    ensures PaintOf(Render(Select(Initial(), Hair, "hair-3")), HeadGroup) == Some(Paint(FaceOriginal, "#FFDBAC"))
    ensures PaintOf(Render(Select(Initial(), Hair, "hair-3")), EyesGroup) == Some(Paint(EyesDot, "#2D2926"))
    ensures PaintOf(Render(Select(Initial(), Hair, "hair-3")), MouthGroup) == Some(Paint(MouthSmile, MouthColor))
  {
    InitialFromCatalog();
    OnlyBaldIsEmpty(Hair, 2);
    SelectThenRender(Initial(), Hair, 2);
    RenderShows(Initial(), Face, 0);
    RenderShows(Initial(), Eyes, 0);
    RenderShows(Initial(), Mouth, 0);
  }

  /** The colour click handler: `state.colors[slot] = color`. */
  function ChooseColor(s: State, slot: ColorSlot, color: string): (r: State)
    ensures r.colors.Get(slot) == color
    ensures forall t :: t != slot ==> r.colors.Get(t) == s.colors.Get(t)
    ensures forall c :: r.Selected(c) == s.Selected(c)
  {
    s.(colors := s.colors.Set(slot, color))
  }

  /** A colour change never breaks validity; a palette colour keeps the state from the catalog. */
  lemma ChooseColorKeepsValid(s: State, slot: ColorSlot, color: string)
    ensures Valid(s) ==> Valid(ChooseColor(s, slot, color))
    ensures FromCatalog(s) && color in Palette(slot) ==> FromCatalog(ChooseColor(s, slot, color))
  {
  }

  // ---------------------------------------------------------------- random button

  /** `Math.floor(r * n)`: the index drawn from a `Math.random()` value r. */
  function PickIndex(r: real, n: nat): (i: nat)
    requires 0.0 <= r < 1.0 && n > 0
    ensures i < n
  {
    var x := r * n as real;
    assert 0.0 <= x < n as real by {
      assert r * n as real < 1.0 * n as real;
    }
    x.Floor
  }

  /** Every index is drawn by some value of `Math.random()`: r = i / n picks i. */
  lemma PickIndexReaches(i: nat, n: nat)
    requires i < n
    ensures 0.0 <= i as real / n as real < 1.0
    ensures PickIndex(i as real / n as real, n) == i
  {
    var r := i as real / n as real;
    assert r * n as real == i as real;
  }

  /** The six `Math.random()` values one click of the random button consumes. */
  datatype Draws = Draws(face: real, eyes: real, mouth: real, hair: real, skin: real, hairColor: real)
  {
    predicate InRange()
    {
      && 0.0 <= face < 1.0 && 0.0 <= eyes < 1.0 && 0.0 <= mouth < 1.0
      && 0.0 <= hair < 1.0 && 0.0 <= skin < 1.0 && 0.0 <= hairColor < 1.0
    }
  }

  /** The option of category c at a drawn index. */
  function Drawn(c: Category, r: real): (o: PartOption)
    requires 0.0 <= r < 1.0
    ensures o in Options(c) && o.id in Ids(Options(c))
  {
    OptionCounts(c);
    var k := PickIndex(r, |Options(c)|);
    assert Ids(Options(c))[k] == Options(c)[k].id;
    Options(c)[k]
  }

  /** The colour of a palette at a drawn index. */
  function DrawnColor(slot: ColorSlot, r: real): (color: string)
    requires 0.0 <= r < 1.0
    ensures color in Palette(slot)
  {
    PaletteSizes();
    Palette(slot)[PickIndex(r, |Palette(slot)|)]
  }

  /** The random button: new selections everywhere, new skin and hair colours. */
  function Randomized(s: State, d: Draws): (r: State)
    requires d.InRange()
    ensures Valid(r)
    ensures r.colors.Get(SkinColor) in Palette(SkinColor) && r.colors.Get(HairColor) in Palette(HairColor)
    ensures r.colors.Get(EyesColor) == s.colors.Get(EyesColor)
    ensures r.colors.Get(ClothesColor) == s.colors.Get(ClothesColor)
  {
    var r := State(Drawn(Face, d.face).id, Drawn(Eyes, d.eyes).id, Drawn(Mouth, d.mouth).id,
                   Drawn(Hair, d.hair).id,
                   s.colors.(skin := DrawnColor(SkinColor, d.skin), hair := DrawnColor(HairColor, d.hairColor)));
    assert r.Selected(Face) in Ids(Options(Face)) && r.Selected(Eyes) in Ids(Options(Eyes));
    assert r.Selected(Mouth) in Ids(Options(Mouth)) && r.Selected(Hair) in Ids(Options(Hair));
    r
  }

  /** Randomizing a state drawn from the catalog gives a state drawn from the catalog. */
  lemma RandomizedKeepsCatalog(s: State, d: Draws)
    requires d.InRange() && FromCatalog(s)
    ensures FromCatalog(Randomized(s, d))
  {
    var r := Randomized(s, d);
    forall slot ensures r.colors.Get(slot) in Palette(slot) {
      match slot
      case SkinColor =>
      case HairColor =>
      case EyesColor =>
        assert r.colors.Get(EyesColor) == s.colors.Get(EyesColor);
      case ClothesColor =>
        assert r.colors.Get(ClothesColor) == s.colors.Get(ClothesColor);
    }
  }

  /** Every option of every category can come out of the random button. */
  lemma RandomizeReachesEveryOption(s: State, c: Category, i: nat)
    requires i < |Options(c)|
    ensures exists d: Draws :: d.InRange() && Randomized(s, d).Selected(c) == Options(c)[i].id
  {
    var n := |Options(c)|;
    PickIndexReaches(i, n);
    var r := i as real / n as real;
    var d := Draws(r, r, r, r, 0.0, 0.0);
    assert Drawn(c, r) == Options(c)[i];
    assert Randomized(s, d).Selected(c) == Options(c)[i].id;
  }

  // ---------------------------------------------------------------- the page's state object

  /**
   * The page's single `state` object; the handlers change its fields in
   * place and then repaint.
   */
  class CustomizationState {
    var face: string
    var eyes: string
    var mouth: string
    var hair: string
    var colors: Colors

    /** The fields as a value. */
    function View(): State
      reads this
    {
      State(face, eyes, mouth, hair, colors)
    }

    constructor()
      ensures View() == Initial()
      ensures FromCatalog(View())
    {
      face, eyes, mouth, hair := "face-1", "eyes-1", "mouth-1", "hair-1";
      colors := Colors(Palette(SkinColor)[0], Palette(HairColor)[0],
                       Palette(EyesColor)[0], Palette(ClothesColor)[0]);
      new;
      InitialFromCatalog();
    }

    /** `renderCharacter()` on the current state. */
    function RenderCharacter(): (f: Frame)
      reads this
      ensures FromCatalog(View()) ==> f.failure.None?
    {
      Render(View())
    }

    /** A click on an option of `category`: store its id, then repaint. */
    method SelectOption(category: Category, item: PartOption) returns (frame: Frame)
      modifies this
      ensures View() == Select(old(View()), category, item.id)
      ensures frame == Render(View())
      ensures item in Options(category) && FromCatalog(old(View())) ==> FromCatalog(View())
    {
      match category {
        case Face => face := item.id;
        case Eyes => eyes := item.id;
        case Mouth => mouth := item.id;
        case Hair => hair := item.id;
      }
      if item in Options(category) {
        var k :| 0 <= k < |Options(category)| && Options(category)[k] == item;
        assert Ids(Options(category))[k] == item.id;
        SelectKeepsValid(old(View()), category, item.id);
      }
      frame := RenderCharacter();
    }

    /** A click on a colour swatch of `slot`: store it, then repaint. */
    method SelectColor(slot: ColorSlot, color: string) returns (frame: Frame)
      modifies this
      ensures View() == ChooseColor(old(View()), slot, color)
      ensures frame == Render(View())
      ensures color in Palette(slot) && FromCatalog(old(View())) ==> FromCatalog(View())
    {
      colors := colors.Set(slot, color);
      ChooseColorKeepsValid(old(View()), slot, color);
      frame := RenderCharacter();
    }

    /** The random button, with its six `Math.random()` values passed in. */
    method Randomize(d: Draws) returns (frame: Frame)
      requires d.InRange()
      modifies this
      ensures View() == Randomized(old(View()), d)
      ensures frame == Render(View()) && frame.failure.None?
      ensures FromCatalog(old(View())) ==> FromCatalog(View())
    {
      face := Options(Face)[PickIndex(d.face, |Options(Face)|)].id;
      eyes := Options(Eyes)[PickIndex(d.eyes, |Options(Eyes)|)].id;
      mouth := Options(Mouth)[PickIndex(d.mouth, |Options(Mouth)|)].id;
      hair := Options(Hair)[PickIndex(d.hair, |Options(Hair)|)].id;
      PaletteSizes();
      colors := colors.(skin := Palette(SkinColor)[PickIndex(d.skin, |Palette(SkinColor)|)]);
      colors := colors.(hair := Palette(HairColor)[PickIndex(d.hairColor, |Palette(HairColor)|)]);
      if FromCatalog(old(View())) {
        RandomizedKeepsCatalog(old(View()), d);
      }
      frame := RenderCharacter();
    }
  }
}
