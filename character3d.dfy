/**
 * The 3D mannequin: five shared materials and a fixed hierarchy of
 * primitive meshes (torso, head group with head, eyes and hair, two legs,
 * two arms), with hairstyle swapping, proportional scaling, recolouring
 * and head-shape swapping. Scene-graph objects are modelled as values;
 * a mesh names the shared material it uses by its slot in the table, so
 * recolouring a slot recolours every mesh that uses it.
 */
module Character3D {
  import opened Wrappers

  datatype Vec3 = Vec3(x: real, y: real, z: real)

  const Origin: Vec3 := Vec3(0.0, 0.0, 0.0)
  const Identity: Vec3 := Vec3(1.0, 1.0, 1.0)

  /** A primitive geometry with its size parameters (the detail and segment counts included). */
  datatype Geometry =
    | Icosahedron(radius: real, detail: nat)
    | Box(width: real, height: real, depth: real)
    | Cylinder(radiusTop: real, radiusBottom: real, height: real, radialSegments: nat)

  /**
   * The material a mesh renders with: one of the shared standard materials,
   * named by its slot in the material table, or a basic material of its own
   * with a fixed colour (the eyes').
   */
  datatype Material = Shared(slot: string) | Basic(color: nat)

  /** A mesh; `geometry` is `None` once a head-shape swap has stored `undefined`. */
  datatype Mesh = Mesh(geometry: Option<Geometry>, material: Material, position: Vec3, rotation: Vec3, scale: Vec3)

  /** The head group: its transform and its children (head, two eyes, the hair group's children). */
  datatype HeadGroup = HeadGroup(position: Vec3, scale: Vec3, head: Mesh, leftEye: Mesh, rightEye: Mesh, hair: seq<Mesh>)

  /** The children of the character's root group, in the order they are added. */
  datatype Body = Body(torso: Mesh, headGroup: HeadGroup, leftLeg: Mesh, rightLeg: Mesh, leftArm: Mesh, rightArm: Mesh)
  {
    /** The body with the hair group's children replaced. */
    function WithHair(hair: seq<Mesh>): (b: Body)
      ensures b.headGroup.hair == hair
    {
      this.(headGroup := headGroup.(hair := hair))
    }
  }

  /** The named meshes of the body (the hair meshes aside). */
  datatype Part = Torso | Head | LeftEye | RightEye | LeftLeg | RightLeg | LeftArm | RightArm

  function MeshOf(b: Body, p: Part): Mesh
  {
    match p
    case Torso => b.torso
    case Head => b.headGroup.head
    case LeftEye => b.headGroup.leftEye
    case RightEye => b.headGroup.rightEye
    case LeftLeg => b.leftLeg
    case RightLeg => b.rightLeg
    case LeftArm => b.leftArm
    case RightArm => b.rightArm
  }

  // ---------------------------------------------------------------- materials

  /** The slots of the shared material table. */
  const MaterialSlots: set<string> := {"skin", "shirt", "pants", "hair", "shoes"}

  /** The eyes' basic material colour (black). */
  const EyeColor: nat := 0x000000

  /** `initMaterials`: the five shared materials and their starting colours. */
  function InitialMaterials(): map<string, nat>
  {
    map["skin" := 0xffdbac, "shirt" := 0x3b82f6, "pants" := 0x1e293b, "hair" := 0x2c1608, "shoes" := 0x111111]
  }

  lemma InitialMaterialsFive()
    ensures InitialMaterials().Keys == MaterialSlots
    ensures |InitialMaterials().Keys| == 5
  {
    assert InitialMaterials().Keys == {"skin", "shirt", "pants", "hair", "shoes"};
  }

  /**
   * Which material each part is built with: skin for the head and both
   * arms, the shirt for the torso, the pants for both legs, and the eyes'
   * own black material. No part uses the shoes material.
   */
  function MaterialOf(p: Part): Material
  {
    match p
    case Torso => Shared("shirt")
    case Head | LeftArm | RightArm => Shared("skin")
    case LeftLeg | RightLeg => Shared("pants")
    case LeftEye | RightEye => Basic(EyeColor)
  }

  /** The colour a mesh shows under a material table; `None` for a slot missing from it. */
  function Shade(materials: map<string, nat>, m: Mesh): Option<nat>
  {
    match m.material
    case Basic(color) => Some(color)
    case Shared(slot) => if slot in materials then Some(materials[slot]) else None
  }

  /** The body's structural invariant: materials as built, at most one hair mesh, hair uses the hair material. */
  predicate WellFormed(b: Body)
  {
    && (forall p :: MeshOf(b, p).material == MaterialOf(p))
    && |b.headGroup.hair| <= 1
    && (forall i :: 0 <= i < |b.headGroup.hair| ==> b.headGroup.hair[i].material == Shared("hair"))
  }

  // ---------------------------------------------------------------- construction

  /** `buildCharacter` before the hair is created: the hair group is empty. */
  function Skeleton(): Body
  {
    var torso := Mesh(Some(Cylinder(0.3, 0.25, 0.7, 5)), Shared("shirt"), Vec3(0.0, 0.35, 0.0), Origin, Identity);
    var eye := Some(Box(0.05, 0.05, 0.02));
    var headGroup := HeadGroup(Vec3(0.0, 0.8, 0.0), Identity,
                               Mesh(Some(Icosahedron(0.25, 0)), Shared("skin"), Origin, Origin, Identity),
                               Mesh(eye, Basic(EyeColor), Vec3(-0.1, 0.05, 0.22), Origin, Identity),
                               Mesh(eye, Basic(EyeColor), Vec3(0.1, 0.05, 0.22), Origin, Identity),
                               []);
    var leg := Some(Cylinder(0.08, 0.06, 0.8, 5));
    var arm := Some(Cylinder(0.07, 0.05, 0.7, 5));
    Body(torso, headGroup,
         Mesh(leg, Shared("pants"), Vec3(-0.15, -0.4, 0.0), Origin, Identity),
         Mesh(leg, Shared("pants"), Vec3(0.15, -0.4, 0.0), Origin, Identity),
         Mesh(arm, Shared("skin"), Vec3(-0.4, 0.45, 0.0), Vec3(0.0, 0.0, 0.2), Identity),
         Mesh(arm, Shared("skin"), Vec3(0.4, 0.45, 0.0), Vec3(0.0, 0.0, -0.2), Identity))
  }

  /** The body right after construction: the skeleton with hairstyle "style1". */
  function Built(): Body
  {
    Skeleton().WithHair(HairMeshes("style1"))
  }

  /** The head and both arms share the skin material, the legs share the pants, the torso wears the shirt. */
  lemma BuiltSharing()
    ensures WellFormed(Built())
    ensures forall p :: MaterialOf(p) == Shared("skin") <==> p == Head || p == LeftArm || p == RightArm
    ensures forall p :: MaterialOf(p) == Shared("pants") <==> p == LeftLeg || p == RightLeg
    ensures forall p :: MaterialOf(p) == Shared("shirt") <==> p == Torso
    ensures forall p :: MaterialOf(p) != Shared("shoes")
  {
    var b := Built();
    forall p ensures MeshOf(b, p).material == MaterialOf(p) {
      match p
      case Torso =>
      case Head =>
      case LeftEye =>
      case RightEye =>
      case LeftLeg =>
      case RightLeg =>
      case LeftArm =>
      case RightArm =>
    }
  }

  /** After construction the hair group holds exactly one mesh: a radius-0.27 icosahedron at y = 0.05. */
  lemma BuiltHair()
    ensures Built().headGroup.hair ==
              [Mesh(Some(Icosahedron(0.27, 0)), Shared("hair"), Vec3(0.0, 0.05, 0.0), Origin, Identity)]
  {
  }

  // ---------------------------------------------------------------- hair

  /** The closed mapping of hairstyle ids to the one mesh each creates. */
  function HairStyle(styleId: string): (m: Option<Mesh>)
    ensures m.Some? <==> styleId == "style1" || styleId == "style2" || styleId == "style3"
    ensures m.Some? ==> m.value.material == Shared("hair")
  {
    var mat := Shared("hair");
    if styleId == "style1" then
      Some(Mesh(Some(Icosahedron(0.27, 0)), mat, Vec3(0.0, 0.05, 0.0), Origin, Identity))
    else if styleId == "style2" then
      Some(Mesh(Some(Cylinder(0.28, 0.28, 0.2, 6)), mat, Vec3(0.0, 0.15, 0.0), Origin, Identity))
    else if styleId == "style3" then
      Some(Mesh(Some(Box(0.1, 0.4, 0.4)), mat, Vec3(0.0, 0.25, 0.0), Origin, Identity))
    else
      None
  }

  /** The hair group's children after `createHair(styleId)`. */
  function HairMeshes(styleId: string): (hair: seq<Mesh>)
    ensures |hair| <= 1
    ensures |hair| == 1 <==> HairStyle(styleId).Some?
  {
    match HairStyle(styleId)
    case None => []
    case Some(m) => [m]
  }

  /**
   * `createHair` leaves exactly one mesh for a known style and none for an
   * unknown one, replaces whatever hair there was, changes nothing else and
   * keeps the body well formed.
   */
  lemma CreateHairResult(b: Body, styleId: string)
    requires WellFormed(b)
    ensures WellFormed(b.WithHair(HairMeshes(styleId)))
    ensures forall p :: MeshOf(b.WithHair(HairMeshes(styleId)), p) == MeshOf(b, p)
    ensures b.WithHair(HairMeshes(styleId)).headGroup.(hair := []) == b.headGroup.(hair := [])
    ensures |b.WithHair(HairMeshes(styleId)).headGroup.hair| ==
              if styleId in {"style1", "style2", "style3"} then 1 else 0
  {
    var r := b.WithHair(HairMeshes(styleId));
    forall p ensures MeshOf(r, p) == MeshOf(b, p) {
      match p
      case Torso =>
      case Head =>
      case LeftEye =>
      case RightEye =>
      case LeftLeg =>
      case RightLeg =>
      case LeftArm =>
      case RightArm =>
    }
  }

  /** The geometry and height offset of each hairstyle. */
  lemma HairStyles()
    ensures HairStyle("style1").Some? && HairStyle("style1").value.geometry == Some(Icosahedron(0.27, 0))
    ensures HairStyle("style1").value.position == Vec3(0.0, 0.05, 0.0)
    ensures HairStyle("style2").Some? && HairStyle("style2").value.geometry == Some(Cylinder(0.28, 0.28, 0.2, 6))
    ensures HairStyle("style2").value.position == Vec3(0.0, 0.15, 0.0)
    ensures HairStyle("style3").Some? && HairStyle("style3").value.geometry == Some(Box(0.1, 0.4, 0.4))
    ensures HairStyle("style3").value.position == Vec3(0.0, 0.25, 0.0)
  {
  }

  // ---------------------------------------------------------------- scaling

  /** The optional parameters of `updateScale`. */
  datatype ScaleParams = ScaleParams(height: Option<real>, headSize: Option<real>, build: Option<real>)

  /** JavaScript truthiness of an optional number: present and not zero. */
  predicate Truthy(v: Option<real>)
  {
    v.Some? && v.value != 0.0
  }

  /** Half the leg cylinder's height: the distance from a leg's centre to the hip. */
  const LegOffset: real := 0.4

  /** A leg stretched to vertical scale h and moved so that its top stays at the hip. */
  function Stretched(leg: Mesh, h: real): Mesh
  {
    leg.(scale := leg.scale.(y := h), position := leg.position.(y := -LegOffset * h))
  }

  /** `updateScale(params)`: the height, head-size and build branches, each when its parameter is truthy. */
  function Scaled(b: Body, p: ScaleParams): (r: Body)
  {
    var b1 := if Truthy(p.height)
              then b.(leftLeg := Stretched(b.leftLeg, p.height.value), rightLeg := Stretched(b.rightLeg, p.height.value))
              else b;
    var b2 := if Truthy(p.headSize)
              then b1.(headGroup := b1.headGroup.(scale := Vec3(p.headSize.value, p.headSize.value, p.headSize.value)))
              else b1;
    if Truthy(p.build)
    then b2.(torso := b2.torso.(scale := b2.torso.scale.(x := p.build.value, z := p.build.value)))
    else b2
  }

  /** The height branch: both legs take vertical scale h and sit at y = -0.4 h; their x and z are kept. */
  lemma ScaleHeight(b: Body, p: ScaleParams)
    requires Truthy(p.height)
    ensures Scaled(b, p).leftLeg.scale == b.leftLeg.scale.(y := p.height.value)
    ensures Scaled(b, p).rightLeg.scale == b.rightLeg.scale.(y := p.height.value)
    ensures Scaled(b, p).leftLeg.position == b.leftLeg.position.(y := -0.4 * p.height.value)
    ensures Scaled(b, p).rightLeg.position == b.rightLeg.position.(y := -0.4 * p.height.value)
  {
  }

  /** The head-size branch: one uniform scale on the whole head group. */
  lemma ScaleHeadSize(b: Body, p: ScaleParams)
    requires Truthy(p.headSize)
    ensures Scaled(b, p).headGroup.scale.x == Scaled(b, p).headGroup.scale.y == Scaled(b, p).headGroup.scale.z
    ensures Scaled(b, p).headGroup.scale.x == p.headSize.value
  {
  }

  /** The build branch: the torso's width and depth scale become b, its height scale is kept. */
  lemma ScaleBuild(b: Body, p: ScaleParams)
    requires Truthy(p.build)
    ensures Scaled(b, p).torso.scale == Vec3(p.build.value, b.torso.scale.y, p.build.value)
  {
  }

  /**
   * What `updateScale` never touches: positions other than the legs' y,
   * rotations, geometries, materials, the arms, the meshes inside the head
   * group, and the torso's height scale. A branch whose parameter is absent
   * or falsy leaves its parts as they were.
   */
  lemma ScaleFrame(b: Body, p: ScaleParams)
    ensures WellFormed(b) ==> WellFormed(Scaled(b, p))
    ensures forall q :: MeshOf(Scaled(b, p), q).geometry == MeshOf(b, q).geometry
    ensures forall q :: MeshOf(Scaled(b, p), q).material == MeshOf(b, q).material
    ensures forall q :: MeshOf(Scaled(b, p), q).rotation == MeshOf(b, q).rotation
    ensures forall q :: q != LeftLeg && q != RightLeg ==> MeshOf(Scaled(b, p), q).position == MeshOf(b, q).position
    ensures Scaled(b, p).headGroup.(scale := b.headGroup.scale) == b.headGroup
    ensures Scaled(b, p).leftArm == b.leftArm && Scaled(b, p).rightArm == b.rightArm
    ensures Scaled(b, p).torso.scale.y == b.torso.scale.y
    ensures Scaled(b, p).leftLeg.position.x == b.leftLeg.position.x
    ensures Scaled(b, p).leftLeg.position.z == b.leftLeg.position.z
    ensures Scaled(b, p).rightLeg.position.x == b.rightLeg.position.x
    ensures Scaled(b, p).rightLeg.position.z == b.rightLeg.position.z
    ensures !Truthy(p.height) ==> Scaled(b, p).leftLeg == b.leftLeg && Scaled(b, p).rightLeg == b.rightLeg
    ensures !Truthy(p.headSize) ==> Scaled(b, p).headGroup == b.headGroup
    ensures !Truthy(p.build) ==> Scaled(b, p).torso == b.torso
  {
    var r := Scaled(b, p);
    forall q ensures MeshOf(r, q).geometry == MeshOf(b, q).geometry && MeshOf(r, q).material == MeshOf(b, q).material
      && MeshOf(r, q).rotation == MeshOf(b, q).rotation
      && (q != LeftLeg && q != RightLeg ==> MeshOf(r, q).position == MeshOf(b, q).position)
    {
      match q
      case Torso =>
      case Head =>
      case LeftEye =>
      case RightEye =>
      case LeftLeg =>
      case RightLeg =>
      case LeftArm =>
      case RightArm =>
    }
  }

  /** Two parameter sets agree on every parameter both of them apply. */
  predicate Compatible(p: ScaleParams, q: ScaleParams)
  {
    && (Truthy(p.height) && Truthy(q.height) ==> p.height == q.height)
    && (Truthy(p.headSize) && Truthy(q.headSize) ==> p.headSize == q.headSize)
    && (Truthy(p.build) && Truthy(q.build) ==> p.build == q.build)
  }

  /** Calls that do not disagree on a parameter commute. */
  lemma ScaleCommutes(b: Body, p: ScaleParams, q: ScaleParams)
    requires Compatible(p, q)
    ensures Scaled(Scaled(b, p), q) == Scaled(Scaled(b, q), p)
  {
  }

  /** Repeating a call changes nothing more. */
  lemma ScaleIdempotent(b: Body, p: ScaleParams)
    ensures Scaled(Scaled(b, p), p) == Scaled(b, p)
  {
    ScaleCommutes(b, p, p);
  }

  /** The y coordinate of the top of a vertical cylinder mesh. */
  function CylinderTop(m: Mesh): real
    requires m.geometry.Some? && m.geometry.value.Cylinder?
  {
    m.position.y + m.scale.y * m.geometry.value.height / 2.0
  }

  /** Legs built with the 0.8-high leg cylinder and their top at the hip (y = 0). */
  predicate LegsAtHip(b: Body)
  {
    && b.leftLeg.geometry == Some(Cylinder(0.08, 0.06, 0.8, 5)) && CylinderTop(b.leftLeg) == 0.0
    && b.rightLeg.geometry == Some(Cylinder(0.08, 0.06, 0.8, 5)) && CylinderTop(b.rightLeg) == 0.0
  }

  /** The legs start at the hip and every `updateScale` keeps them there: they grow and shrink downwards. */
  lemma LegsStayAtHip(b: Body, p: ScaleParams)
    ensures LegsAtHip(Built())
    ensures LegsAtHip(b) ==> LegsAtHip(Scaled(b, p))
  {
    if LegsAtHip(b) && Truthy(p.height) {
      var h := p.height.value;
      var r := Scaled(b, p);
      assert CylinderTop(r.leftLeg) == -0.4 * h + h * 0.8 / 2.0;
      assert CylinderTop(r.rightLeg) == -0.4 * h + h * 0.8 / 2.0;
    }
  }

  // ---------------------------------------------------------------- recolouring

  /** `setColor(part, color)`: the slot's material takes the colour; an unknown slot is left alone. */
  function Recolored(materials: map<string, nat>, part: string, color: nat): (r: map<string, nat>)
    ensures r.Keys == materials.Keys
    ensures forall slot :: slot in r && slot != part ==> r[slot] == materials[slot]
    ensures part in materials ==> r[part] == color
    ensures part !in materials ==> r == materials
  {
    if part in materials then materials[part := color] else materials
  }

  /** Every mesh that uses the recoloured slot shows the new colour; every other mesh keeps its colour. */
  lemma RecolorShared(materials: map<string, nat>, part: string, color: nat, m: Mesh)
    ensures Shade(Recolored(materials, part, color), m) ==
              if part in materials && m.material == Shared(part) then Some(color) else Shade(materials, m)
  {
  }

  /** On a well-formed body, recolouring "skin" recolours the head and both arms and nothing else. */
  lemma RecolorSkin(materials: map<string, nat>, color: nat, b: Body)
    requires WellFormed(b) && "skin" in materials
    ensures forall p :: Shade(Recolored(materials, "skin", color), MeshOf(b, p)) ==
              if p == Head || p == LeftArm || p == RightArm then Some(color) else Shade(materials, MeshOf(b, p))
  {
    BuiltSharing();
    forall p ensures Shade(Recolored(materials, "skin", color), MeshOf(b, p)) ==
                       if p == Head || p == LeftArm || p == RightArm then Some(color) else Shade(materials, MeshOf(b, p))
    {
      RecolorShared(materials, "skin", color, MeshOf(b, p));
    }
  }

  // ---------------------------------------------------------------- head shape

  /** The closed mapping of head-shape ids to geometries; `None` (undefined) for any other id. */
  function HeadGeometry(shapeId: string): (g: Option<Geometry>)
    ensures g.Some? <==> shapeId == "shape1" || shapeId == "shape2" || shapeId == "shape3"
  {
    if shapeId == "shape1" then Some(Icosahedron(0.25, 0))
    else if shapeId == "shape2" then Some(Box(0.4, 0.5, 0.4))
    else if shapeId == "shape3" then Some(Cylinder(0.2, 0.25, 0.5, 6))
    else None
  }

  /** The body after `setHeadShape(shapeId)` stored its new geometry. */
  function Reshaped(b: Body, shapeId: string): Body
  {
    b.(headGroup := b.headGroup.(head := b.headGroup.head.(geometry := HeadGeometry(shapeId))))
  }

  /**
   * A head-shape swap replaces the head's geometry only: the head's
   * material and transform, the eyes, the hair and the head group's
   * transform are kept, and the body stays well formed.
   */
  lemma ReshapeFrame(b: Body, shapeId: string)
    ensures Reshaped(b, shapeId).headGroup.head.geometry == HeadGeometry(shapeId)
    ensures Reshaped(b, shapeId).headGroup.head.(geometry := b.headGroup.head.geometry) == b.headGroup.head
    ensures forall p :: p != Head ==> MeshOf(Reshaped(b, shapeId), p) == MeshOf(b, p)
    ensures Reshaped(b, shapeId).headGroup.(head := b.headGroup.head) == b.headGroup
    ensures WellFormed(b) ==> WellFormed(Reshaped(b, shapeId))
  {
    var r := Reshaped(b, shapeId);
    forall p ensures MeshOf(r, p).material == MeshOf(b, p).material && (p != Head ==> MeshOf(r, p) == MeshOf(b, p)) {
      match p
      case Torso =>
      case Head =>
      case LeftEye =>
      case RightEye =>
      case LeftLeg =>
      case RightLeg =>
      case LeftArm =>
      case RightArm =>
    }
  }

  /** Swapping the head shape and scaling commute: an earlier head size still applies to the new geometry. */
  lemma ReshapeAndScaleCommute(b: Body, shapeId: string, p: ScaleParams)
    ensures Reshaped(Scaled(b, p), shapeId) == Scaled(Reshaped(b, shapeId), p)
  {
  }

  /** "shape2" gives the head a 0.4 x 0.5 x 0.4 box and leaves the eyes, the hair and the head group's transform alone. */
  lemma BoxHeadScenario(b: Body)
    ensures Reshaped(b, "shape2").headGroup.head.geometry == Some(Box(0.4, 0.5, 0.4))
    ensures Reshaped(b, "shape2").headGroup.leftEye == b.headGroup.leftEye
    ensures Reshaped(b, "shape2").headGroup.rightEye == b.headGroup.rightEye
    ensures Reshaped(b, "shape2").headGroup.hair == b.headGroup.hair
    ensures Reshaped(b, "shape2").headGroup.position == b.headGroup.position
    ensures Reshaped(b, "shape2").headGroup.scale == b.headGroup.scale
  {
  }

  // ---------------------------------------------------------------- the character object

  /** The `Character` object: its material table and its part hierarchy, changed in place. */
  class Character {
    /** `this.materials`: slot name to colour. */
    var materials: map<string, nat>
    /** The part hierarchy under the root group (`this.parts` and their children). */
    var body: Body
    /** The geometries released with `dispose()`, oldest first. */
    var disposed: seq<Geometry>

    ghost predicate Valid()
      reads this
    {
      materials.Keys == MaterialSlots && WellFormed(body)
    }

    constructor()
      ensures Valid()
      ensures materials == InitialMaterials() && body == Built() && disposed == []
    {
      materials := map[];
      body := Skeleton();
      disposed := [];
      new;
      InitMaterials();
      BuildCharacter();
    }

    /** `initMaterials`, as the constructor runs it: once, before any mesh exists. */
    method InitMaterials()
      modifies this`materials
      ensures materials == InitialMaterials()
    {
      materials := map["skin" := 0xffdbac, "shirt" := 0x3b82f6, "pants" := 0x1e293b,
                       "hair" := 0x2c1608, "shoes" := 0x111111];
    }

    /** `buildCharacter`, as the constructor runs it: once, into an empty root group. */
    method BuildCharacter()
      requires materials.Keys == MaterialSlots
      modifies this`body
      ensures Valid() && body == Built()
    {
      body := Skeleton();
      BuiltSharing();
      CreateHair("style1");
    }

    /** `createHair(styleId)`: empty the hair group, then add the style's mesh, if the style is known. */
    method CreateHair(styleId: string)
      requires Valid()
      modifies this`body
      ensures Valid()
      ensures body == old(body).WithHair(HairMeshes(styleId))
    {
      while |body.headGroup.hair| > 0
        invariant Valid()
        invariant body == old(body).WithHair(body.headGroup.hair)
        invariant body.headGroup.hair == old(body).headGroup.hair[|old(body).headGroup.hair| - |body.headGroup.hair|..]
        decreases |body.headGroup.hair|
      {
        body := body.WithHair(body.headGroup.hair[1..]);
      }
      var style := HairStyle(styleId);
      if style.Some? {
        body := body.WithHair(body.headGroup.hair + [style.value]);
      }
      CreateHairResult(old(body), styleId);
    }

    /** `updateScale(params)`: the three independent adjustments, each when its parameter is truthy. */
    method UpdateScale(params: ScaleParams)
      requires Valid()
      modifies this`body
      ensures Valid()
      ensures body == Scaled(old(body), params)
    {
      if Truthy(params.height) {
        var scale := params.height.value;
        body := body.(leftLeg := body.leftLeg.(scale := body.leftLeg.scale.(y := scale)));
        body := body.(rightLeg := body.rightLeg.(scale := body.rightLeg.scale.(y := scale)));
        body := body.(leftLeg := body.leftLeg.(position := body.leftLeg.position.(y := -0.4 * scale)));
        body := body.(rightLeg := body.rightLeg.(position := body.rightLeg.position.(y := -0.4 * scale)));
      }
      if Truthy(params.headSize) {
        var s := params.headSize.value;
        body := body.(headGroup := body.headGroup.(scale := Vec3(s, s, s)));
      }
      if Truthy(params.build) {
        var thick := params.build.value;
        body := body.(torso := body.torso.(scale := body.torso.scale.(x := thick)));
        body := body.(torso := body.torso.(scale := body.torso.scale.(z := thick)));
      }
      ScaleFrame(old(body), params);
    }

    /** `setColor(part, color)`: recolour the shared material of that slot, if there is one. */
    method SetColor(part: string, color: nat)
      requires Valid()
      modifies this`materials
      ensures Valid()
      ensures materials == Recolored(old(materials), part, color)
    {
      if part in materials {
        materials := materials[part := color];
      }
    }

    /**
     * `setHeadShape(shapeId)`: dispose of the head's geometry and store the
     * new one (`None` for an unknown id). When the head has no geometry left
     * from an earlier unknown id, `dispose()` on `undefined` throws: `ok` is
     * false and nothing changes.
     */
    method SetHeadShape(shapeId: string) returns (ok: bool)
      requires Valid()
      modifies this`body, this`disposed
      ensures Valid()
      ensures ok <==> old(body).headGroup.head.geometry.Some?
      ensures ok ==> body == Reshaped(old(body), shapeId)
      ensures ok ==> disposed == old(disposed) + [old(body).headGroup.head.geometry.value]
      ensures !ok ==> body == old(body) && disposed == old(disposed)
    {
      var newGeo := HeadGeometry(shapeId);
      var current := body.headGroup.head.geometry;
      if current.None? {
        return false;
      }
      disposed := disposed + [current.value];
      body := body.(headGroup := body.headGroup.(head := body.headGroup.head.(geometry := newGeo)));
      ReshapeFrame(old(body), shapeId);
      ok := true;
    }
  }
}
