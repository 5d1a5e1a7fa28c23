/**
 * The scene graph that scene scripts fill in: CSG nodes with attributes and ordered,
 * transformed children, and the ray scene that holds the root, background colour,
 * camera and light sources. Geometry, shading and intersection code are opaque:
 * only the values a script assigns are kept.
 */
module SceneGraph {
  import opened Wrappers

  /** A three-channel colour or reflectance (`double[3]`). */
  datatype Rgb = Rgb(r: real, g: real, b: real)

  datatype Vec3 = Vec3(x: real, y: real, z: real)

  /**
   * A Phong material: colour, ambient/diffuse/specular coefficients and highlight
   * exponent as passed to the constructor. `n` (index of refraction) and `kt`
   * (transmission) are `None` while they keep the constructor's defaults.
   */
  datatype Material = Phong(color: Rgb, ka: real, kd: real, ks: real, h: nat, n: Option<real>, kt: Option<real>)

  datatype ReflectanceModel = PhongModel

  datatype Texture = Checker(du: real, dv: real, color: Rgb)

  /** The attribute names a scene script uses (distinct `PropertyName` constants). */
  datatype AttributeKey = ReflectanceModelKey | MaterialKey | ColorKey | TextureKey

  datatype Attribute =
    | Reflectance(model: ReflectanceModel)
    | MaterialAttr(material: Material)
    | ColorAttr(color: Rgb)
    | TextureAttr(texture: Texture)

  /** An angle in radians; `MinusHalfPi` is `-MathHelper.PiOver2`. */
  datatype Angle = Radians(value: real) | MinusHalfPi

  datatype Axis = X | Y

  /** `Matrix4d.RotateX/Y(angle) * Matrix4d.CreateTranslation(offset)`. */
  datatype Transform = Placement(axis: Axis, angle: Angle, offset: Vec3)

  datatype SetOperation = Union | Intersection | Difference

  datatype NodeKind = Inner(op: SetOperation) | PlaneSolid | CubeSolid

  datatype Camera = StaticCamera(position: Vec3, direction: Vec3, angle: real)

  datatype LightSource = AmbientLight(intensity: real) | PointLight(position: Vec3, intensity: real)

  /** A child of an inner CSG node together with its object-to-parent transform. */
  datatype Child = Child(node: SceneNode, transform: Transform)

  /** A CSG node: an inner node with a set operation, or a primitive solid. */
  class SceneNode {
    const kind: NodeKind
    var attributes: map<AttributeKey, Attribute>
    var children: seq<Child>

    constructor (kind: NodeKind)
      ensures this.kind == kind && attributes == map[] && children == []
    {
      this.kind := kind;
      attributes := map[];
      children := [];
    }

    /** Attaches or overrides one attribute of this node. */
    method SetAttribute(key: AttributeKey, value: Attribute)
      modifies this
      ensures attributes == old(attributes)[key := value]
      ensures children == old(children)
    {
      attributes := attributes[key := value];
    }

    /** Appends a child with its transform to an inner node. */
    method InsertChild(node: SceneNode, transform: Transform)
      requires kind.Inner?
      modifies this
      ensures children == old(children) + [Child(node, transform)]
      ensures attributes == old(attributes)
    {
      children := children + [Child(node, transform)];
    }
  }

  /** `DefaultRayScene`: the object a scene builder fills in. */
  class RayScene {
    var intersectable: SceneNode?
    var backgroundColor: Option<Rgb>
    var camera: Option<Camera>
    var sources: Option<seq<LightSource>>

    /** A fresh scene has nothing set; an unset background means "not built yet". */
    constructor ()
      ensures Empty()
    {
      intersectable := null;
      backgroundColor := None;
      camera := None;
      sources := None;
    }

    predicate Empty()
      reads this
    {
      intersectable == null && backgroundColor.None? && camera.None? && sources.None?
    }
  }
}
