/**
 * The "Cubes" scene script: a ray-traced scene of a checkered plane and twelve cubes
 * in two rows, all cubes sharing one material chosen by the text parameter. The script
 * follows the two-pass protocol: without a tooltip in the context it only publishes its
 * tooltip; otherwise it selects the ray-tracing algorithm and, unless the scene already
 * has a background colour, builds the scene.
 */
module Cubes {
  import opened Wrappers
  import opened SceneGraph
  import opened Context
  import opened RayCastingScripts

  const TOOLTIP := "n=<double> (index of refraction)\rmat={mirror|glass}}"

  /** A `RayTracing` instance, an image function. */
  const RAY_TRACING := Component("RayTracing", true, false)

  const BASE_MATERIAL := Phong(Rgb(1.0, 0.6, 0.1), 0.1, 0.8, 0.2, 16, None, None)
  const MIRROR_MATERIAL := Phong(Rgb(1.0, 1.0, 0.8), 0.0, 0.1, 0.9, 128, None, None)
  const GLASS_MATERIAL := Phong(Rgb(0.0, 0.2, 0.1), 0.05, 0.05, 0.1, 128, None, None)
  const DEFAULT_N := 1.6
  const GLASS_KT := 0.9

  const BACKGROUND := Rgb(0.0, 0.05, 0.07)
  const CAMERA := StaticCamera(Vec3(0.7, 3.0, -10.0), Vec3(0.0, -0.3, 1.0), 50.0)
  const LIGHTS := [AmbientLight(0.8), PointLight(Vec3(-5.0, 3.0, -3.0), 1.0)]

  const ROOT_ATTRIBUTES := map[ReflectanceModelKey := Reflectance(PhongModel),
                               MaterialKey := MaterialAttr(BASE_MATERIAL)]
  const PLANE_ATTRIBUTES := map[ColorKey := ColorAttr(Rgb(0.6, 0.0, 0.0)),
                                TextureKey := TextureAttr(Checker(0.5, 0.5, Rgb(1.0, 1.0, 1.0)))]

  /**
   * The transforms of the root's children in insertion order: the plane rotated by -pi/2
   * about x, then the front row of five cubes turned about y, then the back row of seven
   * cubes turned about x.
   */
  const LAYOUT: seq<Transform> := [
    Placement(X, MinusHalfPi, Vec3(0.0, -1.0, 0.0)),
    Placement(Y, Radians(0.6), Vec3(-3.5, -0.8, 0.0)),
    Placement(Y, Radians(1.2), Vec3(-1.5, -0.8, 0.0)),
    Placement(Y, Radians(1.8), Vec3(0.5, -0.8, 0.0)),
    Placement(Y, Radians(2.4), Vec3(2.5, -0.8, 0.0)),
    Placement(Y, Radians(3.0), Vec3(4.5, -0.8, 0.0)),
    Placement(X, Radians(3.5), Vec3(-4.0, 1.0, 2.0)),
    Placement(X, Radians(3.0), Vec3(-2.5, 1.0, 2.0)),
    Placement(X, Radians(2.5), Vec3(-1.0, 1.0, 2.0)),
    Placement(X, Radians(2.0), Vec3(0.5, 1.0, 2.0)),
    Placement(X, Radians(1.5), Vec3(2.0, 1.0, 2.0)),
    Placement(X, Radians(1.0), Vec3(3.5, 1.0, 2.0)),
    Placement(X, Radians(0.5), Vec3(5.0, 1.0, 2.0))]

  /** The refraction index parameter: `n` parsed from the parameter list, 1.6 when absent or unparsable. */
  function RefractionIndex(p: map<string, string>, parseDouble: string -> Option<real>): real {
    if "n" in p then parseDouble(p["n"]).GetOr(DEFAULT_N) else DEFAULT_N
  }

  /** The material all cubes receive, chosen by the `mat` parameter. */
  function CubeMaterial(p: map<string, string>, parseDouble: string -> Option<real>): Material {
    if "mat" in p && p["mat"] == "mirror" then MIRROR_MATERIAL
    else if "mat" in p && p["mat"] == "glass" then
      GLASS_MATERIAL.(n := Some(RefractionIndex(p, parseDouble)), kt := Some(GLASS_KT))
    else BASE_MATERIAL
  }

  /**
   * `mat=glass` gives the glass material with the parsed refraction index (1.6 by default)
   * and transmission 0.9; `mat=mirror` the mirror material; anything else the base
   * material. Only glass sets a refraction index or a transmission.
   */
  lemma MaterialSelection(p: map<string, string>, parseDouble: string -> Option<real>)
    ensures var m := CubeMaterial(p, parseDouble);
      && ("mat" in p && p["mat"] == "glass" ==>
            && m.n == Some(if "n" in p && parseDouble(p["n"]).Some? then parseDouble(p["n"]).value else 1.6)
            && m.kt == Some(0.9)
            && m.color == GLASS_MATERIAL.color)
      && ("mat" in p && p["mat"] == "mirror" ==> m == MIRROR_MATERIAL)
      && (!("mat" in p && p["mat"] in {"glass", "mirror"}) ==> m == BASE_MATERIAL)
      && (m.n.Some? <==> "mat" in p && p["mat"] == "glass")
      && (m.kt.Some? <==> "mat" in p && p["mat"] == "glass")
  {
  }

  /** The `n` parameter changes the cubes' material only when it is glass. */
  lemma RefractionOnlyForGlass(p1: map<string, string>, p2: map<string, string>, parseDouble: string -> Option<real>)
    requires ("mat" in p1 <==> "mat" in p2) && ("mat" in p1 ==> p1["mat"] == p2["mat"])
    requires !("mat" in p1 && p1["mat"] == "glass")
    ensures CubeMaterial(p1, parseDouble) == CubeMaterial(p2, parseDouble)
  {
  }

  /** The nodes among `root`'s children. */
  ghost function ChildNodes(root: SceneNode?): set<SceneNode>
    reads root
  {
    if root == null then {} else set i | 0 <= i < |root.children| :: root.children[i].node
  }

  /**
   * The first `k` children of `root` as the full build inserts them: the plane, then
   * cubes of material `pm`, at the layout's transforms, all distinct nodes other than
   * the root.
   */
  ghost predicate Layout(root: SceneNode, pm: Material, k: nat)
    reads root, ChildNodes(root)
  {
    && |root.children| == k <= |LAYOUT|
    && root !in ChildNodes(root)
    && (forall i :: 0 <= i < k ==> ChildAsBuilt(root.children[i], i, pm))
    && (forall i, j :: 0 <= i < j < k ==> root.children[i].node != root.children[j].node)
  }

  /** Child `i` as the build inserts it: the plane first, then cubes of material `pm`. */
  ghost predicate ChildAsBuilt(child: Child, i: nat, pm: Material)
    reads child.node
  {
    && i < |LAYOUT| && child.transform == LAYOUT[i]
    && (if i == 0 then child.node.kind == PlaneSolid && child.node.attributes == PLANE_ATTRIBUTES
        else child.node.kind == CubeSolid && child.node.attributes == map[MaterialKey := MaterialAttr(pm)])
  }

  /**
   * The scene as a full build leaves it: a union root with the base material holding the
   * plane and then twelve distinct cubes of material `pm`, the background colour, the
   * camera, and an ambient and then a point light.
   */
  ghost predicate Built(scene: RayScene, pm: Material)
    reads scene, scene.intersectable, ChildNodes(scene.intersectable)
  {
    && scene.intersectable != null
    && scene.backgroundColor == Some(BACKGROUND)
    && scene.camera == Some(CAMERA)
    && scene.sources == Some(LIGHTS)
    && scene.intersectable.kind == Inner(Union)
    && scene.intersectable.attributes == ROOT_ATTRIBUTES
    && Layout(scene.intersectable, pm, 13)
  }

  /** `c = new Cube(); root.InsertChild(c, transform); c.SetAttribute(MATERIAL, pm);` as child `k`. */
  method AddCube(root: SceneNode, transform: Transform, pm: Material, ghost k: nat) returns (c: SceneNode)
    requires root.kind.Inner? && 1 <= k < |LAYOUT| && transform == LAYOUT[k]
    requires Layout(root, pm, k)
    modifies root
    ensures Layout(root, pm, k + 1)
    ensures fresh(c) && root.children == old(root.children) + [Child(c, transform)]
    ensures root.attributes == old(root.attributes)
  {
    c := new SceneNode(CubeSolid);
    root.InsertChild(c, transform);
    c.SetAttribute(MaterialKey, MaterialAttr(pm));
    assert root.children[k].node == c;
    assert ChildNodes(root) == old(ChildNodes(root)) + {c} by {
      assert forall i :: 0 <= i < k ==> root.children[i] == old(root.children)[i];
    }
  }

  /**
   * The script body, run with the globals `scene`, `context` and `param`; the parameter
   * list parser and the number parser are oracles.
   */
  method Run(
    scene: RayScene, context: ScriptContext?, param: string,
    parseParams: string -> map<string, string>, parseDouble: string -> Option<real>)
    modifies scene, context
    ensures context != null && CTX_TOOLTIP !in old(context.entries) ==>
      && context.entries == old(context.entries)[CTX_TOOLTIP := Str(TOOLTIP)]
      && unchanged(scene)
    ensures context != null && CTX_TOOLTIP in old(context.entries) ==>
      context.entries == old(context.entries)[CTX_ALGORITHM := ComponentObj(RAY_TRACING)]
    ensures (context == null || CTX_TOOLTIP in old(context.entries)) && old(scene.backgroundColor).Some? ==>
      unchanged(scene)
    ensures (context == null || CTX_TOOLTIP in old(context.entries)) && old(scene.backgroundColor).None? ==>
      && fresh(scene.intersectable)
      && Built(scene, CubeMaterial(parseParams(param), parseDouble))
  {
    if context != null {
      if CTX_TOOLTIP !in context.entries {
        context.entries := context.entries[CTX_TOOLTIP := Str(TOOLTIP)];
        return;
      }
      context.entries := context.entries[CTX_ALGORITHM := ComponentObj(RAY_TRACING)];
    }

    if scene.backgroundColor.Some? {
      return;
    }

    Build(scene, param, parseParams, parseDouble);
  }

  /** The full build (the script from the CSG root on), on a scene without a background. */
  method Build(
    scene: RayScene, param: string,
    parseParams: string -> map<string, string>, parseDouble: string -> Option<real>)
    modifies scene
    ensures fresh(scene.intersectable)
    ensures Built(scene, CubeMaterial(parseParams(param), parseDouble))
  {
    var root := new SceneNode(Inner(Union));
    root.SetAttribute(ReflectanceModelKey, Reflectance(PhongModel));
    root.SetAttribute(MaterialKey, MaterialAttr(BASE_MATERIAL));
    scene.intersectable := root;

    scene.backgroundColor := Some(BACKGROUND);

    scene.camera := Some(CAMERA);

    scene.sources := Some([]);
    scene.sources := Some(scene.sources.value + [AmbientLight(0.8)]);
    scene.sources := Some(scene.sources.value + [PointLight(Vec3(-5.0, 3.0, -3.0), 1.0)]);
    assert scene.sources.value == LIGHTS;

    var pm := SelectMaterial(parseParams(param), parseDouble);
    Populate(root, pm);
  }

  /** Reads `n` and `mat` from the parameter list and forms the cubes' material. */
  method SelectMaterial(p: map<string, string>, parseDouble: string -> Option<real>) returns (pm: Material)
    ensures pm == CubeMaterial(p, parseDouble)
  {
    var n := DEFAULT_N;
    if "n" in p {
      var parsed := parseDouble(p["n"]);
      if parsed.Some? {
        n := parsed.value;
      }
    }

    pm := BASE_MATERIAL;
    if "mat" in p {
      var mat := p["mat"];
      if mat == "mirror" {
        pm := MIRROR_MATERIAL;
      } else if mat == "glass" {
        pm := GLASS_MATERIAL;
        pm := pm.(n := Some(n));
        pm := pm.(kt := Some(GLASS_KT));
      }
    }
  }

  /** The textured plane, the first child of the root. */
  method AddPlane(root: SceneNode, ghost pm: Material) returns (pl: SceneNode)
    requires root.kind.Inner? && root.children == []
    modifies root
    ensures Layout(root, pm, 1)
    ensures fresh(pl) && root.children == [Child(pl, LAYOUT[0])]
    ensures root.attributes == old(root.attributes)
  {
    pl := new SceneNode(PlaneSolid);
    pl.SetAttribute(ColorKey, ColorAttr(Rgb(0.6, 0.0, 0.0)));
    pl.SetAttribute(TextureKey, TextureAttr(Checker(0.5, 0.5, Rgb(1.0, 1.0, 1.0))));
    root.InsertChild(pl, Placement(X, MinusHalfPi, Vec3(0.0, -1.0, 0.0)));
    assert ChildNodes(root) == {pl} by {
      assert root.children[0].node == pl;
    }
  }

  /** Inserts the plane and the twelve cubes under the root, in the layout's order. */
  method Populate(root: SceneNode, pm: Material)
    requires root.kind.Inner? && root.children == []
    modifies root
    ensures Layout(root, pm, 13)
    ensures root.attributes == old(root.attributes)
  {
    // Base plane.
    var _ := AddPlane(root, pm);

    FrontRow(root, pm);
    BackRow(root, pm);
  }

  /** The front row: five cubes turned about the y axis, children 1 to 5. */
  method FrontRow(root: SceneNode, pm: Material)
    requires root.kind.Inner? && Layout(root, pm, 1)
    modifies root
    ensures Layout(root, pm, 6)
    ensures root.attributes == old(root.attributes)
  {
    var _ := AddCube(root, Placement(Y, Radians(0.6), Vec3(-3.5, -0.8, 0.0)), pm, 1);
    var _ := AddCube(root, Placement(Y, Radians(1.2), Vec3(-1.5, -0.8, 0.0)), pm, 2);
    var _ := AddCube(root, Placement(Y, Radians(1.8), Vec3(0.5, -0.8, 0.0)), pm, 3);
    var _ := AddCube(root, Placement(Y, Radians(2.4), Vec3(2.5, -0.8, 0.0)), pm, 4);
    var _ := AddCube(root, Placement(Y, Radians(3.0), Vec3(4.5, -0.8, 0.0)), pm, 5);
  }

  /** The back row: seven cubes turned about the x axis, children 6 to 12. */
  method BackRow(root: SceneNode, pm: Material)
    requires root.kind.Inner? && Layout(root, pm, 6)
    modifies root
    ensures Layout(root, pm, 13)
    ensures root.attributes == old(root.attributes)
  {
    var _ := AddCube(root, Placement(X, Radians(3.5), Vec3(-4.0, 1.0, 2.0)), pm, 6);
    var _ := AddCube(root, Placement(X, Radians(3.0), Vec3(-2.5, 1.0, 2.0)), pm, 7);
    var _ := AddCube(root, Placement(X, Radians(2.5), Vec3(-1.0, 1.0, 2.0)), pm, 8);
    var _ := AddCube(root, Placement(X, Radians(2.0), Vec3(0.5, 1.0, 2.0)), pm, 9);
    var _ := AddCube(root, Placement(X, Radians(1.5), Vec3(2.0, 1.0, 2.0)), pm, 10);
    var _ := AddCube(root, Placement(X, Radians(1.0), Vec3(3.5, 1.0, 2.0)), pm, 11);
    var _ := AddCube(root, Placement(X, Radians(0.5), Vec3(5.0, 1.0, 2.0)), pm, 12);
  }

  /**
   * The two passes a scene name goes through: after `ContextInit`, a first run of the
   * script only publishes the tooltip and leaves the fresh scene empty; the second run
   * selects ray tracing and builds the scene.
   */
  method TwoPassScenario(
    param: string, parseParams: string -> map<string, string>, parseDouble: string -> Option<real>)
    returns (ctx: ScriptContext, scene: RayScene)
    ensures CTX_SCENE in ctx.entries && ctx.entries[CTX_SCENE] == SceneObj(scene)
    ensures CTX_TOOLTIP in ctx.entries && ctx.entries[CTX_TOOLTIP] == Str(TOOLTIP)
    ensures CTX_ALGORITHM in ctx.entries && ctx.entries[CTX_ALGORITHM] == ComponentObj(RAY_TRACING)
    ensures Built(scene, CubeMaterial(parseParams(param), parseDouble))
  {
    ctx := new ScriptContext();
    Scripts.ContextInit(ctx, null, 640, 480, 0, 0.0, 10.0, 25.0);
    scene := ctx.entries[CTX_SCENE].scene;
    assert CTX_TOOLTIP !in MANAGED_KEYS;
    assert CTX_TOOLTIP !in ctx.entries;

    // Probe pass: only the tooltip.
    Run(scene, ctx, param, parseParams, parseDouble);
    assert scene.backgroundColor == None;

    // Build pass.
    Run(scene, ctx, param, parseParams, parseDouble);
  }
}
