/**
 * The shared script context (`Dictionary<string, object>`): the values it can hold
 * and the keys the rendering front end and the scene scripts agree on.
 */
module Context {
  import opened SceneGraph

  /** The `PropertyName.CTX_*` keys; only their distinctness matters here. */
  const CTX_SCENE := "Scene"
  const CTX_ALGORITHM := "Algorithm"
  const CTX_SYNTHESIZER := "Synthesizer"
  const CTX_TOOLTIP := "ToolTip"
  const CTX_WIDTH := "Width"
  const CTX_HEIGHT := "Height"
  const CTX_SUPERSAMPLING := "SuperSampling"
  const CTX_START_ANIM := "StartAnim"
  const CTX_END_ANIM := "EndAnim"
  const CTX_FPS := "Fps"

  /** A rendering component stored under the algorithm or synthesizer key, with the interfaces it implements. */
  datatype Component = Component(name: string, isImageFunction: bool, isRenderer: bool)

  /** A scene-builder delegate, identified by name. */
  datatype Builder = Builder(name: string)

  /** The run-time values the context and the scene repository hold. */
  datatype Value =
    | Null
    | Str(text: string)
    | Integer(i: int)
    | Double(d: real)
    | SceneObj(scene: RayScene)                 // a DefaultRayScene
    | ComponentObj(component: Component)        // an IImageFunction and/or IRenderer
    | SceneDelegate(builder: Builder)           // an InitSceneDelegate
    | SceneParamDelegate(builder: Builder)      // an InitSceneParamDelegate
    | Other(tag: nat)                           // any other object

  /** A string-keyed dictionary updated in place. */
  class ScriptContext {
    var entries: map<string, Value>

    constructor ()
      ensures entries == map[]
    {
      entries := map[];
    }
  }
}
