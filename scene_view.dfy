/** SceneView: a camera and a nullable pointer to the scene it shows. */
module SceneViews {
  import opened Geometry
  import opened Gpu
  import opened Cameras
  import opened SceneObjects
  import opened Scenes

  /**
   * What a render call reports. Its definition is not part of this model; it is
   * taken to be the log of the frame's GPU calls, and `{}` the empty log.
   */
  datatype RenderInfo = RenderInfo(events: seq<GpuEvent>)

  const EmptyRenderInfo := RenderInfo([])

  class SceneView {
    var scene: Scene?
    var camera: Camera

    /**
     * `SceneView(Scene* scene = nullptr)`: stores the pointer, null included. The
     * view's camera is default-constructed in the source; Camera's default value is
     * not part of this model, so it is a parameter.
     */
    constructor (initialCamera: Camera, scene: Scene? := null)
      ensures this.scene == scene && camera == initialCamera
    {
      this.scene := scene;
      camera := initialCamera;
    }

    /** `scene()`: the current scene pointer, possibly null. */
    function CurrentScene(): (s: Scene?)
      reads this
      ensures s == scene
    {
      scene
    }

    /** `camera()`, both overloads: the view's own camera. */
    function ViewCamera(): (c: Camera)
      reads this
      ensures c == camera
    {
      camera
    }

    /** `set_scene`: a null pointer is ignored; the camera is never reset. */
    method SetScene(s: Scene?)
      modifies this
      ensures s != null ==> CurrentScene() == s
      ensures s == null ==> CurrentScene() == old(CurrentScene())
      ensures ViewCamera() == old(ViewCamera())
    {
      if s != null {
        scene := s;
      }
    }

    /** `render()`: empty without a scene, otherwise the scene's render with the view's camera. */
    method Render(length: Vec3 -> real) returns (info: RenderInfo)
      requires scene != null ==> scene.CanRender(camera, length)
      ensures scene == null ==> info == EmptyRenderInfo
      ensures scene != null ==> scene.IsFrame(camera, length, info.events)
    {
      if scene != null {
        var events := scene.Render(camera, length);
        return RenderInfo(events);
      }
      return EmptyRenderInfo;
    }

    /**
     * `render_sun_shadowmap()`: empty without a scene, otherwise the scene's sun
     * shadow-map pass with the view's camera. That pass is not part of this model;
     * `shadowPass` stands for it, applied to the scene's contents.
     */
    method RenderSunShadowmap(shadowPass: (seq<SceneObjectData>, seq<PointLight>, Camera) -> RenderInfo)
      returns (info: RenderInfo)
      ensures scene == null ==> info == EmptyRenderInfo
      ensures scene != null ==> info == shadowPass(scene.objects, scene.lights, camera)
    {
      if scene != null {
        return shadowPass(scene.objects, scene.lights, camera);
      }
      return EmptyRenderInfo;
    }
  }
}
