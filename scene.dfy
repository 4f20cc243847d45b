/** Scene: the object and point-light store, the per-frame buffers and the draw pass. */
module Scenes {
  import opened Geometry
  import opened Gpu
  import opened Cameras
  import opened SceneObjects
  import opened Grouping

  /** A point light as the scene reads it. PointLight.h is not part of this model. */
  datatype PointLight = PointLight(position: Vec3, color: Vec3, radius: real)

  /** The buffer entry of a light: position, radius, colour and zero padding. */
  function Pack(light: PointLight): ShaderPointLight {
    ShaderPointLight(light.position, light.radius, light.color, 0.0)
  }

  /**
   * A lights buffer: `max(n, 1)` entries, entry `i` holding light `i` for every
   * light. With no light the single entry is never written and its content is left open.
   */
  ghost predicate IsLightsBuffer(lights: seq<PointLight>, buffer: seq<ShaderPointLight>) {
    |buffer| == (if |lights| < 1 then 1 else |lights|)
    && forall i :: 0 <= i < |lights| ==> buffer[i] == Pack(lights[i])
  }

  /** What a freshly created buffer holds before it is written. */
  const Unwritten := ShaderPointLight(Origin, 0.0, Origin, 0.0)

  /**
   * The calls the draw loop makes for the objects at indices `drawn`, in that
   * order: for each, the calls of `SceneObject::render`. An index out of range,
   * which the groups never hold, issues nothing.
   */
  function DrawList(objects: seq<SceneObjectData>, drawn: seq<nat>): seq<GpuEvent> {
    if drawn == [] then []
    else
      var x := drawn[|drawn| - 1];
      DrawList(objects, drawn[..|drawn| - 1]) + (if x < |objects| then RenderEvents(objects[x]) else [])
  }

  lemma {:induction false} DrawListConcat(objects: seq<SceneObjectData>, a: seq<nat>, b: seq<nat>)
    ensures DrawList(objects, a + b) == DrawList(objects, a) + DrawList(objects, b)
  {
    if b != [] {
      assert (a + b)[..|a + b| - 1] == a + b[..|b| - 1];
      DrawListConcat(objects, a, b[..|b| - 1]);
    } else {
      assert a + b == a;
    }
  }

  /** The number of draw calls in a log. */
  function DrawCalls(events: seq<GpuEvent>): nat {
    if events == [] then 0
    else DrawCalls(events[..|events| - 1]) + (if events[|events| - 1].DrawMesh? then 1 else 0)
  }

  /** Two calls that are not draws, such as the buffer binds that open a frame, count no draw. */
  lemma HeaderDrawsNothing(first: GpuEvent, second: GpuEvent)
    requires !first.DrawMesh? && !second.DrawMesh?
    ensures DrawCalls([first, second]) == 0
  {
    assert DrawCalls([first]) == 0 by {
      assert [first][..0] == [];
    }
    assert [first, second][..1] == [first];
  }

  lemma {:induction false} DrawCallsConcat(a: seq<GpuEvent>, b: seq<GpuEvent>)
    ensures DrawCalls(a + b) == DrawCalls(a) + DrawCalls(b)
  {
    if b != [] {
      assert (a + b)[..|a + b| - 1] == a + b[..|b| - 1];
      DrawCallsConcat(a, b[..|b| - 1]);
    } else {
      assert a + b == a;
    }
  }

  /** Each complete object costs three calls, exactly one of which is a draw. */
  lemma {:induction false} DrawListCount(objects: seq<SceneObjectData>, drawn: seq<nat>)
    requires forall x :: x in drawn ==> x < |objects| && objects[x].mesh.Some? && objects[x].material.Some?
    ensures |DrawList(objects, drawn)| == 3 * |drawn|
    ensures DrawCalls(DrawList(objects, drawn)) == |drawn|
  {
    if drawn != [] {
      var init, x := drawn[..|drawn| - 1], drawn[|drawn| - 1];
      assert forall y :: y in init ==> y in drawn;
      DrawListCount(objects, init);
      assert x in drawn;
      var triple := RenderEvents(objects[x]);
      DrawCallsConcat(DrawList(objects, init), triple);
      assert DrawCalls(triple) == 1 by {
        assert triple[..2][..1] == [triple[0]];
        assert triple[..1] == [triple[0]] && triple[..2] == [triple[0], triple[1]];
        assert DrawCalls([triple[0]]) == 0 by {
          assert [triple[0]][..0] == [];
        }
      }
    }
  }

  /**
   * The grouping loop of `Scene::render`: each object that passes `in_frustum` is
   * pushed onto the group of its material. `keys` and `visible` name, for the proof,
   * every object's material and `in_frustum` verdict.
   */
  method GroupByMaterial(objects: seq<SceneObjectData>, camera: Camera, length: Vec3 -> real,
                         ghost keys: seq<Option<MaterialId>>, ghost visible: seq<bool>)
    returns (groups: map<Option<MaterialId>, seq<nat>>)
    requires |keys| == |objects| && |visible| == |objects|
    requires forall i :: 0 <= i < |objects| ==> objects[i].mesh.Some? && keys[i] == objects[i].material
    requires forall i :: 0 <= i < |objects| ==> visible[i] == InFrustum(objects[i], camera, length)
    ensures groups == GroupsOf(keys, visible, |objects|)
  {
    groups := map[];
    var i := 0;
    while i < |objects|
      invariant i <= |objects|
      invariant groups == GroupsOf(keys, visible, i)
    {
      var inside := InFrustumCheck(objects[i], camera, length);
      var material := objects[i].material;
      GroupsOfStep(keys, visible, i, groups);
      if inside {
        groups := groups[material := (if material in groups then groups[material] else []) + [i]];
      }
      i := i + 1;
    }
  }

  class Scene {
    var objects: seq<SceneObjectData>
    var lights: seq<PointLight>

    /** A new scene holds no object and no light. */
    constructor ()
      ensures objects == [] && lights == []
    {
      objects := [];
      lights := [];
    }

    /** `add_object(SceneObject)`: appends a copy of the object. */
    method AddObject(obj: SceneObject)
      modifies this
      ensures objects == old(objects) + [obj.Data()]
      ensures lights == old(lights)
    {
      objects := objects + [obj.Data()];
    }

    /** `add_object(PointLight)`: appends the light. */
    method AddLight(light: PointLight)
      modifies this
      ensures lights == old(lights) + [light]
      ensures objects == old(objects)
    {
      lights := lights + [light];
    }

    /** `get_framedata_buffer`: `view_proj`, `point_light_count` (every light, truncated to 32 bits) and `sun_color`. */
    function FrameDataFor(camera: Camera): (fd: FrameData)
      reads this
      ensures fd.viewProj == camera.viewProj
      ensures fd.pointLightCount as int == |lights| % U32Modulus
      ensures fd.sunColor == Vec3(1.0, 1.0, 1.0)
    {
      FrameData(camera.viewProj, ToU32(|lights|), Vec3(1.0, 1.0, 1.0))
    }

    /** `get_lights_buffer`: allocates `max(n, 1)` entries and writes light `i` to entry `i`. */
    method GetLightsBuffer() returns (buffer: seq<ShaderPointLight>)
      ensures IsLightsBuffer(lights, buffer)
    {
      var count := |lights|;
      buffer := seq(if count < 1 then 1 else count, _ => Unwritten);
      var i := 0;
      while i != count
        invariant 0 <= i <= count
        invariant |buffer| == (if count < 1 then 1 else count)
        invariant forall j :: 0 <= j < i ==> buffer[j] == Pack(lights[j])
      {
        var light := lights[i];
        buffer := buffer[i := Pack(light)];
        i := i + 1;
      }
    }

    /**
     * The shader reads `point_light_count` entries; below 2^32 lights that is every
     * light, and every entry it reads holds the light of the same index.
     */
    lemma FrameDataMatchesLightsBuffer(camera: Camera, buffer: seq<ShaderPointLight>)
      requires IsLightsBuffer(lights, buffer)
      requires |lights| < U32Modulus
      ensures FrameDataFor(camera).pointLightCount as int == |lights|
      ensures FrameDataFor(camera).pointLightCount as int <= |buffer|
      ensures forall i :: 0 <= i < FrameDataFor(camera).pointLightCount as int ==> buffer[i] == Pack(lights[i])
    {
    }

    /** The grouping key of every object: its material handle, possibly null. */
    function MaterialKeys(): (keys: seq<Option<MaterialId>>)
      reads this
      ensures |keys| == |objects|
      ensures forall i :: 0 <= i < |objects| ==> keys[i] == objects[i].material
    {
      seq(|objects|, i requires 0 <= i < |objects| reads this => objects[i].material)
    }

    /**
     * What `render` needs of the objects: `in_frustum` reads every object's mesh,
     * and the draw loop uses the material of every object that passes.
     */
    ghost predicate CanRender(camera: Camera, length: Vec3 -> real)
      reads this
    {
      forall i :: 0 <= i < |objects| ==>
        objects[i].mesh.Some? && (InFrustum(objects[i], camera, length) ==> objects[i].material.Some?)
    }

    /** The `in_frustum` verdict of every object. */
    ghost function Visible(camera: Camera, length: Vec3 -> real): (v: seq<bool>)
      reads this
      requires CanRender(camera, length)
      ensures |v| == |objects|
      ensures forall i :: 0 <= i < |objects| ==> v[i] == InFrustum(objects[i], camera, length)
    {
      seq(|objects|, i requires 0 <= i < |objects| && objects[i].mesh.Some? reads this =>
        InFrustum(objects[i], camera, length))
    }

    /** The map `render` builds: material to the visible objects using it, in scene order. */
    ghost function Groups(camera: Camera, length: Vec3 -> real): map<Option<MaterialId>, seq<nat>>
      reads this
      requires CanRender(camera, length)
    {
      GroupsOf(MaterialKeys(), Visible(camera, length), |objects|)
    }

    /**
     * A possible log of `render`: bind the frame data at slot 0 and the lights at
     * slot 1, then draw every group, in some iteration order of the map, object by object.
     */
    ghost predicate IsFrame(camera: Camera, length: Vec3 -> real, events: seq<GpuEvent>)
      reads this
      requires CanRender(camera, length)
    {
      exists buffer, order ::
        && IsLightsBuffer(lights, buffer)
        && Enumerates(order, Groups(camera, length).Keys)
        && events == [BindFrameData(0, FrameDataFor(camera)), BindLights(1, buffer)]
                     + DrawList(objects, Flatten(order, Groups(camera, length)))
    }

    /**
     * The grouping step of `render`: the map it builds is the fold `Groups`, the
     * visible objects pushed in scene order onto the group of their material.
     */
    method GroupVisible(camera: Camera, length: Vec3 -> real) returns (groups: map<Option<MaterialId>, seq<nat>>)
      requires CanRender(camera, length)
      ensures groups == Groups(camera, length)
    {
      groups := GroupByMaterial(objects, camera, length, MaterialKeys(), Visible(camera, length));
    }

    /** The partition facts of the grouping, for the objects of this scene. */
    lemma GroupsPartition(camera: Camera, length: Vec3 -> real)
      requires CanRender(camera, length)
      ensures forall k, i: nat :: k in Groups(camera, length) ==>
                (i in Groups(camera, length)[k] <==>
                   i < |objects| && InFrustum(objects[i], camera, length) && objects[i].material == k)
      ensures forall i :: 0 <= i < |objects| && InFrustum(objects[i], camera, length) ==>
                objects[i].material in Groups(camera, length)
      ensures forall k :: k in Groups(camera, length) ==>
                Groups(camera, length)[k] != [] && Increasing(Groups(camera, length)[k])
    {
      var keys, keep, n := MaterialKeys(), Visible(camera, length), |objects|;
      var g := Groups(camera, length);
      assert g == GroupsOf(keys, keep, n);
      GroupsOfFacts(keys, keep, n);
      forall k, i: nat | k in g
        ensures i in g[k] <==> i < |objects| && InFrustum(objects[i], camera, length) && objects[i].material == k
      {
        if i < n {
          assert keys[i] == objects[i].material && keep[i] == InFrustum(objects[i], camera, length);
        }
      }
      forall i | 0 <= i < |objects| && InFrustum(objects[i], camera, length)
        ensures objects[i].material in g
      {
        assert keys[i] == objects[i].material && keep[i];
      }
    }

    /**
     * Groups the draw loop can draw: each member is an object with a mesh whose
     * material is the group's key, and a non-empty group has a non-null key.
     */
    ghost predicate Drawable(groups: map<Option<MaterialId>, seq<nat>>)
      reads this
    {
      forall k | k in groups ::
        (groups[k] != [] ==> k.Some?)
        && forall x: nat | x in groups[k] :: x < |objects| && objects[x].mesh.Some? && objects[x].material == k
    }

    /** The groups `render` builds can be drawn: members have meshes, non-empty groups a material. */
    lemma GroupsDrawable(camera: Camera, length: Vec3 -> real)
      requires CanRender(camera, length)
      ensures Drawable(Groups(camera, length))
    {
      GroupsPartition(camera, length);
      var groups := Groups(camera, length);
      forall k | k in groups
        ensures (groups[k] != [] ==> k.Some?)
        ensures forall x: nat | x in groups[k] :: x < |objects| && objects[x].mesh.Some? && objects[x].material == k
      {
        GroupMembers(MaterialKeys(), Visible(camera, length), |objects|, k);
        if groups[k] != [] {
          var x: nat := groups[k][0];
          assert x in groups[k];
          assert x < |objects| && InFrustum(objects[x], camera, length);
          assert objects[x].material.Some?;
        }
      }
    }

    /** The inner draw loop: model uniform, material bind and mesh draw for each object of one group. */
    method DrawGroup(groups: map<Option<MaterialId>, seq<nat>>, material: Option<MaterialId>)
      returns (events: seq<GpuEvent>)
      requires Drawable(groups) && material in groups
      ensures events == DrawList(objects, groups[material])
    {
      var members := groups[material];
      events := [];
      var j := 0;
      while j < |members|
        invariant j <= |members|
        invariant events == DrawList(objects, members[..j])
      {
        var x := members[j];
        assert x in members;
        var obj := objects[x];
        events := events + [SetModelUniform(material.value, obj.transform), BindMaterial(material.value),
                            DrawMesh(obj.mesh.value.id)];
        assert members[..j + 1][..j] == members[..j];
        j := j + 1;
      }
      assert members[..|members|] == members;
    }

    /**
     * The outer draw loop of `render`: every group once, in an iteration order the
     * model leaves open (that of `std::unordered_map`).
     */
    method DrawGroups(groups: map<Option<MaterialId>, seq<nat>>)
      returns (events: seq<GpuEvent>, order: seq<Option<MaterialId>>)
      requires Drawable(groups)
      ensures Enumerates(order, groups.Keys)
      ensures events == DrawList(objects, Flatten(order, groups))
    {
      var remaining := groups.Keys;
      events, order := [], [];
      while remaining != {}
        invariant remaining <= groups.Keys
        invariant NoDup(order) && Elems(order) == groups.Keys - remaining
        invariant forall k :: k in order ==> k in groups
        invariant events == DrawList(objects, Flatten(order, groups))
        decreases |remaining|
      {
        var material :| material in remaining;
        var groupEvents := DrawGroup(groups, material);
        FlattenAppend(order, material, groups);
        DrawListConcat(objects, Flatten(order, groups), groups[material]);
        events := events + groupEvents;
        VisitKey(order, remaining, groups.Keys, material);
        order := order + [material];
        remaining := remaining - {material};
      }
    }

    /** `render(camera)`: binds the two frame buffers, then groups and draws the visible objects. */
    method Render(camera: Camera, length: Vec3 -> real) returns (events: seq<GpuEvent>)
      requires CanRender(camera, length)
      ensures IsFrame(camera, length, events)
    {
      var frameData := FrameDataFor(camera);
      var lightsBuffer := GetLightsBuffer();
      var groups := GroupVisible(camera, length);
      GroupsDrawable(camera, length);
      var draws, order := DrawGroups(groups);
      events := [BindFrameData(0, frameData), BindLights(1, lightsBuffer)] + draws;
    }

    /** The objects passing `in_frustum`, in scene order. */
    ghost function VisibleObjects(camera: Camera, length: Vec3 -> real): seq<nat>
      reads this
      requires CanRender(camera, length)
    {
      Selected(Visible(camera, length), |objects|)
    }

    /** Drawing the groups in any order of the map's keys draws each visible object once. */
    lemma DrawnAreVisible(camera: Camera, length: Vec3 -> real, order: seq<Option<MaterialId>>)
      requires CanRender(camera, length)
      requires Enumerates(order, Groups(camera, length).Keys)
      ensures NoDup(Flatten(order, Groups(camera, length)))
      ensures forall x: nat :: x in Flatten(order, Groups(camera, length)) <==>
                x < |objects| && InFrustum(objects[x], camera, length)
      ensures |DrawList(objects, Flatten(order, Groups(camera, length)))| == 3 * |VisibleObjects(camera, length)|
      ensures DrawCalls(DrawList(objects, Flatten(order, Groups(camera, length)))) == |VisibleObjects(camera, length)|
    {
      var keys, keep, n := MaterialKeys(), Visible(camera, length), |objects|;
      FlattenGroups(keys, keep, n, order);
      var drawn := Flatten(order, GroupsOf(keys, keep, n));
      assert forall x :: x in drawn ==> x < |objects| && objects[x].mesh.Some? && objects[x].material.Some?;
      DrawListCount(objects, drawn);
    }

    /** The facts of a frame built from one lights buffer and one iteration order. */
    lemma FrameFacts(camera: Camera, length: Vec3 -> real, buffer: seq<ShaderPointLight>,
                     order: seq<Option<MaterialId>>, events: seq<GpuEvent>)
      requires CanRender(camera, length)
      requires Enumerates(order, Groups(camera, length).Keys)
      requires events == [BindFrameData(0, FrameDataFor(camera)), BindLights(1, buffer)]
                         + DrawList(objects, Flatten(order, Groups(camera, length)))
      ensures |events| >= 2 && events[0] == BindFrameData(0, FrameDataFor(camera))
      ensures events[1] == BindLights(1, buffer)
      ensures var drawn := Flatten(order, Groups(camera, length));
                && NoDup(drawn)
                && (forall x: nat :: x in drawn <==> x < |objects| && InFrustum(objects[x], camera, length))
                && events[2..] == DrawList(objects, drawn)
      ensures DrawCalls(events) == |VisibleObjects(camera, length)|
      ensures |events| == 2 + 3 * DrawCalls(events)
    {
      var draws := DrawList(objects, Flatten(order, Groups(camera, length)));
      DrawnAreVisible(camera, length, order);
      assert events[2..] == draws;
      HeaderDrawsNothing(BindFrameData(0, FrameDataFor(camera)), BindLights(1, buffer));
      DrawCallsConcat([BindFrameData(0, FrameDataFor(camera)), BindLights(1, buffer)], draws);
    }

    /**
     * A frame draws every visible object exactly once, with the calls of
     * `SceneObject::render`, and nothing else: there are as many draw calls as
     * visible objects (no instancing).
     */
    lemma FrameDrawsEachVisibleObjectOnce(camera: Camera, length: Vec3 -> real, events: seq<GpuEvent>)
      requires CanRender(camera, length)
      requires IsFrame(camera, length, events)
      ensures |events| >= 2 && events[0] == BindFrameData(0, FrameDataFor(camera))
      ensures events[1].BindLights? && IsLightsBuffer(lights, events[1].lights)
      ensures exists drawn: seq<nat> ::
                && NoDup(drawn)
                && (forall x: nat :: x in drawn <==> x < |objects| && InFrustum(objects[x], camera, length))
                && events[2..] == DrawList(objects, drawn)
      ensures DrawCalls(events) == |VisibleObjects(camera, length)|
      ensures |events| == 2 + 3 * DrawCalls(events)
    {
      var buffer, order :| && IsLightsBuffer(lights, buffer)
        && Enumerates(order, Groups(camera, length).Keys)
        && events == [BindFrameData(0, FrameDataFor(camera)), BindLights(1, buffer)]
                     + DrawList(objects, Flatten(order, Groups(camera, length)));
      FrameFacts(camera, length, buffer, order, events);
      var drawn := Flatten(order, Groups(camera, length));
      assert events[2..] == DrawList(objects, drawn);
    }
  }
}
