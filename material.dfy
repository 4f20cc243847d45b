/** Material: a program, a list of textures and the fixed-function state `bind` applies. */
module Materials {
  import opened Gpu

  datatype BlendMode = None | Alpha | Additive

  datatype DepthTestMode = Standard | Reversed | Equal | None

  /** A texture bound to a texture unit: an entry of `_textures`. */
  datatype TextureBinding = TextureBinding(slot: u32, texture: TextureId)

  /** The two shader files of a pipeline, as `Material::material` receives them. */
  datatype Pipeline = Pipeline(vertexShader: string, fragmentShader: string)

  // The parts of the OpenGL state `bind` touches.
  datatype BlendFactor = Zero | One | SrcAlpha | OneMinusSrcAlpha
  datatype CullFace = Front | Back | FrontAndBack
  datatype FrontFace = Clockwise | CounterClockwise
  datatype CompareFunc = Never | Less | LessEqual | EqualTo | Greater | NotEqual | GreaterEqual | Always

  datatype GlState = GlState(
    blend: bool, blendSrc: BlendFactor, blendDst: BlendFactor,
    cullFaceEnabled: bool, cullFace: CullFace, frontFace: FrontFace,
    depthTest: bool, depthFunc: CompareFunc, depthMask: bool,
    textureUnits: map<u32, TextureId>, program: Option<ProgramId>)

  /** A resource bind call issued by `bind`, in issue order. */
  datatype BindCall = BindTexture(slot: u32, texture: TextureId) | UseProgram(program: ProgramId)

  datatype BindResult = BindResult(state: GlState, calls: seq<BindCall>)

  /** Whether a fragment at depth `incoming` passes against the stored depth `stored`. */
  predicate DepthPasses(f: CompareFunc, incoming: real, stored: real) {
    match f
    case Never => false
    case Less => incoming < stored
    case LessEqual => incoming <= stored
    case EqualTo => incoming == stored
    case Greater => incoming > stored
    case NotEqual => incoming != stored
    case GreaterEqual => incoming >= stored
    case Always => true
  }

  /** The first switch of `Material::bind`: blending and face culling per blend mode. */
  function BlendState(mode: BlendMode, gl: GlState): (r: GlState)
    ensures r.blend <==> mode != BlendMode.None
    ensures r.cullFaceEnabled <==> mode == BlendMode.None
    ensures mode == BlendMode.None ==>
      r.cullFace == Back && r.frontFace == CounterClockwise
      && r.blendSrc == gl.blendSrc && r.blendDst == gl.blendDst
    ensures mode == BlendMode.Alpha ==>
      r.blendSrc == SrcAlpha && r.blendDst == OneMinusSrcAlpha
      && r.cullFace == gl.cullFace && r.frontFace == gl.frontFace
    ensures mode == BlendMode.Additive ==>
      r.blendSrc == SrcAlpha && r.blendDst == One
      && r.cullFace == gl.cullFace && r.frontFace == gl.frontFace
    ensures r.(blend := gl.blend, blendSrc := gl.blendSrc, blendDst := gl.blendDst,
               cullFaceEnabled := gl.cullFaceEnabled, cullFace := gl.cullFace,
               frontFace := gl.frontFace) == gl
  {
    match mode
    case None => gl.(blend := false, cullFaceEnabled := true, cullFace := Back, frontFace := CounterClockwise)
    case Alpha => gl.(blend := true, blendSrc := SrcAlpha, blendDst := OneMinusSrcAlpha, cullFaceEnabled := false)
    case Additive => gl.(blend := true, blendSrc := SrcAlpha, blendDst := One, cullFaceEnabled := false)
  }

  /**
   * The second switch of `Material::bind`. The renderer uses reverse-Z (near maps
   * to 1, far to 0), so the Standard mode keeps the fragment with the GREATER depth.
   */
  function DepthState(mode: DepthTestMode, gl: GlState): (r: GlState)
    ensures r.depthTest <==> mode != DepthTestMode.None
    ensures mode == DepthTestMode.None ==> r.depthFunc == gl.depthFunc
    ensures mode == DepthTestMode.Equal ==> r.depthFunc == EqualTo
    ensures mode == DepthTestMode.Standard ==> r.depthFunc == GreaterEqual
    ensures mode == DepthTestMode.Reversed ==> r.depthFunc == LessEqual
    ensures r.(depthTest := gl.depthTest, depthFunc := gl.depthFunc) == gl
  {
    match mode
    case None => gl.(depthTest := false)
    case Equal => gl.(depthTest := true, depthFunc := EqualTo)
    case Standard => gl.(depthTest := true, depthFunc := GreaterEqual)
    case Reversed => gl.(depthTest := true, depthFunc := LessEqual)
  }

  /** Under reverse-Z, Standard passes the nearer-or-equal fragment and Reversed is its mirror. */
  lemma ReverseZDepthModes(gl: GlState, incoming: real, stored: real)
    ensures DepthPasses(DepthState(DepthTestMode.Standard, gl).depthFunc, incoming, stored) <==> incoming >= stored
    ensures DepthPasses(DepthState(DepthTestMode.Reversed, gl).depthFunc, incoming, stored)
            <==> DepthPasses(DepthState(DepthTestMode.Standard, gl).depthFunc, stored, incoming)
    ensures DepthPasses(DepthState(DepthTestMode.Equal, gl).depthFunc, incoming, stored) <==> incoming == stored
  {
  }

  /** The bind calls of the texture loop of `bind`: one per entry, in list order. */
  function TextureCalls(ts: seq<TextureBinding>): (r: seq<BindCall>)
    ensures |r| == |ts|
    ensures forall i :: 0 <= i < |ts| ==> r[i] == BindTexture(ts[i].slot, ts[i].texture)
  {
    if ts == [] then [] else TextureCalls(ts[..|ts| - 1]) + [BindTexture(ts[|ts| - 1].slot, ts[|ts| - 1].texture)]
  }

  /** The texture units after binding `ts` in order: a later bind on a unit replaces an earlier one. */
  function UnitsAfter(ts: seq<TextureBinding>, units: map<u32, TextureId>): map<u32, TextureId> {
    if ts == [] then units
    else UnitsAfter(ts[..|ts| - 1], units)[ts[|ts| - 1].slot := ts[|ts| - 1].texture]
  }

  /** A slot that no entry names keeps what it held. */
  lemma {:induction false} UnnamedSlotUnchanged(ts: seq<TextureBinding>, units: map<u32, TextureId>, slot: u32)
    requires forall i :: 0 <= i < |ts| ==> ts[i].slot != slot
    ensures slot in UnitsAfter(ts, units) <==> slot in units
    ensures slot in units ==> UnitsAfter(ts, units)[slot] == units[slot]
  {
    if ts != [] {
      UnnamedSlotUnchanged(ts[..|ts| - 1], units, slot);
    }
  }

  /**
   * Entries may share a slot: after binding, a slot holds the texture of the LAST
   * entry naming it.
   */
  lemma {:induction false} LastBindingWins(ts: seq<TextureBinding>, units: map<u32, TextureId>, j: nat)
    requires j < |ts|
    requires forall k :: j < k < |ts| ==> ts[k].slot != ts[j].slot
    ensures ts[j].slot in UnitsAfter(ts, units)
    ensures UnitsAfter(ts, units)[ts[j].slot] == ts[j].texture
  {
    if j < |ts| - 1 {
      var init := ts[..|ts| - 1];
      assert init[j] == ts[j];
      LastBindingWins(init, units, j);
    }
  }

  /** No texture appears twice in the list (two entries may still share a slot). */
  ghost predicate DistinctTextures(ts: seq<TextureBinding>) {
    forall i, j :: 0 <= i < j < |ts| ==> ts[i].texture != ts[j].texture
  }

  ghost predicate HasTexture(ts: seq<TextureBinding>, tex: TextureId) {
    exists i :: 0 <= i < |ts| && ts[i].texture == tex
  }

  /**
   * The list after `set_texture(slot, tex)`: matched by texture identity, so a
   * texture already present keeps its entry and its slot; a new one is appended.
   */
  ghost function WithTexture(ts: seq<TextureBinding>, slot: u32, tex: TextureId): seq<TextureBinding> {
    if HasTexture(ts, tex) then ts else ts + [TextureBinding(slot, tex)]
  }

  /** set_texture keeps every texture distinct. */
  lemma WithTextureKeepsDistinct(ts: seq<TextureBinding>, slot: u32, tex: TextureId)
    requires DistinctTextures(ts)
    ensures DistinctTextures(WithTexture(ts, slot, tex))
    ensures HasTexture(WithTexture(ts, slot, tex), tex)
  {
    if !HasTexture(ts, tex) {
      var r := ts + [TextureBinding(slot, tex)];
      assert r[|ts|].texture == tex;
    }
  }

  /** Setting the same texture again, whatever the slot, changes nothing. */
  lemma WithTextureIdempotent(ts: seq<TextureBinding>, slot: u32, slot': u32, tex: TextureId)
    ensures WithTexture(WithTexture(ts, slot, tex), slot', tex) == WithTexture(ts, slot, tex)
  {
    if !HasTexture(ts, tex) {
      var r := ts + [TextureBinding(slot, tex)];
      assert r[|ts|].texture == tex;
    }
  }

  /** The define list of `textured_material`. */
  function TexturedDefines(defines: seq<string>): (r: seq<string>)
    ensures |r| == |defines| + 1 && r[0] == "TEXTURED" && r[1..] == defines
  {
    ["TEXTURED"] + defines
  }

  /** The define list of `textured_normal_mapped_material`. */
  function NormalMappedDefines(defines: seq<string>): (r: seq<string>)
    ensures |r| == |defines| + 2 && r[0] == "TEXTURED" && r[1] == "NORMAL_MAPPED" && r[2..] == defines
  {
    ["TEXTURED", "NORMAL_MAPPED"] + defines
  }

  /** The normal-mapped list is the textured list of the defines prefixed with NORMAL_MAPPED. */
  lemma NormalMappedExtendsTextured(defines: seq<string>)
    ensures NormalMappedDefines(defines) == TexturedDefines(["NORMAL_MAPPED"] + defines)
  {
    assert ["TEXTURED", "NORMAL_MAPPED"] == ["TEXTURED"] + ["NORMAL_MAPPED"];
  }

  class Material {
    var program: Option<ProgramId>
    var textures: seq<TextureBinding>
    var blendMode: BlendMode
    var depthTestMode: DepthTestMode
    var depthWriting: bool

    ghost predicate Valid()
      reads this
    {
      DistinctTextures(textures)
    }

    /** The default member initialisers of Material.h; the constructor sets nothing else. */
    ghost predicate HasDefaultState()
      reads this
    {
      textures == [] && blendMode == BlendMode.None
      && depthTestMode == DepthTestMode.Standard && depthWriting
    }

    constructor ()
      ensures Valid() && HasDefaultState() && program == Option.None
    {
      program := Option.None;
      textures := [];
      blendMode := BlendMode.None;
      depthTestMode := DepthTestMode.Standard;
      depthWriting := true;
    }

    method SetProgram(prog: Option<ProgramId>)
      modifies this
      ensures program == prog
      ensures textures == old(textures) && blendMode == old(blendMode)
      ensures depthTestMode == old(depthTestMode) && depthWriting == old(depthWriting)
    {
      program := prog;
    }

    method SetBlendMode(blend: BlendMode)
      modifies this
      ensures blendMode == blend
      ensures program == old(program) && textures == old(textures)
      ensures depthTestMode == old(depthTestMode) && depthWriting == old(depthWriting)
    {
      blendMode := blend;
    }

    method SetDepthTestMode(depth: DepthTestMode)
      modifies this
      ensures depthTestMode == depth
      ensures program == old(program) && textures == old(textures)
      ensures blendMode == old(blendMode) && depthWriting == old(depthWriting)
    {
      depthTestMode := depth;
    }

    method SetDepthWriting(enabled: bool)
      modifies this
      ensures depthWriting == enabled
      ensures program == old(program) && textures == old(textures)
      ensures blendMode == old(blendMode) && depthTestMode == old(depthTestMode)
    {
      depthWriting := enabled;
    }

    /** The `find_if` of `set_texture`: the first entry holding `tex`, if any. */
    method FindTexture(tex: TextureId) returns (found: bool, index: nat)
      ensures found <==> HasTexture(textures, tex)
      ensures found ==> index < |textures| && textures[index].texture == tex
      ensures found ==> forall j :: 0 <= j < index ==> textures[j].texture != tex
    {
      index := 0;
      while index < |textures|
        invariant index <= |textures|
        invariant forall j :: 0 <= j < index ==> textures[j].texture != tex
      {
        if textures[index].texture == tex {
          return true, index;
        }
        index := index + 1;
      }
      return false, index;
    }

    method SetTexture(slot: u32, tex: TextureId)
      requires Valid()
      modifies this
      ensures Valid()
      ensures textures == WithTexture(old(textures), slot, tex)
      ensures program == old(program) && blendMode == old(blendMode)
      ensures depthTestMode == old(depthTestMode) && depthWriting == old(depthWriting)
    {
      var found, i := FindTexture(tex);
      if found {
        textures := textures[i := TextureBinding(textures[i].slot, tex)];
      } else {
        textures := textures + [TextureBinding(slot, tex)];
      }
      WithTextureKeepsDistinct(old(textures), slot, tex);
    }

    /**
     * `bind()`: applies the blend and depth tables and the depth mask, binds every
     * texture to its slot in list order, then the program. The source dereferences
     * `_program`, so a program must be set.
     */
    function Bind(gl: GlState): (r: BindResult)
      reads this
      requires program.Some?
      ensures r.state.blend <==> blendMode != BlendMode.None
      ensures r.state.cullFaceEnabled <==> blendMode == BlendMode.None
      ensures r.state.depthTest <==> depthTestMode != DepthTestMode.None
      ensures r.state.depthMask == depthWriting
      ensures r.state.textureUnits == UnitsAfter(textures, gl.textureUnits)
      ensures r.state.program == program
      ensures |r.calls| == |textures| + 1 && r.calls[|textures|] == UseProgram(program.value)
      ensures forall i :: 0 <= i < |textures| ==> r.calls[i] == BindTexture(textures[i].slot, textures[i].texture)
    {
      var fixed := DepthState(depthTestMode, BlendState(blendMode, gl));
      var state := fixed.(depthMask := depthWriting,
                          textureUnits := UnitsAfter(textures, gl.textureUnits),
                          program := program);
      BindResult(state, TextureCalls(textures) + [UseProgram(program.value)])
    }

    /** `Material::material`: a default material whose program `load` builds (Program::from_files). */
    static method FromPipeline(pipeline: Pipeline, defines: seq<string>,
                               load: (string, string, seq<string>) -> ProgramId) returns (m: Material)
      ensures fresh(m) && m.Valid() && m.HasDefaultState()
      ensures m.program == Some(load(pipeline.vertexShader, pipeline.fragmentShader, defines))
    {
      m := new Material();
      m.program := Some(load(pipeline.vertexShader, pipeline.fragmentShader, defines));
    }

    static method TexturedMaterial(pipeline: Pipeline, defines: seq<string>,
                                   load: (string, string, seq<string>) -> ProgramId) returns (m: Material)
      ensures fresh(m) && m.Valid() && m.HasDefaultState()
      ensures m.program == Some(load(pipeline.vertexShader, pipeline.fragmentShader, TexturedDefines(defines)))
    {
      m := FromPipeline(pipeline, TexturedDefines(defines), load);
    }

    static method TexturedNormalMappedMaterial(pipeline: Pipeline, defines: seq<string>,
                                               load: (string, string, seq<string>) -> ProgramId) returns (m: Material)
      ensures fresh(m) && m.Valid() && m.HasDefaultState()
      ensures m.program == Some(load(pipeline.vertexShader, pipeline.fragmentShader, NormalMappedDefines(defines)))
    {
      m := FromPipeline(pipeline, NormalMappedDefines(defines), load);
    }
  }
}
