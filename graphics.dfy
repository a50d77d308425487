/**
 * The graphics device as the frame loop sees it: the state bound for the
 * next draw call, and the trace of draw calls issued so far, each recorded
 * with the state it was issued under. Buffer, texture and program objects
 * are opaque values; matrices are carried as the inputs they are built from.
 */
module Graphics {
  import opened Space
  import opened Wrappers
  import opened Assets
  import opened Camera

  /** `m4.translation(x, y, z)`, kept as the offset it translates by. */
  datatype World = Translation(offset: Vec3)

  /** The per-frame uniforms every draw of a frame shares. */
  datatype SharedUniforms = SharedUniforms(lightDirection: Vec3, camera: CameraSetup)

  /** What is bound on the device: switches, the program, uniforms and vertex attributes. */
  datatype Bindings = Bindings(
    depthTest: bool,
    programInUse: bool,
    shared: Option<SharedUniforms>,
    buffer: Option<Buffer>,
    world: Option<World>,
    texture: Option<Texture>,
    material: Option<Material>)

  const Unbound: Bindings := Bindings(false, false, None, None, None, None, None)

  /**
   * The arguments of one `twgl.setUniforms` call: only the uniforms present
   * are set, and an `undefined` material argument sets none.
   */
  datatype UniformUpdate = UniformUpdate(
    shared: Option<SharedUniforms>,
    world: Option<World>,
    texture: Option<Texture>,
    material: Option<Material>)

  function Override<T>(current: Option<T>, update: Option<T>): Option<T> {
    if update.Some? then update else current
  }

  /** The bindings after `update`: each uniform it names is replaced, every other binding stays. */
  function Apply(b: Bindings, update: UniformUpdate): (r: Bindings)
    ensures r.depthTest == b.depthTest && r.programInUse == b.programInUse && r.buffer == b.buffer
    ensures r.shared == (if update.shared.Some? then update.shared else b.shared)
    ensures r.world == (if update.world.Some? then update.world else b.world)
    ensures r.texture == (if update.texture.Some? then update.texture else b.texture)
    ensures r.material == (if update.material.Some? then update.material else b.material)
  {
    b.(shared := Override(b.shared, update.shared),
       world := Override(b.world, update.world),
       texture := Override(b.texture, update.texture),
       material := Override(b.material, update.material))
  }

  /**
   * Setting the same uniforms twice leaves what setting them once left, so
   * the translation each part sets again is the one its instance already bound.
   */
  lemma ApplyIdempotent(b: Bindings, update: UniformUpdate)
    ensures Apply(Apply(b, update), update) == Apply(b, update)
  {
  }

  /** An update naming no uniform changes nothing. */
  lemma ApplyNothing(b: Bindings)
    ensures Apply(b, UniformUpdate(None, None, None, None)) == b
  {
  }

  /** Which draw of the frame a draw call is: bookkeeping only, not sent to the device. */
  datatype Label = FloorDraw | InstanceDraw(asset: AssetKind, instance: nat, part: nat)

  /** One `drawBufferInfo` call: the buffer drawn and the state bound when it was issued. */
  datatype DrawEvent = DrawEvent(tag: Label, drawn: Buffer, state: Bindings)

  class Device {
    var bound: Bindings
    var trace: seq<DrawEvent>

    constructor ()
      ensures bound == Unbound && trace == []
    {
      bound := Unbound;
      trace := [];
    }

    /** `gl.enable(gl.DEPTH_TEST)`. */
    method EnableDepthTest()
      modifies this
      ensures bound == old(bound).(depthTest := true) && trace == old(trace)
    {
      bound := bound.(depthTest := true);
    }

    /** `gl.useProgram(meshProgramInfo.program)`: the one program of the renderer. */
    method UseProgram()
      modifies this
      ensures bound == old(bound).(programInUse := true) && trace == old(trace)
    {
      bound := bound.(programInUse := true);
    }

    /** `twgl.setUniforms`. */
    method SetUniforms(update: UniformUpdate)
      modifies this
      ensures bound == Apply(old(bound), update) && trace == old(trace)
    {
      bound := Apply(bound, update);
    }

    /** `twgl.setBuffersAndAttributes`: binds the buffer's vertex attributes. */
    method SetBuffersAndAttributes(buffer: Buffer)
      modifies this
      ensures bound == old(bound).(buffer := Some(buffer)) && trace == old(trace)
    {
      bound := bound.(buffer := Some(buffer));
    }

    /** `twgl.drawBufferInfo`: records the call with the state it is issued under. */
    method DrawBufferInfo(buffer: Buffer, tag: Label)
      modifies this
      ensures bound == old(bound)
      ensures trace == old(trace) + [DrawEvent(tag, buffer, old(bound))]
    {
      trace := trace + [DrawEvent(tag, buffer, bound)];
    }
  }
}
