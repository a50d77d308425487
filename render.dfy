/**
 * One frame of the forest: shared uniforms set once, the floor drawn
 * first, then every part of the tree asset at every tree position, then
 * every part of the rock asset at every rock position.
 *
 * The draws a frame issues are specified in closed form (`FrameDraws`);
 * `RenderFrame` issues them with the renderer's nested loops, and the
 * lemmas state what the closed form guarantees: the number and order of
 * draws and the state each one is issued under.
 */
module Render {
  import opened Space
  import opened Wrappers
  import opened Assets
  import opened Camera
  import opened Floor
  import opened Graphics

  /** `m4.normalize([-1, 3, 5])`, kept unnormalised. */
  const LightDirection: Vec3 := Vec3(-1.0, 3.0, 5.0)

  /** Everything a frame draws: built once at start-up, read-only afterwards. */
  datatype Scene = Scene(
    floorBuffer: Buffer, floorTexture: Texture,
    tree: SceneAsset, treePositions: seq<Vec3>,
    rock: SceneAsset, rockPositions: seq<Vec3>)

  function AssetOf(scene: Scene, kind: AssetKind): SceneAsset {
    if kind == Tree then scene.tree else scene.rock
  }

  function PositionsOf(scene: Scene, kind: AssetKind): seq<Vec3> {
    if kind == Tree then scene.treePositions else scene.rockPositions
  }

  /** The `sharedUniforms` of a frame drawn at this zoom level and aspect ratio. */
  function SharedFor(zoom: real, aspect: real): (u: SharedUniforms)
    requires zoom != 0.0
    ensures u.lightDirection == LightDirection
    ensures u.camera == CameraFor(zoom, aspect)
    ensures u.camera.eye == CameraPosition(zoom) && u.camera.aspect == aspect
    ensures InZoomRange(zoom) ==> 20.0 <= u.camera.eye.z <= 2000.0
  {
    SharedUniforms(LightDirection, CameraFor(zoom, aspect))
  }

  /** The state the floor is drawn under. */
  function FloorBindings(shared: SharedUniforms, scene: Scene): Bindings {
    Bindings(true, true, Some(shared), Some(scene.floorBuffer), Some(Translation(Origin)),
             Some(scene.floorTexture), Some(FloorMaterial))
  }

  /**
   * The material bound after the parts `parts[..n]` have set theirs,
   * starting from `incoming`: a part without a material sets none.
   */
  function Carry(parts: seq<Part>, n: nat, incoming: Option<Material>): Option<Material>
    requires n <= |parts|
  {
    if n == 0 then incoming else Override(Carry(parts, n - 1, incoming), parts[n - 1].material)
  }

  /** The material bound when instance `i` of a group begins. */
  function IncomingMaterial(parts: seq<Part>, i: nat, groupEntry: Option<Material>): Option<Material> {
    if i == 0 then groupEntry else Carry(parts, |parts|, groupEntry)
  }

  /** The state part `j` of instance `i` is drawn under, in a group entered with `entry` bound. */
  function PartBindings(entry: Bindings, asset: SceneAsset, position: Vec3, i: nat, j: nat): Bindings
    requires j < |asset.parts|
  {
    entry.(buffer := Some(asset.parts[j].buffer),
           world := Some(Translation(position)),
           texture := Some(asset.texture),
           material := Carry(asset.parts, j + 1, IncomingMaterial(asset.parts, i, entry.material)))
  }

  /** The draws of the first `n` parts of instance `i`. */
  function PartDraws(kind: AssetKind, entry: Bindings, asset: SceneAsset, positions: seq<Vec3>, i: nat, n: nat)
      : seq<DrawEvent>
    requires i < |positions| && n <= |asset.parts|
  {
    if n == 0 then []
    else
      PartDraws(kind, entry, asset, positions, i, n - 1) +
      [DrawEvent(InstanceDraw(kind, i, n - 1), asset.parts[n - 1].buffer,
                 PartBindings(entry, asset, positions[i], i, n - 1))]
  }

  /** The draws of the first `k` instances of a group. */
  function GroupDraws(kind: AssetKind, entry: Bindings, asset: SceneAsset, positions: seq<Vec3>, k: nat)
      : seq<DrawEvent>
    requires k <= |positions|
  {
    if k == 0 then []
    else GroupDraws(kind, entry, asset, positions, k - 1) + PartDraws(kind, entry, asset, positions, k - 1, |asset.parts|)
  }

  /** The state bound once the first `k` instances of a group are drawn. */
  function AfterGroup(entry: Bindings, asset: SceneAsset, positions: seq<Vec3>, k: nat): Bindings
    requires k <= |positions|
  {
    if k == 0 then entry
    else
      entry.(world := Some(Translation(positions[k - 1])),
             texture := Some(asset.texture),
             buffer := if |asset.parts| == 0 then entry.buffer else Some(asset.parts[|asset.parts| - 1].buffer),
             material := Carry(asset.parts, |asset.parts|, entry.material))
  }

  function TreeEntry(shared: SharedUniforms, scene: Scene): Bindings {
    FloorBindings(shared, scene)
  }

  function RockEntry(shared: SharedUniforms, scene: Scene): Bindings {
    AfterGroup(TreeEntry(shared, scene), scene.tree, scene.treePositions, |scene.treePositions|)
  }

  /** The draws of one frame, in the order they are issued. */
  function FrameDraws(shared: SharedUniforms, scene: Scene): seq<DrawEvent> {
    [DrawEvent(FloorDraw, scene.floorBuffer, FloorBindings(shared, scene))] +
    GroupDraws(Tree, TreeEntry(shared, scene), scene.tree, scene.treePositions, |scene.treePositions|) +
    GroupDraws(Rock, RockEntry(shared, scene), scene.rock, scene.rockPositions, |scene.rockPositions|)
  }

  /** The state a frame leaves bound. */
  function FrameEnd(shared: SharedUniforms, scene: Scene): Bindings {
    AfterGroup(RockEntry(shared, scene), scene.rock, scene.rockPositions, |scene.rockPositions|)
  }

  // ---------------------------------------------------------------------------
  // The renderer

  /**
   * One asset's loops: for each position in order, bind its translation and
   * the asset's texture, then draw every part of the asset there.
   */
  method DrawInstances(device: Device, kind: AssetKind, asset: SceneAsset, positions: seq<Vec3>)
    modifies device
    ensures device.trace == old(device.trace) + GroupDraws(kind, old(device.bound), asset, positions, |positions|)
    ensures device.bound == AfterGroup(old(device.bound), asset, positions, |positions|)
  {
    ghost var entry, start := device.bound, device.trace;
    for i := 0 to |positions|
      invariant device.trace == start + GroupDraws(kind, entry, asset, positions, i)
      invariant device.bound == AfterGroup(entry, asset, positions, i)
    {
      DrawInstance(device, kind, entry, asset, positions, i);
    }
  }

  /**
   * The body of the outer loop for instance `i`: bind its translation and
   * the asset's texture; then for each part in order, bind the part's
   * buffer, its translation and material, and draw.
   */
  method DrawInstance(device: Device, kind: AssetKind, ghost entry: Bindings, asset: SceneAsset,
                      positions: seq<Vec3>, i: nat)
    requires i < |positions| && device.bound == AfterGroup(entry, asset, positions, i)
    modifies device
    ensures device.trace == old(device.trace) + PartDraws(kind, entry, asset, positions, i, |asset.parts|)
    ensures device.bound == AfterGroup(entry, asset, positions, i + 1)
  {
    ghost var start := device.trace;
    var world := Translation(positions[i]);
    device.SetUniforms(UniformUpdate(None, Some(world), Some(asset.texture), None));
    for j := 0 to |asset.parts|
      invariant device.trace == start + PartDraws(kind, entry, asset, positions, i, j)
      invariant device.bound ==
                  entry.(world := Some(world), texture := Some(asset.texture),
                         buffer := if j == 0 then AfterGroup(entry, asset, positions, i).buffer
                                   else Some(asset.parts[j - 1].buffer),
                         material := Carry(asset.parts, j, IncomingMaterial(asset.parts, i, entry.material)))
    {
      var part := asset.parts[j];
      device.SetBuffersAndAttributes(part.buffer);
      device.SetUniforms(UniformUpdate(None, Some(world), None, part.material));
      device.DrawBufferInfo(part.buffer, InstanceDraw(kind, i, j));
    }
    if i > 0 {
      CarryIdempotent(asset.parts, |asset.parts|, entry.material);
    }
  }

  /**
   * `render()` without the resize, viewport and rescheduling: the frame
   * reads the zoom level once and issues exactly `FrameDraws`, whatever
   * the previous frame left bound.
   */
  method RenderFrame(device: Device, camera: ZoomController, aspect: real, scene: Scene)
    requires camera.Valid()
    modifies device
    ensures device.trace == old(device.trace) + FrameDraws(SharedFor(camera.zoom, aspect), scene)
    ensures device.bound == FrameEnd(SharedFor(camera.zoom, aspect), scene)
  {
    device.EnableDepthTest();
    var shared := SharedUniforms(LightDirection, CameraFor(camera.zoom, aspect));
    device.UseProgram();
    device.SetUniforms(UniformUpdate(Some(shared), None, None, None));

    device.SetBuffersAndAttributes(scene.floorBuffer);
    device.SetUniforms(UniformUpdate(None, Some(Translation(Origin)), Some(scene.floorTexture), Some(FloorMaterial)));
    device.DrawBufferInfo(scene.floorBuffer, FloorDraw);

    DrawInstances(device, Tree, scene.tree, scene.treePositions);
    DrawInstances(device, Rock, scene.rock, scene.rockPositions);
  }

  // ---------------------------------------------------------------------------
  // Materials carried from draw to draw

  /** Setting the materials of all parts twice leaves what setting them once left. */
  lemma {:induction false} CarryIdempotent(parts: seq<Part>, n: nat, incoming: Option<Material>)
    requires n <= |parts|
    ensures Carry(parts, n, Carry(parts, n, incoming)) == Carry(parts, n, incoming)
  {
    if n > 0 && parts[n - 1].material.None? {
      CarryIdempotent(parts, n - 1, incoming);
    }
  }

  /** Once a material is bound, some material stays bound. */
  lemma {:induction false} CarryKeepsMaterial(parts: seq<Part>, n: nat, incoming: Option<Material>)
    requires n <= |parts| && incoming.Some?
    ensures Carry(parts, n, incoming).Some?
  {
    if n > 0 {
      CarryKeepsMaterial(parts, n - 1, incoming);
    }
  }
}

module RenderFacts {
  import opened Space
  import opened Wrappers
  import opened Assets
  import opened Camera
  import opened Floor
  import opened Graphics
  import opened Render

  // ---------------------------------------------------------------------------
  // Counting and placing the draws

  lemma {:induction false} PartDrawsAt(kind: AssetKind, entry: Bindings, asset: SceneAsset, positions: seq<Vec3>,
                                       i: nat, n: nat, j: nat)
    requires i < |positions| && j < n <= |asset.parts|
    ensures |PartDraws(kind, entry, asset, positions, i, n)| == n
    ensures PartDraws(kind, entry, asset, positions, i, n)[j] ==
              DrawEvent(InstanceDraw(kind, i, j), asset.parts[j].buffer, PartBindings(entry, asset, positions[i], i, j))
  {
    if j < n - 1 {
      PartDrawsAt(kind, entry, asset, positions, i, n - 1, j);
    } else if n > 1 {
      PartDrawsAt(kind, entry, asset, positions, i, n - 1, 0);
    }
  }

  lemma PartDrawsLength(kind: AssetKind, entry: Bindings, asset: SceneAsset, positions: seq<Vec3>, i: nat, n: nat)
    requires i < |positions| && n <= |asset.parts|
    ensures |PartDraws(kind, entry, asset, positions, i, n)| == n
  {
    if n > 0 {
      PartDrawsAt(kind, entry, asset, positions, i, n, 0);
    }
  }

  /** A group of `k` instances of an asset with `P` parts issues `k · P` draws. */
  lemma {:induction false} GroupDrawsLength(kind: AssetKind, entry: Bindings, asset: SceneAsset, positions: seq<Vec3>, k: nat)
    requires k <= |positions|
    ensures |GroupDraws(kind, entry, asset, positions, k)| == k * |asset.parts|
  {
    if k > 0 {
      GroupDrawsLength(kind, entry, asset, positions, k - 1);
      PartDrawsLength(kind, entry, asset, positions, k - 1, |asset.parts|);
      assert (k - 1) * |asset.parts| + |asset.parts| == k * |asset.parts|;
    }
  }

  /**
   * Within a group, part `j` of instance `i` is draw number `i · P + j`:
   * instances in list order, and within each the parts in part order.
   */
  lemma {:induction false} GroupDrawsAt(kind: AssetKind, entry: Bindings, asset: SceneAsset, positions: seq<Vec3>,
                                        k: nat, i: nat, j: nat)
    requires i < k <= |positions| && j < |asset.parts|
    ensures i * |asset.parts| + j < |GroupDraws(kind, entry, asset, positions, k)|
    ensures GroupDraws(kind, entry, asset, positions, k)[i * |asset.parts| + j] ==
              DrawEvent(InstanceDraw(kind, i, j), asset.parts[j].buffer, PartBindings(entry, asset, positions[i], i, j))
  {
    var p := |asset.parts|;
    GroupDrawsLength(kind, entry, asset, positions, k - 1);
    PartDrawsAt(kind, entry, asset, positions, k - 1, p, j);
    if i < k - 1 {
      GroupDrawsAt(kind, entry, asset, positions, k - 1, i, j);
    } else {
      assert i * p + j == |GroupDraws(kind, entry, asset, positions, k - 1)| + j;
    }
  }

  // ---------------------------------------------------------------------------
  // The state each draw is issued under

  /**
   * A draw of part `j` of instance `i` of this group: it draws that part's
   * buffer, with that buffer bound, under the translation of position `i`
   * and the asset's texture; everything else but the material is as the
   * group was entered.
   */
  ghost predicate Paired(kind: AssetKind, entry: Bindings, asset: SceneAsset, positions: seq<Vec3>, e: DrawEvent) {
    && e.tag.InstanceDraw?
    && e.tag.asset == kind
    && e.tag.instance < |positions|
    && e.tag.part < |asset.parts|
    && e.drawn == asset.parts[e.tag.part].buffer
    && e.state == entry.(buffer := Some(e.drawn),
                         world := Some(Translation(positions[e.tag.instance])),
                         texture := Some(asset.texture),
                         material := e.state.material)
    && (entry.material.Some? ==> e.state.material.Some?)
  }

  lemma {:induction false} PartDrawsPaired(kind: AssetKind, entry: Bindings, asset: SceneAsset, positions: seq<Vec3>,
                                           i: nat, n: nat)
    requires i < |positions| && n <= |asset.parts|
    ensures forall m :: 0 <= m < |PartDraws(kind, entry, asset, positions, i, n)| ==>
              Paired(kind, entry, asset, positions, PartDraws(kind, entry, asset, positions, i, n)[m])
  {
    if n > 0 {
      PartDrawsPaired(kind, entry, asset, positions, i, n - 1);
      var incoming := IncomingMaterial(asset.parts, i, entry.material);
      if entry.material.Some? {
        CarryKeepsMaterial(asset.parts, |asset.parts|, entry.material);
        CarryKeepsMaterial(asset.parts, n, incoming);
      }
    }
  }

  lemma {:induction false} GroupDrawsPaired(kind: AssetKind, entry: Bindings, asset: SceneAsset, positions: seq<Vec3>, k: nat)
    requires k <= |positions|
    ensures forall m :: 0 <= m < |GroupDraws(kind, entry, asset, positions, k)| ==>
              Paired(kind, entry, asset, positions, GroupDraws(kind, entry, asset, positions, k)[m])
  {
    if k > 0 {
      GroupDrawsPaired(kind, entry, asset, positions, k - 1);
      PartDrawsPaired(kind, entry, asset, positions, k - 1, |asset.parts|);
    }
  }

  // ---------------------------------------------------------------------------
  // Materials: a part without one draws with the material of the draw before

  /** The material bound before draw `n` of `events`, `before` being bound before the first. */
  function MaterialBefore(events: seq<DrawEvent>, n: nat, before: Option<Material>): Option<Material>
    requires n <= |events|
  {
    if n == 0 then before else events[n - 1].state.material
  }

  /** The material of the part a draw event draws. */
  function OwnMaterial(scene: Scene, e: DrawEvent): Option<Material>
    requires e.tag.InstanceDraw? && e.tag.part < |AssetOf(scene, e.tag.asset).parts|
  {
    AssetOf(scene, e.tag.asset).parts[e.tag.part].material
  }

  /** The draw `e` binds its part's material if the part has one, and otherwise keeps `prior`. */
  ghost predicate DrawInherits(scene: Scene, e: DrawEvent, prior: Option<Material>) {
    && e.tag.InstanceDraw?
    && e.tag.part < |AssetOf(scene, e.tag.asset).parts|
    && e.state.material == Override(prior, OwnMaterial(scene, e))
  }

  /** Every draw of `events` inherits from the one before it, the first from `before`. */
  ghost predicate MaterialsInherited(events: seq<DrawEvent>, scene: Scene, before: Option<Material>) {
    forall n {:trigger MaterialBefore(events, n, before)} :: 0 <= n < |events| ==>
      DrawInherits(scene, events[n], MaterialBefore(events, n, before))
  }

  lemma {:induction false} InheritedAppend(a: seq<DrawEvent>, b: seq<DrawEvent>, scene: Scene, before: Option<Material>)
    requires MaterialsInherited(a, scene, before)
    requires MaterialsInherited(b, scene, MaterialBefore(a, |a|, before))
    ensures MaterialsInherited(a + b, scene, before)
    ensures MaterialBefore(a + b, |a + b|, before) == MaterialBefore(b, |b|, MaterialBefore(a, |a|, before))
  {
    var ab := a + b;
    var middle := MaterialBefore(a, |a|, before);
    forall n | 0 <= n < |ab|
      ensures DrawInherits(scene, ab[n], MaterialBefore(ab, n, before))
    {
      if n < |a| {
        assert ab[n] == a[n];
        assert MaterialBefore(ab, n, before) == MaterialBefore(a, n, before);
        assert DrawInherits(scene, a[n], MaterialBefore(a, n, before));
      } else {
        var m := n - |a|;
        assert ab[n] == b[m];
        assert MaterialBefore(ab, n, before) == MaterialBefore(b, m, middle);
        assert DrawInherits(scene, b[m], MaterialBefore(b, m, middle));
      }
    }
  }

  lemma {:induction false} PartDrawsInherit(scene: Scene, kind: AssetKind, entry: Bindings, positions: seq<Vec3>,
                                            i: nat, n: nat)
    requires i < |positions| && n <= |AssetOf(scene, kind).parts|
    ensures var asset := AssetOf(scene, kind);
            var incoming := IncomingMaterial(asset.parts, i, entry.material);
            var draws := PartDraws(kind, entry, asset, positions, i, n);
            MaterialsInherited(draws, scene, incoming) &&
            MaterialBefore(draws, |draws|, incoming) == Carry(asset.parts, n, incoming)
  {
    var asset := AssetOf(scene, kind);
    var incoming := IncomingMaterial(asset.parts, i, entry.material);
    if n > 0 {
      PartDrawsInherit(scene, kind, entry, positions, i, n - 1);
      var prefix := PartDraws(kind, entry, asset, positions, i, n - 1);
      var last := [DrawEvent(InstanceDraw(kind, i, n - 1), asset.parts[n - 1].buffer,
                             PartBindings(entry, asset, positions[i], i, n - 1))];
      assert MaterialsInherited(last, scene, MaterialBefore(prefix, |prefix|, incoming));
      InheritedAppend(prefix, last, scene, incoming);
    }
  }

  lemma {:induction false} GroupDrawsInherit(scene: Scene, kind: AssetKind, entry: Bindings, positions: seq<Vec3>, k: nat)
    requires k <= |positions|
    ensures var asset := AssetOf(scene, kind);
            var draws := GroupDraws(kind, entry, asset, positions, k);
            MaterialsInherited(draws, scene, entry.material) &&
            MaterialBefore(draws, |draws|, entry.material) == AfterGroup(entry, asset, positions, k).material
  {
    var asset := AssetOf(scene, kind);
    if k > 0 {
      GroupDrawsInherit(scene, kind, entry, positions, k - 1);
      PartDrawsInherit(scene, kind, entry, positions, k - 1, |asset.parts|);
      if k > 1 {
        CarryIdempotent(asset.parts, |asset.parts|, entry.material);
      }
      InheritedAppend(GroupDraws(kind, entry, asset, positions, k - 1),
                      PartDraws(kind, entry, asset, positions, k - 1, |asset.parts|), scene, entry.material);
    }
  }

  // ---------------------------------------------------------------------------
  // One frame

  function TreeDrawCount(scene: Scene): nat {
    |scene.treePositions| * |scene.tree.parts|
  }

  function RockDrawCount(scene: Scene): nat {
    |scene.rockPositions| * |scene.rock.parts|
  }

  lemma FrameSplit(shared: SharedUniforms, scene: Scene)
    ensures var draws := FrameDraws(shared, scene);
            var trees := GroupDraws(Tree, TreeEntry(shared, scene), scene.tree, scene.treePositions, |scene.treePositions|);
            var rocks := GroupDraws(Rock, RockEntry(shared, scene), scene.rock, scene.rockPositions, |scene.rockPositions|);
            |trees| == TreeDrawCount(scene) && |rocks| == RockDrawCount(scene) &&
            draws[1..] == trees + rocks &&
            draws[1..1 + |trees|] == trees && draws[1 + |trees|..] == rocks
  {
    GroupDrawsLength(Tree, TreeEntry(shared, scene), scene.tree, scene.treePositions, |scene.treePositions|);
    GroupDrawsLength(Rock, RockEntry(shared, scene), scene.rock, scene.rockPositions, |scene.rockPositions|);
  }

  /** A frame issues one floor draw, one draw per tree part per tree, one per rock part per rock. */
  lemma FrameDrawCount(shared: SharedUniforms, scene: Scene)
    ensures |FrameDraws(shared, scene)| ==
              1 + |scene.treePositions| * |scene.tree.parts| + |scene.rockPositions| * |scene.rock.parts|
  {
    FrameSplit(shared, scene);
  }

  /**
   * The floor is drawn first, with its own buffer, texture, material and
   * the identity translation; then come all tree draws, then all rock
   * draws, so every tree draw precedes every rock draw.
   */
  lemma FrameOrder(shared: SharedUniforms, scene: Scene)
    ensures |FrameDraws(shared, scene)| == 1 + TreeDrawCount(scene) + RockDrawCount(scene)
    ensures var draws := FrameDraws(shared, scene);
            draws[0].tag == FloorDraw && draws[0].drawn == scene.floorBuffer &&
            draws[0].state == Bindings(true, true, Some(shared), Some(scene.floorBuffer),
                                       Some(Translation(Origin)), Some(scene.floorTexture), Some(FloorMaterial))
    ensures var draws := FrameDraws(shared, scene);
            forall n :: 1 <= n < 1 + TreeDrawCount(scene) ==> draws[n].tag.InstanceDraw? && draws[n].tag.asset == Tree
    ensures var draws := FrameDraws(shared, scene);
            forall n :: 1 + TreeDrawCount(scene) <= n < |draws| ==> draws[n].tag.InstanceDraw? && draws[n].tag.asset == Rock
    ensures var draws := FrameDraws(shared, scene);
            forall a, b ::
              (0 <= a < |draws| && 0 <= b < |draws| &&
               draws[a].tag.InstanceDraw? && draws[a].tag.asset == Tree &&
               draws[b].tag.InstanceDraw? && draws[b].tag.asset == Rock) ==> a < b
  {
    var draws := FrameDraws(shared, scene);
    FrameSplit(shared, scene);
    var treeEntry, rockEntry := TreeEntry(shared, scene), RockEntry(shared, scene);
    GroupDrawsPaired(Tree, treeEntry, scene.tree, scene.treePositions, |scene.treePositions|);
    GroupDrawsPaired(Rock, rockEntry, scene.rock, scene.rockPositions, |scene.rockPositions|);
    var t := TreeDrawCount(scene);
    forall n | 1 <= n < 1 + t
      ensures draws[n].tag.InstanceDraw? && draws[n].tag.asset == Tree
    {
      assert draws[n] == draws[1..1 + t][n - 1];
    }
    forall n | 1 + t <= n < |draws|
      ensures draws[n].tag.InstanceDraw? && draws[n].tag.asset == Rock
    {
      assert draws[n] == draws[1 + t..][n - 1 - t];
    }
  }

  /**
   * Part `j` of tree `i` is draw `1 + i · P` + `j`, and part `j` of rock `i`
   * comes `i · P + j` draws after the last tree draw, each issued under the
   * state `PartBindings` gives it.
   */
  lemma FrameInstanceAt(shared: SharedUniforms, scene: Scene, kind: AssetKind, i: nat, j: nat)
    requires i < |PositionsOf(scene, kind)| && j < |AssetOf(scene, kind).parts|
    ensures var asset, p := AssetOf(scene, kind), |AssetOf(scene, kind).parts|;
            var offset := if kind == Tree then 1 else 1 + TreeDrawCount(scene);
            var entry := if kind == Tree then TreeEntry(shared, scene) else RockEntry(shared, scene);
            var draws := FrameDraws(shared, scene);
            offset + i * p + j < |draws| &&
            draws[offset + i * p + j] ==
              DrawEvent(InstanceDraw(kind, i, j), asset.parts[j].buffer,
                        PartBindings(entry, asset, PositionsOf(scene, kind)[i], i, j))
  {
    var draws := FrameDraws(shared, scene);
    FrameSplit(shared, scene);
    var t := TreeDrawCount(scene);
    var p := |AssetOf(scene, kind).parts|;
    if kind == Tree {
      GroupDrawsAt(Tree, TreeEntry(shared, scene), scene.tree, scene.treePositions, |scene.treePositions|, i, j);
      assert draws[1 + i * p + j] == draws[1..1 + t][i * p + j];
    } else {
      GroupDrawsAt(Rock, RockEntry(shared, scene), scene.rock, scene.rockPositions, |scene.rockPositions|, i, j);
      assert draws[1 + t + i * p + j] == draws[1 + t..][i * p + j];
    }
  }

  /**
   * Every instance draw draws the buffer of its own part with that buffer
   * bound, under the translation of its own position and its own asset's
   * texture, with the frame's one program, shared uniforms and depth test,
   * and with some material bound.
   */
  lemma FramePairing(shared: SharedUniforms, scene: Scene)
    ensures var draws := FrameDraws(shared, scene);
            forall n :: 1 <= n < |draws| ==>
              var e := draws[n];
              e.tag.InstanceDraw? &&
              var kind, i, j := e.tag.asset, e.tag.instance, e.tag.part;
              i < |PositionsOf(scene, kind)| && j < |AssetOf(scene, kind).parts| &&
              e.drawn == AssetOf(scene, kind).parts[j].buffer &&
              e.state.buffer == Some(e.drawn) &&
              e.state.world == Some(Translation(PositionsOf(scene, kind)[i])) &&
              e.state.texture == Some(AssetOf(scene, kind).texture) &&
              e.state.shared == Some(shared) && e.state.programInUse && e.state.depthTest &&
              e.state.material.Some?
  {
    var draws := FrameDraws(shared, scene);
    FrameSplit(shared, scene);
    var treeEntry, rockEntry := TreeEntry(shared, scene), RockEntry(shared, scene);
    CarryKeepsMaterial(scene.tree.parts, |scene.tree.parts|, treeEntry.material);
    GroupDrawsPaired(Tree, treeEntry, scene.tree, scene.treePositions, |scene.treePositions|);
    GroupDrawsPaired(Rock, rockEntry, scene.rock, scene.rockPositions, |scene.rockPositions|);
    var t := TreeDrawCount(scene);
    forall n | 1 <= n < 1 + t
      ensures Paired(Tree, treeEntry, scene.tree, scene.treePositions, draws[n])
    {
      assert draws[n] == draws[1..1 + t][n - 1];
    }
    forall n | 1 + t <= n < |draws|
      ensures Paired(Rock, rockEntry, scene.rock, scene.rockPositions, draws[n])
    {
      assert draws[n] == draws[1 + t..][n - 1 - t];
    }
  }

  /**
   * The floor draw binds the floor material; every later draw binds the
   * material of the part it draws when that part has one, and otherwise
   * draws with the material bound before it, that of the draw before.
   */
  lemma FrameMaterials(shared: SharedUniforms, scene: Scene)
    ensures var draws := FrameDraws(shared, scene);
            draws[0].state.material == Some(FloorMaterial)
    ensures var draws := FrameDraws(shared, scene);
            forall n {:trigger MaterialBefore(draws, n, None)} :: 1 <= n < |draws| ==>
              MaterialBefore(draws, n, None) == draws[n - 1].state.material &&
              DrawInherits(scene, draws[n], MaterialBefore(draws, n, None))
  {
    var draws := FrameDraws(shared, scene);
    FrameSplit(shared, scene);
    var treeEntry, rockEntry := TreeEntry(shared, scene), RockEntry(shared, scene);
    var trees := GroupDraws(Tree, treeEntry, scene.tree, scene.treePositions, |scene.treePositions|);
    var rocks := GroupDraws(Rock, rockEntry, scene.rock, scene.rockPositions, |scene.rockPositions|);
    GroupDrawsInherit(scene, Tree, treeEntry, scene.treePositions, |scene.treePositions|);
    GroupDrawsInherit(scene, Rock, rockEntry, scene.rockPositions, |scene.rockPositions|);
    InheritedAppend(trees, rocks, scene, Some(FloorMaterial));
    var rest := draws[1..];
    assert rest == trees + rocks;
    forall n | 1 <= n < |draws|
      ensures DrawInherits(scene, draws[n], MaterialBefore(draws, n, None))
    {
      assert draws[n] == rest[n - 1];
      if n > 1 {
        assert draws[n - 1] == rest[n - 2];
      }
      assert MaterialBefore(rest, n - 1, Some(FloorMaterial)) == MaterialBefore(draws, n, None);
    }
  }
}
