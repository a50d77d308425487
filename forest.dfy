/**
 * Start-up: with a WebGL2 context, the two assets are prepared, the floor
 * buffer and texture created and the trees and rocks placed; without one,
 * start-up stops silently and nothing is drawn.
 */
module Forest {
  import opened Space
  import opened Wrappers
  import opened Assets
  import opened Floor
  import opened Placement
  import opened Render

  const TreeTextureFile: string := "assets/TreeTex.png"
  const RockTextureFile: string := "assets/rock.png"

  /**
   * `main()` after the asset files are fetched and decoded. Separate decodes
   * never share objects, so the two geometry lists share no data.
   */
  method Start(hasWebGl2: bool,
               treeGeometries: seq<Geometry>, treeMaterials: map<string, Material>,
               rockGeometries: seq<Geometry>, rockMaterials: map<string, Material>,
               draws: seq<real>)
      returns (scene: Option<Scene>)
    requires DataOf(treeGeometries) !! DataOf(rockGeometries)
    requires 2 * (TreeCount + RockCount) <= |draws|
    modifies DataOf(treeGeometries), DataOf(rockGeometries)
    ensures !hasWebGl2 ==> scene == None
    ensures hasWebGl2 ==>
              && scene.Some?
              && scene.value.floorBuffer == Buffer(FloorArrays)
              && scene.value.floorTexture == LoadTexture(FloorTextureFile)
              && scene.value.tree.texture == LoadTexture(TreeTextureFile)
              && scene.value.rock.texture == LoadTexture(RockTextureFile)
              && |scene.value.tree.parts| == |treeGeometries|
              && |scene.value.rock.parts| == |rockGeometries|
              && |scene.value.treePositions| == TreeCount
              && |scene.value.rockPositions| == RockCount
    ensures hasWebGl2 ==>
              forall i :: 0 <= i < |treeGeometries| ==>
                scene.value.tree.parts[i] ==
                  Part(MaterialNamed(treeMaterials, treeGeometries[i].material),
                       Buffer(treeGeometries[i].data.Arrays()))
    ensures hasWebGl2 ==>
              forall i :: 0 <= i < |rockGeometries| ==>
                scene.value.rock.parts[i] ==
                  Part(MaterialNamed(rockMaterials, rockGeometries[i].material),
                       Buffer(rockGeometries[i].data.Arrays()))
    ensures hasWebGl2 && AllDraws(draws) ==>
              (forall i :: 0 <= i < TreeCount ==> InSquare(scene.value.treePositions[i], ScatterRange)) &&
              (forall i :: 0 <= i < RockCount ==> InSquare(scene.value.rockPositions[i], ScatterRange))
    ensures hasWebGl2 ==>
              (forall i :: 0 <= i < |treeGeometries| ==>
                 treeGeometries[i].data.color ==
                   PreparedColor(treeGeometries[i].data.position, old(treeGeometries[i].data.color))) &&
              (forall i :: 0 <= i < |rockGeometries| ==>
                 rockGeometries[i].data.color ==
                   PreparedColor(rockGeometries[i].data.position, old(rockGeometries[i].data.color)))
    ensures hasWebGl2 ==>
              (forall i :: 0 <= i < TreeCount ==>
                 scene.value.treePositions[i] == PositionFrom(draws[2 * i], draws[2 * i + 1], ScatterRange)) &&
              (forall i :: 0 <= i < RockCount ==>
                 scene.value.rockPositions[i] ==
                   PositionFrom(draws[2 * (TreeCount + i)], draws[2 * (TreeCount + i) + 1], ScatterRange))
    ensures !hasWebGl2 ==>
              (forall g :: g in treeGeometries ==> g.data.color == old(g.data.color)) &&
              (forall g :: g in rockGeometries ==> g.data.color == old(g.data.color))
  {
    if !hasWebGl2 {
      return None;
    }
    var tree := LoadAsset(treeGeometries, treeMaterials, TreeTextureFile);
    var rock := LoadAsset(rockGeometries, rockMaterials, RockTextureFile);
    var floorBuffer := Buffer(FloorArrays);
    var floorTexture := LoadTexture(FloorTextureFile);
    var treePositions, rockPositions := PlaceForest(draws);
    scene := Some(Scene(floorBuffer, floorTexture, tree, treePositions, rock, rockPositions));
  }
}
