/**
 * Scene assets: the decoded geometries of one model turned into drawable
 * parts, each paired with its material, plus the model's texture. The
 * decoders themselves are not modelled: their output is the input here.
 */
module Assets {
  import opened Space
  import opened Wrappers

  /** The material uniforms a `.mtl` entry provides. */
  datatype Material = Material(
    diffuse: Vec3, ambient: Vec3, emissive: Vec3, specular: Vec3,
    shininess: real, opacity: real)

  /**
   * The `color` entry of a geometry's vertex arrays: missing, a plain
   * array of numbers, an array wrapped as an attribute with an explicit
   * component count, or a constant value for every vertex.
   */
  datatype Color =
    | Absent
    | Raw(values: seq<real>)
    | Attribute(numComponents: nat, data: seq<real>)
    | Constant(value: seq<real>)

  const OpaqueWhite: seq<real> := [1.0, 1.0, 1.0, 1.0]
  const ColorComponents: nat := 3

  /** The arrays a buffer is created from; `indices` only for indexed meshes. */
  datatype VertexArrays = VertexArrays(
    position: seq<real>, normal: seq<real>, texcoord: seq<real>,
    color: Color, indices: Option<seq<nat>>)

  /** A GPU buffer, known by the arrays uploaded into it. */
  datatype Buffer = Buffer(arrays: VertexArrays)

  datatype Filter = Nearest | Linear

  /** A GPU texture, known by its image source and filters. */
  datatype Texture = Texture(src: string, mag: Filter, min: Filter)

  /** Every texture is created with nearest magnification and linear minification. */
  function LoadTexture(src: string): (t: Texture)
    ensures t.src == src && t.mag == Nearest && t.min == Linear
  {
    Texture(src, Nearest, Linear)
  }

  /** One drawable piece: its buffer and the material looked up for it, if any. */
  datatype Part = Part(material: Option<Material>, buffer: Buffer)

  datatype SceneAsset = SceneAsset(parts: seq<Part>, texture: Texture)

  datatype AssetKind = Tree | Rock

  /**
   * `materials[name]`: the material of that name, or `undefined` (`None`)
   * when the table has none.
   */
  function MaterialNamed(materials: map<string, Material>, name: string): (m: Option<Material>)
    ensures m.Some? <==> name in materials
    ensures m.Some? ==> m.value == materials[name]
  {
    if name in materials then Some(materials[name]) else None
  }

  /**
   * The color entry after preparation. An array as long as the position
   * array becomes a 3-component attribute over the same values, a missing
   * entry becomes the constant opaque white, and anything else (a
   * mismatched array, an entry prepared already) stays as it is.
   */
  function PreparedColor(position: seq<real>, color: Color): (c: Color)
    ensures !c.Absent?
    ensures color.Raw? && |color.values| == |position| ==> c.Attribute?
    ensures c != color ==>
              (color.Absent? && c == Constant(OpaqueWhite)) ||
              (color.Raw? && |color.values| == |position| && c == Attribute(ColorComponents, color.values))
  {
    match color
    case Absent => Constant(OpaqueWhite)
    case Raw(values) =>
      if |position| == |values| then Attribute(ColorComponents, values) else color
    case _ => color
  }

  /** Preparing a prepared entry changes nothing. */
  lemma PreparedColorIdempotent(position: seq<real>, color: Color)
    ensures PreparedColor(position, PreparedColor(position, color)) == PreparedColor(position, color)
  {
  }

  /**
   * A decoded geometry's vertex arrays: a JavaScript object whose `color`
   * entry part preparation reassigns in place.
   */
  class GeometryData {
    const position: seq<real>
    const normal: seq<real>
    const texcoord: seq<real>
    var color: Color

    constructor (position: seq<real>, normal: seq<real>, texcoord: seq<real>, color: Color)
      ensures this.position == position && this.normal == normal && this.texcoord == texcoord
      ensures this.color == color
    {
      this.position, this.normal, this.texcoord := position, normal, texcoord;
      this.color := color;
    }

    function Arrays(): (a: VertexArrays)
      reads this
      ensures a.position == position && a.normal == normal && a.texcoord == texcoord
      ensures a.color == color && a.indices == None
    {
      VertexArrays(position, normal, texcoord, color, None)
    }

    /** The `if (data.color) … else …` of part preparation. */
    method PrepareColor()
      modifies this
      ensures color == PreparedColor(position, old(color))
    {
      if !color.Absent? {
        if color.Raw? && |position| == |color.values| {
          color := Attribute(ColorComponents, color.values);
        }
      } else {
        color := Constant(OpaqueWhite);
      }
    }
  }

  /** One entry of the decoder's geometry list. */
  datatype Geometry = Geometry(material: string, data: GeometryData)

  ghost function DataOf(geometries: seq<Geometry>): set<GeometryData> {
    set g | g in geometries :: g.data
  }

  /**
   * `obj.geometries.map(...)`: one part per geometry, in geometry order.
   * Each geometry's color is prepared in place, the part's buffer holds the
   * geometry's arrays with the prepared color, and the part's material is
   * the one its name finds in the table, or none. Two geometries may share
   * one data object: preparing it again changes nothing.
   */
  method PrepareParts(geometries: seq<Geometry>, materials: map<string, Material>)
      returns (parts: seq<Part>)
    modifies DataOf(geometries)
    ensures |parts| == |geometries|
    ensures forall i :: 0 <= i < |geometries| ==>
              geometries[i].data.color == PreparedColor(geometries[i].data.position, old(geometries[i].data.color))
    ensures forall i :: 0 <= i < |geometries| ==>
              parts[i] == Part(MaterialNamed(materials, geometries[i].material),
                               Buffer(geometries[i].data.Arrays()))
  {
    parts := [];
    for i := 0 to |geometries|
      invariant |parts| == i
      invariant forall k :: 0 <= k < |geometries| ==>
                  var g := geometries[k].data;
                  g.color == old(g.color) || g.color == PreparedColor(g.position, old(g.color))
      invariant forall k :: 0 <= k < i ==>
                  var g := geometries[k].data;
                  g.color == PreparedColor(g.position, old(g.color))
      invariant forall k :: 0 <= k < i ==>
                  parts[k] == Part(MaterialNamed(materials, geometries[k].material), Buffer(geometries[k].data.Arrays()))
    {
      var data := geometries[i].data;
      data.PrepareColor();
      var buffer := Buffer(data.Arrays());
      parts := parts + [Part(MaterialNamed(materials, geometries[i].material), buffer)];
    }
  }

  /**
   * `loadObjAndMtl` once the files are fetched and decoded: the prepared
   * parts and the texture created from `textureFile`.
   */
  method LoadAsset(geometries: seq<Geometry>, materials: map<string, Material>, textureFile: string)
      returns (asset: SceneAsset)
    modifies DataOf(geometries)
    ensures asset.texture == LoadTexture(textureFile)
    ensures |asset.parts| == |geometries|
    ensures forall i :: 0 <= i < |geometries| ==>
              geometries[i].data.color == PreparedColor(geometries[i].data.position, old(geometries[i].data.color))
    ensures forall i :: 0 <= i < |geometries| ==>
              asset.parts[i] == Part(MaterialNamed(materials, geometries[i].material),
                                     Buffer(geometries[i].data.Arrays()))
  {
    var parts := PrepareParts(geometries, materials);
    asset := SceneAsset(parts, LoadTexture(textureFile));
  }
}
