/** A heightmap shape: the URI of its grayscale image, its scale and offset,
    terrain paging and sampling settings, and append-only lists of textures
    and of blends between them. `HeightmapTexture` and `HeightmapBlend` are
    the value classes stored in those lists. */
module Heightmaps {
  import opened Wrappers
  import opened PoseMath

  /** `unsigned int` in the source. */
  newtype uint32 = x: int | 0 <= x < 0x1_0000_0000

  /** The element a DOM object was loaded from. Loading is not part of this
      model, so no object here ever points to one. */
  class SdfElement { }

  /** What a heightmap keeps of a texture once it has been added: a copy. */
  datatype TextureValue = TextureValue(size: real, diffuse: string, normal: string,
                                       element: SdfElement?)

  /** What a heightmap keeps of a blend once it has been added: a copy. */
  datatype BlendValue = BlendValue(minHeight: real, fadeDistance: real,
                                   element: SdfElement?)

  class HeightmapTexture {
    var size: real
    var diffuse: string
    var normal: string
    var element: SdfElement?

    /** The default size and map names are not stated by the interface. */
    constructor ()
      ensures Element() == null
    {
      size := 0.0;
      diffuse := "";
      normal := "";
      element := null;
    }

    /** The size of the texture in meters. */
    function Size(): (s: real)
      reads this
    {
      size
    }

    method SetSize(size: real)
      modifies this`size
      ensures Size() == size
    {
      this.size := size;
    }

    /** The file name of the diffuse map. */
    function Diffuse(): (d: string)
      reads this
    {
      diffuse
    }

    method SetDiffuse(diffuse: string)
      modifies this`diffuse
      ensures Diffuse() == diffuse
    {
      this.diffuse := diffuse;
    }

    /** The file name of the normal map. */
    function Normal(): (n: string)
      reads this
    {
      normal
    }

    method SetNormal(normal: string)
      modifies this`normal
      ensures Normal() == normal
    {
      this.normal := normal;
    }

    /** The element used during load; null since loading is not modelled. */
    function Element(): (e: SdfElement?)
      reads this
    {
      element
    }

    /** The copy a heightmap stores when this texture is added to it. */
    function Value(): (v: TextureValue)
      reads this
      ensures v.size == Size() && v.diffuse == Diffuse() && v.normal == Normal()
      ensures v.element == Element()
    {
      TextureValue(size, diffuse, normal, element)
    }
  }

  class HeightmapBlend {
    var minHeight: real
    var fadeDistance: real
    var element: SdfElement?

    /** The default heights are not stated by the interface. */
    constructor ()
      ensures Element() == null
    {
      minHeight := 0.0;
      fadeDistance := 0.0;
      element := null;
    }

    /** The minimum height of the blend layer, in meters. */
    function MinHeight(): (h: real)
      reads this
    {
      minHeight
    }

    method SetMinHeight(minHeight: real)
      modifies this`minHeight
      ensures MinHeight() == minHeight
    {
      this.minHeight := minHeight;
    }

    /** The distance over which the blend occurs, in meters. */
    function FadeDistance(): (d: real)
      reads this
    {
      fadeDistance
    }

    method SetFadeDistance(fadeDistance: real)
      modifies this`fadeDistance
      ensures FadeDistance() == fadeDistance
    {
      this.fadeDistance := fadeDistance;
    }

    /** The element used during load; null since loading is not modelled. */
    function Element(): (e: SdfElement?)
      reads this
    {
      element
    }

    /** The copy a heightmap stores when this blend is added to it. */
    function Value(): (v: BlendValue)
      reads this
      ensures v.minHeight == MinHeight() && v.fadeDistance == FadeDistance()
      ensures v.element == Element()
    {
      BlendValue(minHeight, fadeDistance, element)
    }
  }

  class Heightmap {
    var uri: string
    var filePath: string
    var size: Vector3
    var position: Vector3
    var useTerrainPaging: bool
    var sampling: uint32
    var textures: seq<TextureValue>
    var blends: seq<BlendValue>
    var element: SdfElement?

    /** A new heightmap has the documented defaults: size 1x1x1, no terrain
        paging, sampling 1; it has no textures, no blends and no element.
        The default URI, file path and position are not stated by the
        interface. */
    constructor ()
      ensures Size() == One3 && !UseTerrainPaging() && Sampling() == 1
      ensures TextureCount() == 0 && BlendCount() == 0
      ensures Element() == null
    {
      uri := "";
      filePath := "";
      size := One3;
      position := Zero3;
      useTerrainPaging := false;
      sampling := 1;
      textures := [];
      blends := [];
      element := null;
    }

    /** The URI of the heightmap's grayscale image. */
    function Uri(): (u: string)
      reads this
    {
      uri
    }

    method SetUri(uri: string)
      modifies this`uri
      ensures Uri() == uri
    {
      this.uri := uri;
    }

    /** The path of the file this element was loaded from. */
    function FilePath(): (p: string)
      reads this
    {
      filePath
    }

    method SetFilePath(filePath: string)
      modifies this`filePath
      ensures FilePath() == filePath
    {
      this.filePath := filePath;
    }

    /** The scaling factor. */
    function Size(): (s: Vector3)
      reads this
    {
      size
    }

    method SetSize(size: Vector3)
      modifies this`size
      ensures Size() == size
    {
      this.size := size;
    }

    /** The position offset. */
    function Position(): (p: Vector3)
      reads this
    {
      position
    }

    method SetPosition(position: Vector3)
      modifies this`position
      ensures Position() == position
    {
      this.position := position;
    }

    function UseTerrainPaging(): (b: bool)
      reads this
    {
      useTerrainPaging
    }

    method SetUseTerrainPaging(use: bool)
      modifies this`useTerrainPaging
      ensures UseTerrainPaging() == use
    {
      useTerrainPaging := use;
    }

    /** The sampling per datum. */
    function Sampling(): (n: uint32)
      reads this
    {
      sampling
    }

    method SetSampling(sampling: uint32)
      modifies this`sampling
      ensures Sampling() == sampling
    {
      this.sampling := sampling;
    }

    function TextureCount(): (n: nat)
      reads this
    {
      |textures|
    }

    /** The texture at `index`, or nothing when `index` is not below the
        number of textures. */
    function TextureByIndex(index: nat): (t: Option<TextureValue>)
      reads this
      ensures t.Some? <==> index < TextureCount()
      ensures t.Some? ==> t.value == textures[index]
    {
      if index < |textures| then Some(textures[index]) else None
    }

    /** Appends a copy of `texture`; the textures already there keep their
        indices. */
    method AddTexture(texture: HeightmapTexture)
      modifies this`textures
      ensures textures == old(textures) + [texture.Value()]
      ensures TextureCount() == old(TextureCount()) + 1
      ensures TextureByIndex(old(TextureCount())) == Some(texture.Value())
      ensures forall i :: 0 <= i < old(TextureCount()) ==>
                TextureByIndex(i) == old(TextureByIndex(i))
      ensures forall i: nat :: TextureByIndex(i).None? <==> i > old(TextureCount())
      ensures var t := TextureByIndex(old(TextureCount()));
        t.Some? && t.value.size == texture.Size() && t.value.diffuse == texture.Diffuse()
        && t.value.normal == texture.Normal() && t.value.element == texture.Element()
    {
      textures := textures + [texture.Value()];
    }

    function BlendCount(): (n: nat)
      reads this
    {
      |blends|
    }

    /** The blend at `index`, or nothing when `index` is not below the
        number of blends. */
    function BlendByIndex(index: nat): (b: Option<BlendValue>)
      reads this
      ensures b.None? <==> index >= BlendCount()
      ensures b.Some? ==> b.value == blends[index]
    {
      if index < |blends| then Some(blends[index]) else None
    }

    /** Appends a copy of `blend`; the blends already there keep their
        indices. */
    method AddBlend(blend: HeightmapBlend)
      modifies this`blends
      ensures blends == old(blends) + [blend.Value()]
      ensures BlendCount() == old(BlendCount()) + 1
      ensures BlendByIndex(old(BlendCount())) == Some(blend.Value())
      ensures forall i :: 0 <= i < old(BlendCount()) ==>
                BlendByIndex(i) == old(BlendByIndex(i))
      ensures forall i: nat :: BlendByIndex(i).None? <==> i > old(BlendCount())
      ensures var b := BlendByIndex(old(BlendCount()));
        b.Some? && b.value.minHeight == blend.MinHeight()
        && b.value.fadeDistance == blend.FadeDistance() && b.value.element == blend.Element()
    {
      blends := blends + [blend.Value()];
    }

    /** The element used during load; null since loading is not modelled. */
    function Element(): (e: SdfElement?)
      reads this
    {
      element
    }
  }
}
