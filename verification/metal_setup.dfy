/**
 * Vertex and uniform buffer layout (OSX/MacGUI/MetalSetup.swift).
 *
 * The vertex buffer holds 48 vertices of 8 floats each: position x, y, z,
 * the constant 1.0, texture x, y, and two unused alignment slots. Vertices
 * 0..5 are the background quad, 6..41 the six cube faces (six vertices
 * each, in the order -Z, +Z, -X, +X, -Y, +Y) and 42..47 the flat 2D quad.
 *
 * Uniform buffers are byte arrays. A transform buffer holds a 64-byte 4x4
 * matrix followed by a 4-byte alpha; the fragment buffer holds six 4-byte
 * fields. Float values are opaque here: the writers take their 4-byte
 * encodings as inputs.
 */
module MetalSetup {
  import opened Wrappers

  // ---------------------------------------------------------------------------
  // Geometry values
  // ---------------------------------------------------------------------------

  datatype Float2 = Float2(x: real, y: real)
  datatype Float3 = Float3(x: real, y: real, z: real)

  /** A CGRect: origin and size. */
  datatype Rect = Rect(x: real, y: real, width: real, height: real)
  {
    function MinX(): real { if width >= 0.0 then x else x + width }
    function MaxX(): real { if width >= 0.0 then x + width else x }
    function MinY(): real { if height >= 0.0 then y else y + height }
    function MaxY(): real { if height >= 0.0 then y + height else y }
    /** CGRect's width and height properties read the standardized (non-negative) size. */
    function Width(): real { MaxX() - MinX() }
    function Height(): real { MaxY() - MinY() }
  }

  datatype Vertex = Vertex(position: Float3, texture: Float2)

  const FloatsPerVertex: nat := 8
  const VertexCount: nat := 16 * 3
  /** capacity = 16 * 3 * 8 floats */
  const VertexCapacity: nat := 16 * 3 * 8
  const SizeofFloat: nat := 4

  /** Half extents of the cube and of the background quad; bgz is the background's (negated) depth. */
  const Dx: real := 0.64
  const Dy: real := 0.48
  const Dz: real := 0.64
  const Bgx: real := 6.4
  const Bgy: real := 4.8
  const Bgz: real := -6.8

  /** The eight floats setVertex writes for one vertex. */
  function Record(v: Vertex): (r: seq<real>)
    ensures |r| == FloatsPerVertex
  {
    [v.position.x, v.position.y, v.position.z, 1.0, v.texture.x, v.texture.y, 0.0, 0.0]
  }

  function UpperLeft(r: Rect): Float2 { Float2(r.MinX(), r.MaxY()) }
  function UpperRight(r: Rect): Float2 { Float2(r.MaxX(), r.MaxY()) }
  function LowerLeft(r: Rect): Float2 { Float2(r.MinX(), r.MinY()) }
  function LowerRight(r: Rect): Float2 { Float2(r.MaxX(), r.MinY()) }

  predicate IsCorner(t: Float2, r: Rect)
  {
    t == UpperLeft(r) || t == UpperRight(r) || t == LowerLeft(r) || t == LowerRight(r)
  }

  function V(x: real, y: real, z: real, t: Float2): Vertex { Vertex(Float3(x, y, z), t) }

  /** The cube faces in vertex-buffer order; face f occupies vertices 6 + 6f .. 11 + 6f. */
  datatype Face = MinusZ | PlusZ | MinusX | PlusX | MinusY | PlusY

  function FaceIndex(f: Face): (i: nat)
    ensures i < 6
  {
    match f
    case MinusZ => 0 case PlusZ => 1 case MinusX => 2 case PlusX => 3 case MinusY => 4 case PlusY => 5
  }

  /** Vertices 0..5: the background quad, textured with the whole background image. */
  function BackgroundGroup(): (g: seq<Vertex>)
    ensures |g| == 6
  {
    [ V(-Bgx, Bgy, -Bgz, Float2(0.0, 0.0)), V(-Bgx, -Bgy, -Bgz, Float2(0.0, 1.0)), V(Bgx, -Bgy, -Bgz, Float2(1.0, 1.0)),
      V(-Bgx, Bgy, -Bgz, Float2(0.0, 0.0)), V(Bgx, Bgy, -Bgz, Float2(1.0, 0.0)), V(Bgx, -Bgy, -Bgz, Float2(1.0, 1.0)) ]
  }

  /** The six vertices of one cube face, textured with the corners of the cut-out. */
  function FaceGroup(f: Face, rect: Rect): (g: seq<Vertex>)
    ensures |g| == 6
  {
    var ul, ur, ll, lr := UpperLeft(rect), UpperRight(rect), LowerLeft(rect), LowerRight(rect);
    match f
    case MinusZ =>
      [ V(-Dx, Dy, -Dz, ll), V(-Dx, -Dy, -Dz, ul), V(Dx, -Dy, -Dz, ur),
        V(-Dx, Dy, -Dz, ll), V(Dx, Dy, -Dz, lr), V(Dx, -Dy, -Dz, ur) ]
    case PlusZ =>
      [ V(-Dx, Dy, Dz, lr), V(-Dx, -Dy, Dz, ur), V(Dx, -Dy, Dz, ul),
        V(-Dx, Dy, Dz, lr), V(Dx, Dy, Dz, ll), V(Dx, -Dy, Dz, ul) ]
    case MinusX =>
      [ V(-Dx, Dy, -Dz, lr), V(-Dx, -Dy, -Dz, ur), V(-Dx, -Dy, Dz, ul),
        V(-Dx, Dy, -Dz, lr), V(-Dx, Dy, Dz, ll), V(-Dx, -Dy, Dz, ul) ]
    case PlusX =>
      [ V(Dx, Dy, -Dz, ll), V(Dx, -Dy, -Dz, ul), V(Dx, -Dy, Dz, ur),
        V(Dx, Dy, -Dz, ll), V(Dx, Dy, Dz, lr), V(Dx, -Dy, Dz, ur) ]
    case MinusY =>
      [ V(Dx, -Dy, -Dz, ll), V(-Dx, -Dy, -Dz, ul), V(-Dx, -Dy, Dz, ur),
        V(Dx, -Dy, -Dz, ll), V(Dx, -Dy, Dz, lr), V(-Dx, -Dy, Dz, ur) ]
    case PlusY =>
      [ V(Dx, Dy, -Dz, ll), V(-Dx, Dy, -Dz, ul), V(-Dx, Dy, Dz, ur),
        V(Dx, Dy, -Dz, ll), V(-Dx, Dy, Dz, ur), V(Dx, Dy, Dz, lr) ]
  }

  /** Vertices 42..47: the quad used for 2D drawing, covering clip space. */
  function FlatGroup(rect: Rect): (g: seq<Vertex>)
    ensures |g| == 6
  {
    var ul, ur, ll, lr := UpperLeft(rect), UpperRight(rect), LowerLeft(rect), LowerRight(rect);
    [ V(-1.0, 1.0, 0.0, ll), V(-1.0, -1.0, 0.0, ul), V(1.0, -1.0, 0.0, ur),
      V(-1.0, 1.0, 0.0, ll), V(1.0, 1.0, 0.0, lr), V(1.0, -1.0, 0.0, ur) ]
  }

  /** The 48 vertices buildVertexBuffer writes, indexed by vertex number. */
  function VertexTable(rect: Rect): (t: seq<Vertex>)
    ensures |t| == VertexCount
  {
    BackgroundGroup()
      + FaceGroup(MinusZ, rect) + FaceGroup(PlusZ, rect) + FaceGroup(MinusX, rect)
      + FaceGroup(PlusX, rect) + FaceGroup(MinusY, rect) + FaceGroup(PlusY, rect)
      + FlatGroup(rect)
  }

  /** Where each group sits in the table. */
  lemma TableLayout(rect: Rect)
    ensures VertexTable(rect)[..6] == BackgroundGroup()
    ensures forall f: Face :: VertexTable(rect)[6 + 6 * FaceIndex(f)..12 + 6 * FaceIndex(f)] == FaceGroup(f, rect)
    ensures VertexTable(rect)[42..] == FlatGroup(rect)
  {
  }

  /** The coordinate a face keeps constant, at its +/- half extent. */
  predicate OnFace(p: Float3, f: Face)
  {
    match f
    case MinusZ => p.z == -Dz
    case PlusZ => p.z == Dz
    case MinusX => p.x == -Dx
    case PlusX => p.x == Dx
    case MinusY => p.y == -Dy
    case PlusY => p.y == Dy
  }

  /** The background quad lies at depth 6.8 and samples the whole background texture. */
  lemma BackgroundQuad()
    ensures forall t :: t in BackgroundGroup() ==>
      t.position.z == -Bgz == 6.8 && t.texture.x in {0.0, 1.0} && t.texture.y in {0.0, 1.0}
  {
  }

  /** The flat quad spans the whole clip square at depth 0 and samples the texture cut-out. */
  lemma FlatQuad(rect: Rect)
    ensures forall t :: t in FlatGroup(rect) ==>
      t.position.z == 0.0 && t.position.x in {-1.0, 1.0} && t.position.y in {-1.0, 1.0}
      && IsCorner(t.texture, rect)
  {
  }

  /** Every vertex of a cube face lies on that face and samples a corner of the cut-out. */
  lemma CubeFaces(rect: Rect)
    ensures forall f: Face, t :: t in FaceGroup(f, rect) ==> OnFace(t.position, f) && IsCorner(t.texture, rect)
  {
  }

  // ---------------------------------------------------------------------------
  // Vertex buffer
  // ---------------------------------------------------------------------------

  /** setVertex(i, position, texture): write floats i*8 .. i*8+7 and nothing else. */
  method SetVertex(pos: array<real>, i: nat, position: Float3, texture: Float2)
    requires pos.Length == VertexCapacity && i < VertexCount
    modifies pos
    ensures pos[i * 8..i * 8 + 8] == Record(Vertex(position, texture))
    ensures forall j :: 0 <= j < pos.Length && (j < i * 8 || i * 8 + 8 <= j) ==> pos[j] == old(pos[j])
  {
    var first := i * 8;
    pos[first + 0] := position.x;
    pos[first + 1] := position.y;
    pos[first + 2] := position.z;
    pos[first + 3] := 1.0;
    pos[first + 4] := texture.x;
    pos[first + 5] := texture.y;
    pos[first + 6] := 0.0;
    pos[first + 7] := 0.0;
  }

  /**
   * buildVertexBuffer(): without a device nothing happens; otherwise all 48
   * vertices are written, in index order, into a 384-float array whose 1536
   * bytes become the position buffer.
   */
  method BuildVertexBuffer(hasDevice: bool, textureRect: Rect) returns (buffer: Option<seq<real>>)
    ensures buffer.None? <==> !hasDevice
    ensures buffer.Some? ==> |buffer.value| == VertexCapacity && |buffer.value| * SizeofFloat == 1536
    ensures buffer.Some? ==>
      forall v :: 0 <= v < VertexCount ==> buffer.value[v * 8..v * 8 + 8] == Record(VertexTable(textureRect)[v])
  {
    if !hasDevice {
      return None;
    }
    var pos := WriteVertices(VertexTable(textureRect));
    buffer := Some(pos);
  }

  /** The loop of buildVertexBuffer: one setVertex call per table row, into a fresh array. */
  method WriteVertices(table: seq<Vertex>) returns (data: seq<real>)
    requires |table| == VertexCount
    ensures |data| == VertexCapacity
    ensures forall v :: 0 <= v < VertexCount ==> data[v * 8..v * 8 + 8] == Record(table[v])
  {
    var pos := new real[VertexCapacity];
    for i := 0 to VertexCount
      invariant forall v :: 0 <= v < i ==> pos[v * 8..v * 8 + 8] == Record(table[v])
    {
      ghost var before := pos[..];
      SetVertex(pos, i, table[i].position, table[i].texture);
      forall v | 0 <= v < i
        ensures pos[v * 8..v * 8 + 8] == Record(table[v])
      {
        assert pos[v * 8..v * 8 + 8] == before[v * 8..v * 8 + 8];
      }
    }
    data := pos[..];
    forall v | 0 <= v < VertexCount
      ensures data[v * 8..v * 8 + 8] == Record(table[v])
    {
      assert data[v * 8..v * 8 + 8] == pos[v * 8..v * 8 + 8];
    }
  }

  // ---------------------------------------------------------------------------
  // Uniform buffers
  // ---------------------------------------------------------------------------

  /** Length of each transform uniform buffer (2D, 3D, background). */
  const UniformBufferLength: nat := 80
  /** Length of the fragment uniform buffer. */
  const FragmentBufferLength: nat := 24
  /** 16 * 4 bytes of matrix, then the alpha. */
  const MatrixBytes: nat := 16 * 4
  const AlphaOffset: nat := 16 * 4
  const FieldBytes: nat := 4

  /** memcpy(buffer + offset, src, |src|): overwrite exactly |src| bytes at offset. */
  method CopyInto(buffer: array<bv8>, offset: nat, src: seq<bv8>)
    requires offset + |src| <= buffer.Length
    modifies buffer
    ensures buffer[..] == old(buffer[..offset]) + src + old(buffer[offset + |src|..])
    ensures buffer[..offset] == old(buffer[..offset]) && buffer[offset..offset + |src|] == src
  {
    forall i | 0 <= i < |src| {
      buffer[offset + i] := src[i];
    }
  }

  /** fillMatrix(buffer, matrix): bytes 0..63 of a non-null buffer. */
  method FillMatrix(buffer: array?<bv8>, matrix: seq<bv8>)
    requires |matrix| == MatrixBytes
    requires buffer != null ==> buffer.Length >= MatrixBytes
    modifies buffer
    ensures buffer != null ==> buffer[..MatrixBytes] == matrix
    ensures buffer != null ==> buffer[MatrixBytes..] == old(buffer[MatrixBytes..])
  {
    if buffer != null {
      CopyInto(buffer, 0, matrix);
    }
  }

  /** fillAlpha(buffer, alpha): bytes 64..67 of a non-null buffer. */
  method FillAlpha(buffer: array?<bv8>, alpha: seq<bv8>)
    requires |alpha| == FieldBytes
    requires buffer != null ==> buffer.Length >= AlphaOffset + FieldBytes
    modifies buffer
    ensures buffer != null ==> buffer[AlphaOffset..AlphaOffset + FieldBytes] == alpha
    ensures buffer != null ==> buffer[..AlphaOffset] == old(buffer[..AlphaOffset])
    ensures buffer != null ==> buffer[AlphaOffset + FieldBytes..] == old(buffer[AlphaOffset + FieldBytes..])
  {
    if buffer != null {
      CopyInto(buffer, AlphaOffset, alpha);
    }
  }

  /** fillBuffer(buffer, matrix, alpha): matrix then alpha, bytes 0..67; the padding stays. */
  method FillBuffer(buffer: array?<bv8>, matrix: seq<bv8>, alpha: seq<bv8>)
    requires |matrix| == MatrixBytes && |alpha| == FieldBytes
    requires buffer != null ==> buffer.Length == UniformBufferLength
    modifies buffer
    ensures buffer != null ==> buffer[..AlphaOffset + FieldBytes] == matrix + alpha
    ensures buffer != null ==> buffer[AlphaOffset + FieldBytes..] == old(buffer[AlphaOffset + FieldBytes..])
  {
    FillMatrix(buffer, matrix);
    FillAlpha(buffer, alpha);
    if buffer != null {
      assert buffer[..AlphaOffset + FieldBytes] == buffer[..AlphaOffset] + buffer[AlphaOffset..AlphaOffset + FieldBytes];
    }
  }

  /** The six fields of the fragment uniforms, in the order fillFragmentShaderUniforms writes them. */
  datatype FragmentField = Scanlines | ScanlineBrightness | ScanlineWeight | BloomFactor | DotMask | MaskBrightness

  /** The 4-byte encodings of the six shader parameters. */
  datatype FragmentUniforms = FragmentUniforms(
    scanlines: seq<bv8>, scanlineBrightness: seq<bv8>, scanlineWeight: seq<bv8>,
    bloomFactor: seq<bv8>, dotMask: seq<bv8>, maskBrightness: seq<bv8>)
  {
    predicate WellFormed()
    {
      |scanlines| == |scanlineBrightness| == |scanlineWeight| == FieldBytes
      && |bloomFactor| == |dotMask| == |maskBrightness| == FieldBytes
    }

    function Field(f: FragmentField): seq<bv8>
    {
      match f
      case Scanlines => scanlines
      case ScanlineBrightness => scanlineBrightness
      case ScanlineWeight => scanlineWeight
      case BloomFactor => bloomFactor
      case DotMask => dotMask
      case MaskBrightness => maskBrightness
    }
  }

  /** Byte offset at which fillFragmentShaderUniforms writes each field. */
  function WrittenOffset(f: FragmentField): nat
  {
    match f
    case Scanlines => 0
    case ScanlineBrightness => 4
    case ScanlineWeight => 8
    case BloomFactor => 12
    case DotMask => 16
    case MaskBrightness => 20
  }

  /** Byte offset of each field in the FragmentUniforms record as the comment in buildBuffers lays it out. */
  function DocumentedOffset(f: FragmentField): nat
  {
    match f
    case ScanlineBrightness => 0
    case Scanlines => 4
    case ScanlineWeight => 8
    case BloomFactor => 12
    case DotMask => 16
    case MaskBrightness => 20
  }

  /** The write order and the documented record agree except that the first two fields are swapped. */
  lemma FragmentLayoutVersusComment()
    ensures WrittenOffset(Scanlines) == DocumentedOffset(ScanlineBrightness) == 0
    ensures WrittenOffset(ScanlineBrightness) == DocumentedOffset(Scanlines) == 4
    ensures forall f :: f != Scanlines && f != ScanlineBrightness ==> WrittenOffset(f) == DocumentedOffset(f)
  {
  }

  /** A prefix that is `p` followed by a field that is `x` is the prefix `p + x`. */
  lemma PrefixGrows(b: seq<bv8>, n: nat, p: seq<bv8>, x: seq<bv8>)
    requires n + |x| <= |b| && b[..n] == p && b[n..n + |x|] == x
    ensures b[..n + |x|] == p + x
  {
    assert b[..n + |x|] == b[..n] + b[n..n + |x|];
  }

  /** fillFragmentShaderUniforms(buffer): six 4-byte fields at offsets 0, 4, ..., 20. */
  method FillFragmentShaderUniforms(buffer: array?<bv8>, u: FragmentUniforms)
    requires u.WellFormed()
    requires buffer != null ==> buffer.Length == FragmentBufferLength
    modifies buffer
    ensures buffer != null ==> forall f :: buffer[WrittenOffset(f)..WrittenOffset(f) + FieldBytes] == u.Field(f)
    ensures buffer != null ==>
      buffer[..] == u.scanlines + u.scanlineBrightness + u.scanlineWeight + u.bloomFactor + u.dotMask + u.maskBrightness
  {
    if buffer != null {
      CopyInto(buffer, 0, u.scanlines);
      assert buffer[..4] == u.scanlines;
      CopyInto(buffer, 4, u.scanlineBrightness);
      PrefixGrows(buffer[..], 4, u.scanlines, u.scanlineBrightness);
      CopyInto(buffer, 8, u.scanlineWeight);
      PrefixGrows(buffer[..], 8, u.scanlines + u.scanlineBrightness, u.scanlineWeight);
      CopyInto(buffer, 12, u.bloomFactor);
      PrefixGrows(buffer[..], 12, u.scanlines + u.scanlineBrightness + u.scanlineWeight, u.bloomFactor);
      CopyInto(buffer, 16, u.dotMask);
      PrefixGrows(buffer[..], 16, u.scanlines + u.scanlineBrightness + u.scanlineWeight + u.bloomFactor, u.dotMask);
      CopyInto(buffer, 20, u.maskBrightness);
      PrefixGrows(buffer[..], 20, u.scanlines + u.scanlineBrightness + u.scanlineWeight + u.bloomFactor + u.dotMask,
                  u.maskBrightness);
      assert buffer[..] == buffer[..24];
    }
  }

  /** buildBuffers(): the vertex buffer and the four uniform buffers (80, 80, 80 and 24 bytes). */
  method BuildBuffers(textureRect: Rect)
      returns (positions: Option<seq<real>>, uniform2D: array<bv8>, uniform3D: array<bv8>,
               uniformBg: array<bv8>, uniformFragment: array<bv8>)
    ensures positions.Some? && |positions.value| == VertexCapacity
    ensures forall v :: 0 <= v < VertexCount ==> positions.value[v * 8..v * 8 + 8] == Record(VertexTable(textureRect)[v])
    ensures fresh(uniform2D) && fresh(uniform3D) && fresh(uniformBg) && fresh(uniformFragment)
    ensures uniform2D.Length == uniform3D.Length == uniformBg.Length == UniformBufferLength
    ensures uniformFragment.Length == FragmentBufferLength
    ensures MatrixBytes + FieldBytes <= UniformBufferLength
  {
    positions := BuildVertexBuffer(true, textureRect);
    uniform2D := new bv8[UniformBufferLength];
    uniform3D := new bv8[UniformBufferLength];
    uniformBg := new bv8[UniformBufferLength];
    uniformFragment := new bv8[FragmentBufferLength];
  }
}
