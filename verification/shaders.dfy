/**
 * Compute kernels of the post-processing pipeline (OSX/MacGUI/Shaders.swift).
 *
 * The source has one base class and a subclass per shader; here the shader
 * is a tag (KernelKind) and the per-subclass choices are functions of it.
 * The kernel object itself keeps the fields the source updates after
 * construction: the sampler, the pre-blur and blur-weight textures and the
 * CRT parameter record.
 */
module Shaders {
  import opened Wrappers

  // ---------------------------------------------------------------------------
  // Texture dimensions
  // ---------------------------------------------------------------------------

  /** A texture's size and the cut-out that holds the visible C64 picture. */
  datatype TextureDims = TextureDims(width: nat, height: nat, cutoutX: nat, cutoutY: nat)

  /** C64_TEXTURE: the emulator's raw texture. */
  const C64Texture: TextureDims := TextureDims(512, 512, 428, 284)

  /** Every dimension of the C64 texture multiplied by a per-axis factor. */
  function Scaled(factorX: nat, factorY: nat): (d: TextureDims)
  {
    TextureDims(C64Texture.width * factorX, C64Texture.height * factorY,
                C64Texture.cutoutX * factorX, C64Texture.cutoutY * factorY)
  }

  /** UPSCALED_TEXTURE: factor 4 x 4. */
  const UpscaledTexture: TextureDims := Scaled(4, 4)

  /** FILTERED_TEXTURE: factor 4 x 8. */
  const FilteredTexture: TextureDims := Scaled(4, 8)

  predicate CutoutInside(d: TextureDims)
  {
    0 < d.cutoutX <= d.width && 0 < d.cutoutY <= d.height
  }

  lemma TextureConstants()
    ensures UpscaledTexture == TextureDims(2048, 2048, 1712, 1136)
    ensures FilteredTexture == TextureDims(2048, 4096, 1712, 2272)
    ensures CutoutInside(C64Texture) && CutoutInside(UpscaledTexture) && CutoutInside(FilteredTexture)
  {
  }

  // ---------------------------------------------------------------------------
  // Dispatch geometry
  // ---------------------------------------------------------------------------

  datatype Size3 = Size3(width: nat, height: nat, depth: nat)

  const GroupSize: nat := 16

  /** Thread-group size fixed by init(): 16 x 16 x 1. */
  const ThreadgroupSize: Size3 := Size3(GroupSize, GroupSize, 1)

  /** (dim + 16 - 1) / 16: the fewest groups of 16 that cover dim. */
  function GroupCount(dim: nat): (n: nat)
    ensures n * GroupSize >= dim
    ensures n > 0 ==> (n - 1) * GroupSize < dim
  {
    (dim + GroupSize - 1) / GroupSize
  }

  /** Thread-group count fixed by init(), against the filtered texture's dimensions. */
  function ThreadgroupCount(): (c: Size3)
    ensures c.width * ThreadgroupSize.width >= FilteredTexture.width
    ensures c.height * ThreadgroupSize.height >= FilteredTexture.height
  {
    Size3(GroupCount(FilteredTexture.width), GroupCount(FilteredTexture.height), 1)
  }

  lemma ThreadgroupCountValue()
    ensures ThreadgroupCount() == Size3(128, 256, 1)
  {
  }

  /** The filtered texture buildTextures actually allocates (MetalSetup.swift lines 104-111). */
  const FilteredAllocation: TextureDims := TextureDims(2048, 2048, FilteredTexture.cutoutX, FilteredTexture.cutoutY)

  /** The dispatch is sized for the 2048 x 4096 constant, not for the 2048 x 2048 texture
      the kernels write into: it covers the allocation's width exactly and twice its height. */
  lemma DispatchVersusAllocation()
    ensures ThreadgroupCount().width * ThreadgroupSize.width == FilteredAllocation.width
    ensures ThreadgroupCount().height * ThreadgroupSize.height == 2 * FilteredAllocation.height
  {
    ThreadgroupCountValue();
  }

  // ---------------------------------------------------------------------------
  // Kernel variants
  // ---------------------------------------------------------------------------

  datatype Sampler = Linear | Nearest

  /** One variant per subclass of ComputeKernel. */
  datatype KernelKind =
    | BypassUpscaler
    | EPXUpscaler
    | XBRUpscaler
    | BypassFilter
    | SmoothFilter
    | BlurFilter(program: string, radius: real)
    | CrtFilter
    | ScanlineFilter

  /** The name of the kernel function each variant looks up in the shader library. */
  function ProgramName(kind: KernelKind): string
  {
    match kind
    case BypassUpscaler => "bypassupscaler"
    case EPXUpscaler => "epxupscaler"
    case XBRUpscaler => "xbrupscaler"
    case BypassFilter => "bypass"
    case SmoothFilter => "bypass"
    case BlurFilter(program, _) => program
    case CrtFilter => "crt"
    case ScanlineFilter => "scanline"
  }

  /** The sampler a variant ends up with: linear by default, nearest where a subclass replaces it. */
  function SamplerOf(kind: KernelKind): (s: Sampler)
    ensures s == Nearest <==>
              kind == BypassUpscaler || kind == EPXUpscaler || kind == XBRUpscaler || kind == BypassFilter
  {
    match kind
    case BypassUpscaler => Nearest
    case EPXUpscaler => Nearest
    case XBRUpscaler => Nearest
    case BypassFilter => Nearest
    case _ => Linear
  }

  /** isPreBlurRequired(): false in the base class, overridden to true by two subclasses. */
  function IsPreBlurRequired(kind: KernelKind): (b: bool)
    ensures b <==> kind.BlurFilter? || kind == ScanlineFilter
  {
    match kind
    case BlurFilter(_, _) => true
    case ScanlineFilter => true
    case _ => false
  }

  /** The variants that carry a CrtParameters record (a blooming factor). */
  predicate HasCrtParameters(kind: KernelKind)
  {
    kind == CrtFilter || kind == ScanlineFilter
  }

  /** The radius a variant passes to getBlurWeights, if it builds a weight table. */
  function BlurRadius(kind: KernelKind): (r: Option<real>)
    ensures r.Some? <==> kind.BlurFilter? || kind == ScanlineFilter
  {
    match kind
    case BlurFilter(_, radius) => Some(radius)
    case ScanlineFilter => Some(4.0)
    case _ => None
  }

  // ---------------------------------------------------------------------------
  // Blur weight table (getBlurWeights), without the Gaussian values
  // ---------------------------------------------------------------------------

  /** Swift's round(): to the nearest integer, halfway cases away from zero. */
  function Round(x: real): (n: int)
    ensures x - 0.5 <= n as real <= x + 0.5
    ensures x >= 0.0 ==> n >= 0
  {
    if x >= 0.0 then (x + 0.5).Floor else -((-x + 0.5).Floor)
  }

  /** Int(round(radius) * 2 + 1): the number of entries of the weight table. */
  function BlurWeightCount(radius: real): (n: int)
    ensures n % 2 == 1
    ensures 2.0 * radius <= n as real <= 2.0 * radius + 2.0
  {
    Round(radius) * 2 + 1
  }

  lemma BlurWeightCounts()
    ensures BlurWeightCount(0.0) == 1
    ensures BlurWeightCount(4.0) == 9
    ensures BlurWeightCount(BlurRadius(ScanlineFilter).value) == 9
  {
  }

  /**
   * The sample positions getBlurWeights visits: x starts at -radius and
   * advances by delta, once per table entry. delta and the exponent scale
   * stay 0 unless radius is positive. (When 0 < radius < 0.5 the table has one
   * entry and the source divides by zero for delta, which is never used; the
   * model keeps delta at 0 there.)
   */
  method BlurSamples(radius: real) returns (xs: seq<real>, delta: real, expScale: real)
    requires BlurWeightCount(radius) >= 1
    ensures |xs| == BlurWeightCount(radius)
    ensures xs[0] == -radius
    ensures radius <= 0.0 ==> delta == 0.0 && expScale == 0.0
    ensures radius > 0.0 ==> expScale == -2.0 / (radius * radius)
    ensures |xs| > 1 ==> xs[|xs| - 1] == radius
    ensures |xs| > 1 || radius == 0.0 ==> forall j :: 0 <= j < |xs| ==> xs[j] == -xs[|xs| - 1 - j]
    ensures radius >= 0.0 ==> forall j :: 0 <= j < |xs| ==> -radius <= xs[j] <= radius
  {
    var size := BlurWeightCount(radius);
    delta, expScale := BlurScales(radius, size);
    xs := SamplePositions(radius, delta, size);
    if size > 1 {
      forall j | 0 <= j < size
        ensures xs[j] == -xs[size - 1 - j]
        ensures radius >= 0.0 ==> -radius <= xs[j] <= radius
      {
        SampleSymmetry(radius, delta, size, j);
      }
    }
  }

  /** The step between samples and the Gaussian's exponent scale -1 / (2 sigma^2), sigma = radius / 2. */
  method BlurScales(radius: real, size: int) returns (delta: real, expScale: real)
    requires size == BlurWeightCount(radius)
    ensures radius <= 0.0 ==> delta == 0.0 && expScale == 0.0
    ensures radius > 0.0 ==> expScale == -2.0 / (radius * radius)
    ensures size > 1 ==> (size - 1) as real * delta == 2.0 * radius
  {
    var sigma := radius / 2.0;
    delta, expScale := 0.0, 0.0;
    if radius > 0.0 {
      if size > 1 {
        delta := (radius * 2.0) / (size - 1) as real;
      }
      expScale := -1.0 / (2.0 * sigma * sigma);
      assert 2.0 * sigma * sigma == radius * radius / 2.0;
    }
  }

  /** The loop of getBlurWeights: x starts at -radius and advances by delta once per entry. */
  method SamplePositions(radius: real, delta: real, size: nat) returns (xs: seq<real>)
    ensures |xs| == size
    ensures forall j :: 0 <= j < size ==> xs[j] == -radius + j as real * delta
  {
    xs := [];
    var x := -radius;
    for i := 0 to size
      invariant |xs| == i
      invariant x == -radius + i as real * delta
      invariant forall j :: 0 <= j < i ==> xs[j] == -radius + j as real * delta
    {
      xs := xs + [x];
      x := x + delta;
    }
  }

  lemma SampleSymmetry(radius: real, delta: real, size: int, j: int)
    requires size > 1 && 0 <= j < size
    requires (size - 1) as real * delta == 2.0 * radius
    ensures (-radius + j as real * delta) == -(-radius + (size - 1 - j) as real * delta)
    ensures radius >= 0.0 ==> -radius <= -radius + j as real * delta <= radius
  {
    assert (size - 1 - j) as real * delta == 2.0 * radius - j as real * delta;
    if radius >= 0.0 {
      assert delta >= 0.0;
      assert 0.0 <= j as real * delta <= (size - 1) as real * delta;
    }
  }

  // ---------------------------------------------------------------------------
  // The kernel object
  // ---------------------------------------------------------------------------

  /** Textures handed to a kernel: the pipeline's own images and the weight table. */
  datatype Texture = Image(id: nat) | BlurWeights(size: nat)

  /** The shader library: which kernel functions it has, and which fail to build a pipeline. */
  datatype Library = Library(functions: set<string>, failingPipelines: set<string>)
  {
    predicate Builds(name: string)
    {
      name in functions && name !in failingPipelines
    }
  }

  /** What apply() encodes into a compute command encoder. */
  datatype ComputeCommand =
    | SetPipelineState(program: string)
    | SetTexture(texture: Texture, index: nat)
    | SetBytes(bloomingFactor: real, index: nat)
    | DispatchThreadgroups(groups: Size3, threadsPerGroup: Size3)
    | EndEncoding

  class ComputeKernel {
    const kind: KernelKind
    const threadgroupSize: Size3
    const threadgroupCount: Size3
    var sampler: Sampler
    var preBlurTexture: Option<Texture>
    var blurWeightTexture: Option<Texture>
    /** CrtParameters.bloomingFactor, for the variants that have the record. */
    var crtParameters: Option<real>

    ghost predicate Valid()
      reads this
    {
      (crtParameters.Some? <==> HasCrtParameters(kind))
      && (blurWeightTexture.Some? ==> blurWeightTexture.value.BlurWeights?)
    }

    /** init(): the dispatch geometry; nothing else is bound yet. The sampler starts as the
        linear sampler: init() itself leaves it unset, and the failable initializer that
        every kernel is built through sets the linear default (Shaders.swift line 119)
        before any variant can use it; that default is folded in here. */
    constructor Init(kind: KernelKind)
      ensures this.kind == kind
      ensures threadgroupSize == ThreadgroupSize && threadgroupCount == ThreadgroupCount()
      ensures sampler == Linear
      ensures preBlurTexture == None && blurWeightTexture == None && crtParameters == None
    {
      this.kind := kind;
      threadgroupSize := ThreadgroupSize;
      threadgroupCount := ThreadgroupCount();
      sampler := Linear;
      preBlurTexture, blurWeightTexture, crtParameters := None, None, None;
    }

    function GetSampler(): Sampler
      reads this
    {
      sampler
    }

    method SetPreBlurTexture(texture: Texture)
      modifies this
      ensures preBlurTexture == Some(texture)
      ensures sampler == old(sampler) && blurWeightTexture == old(blurWeightTexture)
      ensures crtParameters == old(crtParameters)
    {
      preBlurTexture := Some(texture);
    }

    /** getBlurWeights(radius): build the size x 1 weight texture. */
    method GetBlurWeights(radius: real)
      requires BlurWeightCount(radius) >= 1
      modifies this
      ensures blurWeightTexture == Some(BlurWeights(BlurWeightCount(radius)))
      ensures sampler == old(sampler) && preBlurTexture == old(preBlurTexture)
      ensures crtParameters == old(crtParameters)
    {
      var xs, delta, expScale := BlurSamples(radius);
      blurWeightTexture := Some(BlurWeights(|xs|));
    }

    /** setBloomingFactor(value), declared by CrtFilter and ScanlineFilter. */
    method SetBloomingFactor(value: real)
      requires Valid() && HasCrtParameters(kind)
      modifies this
      ensures Valid()
      ensures crtParameters == Some(value)
      ensures sampler == old(sampler) && preBlurTexture == old(preBlurTexture)
      ensures blurWeightTexture == old(blurWeightTexture)
    {
      crtParameters := Some(value);
    }

    /** bloomingFactor(), declared by CrtFilter only. */
    function BloomingFactor(): real
      reads this
      requires Valid() && kind == CrtFilter
    {
      crtParameters.value
    }

    /** The configure hook: the CRT variants push their parameter record at index 0. */
    function Configure(): (cmds: seq<ComputeCommand>)
      reads this
      requires Valid()
      ensures |cmds| <= 1
      ensures cmds != [] <==> HasCrtParameters(kind)
      ensures OnlyParameters(cmds)
      ensures HasCrtParameters(kind) ==> cmds[0] == SetBytes(crtParameters.value, 0)
    {
      if HasCrtParameters(kind) then [SetBytes(crtParameters.value, 0)] else []
    }

    /**
     * apply(commandBuffer, source, target). Whether the command buffer hands
     * out an encoder is the parameter encoderAvailable; without one nothing
     * is encoded.
     */
    method Apply(encoderAvailable: bool, source: Texture, target: Texture)
      returns (cmds: seq<ComputeCommand>)
      requires Valid()
      ensures !encoderAvailable ==> cmds == []
      ensures encoderAvailable ==>
        cmds == Encoding(ProgramName(kind), source, target, blurWeightTexture, preBlurTexture,
                         Configure(), threadgroupCount, threadgroupSize)
    {
      cmds := [];
      if !encoderAvailable {
        return;
      }
      cmds := [SetPipelineState(ProgramName(kind)), SetTexture(source, 0), SetTexture(target, 1)];
      var bindings := [];
      if blurWeightTexture.Some? {
        bindings := bindings + [SetTexture(blurWeightTexture.value, 2)];
      }
      if preBlurTexture.Some? {
        bindings := bindings + [SetTexture(preBlurTexture.value, 3)];
      }
      assert bindings == OptionalTexture(blurWeightTexture, 2) + OptionalTexture(preBlurTexture, 3);
      cmds := cmds + bindings;
      cmds := cmds + (Configure() + [DispatchThreadgroups(threadgroupCount, threadgroupSize), EndEncoding]);
    }
  }

  /** The binding apply() encodes for an optional texture at `index`. */
  function OptionalTexture(t: Option<Texture>, index: nat): (cmds: seq<ComputeCommand>)
    ensures |cmds| <= 1
    ensures forall c :: c in cmds <==> t.Some? && c == SetTexture(t.value, index)
  {
    if t.Some? then [SetTexture(t.value, index)] else []
  }

  /**
   * What apply() encodes when it gets an encoder: the pipeline, the source
   * and target at indices 0 and 1, the weight texture at 2 and the pre-blur
   * texture at 3 when bound, the configure hook's commands, the dispatch,
   * and the end of encoding.
   */
  function Encoding(program: string, source: Texture, target: Texture, weights: Option<Texture>,
                    preBlur: Option<Texture>, configure: seq<ComputeCommand>, groups: Size3, size: Size3)
    : seq<ComputeCommand>
  {
    [SetPipelineState(program), SetTexture(source, 0), SetTexture(target, 1)]
      + (OptionalTexture(weights, 2) + OptionalTexture(preBlur, 3))
      + (configure + [DispatchThreadgroups(groups, size), EndEncoding])
  }

  /** The configure hooks only push parameter bytes. */
  predicate OnlyParameters(configure: seq<ComputeCommand>)
  {
    forall c :: c in configure ==> c.SetBytes?
  }

  /** The encoding starts with the pipeline and the two images and ends with one dispatch and the end. */
  lemma EncodingFrame(program: string, source: Texture, target: Texture, weights: Option<Texture>,
                      preBlur: Option<Texture>, configure: seq<ComputeCommand>, groups: Size3, size: Size3)
    ensures var e := Encoding(program, source, target, weights, preBlur, configure, groups, size);
      |e| == 5 + |OptionalTexture(weights, 2)| + |OptionalTexture(preBlur, 3)| + |configure|
      && e[..3] == [SetPipelineState(program), SetTexture(source, 0), SetTexture(target, 1)]
      && e[|e| - 2..] == [DispatchThreadgroups(groups, size), EndEncoding]
      && (configure != [] ==> e[|e| - 3] == configure[|configure| - 1])
  {
  }

  /** The only dispatch is the one just before the end of encoding. */
  lemma EncodingDispatchesOnce(program: string, source: Texture, target: Texture, weights: Option<Texture>,
                               preBlur: Option<Texture>, configure: seq<ComputeCommand>, groups: Size3, size: Size3)
    requires OnlyParameters(configure)
    ensures var e := Encoding(program, source, target, weights, preBlur, configure, groups, size);
      forall i :: 0 <= i < |e| && e[i].DispatchThreadgroups? ==> i == |e| - 2
  {
    var e := Encoding(program, source, target, weights, preBlur, configure, groups, size);
    var front := [SetPipelineState(program), SetTexture(source, 0), SetTexture(target, 1)]
      + (OptionalTexture(weights, 2) + OptionalTexture(preBlur, 3)) + configure;
    assert e == front + [DispatchThreadgroups(groups, size), EndEncoding];
    assert forall c :: c in front ==> !c.DispatchThreadgroups?;
    assert forall i :: 0 <= i < |front| ==> e[i] == front[i];
  }

  /** Past the two images, the encoding binds no texture but the weight texture at 2 and the pre-blur texture at 3. */
  lemma EncodingBindsOnlyOptionalTextures(program: string, source: Texture, target: Texture, weights: Option<Texture>,
                                          preBlur: Option<Texture>, configure: seq<ComputeCommand>, groups: Size3, size: Size3)
    requires OnlyParameters(configure)
    ensures var e := Encoding(program, source, target, weights, preBlur, configure, groups, size);
      forall i :: 3 <= i < |e| && e[i].SetTexture? ==>
        (e[i].index == 2 && Some(e[i].texture) == weights) || (e[i].index == 3 && Some(e[i].texture) == preBlur)
  {
    var e := Encoding(program, source, target, weights, preBlur, configure, groups, size);
    var mid := OptionalTexture(weights, 2) + OptionalTexture(preBlur, 3);
    var rest := configure + [DispatchThreadgroups(groups, size), EndEncoding];
    assert e[3..] == mid + rest;
    assert forall c :: c in rest ==> !c.SetTexture?;
    forall i | 3 <= i < |e| && e[i].SetTexture?
      ensures e[i] in mid
    {
      assert e[i] == e[3..][i - 3];
      assert e[i] in mid + rest;
    }
  }

  /** The weight texture is bound exactly when there is one, and so is the pre-blur texture. */
  lemma EncodingBindsOptionalTextures(program: string, source: Texture, target: Texture, weights: Option<Texture>,
                                      preBlur: Option<Texture>, configure: seq<ComputeCommand>, groups: Size3, size: Size3)
    requires OnlyParameters(configure)
    ensures var e := Encoding(program, source, target, weights, preBlur, configure, groups, size);
      ((exists i :: 3 <= i < |e| && e[i].SetTexture? && e[i].index == 2) <==> weights.Some?)
      && ((exists i :: 3 <= i < |e| && e[i].SetTexture? && e[i].index == 3) <==> preBlur.Some?)
  {
    var e := Encoding(program, source, target, weights, preBlur, configure, groups, size);
    EncodingBindsOnlyOptionalTextures(program, source, target, weights, preBlur, configure, groups, size);
    if weights.Some? {
      assert e[3] == SetTexture(weights.value, 2);
    }
    if preBlur.Some? {
      var k := 3 + |OptionalTexture(weights, 2)|;
      assert e[k] == SetTexture(preBlur.value, 3);
    }
  }

  /**
   * The failable initialisers: null when the library has no function of
   * the variant's name or the compute pipeline cannot be built; otherwise a
   * kernel with the variant's sampler, CRT record and weight table.
   */
  method MakeKernel(kind: KernelKind, library: Library) returns (k: ComputeKernel?)
    requires kind.BlurFilter? ==> BlurWeightCount(kind.radius) >= 1
    ensures k == null <==> !library.Builds(ProgramName(kind))
    ensures k != null ==> fresh(k) && k.Valid() && k.kind == kind
    ensures k != null ==> k.threadgroupSize == ThreadgroupSize && k.threadgroupCount == ThreadgroupCount()
    ensures k != null ==> k.sampler == SamplerOf(kind)
    ensures k != null ==> k.preBlurTexture == None
    ensures k != null ==> k.crtParameters == (if HasCrtParameters(kind) then Some(1.0) else None)
    ensures k != null ==>
      k.blurWeightTexture == (if BlurRadius(kind).Some? then Some(BlurWeights(BlurWeightCount(BlurRadius(kind).value))) else None)
  {
    var kernel := new ComputeKernel.Init(kind);
    var name := ProgramName(kind);
    if name !in library.functions {
      return null;
    }
    if name in library.failingPipelines {
      return null;
    }
    kernel.sampler := Linear;
    match kind {
      case BypassUpscaler => kernel.sampler := Nearest;
      case EPXUpscaler => kernel.sampler := Nearest;
      case XBRUpscaler => kernel.sampler := Nearest;
      case BypassFilter => kernel.sampler := Nearest;
      case SmoothFilter => kernel.sampler := Linear;
      case BlurFilter(_, radius) => kernel.GetBlurWeights(radius);
      case CrtFilter => kernel.crtParameters := Some(1.0);
      case ScanlineFilter =>
        kernel.crtParameters := Some(1.0);
        kernel.sampler := Linear;
        kernel.GetBlurWeights(4.0);
    }
    k := kernel;
  }

  /** A CRT filter starts with blooming factor 1.0 and reports whatever was last set. */
  method BloomingFactorRoundTrip(library: Library, value: real) returns (before: real, after: real)
    requires library.Builds("crt")
    ensures before == 1.0 && after == value
  {
    var k := MakeKernel(CrtFilter, library);
    before := k.BloomingFactor();
    k.SetBloomingFactor(value);
    after := k.BloomingFactor();
  }
}
