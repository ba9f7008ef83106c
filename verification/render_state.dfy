/** The render-state codes of the effect format (the RenderStateType enum).
    They are not Direct3D's own D3DRS values: the format numbers the states
    from 0 in declaration order, with all sixteen wrap states in one run, and
    keeps 146 and 147 for the vertex and pixel shader pseudo-states. Like the
    enum, a RenderStateType is any 32-bit integer; the named states are
    constants of it, so a code that names no state is a value all the same. */
module RenderStates {

  /** The enum's underlying type, int. */
  newtype RenderStateType = x: int | -0x8000_0000 <= x <= 0x7FFF_FFFF

  /* One constant per RS_* name, in declaration order (RS_ZENABLE is ZEnable,
     RS_WRAP0 is Wrap0, RS_CCW_STENCILFAIL is CcwStencilFail, and so on). */
  const ZEnable: RenderStateType := 0
  const FillMode: RenderStateType := 1
  const ShadeMode: RenderStateType := 2
  const ZWriteEnable: RenderStateType := 3
  const AlphaTestEnable: RenderStateType := 4
  const LastPixel: RenderStateType := 5
  const SrcBlend: RenderStateType := 6
  const DestBlend: RenderStateType := 7
  const CullMode: RenderStateType := 8
  const ZFunc: RenderStateType := 9
  const AlphaRef: RenderStateType := 10
  const AlphaFunc: RenderStateType := 11
  const DitherEnable: RenderStateType := 12
  const AlphaBlendEnable: RenderStateType := 13
  const FogEnable: RenderStateType := 14
  const SpecularEnable: RenderStateType := 15
  const FogColor: RenderStateType := 16
  const FogTableMode: RenderStateType := 17
  const FogStart: RenderStateType := 18
  const FogEnd: RenderStateType := 19
  const FogDensity: RenderStateType := 20
  const RangeFogEnable: RenderStateType := 21
  const StencilEnable: RenderStateType := 22
  const StencilFail: RenderStateType := 23
  const StencilZFail: RenderStateType := 24
  const StencilPass: RenderStateType := 25
  const StencilFunc: RenderStateType := 26
  const StencilRef: RenderStateType := 27
  const StencilMask: RenderStateType := 28
  const StencilWriteMask: RenderStateType := 29
  const TextureFactor: RenderStateType := 30
  const Wrap0: RenderStateType := 31
  const Wrap1: RenderStateType := 32
  const Wrap2: RenderStateType := 33
  const Wrap3: RenderStateType := 34
  const Wrap4: RenderStateType := 35
  const Wrap5: RenderStateType := 36
  const Wrap6: RenderStateType := 37
  const Wrap7: RenderStateType := 38
  const Wrap8: RenderStateType := 39
  const Wrap9: RenderStateType := 40
  const Wrap10: RenderStateType := 41
  const Wrap11: RenderStateType := 42
  const Wrap12: RenderStateType := 43
  const Wrap13: RenderStateType := 44
  const Wrap14: RenderStateType := 45
  const Wrap15: RenderStateType := 46
  const Clipping: RenderStateType := 47
  const Lighting: RenderStateType := 48
  const Ambient: RenderStateType := 49
  const FogVertexMode: RenderStateType := 50
  const ColorVertex: RenderStateType := 51
  const LocalViewer: RenderStateType := 52
  const NormalizeNormals: RenderStateType := 53
  const DiffuseMaterialSource: RenderStateType := 54
  const SpecularMaterialSource: RenderStateType := 55
  const AmbientMaterialSource: RenderStateType := 56
  const EmissiveMaterialSource: RenderStateType := 57
  const VertexBlend: RenderStateType := 58
  const ClipPlaneEnable: RenderStateType := 59
  const PointSize: RenderStateType := 60
  const PointSizeMin: RenderStateType := 61
  const PointSpriteEnable: RenderStateType := 62
  const PointScaleEnable: RenderStateType := 63
  const PointScaleA: RenderStateType := 64
  const PointScaleB: RenderStateType := 65
  const PointScaleC: RenderStateType := 66
  const MultisampleAntialias: RenderStateType := 67
  const MultisampleMask: RenderStateType := 68
  const PatchEdgeStyle: RenderStateType := 69
  const DebugMonitorToken: RenderStateType := 70
  const PointSizeMax: RenderStateType := 71
  const IndexedVertexBlendEnable: RenderStateType := 72
  const ColorWriteEnable: RenderStateType := 73
  const TweenFactor: RenderStateType := 74
  const BlendOp: RenderStateType := 75
  const PositionDegree: RenderStateType := 76
  const NormalDegree: RenderStateType := 77
  const ScissorTestEnable: RenderStateType := 78
  const SlopeScaleDepthBias: RenderStateType := 79
  const AntialiasedLineEnable: RenderStateType := 80
  const MinTessellationLevel: RenderStateType := 81
  const MaxTessellationLevel: RenderStateType := 82
  const AdaptiveTessX: RenderStateType := 83
  const AdaptiveTessY: RenderStateType := 84
  const AdaptiveTessZ: RenderStateType := 85
  const AdaptiveTessW: RenderStateType := 86
  const EnableAdaptiveTessellation: RenderStateType := 87
  const TwoSidedStencilMode: RenderStateType := 88
  const CcwStencilFail: RenderStateType := 89
  const CcwStencilZFail: RenderStateType := 90
  const CcwStencilPass: RenderStateType := 91
  const CcwStencilFunc: RenderStateType := 92
  const ColorWriteEnable1: RenderStateType := 93
  const ColorWriteEnable2: RenderStateType := 94
  const ColorWriteEnable3: RenderStateType := 95
  const BlendFactor: RenderStateType := 96
  const SrgbWriteEnable: RenderStateType := 97
  const DepthBias: RenderStateType := 98
  const SeparateAlphaBlendEnable: RenderStateType := 99
  const SrcBlendAlpha: RenderStateType := 100
  const DestBlendAlpha: RenderStateType := 101
  const BlendOpAlpha: RenderStateType := 102
  const VertexShader: RenderStateType := 146
  const PixelShader: RenderStateType := 147

  /* The states the enum numbers implicitly, in declaration order, written as
     runs of at most sixteen; the third run is the sixteen wrap states. */
  const DeclaredFirst: seq<RenderStateType> :=
    [ZEnable, FillMode, ShadeMode, ZWriteEnable, AlphaTestEnable, LastPixel, SrcBlend, DestBlend,
     CullMode, ZFunc, AlphaRef, AlphaFunc, DitherEnable, AlphaBlendEnable, FogEnable, SpecularEnable]
  const DeclaredSecond: seq<RenderStateType> :=
    [FogColor, FogTableMode, FogStart, FogEnd, FogDensity, RangeFogEnable, StencilEnable, StencilFail,
     StencilZFail, StencilPass, StencilFunc, StencilRef, StencilMask, StencilWriteMask, TextureFactor]
  const Wraps: seq<RenderStateType> :=
    [Wrap0, Wrap1, Wrap2, Wrap3, Wrap4, Wrap5, Wrap6, Wrap7,
     Wrap8, Wrap9, Wrap10, Wrap11, Wrap12, Wrap13, Wrap14, Wrap15]
  const DeclaredFourth: seq<RenderStateType> :=
    [Clipping, Lighting, Ambient, FogVertexMode, ColorVertex, LocalViewer, NormalizeNormals, DiffuseMaterialSource,
     SpecularMaterialSource, AmbientMaterialSource, EmissiveMaterialSource, VertexBlend, ClipPlaneEnable, PointSize, PointSizeMin, PointSpriteEnable]
  const DeclaredFifth: seq<RenderStateType> :=
    [PointScaleEnable, PointScaleA, PointScaleB, PointScaleC, MultisampleAntialias, MultisampleMask, PatchEdgeStyle, DebugMonitorToken,
     PointSizeMax, IndexedVertexBlendEnable, ColorWriteEnable, TweenFactor, BlendOp, PositionDegree, NormalDegree, ScissorTestEnable]
  const DeclaredSixth: seq<RenderStateType> :=
    [SlopeScaleDepthBias, AntialiasedLineEnable, MinTessellationLevel, MaxTessellationLevel, AdaptiveTessX, AdaptiveTessY, AdaptiveTessZ, AdaptiveTessW,
     EnableAdaptiveTessellation, TwoSidedStencilMode, CcwStencilFail, CcwStencilZFail, CcwStencilPass, CcwStencilFunc, ColorWriteEnable1, ColorWriteEnable2]
  const DeclaredLast: seq<RenderStateType> :=
    [ColorWriteEnable3, BlendFactor, SrgbWriteEnable, DepthBias, SeparateAlphaBlendEnable, SrcBlendAlpha, DestBlendAlpha, BlendOpAlpha]

  /** RS_ZENABLE to RS_BLENDOPALPHA, in declaration order. */
  const Contiguous: seq<RenderStateType> :=
    DeclaredFirst + DeclaredSecond + Wraps + DeclaredFourth + DeclaredFifth + DeclaredSixth + DeclaredLast

  /** The codes the enum gives a name. */
  predicate IsNamed(code: RenderStateType)
  {
    code in Contiguous || code == VertexShader || code == PixelShader
  }

  lemma DeclaredFirstNumbering()
    ensures |DeclaredFirst| == 16
    ensures forall k :: 0 <= k < |DeclaredFirst| ==> DeclaredFirst[k] == 0 + k as RenderStateType
  {
  }

  lemma DeclaredSecondNumbering()
    ensures |DeclaredSecond| == 15
    ensures forall k :: 0 <= k < |DeclaredSecond| ==> DeclaredSecond[k] == 16 + k as RenderStateType
  {
  }

  lemma WrapsNumbering()
    ensures |Wraps| == 16
    ensures forall k :: 0 <= k < |Wraps| ==> Wraps[k] == 31 + k as RenderStateType
  {
  }

  lemma DeclaredFourthNumbering()
    ensures |DeclaredFourth| == 16
    ensures forall k :: 0 <= k < |DeclaredFourth| ==> DeclaredFourth[k] == 47 + k as RenderStateType
  {
  }

  lemma DeclaredFifthNumbering()
    ensures |DeclaredFifth| == 16
    ensures forall k :: 0 <= k < |DeclaredFifth| ==> DeclaredFifth[k] == 63 + k as RenderStateType
  {
  }

  lemma DeclaredSixthNumbering()
    ensures |DeclaredSixth| == 16
    ensures forall k :: 0 <= k < |DeclaredSixth| ==> DeclaredSixth[k] == 79 + k as RenderStateType
  {
  }

  lemma DeclaredLastNumbering()
    ensures |DeclaredLast| == 8
    ensures forall k :: 0 <= k < |DeclaredLast| ==> DeclaredLast[k] == 95 + k as RenderStateType
  {
  }

  /** RS_ZENABLE is 0 and the codes rise by one in declaration order up to
      RS_BLENDOPALPHA, which is 102. */
  lemma ContiguousNumbering()
    ensures |Contiguous| == 103
    ensures Contiguous[0] == ZEnable == 0 && Contiguous[102] == BlendOpAlpha == 102
    ensures forall i :: 0 <= i < |Contiguous| ==> Contiguous[i] == i as RenderStateType
  {
    DeclaredFirstNumbering();
    DeclaredSecondNumbering();
    WrapsNumbering();
    DeclaredFourthNumbering();
    DeclaredFifthNumbering();
    DeclaredSixthNumbering();
    DeclaredLastNumbering();
  }

  /** The sixteen wrap states RS_WRAP0 to RS_WRAP15 are one run of codes,
      31 to 46, with no gap. */
  lemma WrapCodes()
    ensures |Wraps| == 16 && Wraps[0] == Wrap0 == 31 && Wraps[15] == Wrap15 == 46
    ensures forall k :: 0 <= k < |Wraps| ==> Wraps[k] == 31 + k as RenderStateType
    ensures forall k :: 0 <= k < |Wraps| ==> Contiguous[31 + k] == Wraps[k]
  {
    ContiguousNumbering();
    WrapsNumbering();
  }

  /** The codes that name a state are exactly 0 to 102, 146 and 147; in
      particular 103 to 145 name none. */
  lemma NamedCodes(code: RenderStateType)
    ensures IsNamed(code) <==> (0 <= code <= 102 || code == 146 || code == 147)
    ensures 103 <= code <= 145 ==> !IsNamed(code)
  {
    ContiguousNumbering();
    if 0 <= code <= 102 {
      assert Contiguous[code as int] == code;
    }
  }

  /** The two shader pseudo-states keep the codes 146 and 147, outside the
      contiguous run. */
  lemma ShaderPseudoStates()
    ensures VertexShader == 146 && PixelShader == 147
    ensures VertexShader !in Contiguous && PixelShader !in Contiguous
  {
    ContiguousNumbering();
  }
}
