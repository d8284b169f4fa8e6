/** Format selection: the first candidate format whose features, for the
    requested tiling, include every requested feature bit; and the depth
    format search built on it. */
module Formats {
  import opened Outcomes
  import opened Vk

  /** The two feature masks of a `vk::FormatProperties` the renderer reads. */
  datatype FormatProperties = FormatProperties(linearTilingFeatures: bv32, optimalTilingFeatures: bv32)

  const NO_SUPPORTED_FORMAT := "Failed to find supported format"

  /** The candidate test: linear tiling consults the linear features,
      optimal tiling the optimal ones, and any other tiling never matches. */
  predicate Supports(props: FormatProperties, tiling: ImageTiling, features: bv32) {
    match tiling
    case Linear => HasAll(props.linearTilingFeatures, features)
    case Optimal => HasAll(props.optimalTilingFeatures, features)
    case OtherTiling(_) => false
  }

  /** `find_supported_format`: candidates are tried in order; `properties`
      stands for `getFormatProperties` on the chosen physical device. */
  function FindSupportedFormat(properties: Format -> FormatProperties, candidates: seq<Format>,
                               tiling: ImageTiling, features: bv32): (r: Result<Format>)
    ensures r.Err? ==> r.error == RuntimeError(NO_SUPPORTED_FORMAT)
  {
    if |candidates| == 0 then Err(RuntimeError(NO_SUPPORTED_FORMAT))
    else if Supports(properties(candidates[0]), tiling, features) then Ok(candidates[0])
    else FindSupportedFormat(properties, candidates[1..], tiling, features)
  }

  /** The format found is the first supported candidate, and there is none
      exactly when no candidate is supported. */
  lemma {:induction false} FirstSupported(properties: Format -> FormatProperties, candidates: seq<Format>,
                                          tiling: ImageTiling, features: bv32)
    ensures var r := FindSupportedFormat(properties, candidates, tiling, features);
            && (r.Ok? ==> (exists i :: 0 <= i < |candidates| && candidates[i] == r.value
                                     && Supports(properties(candidates[i]), tiling, features)
                                     && forall j :: 0 <= j < i ==> !Supports(properties(candidates[j]), tiling, features)))
            && (r.Err? <==> forall i :: 0 <= i < |candidates| ==> !Supports(properties(candidates[i]), tiling, features))
  {
    if |candidates| > 0 && !Supports(properties(candidates[0]), tiling, features) {
      FirstSupported(properties, candidates[1..], tiling, features);
      var r := FindSupportedFormat(properties, candidates, tiling, features);
      assert forall i :: 1 <= i < |candidates| ==> candidates[i] == candidates[1..][i - 1];
      if r.Ok? {
        var k :| 0 <= k < |candidates[1..]| && candidates[1..][k] == r.value
                 && Supports(properties(candidates[1..][k]), tiling, features)
                 && forall j :: 0 <= j < k ==> !Supports(properties(candidates[1..][j]), tiling, features);
        assert candidates[k + 1] == r.value;
      }
    }
  }

  /** The depth candidates, best first. */
  const DEPTH_CANDIDATES: seq<Format> := [D32Sfloat, D32SfloatS8Uint, D24UnormS8Uint]

  /** `find_depth_format`: the first of D32Sfloat, D32SfloatS8Uint and
      D24UnormS8Uint whose optimal-tiling features include the
      depth-stencil-attachment bit. */
  function FindDepthFormat(properties: Format -> FormatProperties): (r: Result<Format>)
    ensures r.Err? ==> r.error == RuntimeError(NO_SUPPORTED_FORMAT)
  {
    FindSupportedFormat(properties, DEPTH_CANDIDATES, Optimal, DEPTH_STENCIL_ATTACHMENT_BIT)
  }

  /** The depth format found is supported, and it is the best supported
      candidate: D32Sfloat whenever that one is, D32SfloatS8Uint exactly when
      only the later two are, D24UnormS8Uint exactly when only the last is. */
  lemma DepthFormatChoice(properties: Format -> FormatProperties)
    ensures var r := FindDepthFormat(properties);
            && (r.Ok? ==> HasAll(properties(r.value).optimalTilingFeatures, DEPTH_STENCIL_ATTACHMENT_BIT))
            && (HasAll(properties(D32Sfloat).optimalTilingFeatures, DEPTH_STENCIL_ATTACHMENT_BIT) ==> r == Ok(D32Sfloat))
            && (r == Ok(D32SfloatS8Uint) <==>
                !HasAll(properties(D32Sfloat).optimalTilingFeatures, DEPTH_STENCIL_ATTACHMENT_BIT)
                && HasAll(properties(D32SfloatS8Uint).optimalTilingFeatures, DEPTH_STENCIL_ATTACHMENT_BIT))
            && (r == Ok(D24UnormS8Uint) <==>
                !HasAll(properties(D32Sfloat).optimalTilingFeatures, DEPTH_STENCIL_ATTACHMENT_BIT)
                && !HasAll(properties(D32SfloatS8Uint).optimalTilingFeatures, DEPTH_STENCIL_ATTACHMENT_BIT)
                && HasAll(properties(D24UnormS8Uint).optimalTilingFeatures, DEPTH_STENCIL_ATTACHMENT_BIT))
  {
    FirstSupported(properties, DEPTH_CANDIDATES, Optimal, DEPTH_STENCIL_ATTACHMENT_BIT);
  }
}
