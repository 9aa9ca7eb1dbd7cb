/**
 * Layout of the compositor layers that the Fuchsia (Gfx) external view
 * embedder places under its "Flutter::LayerTree" node.
 *
 * A frame with k embedded views is laid out as 2k+1 layers that alternate
 * image (raster) layer, view layer, image layer, ...  The z-depth of each
 * layer, the opacity of each image layer and whether it is hit-testable are
 * fixed by the layer's index and by four embedder constants, which are kept
 * abstract here (Elevations, Opacities).
 */
module CompositorLayout {

  /** SkISize: an integer size (the frame size). */
  datatype ISize = ISize(width: int, height: int)

  /** SkSize: a size in points (an embedded view's size). */
  datatype Size = Size(width: real, height: real)

  datatype Vec3 = Vec3(x: real, y: real, z: real)

  datatype Rgba = Rgba(r: real, g: real, b: real, a: real)

  /** kScenicZElevationBetweenLayers and kScenicZElevationForPlatformView. */
  datatype Elevations = Elevations(betweenLayers: real, forPlatformView: real)
  {
    predicate NonNegative() { betweenLayers >= 0.0 && forPlatformView >= 0.0 }
    predicate Positive() { betweenLayers > 0.0 && forPlatformView > 0.0 }
  }

  /** kBackgroundLayerOpacity and kOverlayLayerOpacity, on the 0..255 scale. */
  datatype Opacities = Opacities(background: int, overlay: int)

  datatype LayerType = Image | View

  /** The ViewHolder at the bottom of a view layer. */
  datatype ViewHolderNode = ViewHolderNode(
    viewId: int,
    debugName: string,
    translation: Vec3,
    hitTestable: bool,
    boundsMin: Vec3,
    boundsMax: Vec3)

  /**
   * The root resource of one compositor layer.
   * An image layer is a ShapeNode holding a rectangle shape and a material
   * whose texture is an image; a view layer is an OpacityNode over an
   * EntityNode (the transform) over the ViewHolder.
   */
  datatype LayerNode =
    | ImageLayerNode(
        name: string,
        translation: Vec3,
        hitTestable: bool,
        rect: Size,
        image: Size,
        bufferCollectionIndex: nat,
        color: Rgba)
    | ViewLayerNode(
        opacity: real,
        opacityTranslation: Vec3,
        transformTranslation: Vec3,
        holder: ViewHolderNode)

  /** FakeCompositorLayer: a layer root with the type and index the test gives it. */
  datatype CompositorLayer = CompositorLayer(root: LayerNode, layerType: LayerType, layerIndex: nat)

  /** A view prerolled into a frame: its id and EmbeddedViewParams::sizePoints(). */
  datatype EmbeddedView = EmbeddedView(viewId: int, size: Size)

  const ZeroTranslation := Vec3(0.0, 0.0, 0.0)
  const DefaultOneOpacity := 1.0
  const LayerName := "Flutter::Layer"
  const PlatformViewName := "Flutter::PlatformView"

  /** The type a layer has by its position: even indices are images, odd ones views. */
  function LayerTypeAt(index: nat): LayerType
  {
    if index % 2 == 0 then Image else View
  }

  /** flutter_layer_index: the number of image layers strictly below the layer's content. */
  function FlutterLayerIndex(index: nat): nat
  {
    (index + 1) / 2
  }

  /** The z-depth of the image layer at `index`. */
  function ImageLayerDepth(e: Elevations, index: nat): real
  {
    var fli := FlutterLayerIndex(index) as real;
    fli * e.betweenLayers + fli * e.forPlatformView
  }

  /** The z-depth of the view layer at `index`. */
  function ViewLayerDepth(e: Elevations, index: nat): real
  {
    var fli := FlutterLayerIndex(index);
    var viewsUnderLayerDepth := if fli > 0 then (fli - 1) as real * e.forPlatformView else 0.0;
    fli as real * e.betweenLayers + viewsUnderLayerDepth
  }

  /** The depth of whichever kind of layer sits at `index`. */
  function LayerDepth(e: Elevations, index: nat): real
  {
    if index % 2 == 0 then ImageLayerDepth(e, index) else ViewLayerDepth(e, index)
  }

  function ImageLayerOpacity(o: Opacities, index: nat): real
  {
    if FlutterLayerIndex(index) == 0 then o.background as real / 255.0
    else o.overlay as real / 255.0
  }

  function ImageLayerHitTestable(index: nat): bool
  {
    FlutterLayerIndex(index) == 0
  }

  /** The image layer root that ExpectImageCompositorLayer matches. */
  function ExpectedImageNode(frameSize: ISize, index: nat, e: Elevations, o: Opacities): LayerNode
  {
    var w := frameSize.width as real;
    var h := frameSize.height as real;
    ImageLayerNode(
      LayerName,
      Vec3(w / 2.0, h / 2.0, -ImageLayerDepth(e, index)),
      ImageLayerHitTestable(index),
      Size(w, h),
      Size(w, h),
      0,
      Rgba(1.0, 1.0, 1.0, ImageLayerOpacity(o, index)))
  }

  /** The ViewHolder bounding box: from (0,0,-1000) to (width, height, 0). */
  function ExpectedViewHolder(view: EmbeddedView): ViewHolderNode
  {
    ViewHolderNode(
      view.viewId,
      PlatformViewName,
      ZeroTranslation,
      true,
      Vec3(0.0, 0.0, -1000.0),
      Vec3(view.size.width, view.size.height, 0.0))
  }

  /** The view layer root that ExpectViewCompositorLayer matches. */
  function ExpectedViewNode(view: EmbeddedView, index: nat, e: Elevations): LayerNode
  {
    ViewLayerNode(
      DefaultOneOpacity,
      ZeroTranslation,
      Vec3(0.0, 0.0, -ViewLayerDepth(e, index)),
      ExpectedViewHolder(view))
  }

  /** The checks of ExpectImageCompositorLayer. */
  predicate ExpectImageCompositorLayer(layer: CompositorLayer, frameSize: ISize, e: Elevations, o: Opacities)
  {
    && layer.layerType == Image
    && layer.layerIndex % 2 == 0
    && layer.root == ExpectedImageNode(frameSize, layer.layerIndex, e, o)
  }

  /** The checks of ExpectViewCompositorLayer. */
  predicate ExpectViewCompositorLayer(layer: CompositorLayer, view: EmbeddedView, e: Elevations)
  {
    && layer.layerType == View
    && layer.layerIndex % 2 == 1
    && layer.root == ExpectedViewNode(view, layer.layerIndex, e)
  }

  /**
   * The children of "Flutter::LayerTree" for a frame of size `frameSize`
   * whose prerolled views are `views`, in order.
   */
  predicate IsFrameLayout(children: seq<LayerNode>, frameSize: ISize, views: seq<EmbeddedView>,
                          e: Elevations, o: Opacities)
  {
    && |children| == 2 * |views| + 1
    && forall i :: 0 <= i < |children| ==>
         children[i] == if i % 2 == 0 then ExpectedImageNode(frameSize, i, e, o)
                        else ExpectedViewNode(views[i / 2], i, e)
  }

  // ---------------------------------------------------------------------
  // Depth relations between neighbouring layers
  // ---------------------------------------------------------------------

  /** The background layer sits at depth 0. */
  lemma BackgroundDepthIsZero(e: Elevations)
    ensures ImageLayerDepth(e, 0) == 0.0 && LayerDepth(e, 0) == 0.0
  {
  }

  /** The view at 2j+1 is exactly kScenicZElevationBetweenLayers deeper than the image at 2j. */
  lemma ViewAboveImage(e: Elevations, j: nat)
    ensures ViewLayerDepth(e, 2 * j + 1) == ImageLayerDepth(e, 2 * j) + e.betweenLayers
  {
    assert FlutterLayerIndex(2 * j + 1) == j + 1;
    assert FlutterLayerIndex(2 * j) == j;
    var jr := j as real;
    assert (jr + 1.0) * e.betweenLayers == jr * e.betweenLayers + e.betweenLayers;
  }

  /** The image at 2j (j >= 1) is exactly kScenicZElevationForPlatformView deeper than the view at 2j-1. */
  lemma ImageAboveView(e: Elevations, j: nat)
    requires j >= 1
    ensures ImageLayerDepth(e, 2 * j) == ViewLayerDepth(e, 2 * j - 1) + e.forPlatformView
  {
    assert FlutterLayerIndex(2 * j) == j;
    assert FlutterLayerIndex(2 * j - 1) == j;
    var jr := j as real;
    assert (j - 1) as real == jr - 1.0;
    assert (jr - 1.0) * e.forPlatformView + e.forPlatformView == jr * e.forPlatformView;
  }

  /** Going one layer up adds one of the two elevation constants. */
  lemma DepthStep(e: Elevations, i: nat)
    ensures LayerDepth(e, i + 1) == LayerDepth(e, i) + (if i % 2 == 0 then e.betweenLayers else e.forPlatformView)
  {
    if i % 2 == 0 {
      ViewAboveImage(e, i / 2);
    } else {
      ImageAboveView(e, (i + 1) / 2);
    }
  }

  /** With non-negative constants, depth never decreases with the layer index. */
  lemma {:induction false} DepthNonDecreasing(e: Elevations, i: nat, k: nat)
    requires e.NonNegative() && i <= k
    ensures LayerDepth(e, i) <= LayerDepth(e, k)
    decreases k - i
  {
    if i < k {
      DepthStep(e, i);
      DepthNonDecreasing(e, i + 1, k);
    }
  }

  /** With positive constants, depth strictly increases with the layer index. */
  lemma {:induction false} DepthIncreasing(e: Elevations, i: nat, k: nat)
    requires e.Positive() && i < k
    ensures LayerDepth(e, i) < LayerDepth(e, k)
    decreases k - i
  {
    DepthStep(e, i);
    if i + 1 < k {
      DepthIncreasing(e, i + 1, k);
    }
  }

  // ---------------------------------------------------------------------
  // Roles: background versus overlay image layers, view layers
  // ---------------------------------------------------------------------

  /**
   * Among image layers, only the background (index 0) has
   * flutter_layer_index 0: it alone is hit-testable and carries the
   * background opacity; every later image layer carries the overlay opacity.
   */
  lemma ImageLayerRoles(o: Opacities, index: nat)
    requires index % 2 == 0
    ensures ImageLayerHitTestable(index) <==> index == 0
    ensures index == 0 ==> ImageLayerOpacity(o, index) == o.background as real / 255.0
    ensures index > 0 ==> ImageLayerOpacity(o, index) == o.overlay as real / 255.0
  {
  }

  /** In a frame layout, layer kinds alternate by index parity, starting and ending with an image. */
  lemma {:induction false} FrameLayoutAlternates(children: seq<LayerNode>, frameSize: ISize,
                                                 views: seq<EmbeddedView>, e: Elevations, o: Opacities)
    requires IsFrameLayout(children, frameSize, views, e, o)
    ensures |children| % 2 == 1
    ensures children[0].ImageLayerNode? && children[|children| - 1].ImageLayerNode?
    ensures forall i :: 0 <= i < |children| ==> (children[i].ImageLayerNode? <==> i % 2 == 0)
    ensures forall i :: 0 <= i < |children| && children[i].ViewLayerNode? ==>
              children[i].opacity == DefaultOneOpacity && children[i].holder.viewId == views[i / 2].viewId
  {
    assert children[0] == ExpectedImageNode(frameSize, 0, e, o);
    assert children[|children| - 1] == ExpectedImageNode(frameSize, |children| - 1, e, o);
  }

  /** A frame with no views is exactly one background image layer at depth 0. */
  lemma NoViewsOneImageLayer(children: seq<LayerNode>, frameSize: ISize, e: Elevations, o: Opacities)
    requires IsFrameLayout(children, frameSize, [], e, o)
    ensures |children| == 1
    ensures children[0].ImageLayerNode? && children[0].hitTestable
    ensures children[0].translation.z == 0.0
  {
    assert children[0] == ExpectedImageNode(frameSize, 0, e, o);
  }

  // ---------------------------------------------------------------------
  // Building the layer list
  // ---------------------------------------------------------------------

  /** The image layer root for a frame of size `frameSize` at `depth`. */
  function ImageNodeAt(frameSize: ISize, depth: real, background: bool, opacity: real): LayerNode
  {
    var w := frameSize.width as real;
    var h := frameSize.height as real;
    ImageLayerNode(LayerName, Vec3(w / 2.0, h / 2.0, -depth), background, Size(w, h), Size(w, h), 0,
                   Rgba(1.0, 1.0, 1.0, opacity))
  }

  /**
   * Lays out one frame: a background image layer, then for each prerolled
   * view a view layer and the overlay image layer drawn above it. The depth
   * is accumulated as the list grows: each view sits one
   * kScenicZElevationBetweenLayers above the content under it, and the
   * overlay above a view one kScenicZElevationForPlatformView above the view.
   */
  method BuildLayerTree(frameSize: ISize, views: seq<EmbeddedView>, e: Elevations, o: Opacities)
    returns (children: seq<LayerNode>)
    ensures IsFrameLayout(children, frameSize, views, e, o)
  {
    var depth := 0.0;
    children := [ImageNodeAt(frameSize, depth, true, o.background as real / 255.0)];
    var j := 0;
    while j < |views|
      invariant 0 <= j <= |views|
      invariant |children| == 2 * j + 1
      invariant depth == ImageLayerDepth(e, 2 * j)
      invariant forall i :: 0 <= i < |children| ==>
                  children[i] == if i % 2 == 0 then ExpectedImageNode(frameSize, i, e, o)
                                 else ExpectedViewNode(views[i / 2], i, e)
    {
      ViewAboveImage(e, j);
      ImageAboveView(e, j + 1);
      var viewDepth := depth + e.betweenLayers;
      var view := views[j];
      var viewNode := ViewLayerNode(
        DefaultOneOpacity,
        ZeroTranslation,
        Vec3(0.0, 0.0, -viewDepth),
        ViewHolderNode(view.viewId, PlatformViewName, ZeroTranslation, true,
                       Vec3(0.0, 0.0, -1000.0), Vec3(view.size.width, view.size.height, 0.0)));
      assert viewNode == ExpectedViewNode(views[(2 * j + 1) / 2], 2 * j + 1, e);
      depth := viewDepth + e.forPlatformView;
      var overlayNode := ImageNodeAt(frameSize, depth, false, o.overlay as real / 255.0);
      assert overlayNode == ExpectedImageNode(frameSize, 2 * j + 2, e, o);
      children := children + [viewNode, overlayNode];
      j := j + 1;
    }
  }
}
