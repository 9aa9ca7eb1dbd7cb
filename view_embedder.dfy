/**
 * The frame protocol of the Gfx external view embedder, as the embedder
 * tests drive it: BeginFrame, GetRootCanvas, PrerollCompositeEmbeddedView,
 * PostPrerollAction, CompositeEmbeddedView, EndFrame and SubmitFrame, plus
 * the CreateView / DestroyView registry. SubmitFrame takes one surface per
 * image layer from the surface producer, lays the frame out
 * (CompositorLayout.BuildLayerTree), queues it as a Present on the session
 * (visible only when the message loop runs) and then hands the surfaces
 * back to the producer.
 */
module ViewEmbedder {
  import opened Wrappers
  import opened CompositorLayout
  import opened FakeScenic

  datatype EmbedderError = UsageError | UnknownView | DuplicateView

  datatype Outcome = Done | Failed(error: EmbedderError)

  /** A drawing canvas, named by the index of the image layer it draws into. */
  datatype CanvasResult = Canvas(layerIndex: nat) | NoCanvas(error: EmbedderError)

  datatype FrameState = Idle | Building | Prerolled | Ended

  /** The position of the first view with id `viewId` in `views`. */
  function IndexOfView(views: seq<EmbeddedView>, viewId: int): (r: Option<nat>)
    ensures r.Some? ==> r.value < |views| && views[r.value].viewId == viewId
    ensures r.Some? ==> forall k :: 0 <= k < r.value ==> views[k].viewId != viewId
    ensures r.None? <==> forall k :: 0 <= k < |views| ==> views[k].viewId != viewId
  {
    if views == [] then None
    else if views[0].viewId == viewId then Some(0)
    else match IndexOfView(views[1..], viewId)
      case None => None
      case Some(k) => Some(k + 1)
  }

  class GfxExternalViewEmbedder {
    const debugName: string
    const session: FakeSession
    const producer: FakeSurfaceProducer
    const elevations: Elevations
    const opacities: Opacities
    /** The session ids of the skeleton: the root View, "Flutter::MetricsWatcher" and "Flutter::LayerTree". */
    const rootViewId: nat
    const metricsWatcherId: nat
    const layerTreeId: nat
    var liveViews: set<int>
    var frameState: FrameState
    var frameSize: ISize
    var frameViews: seq<EmbeddedView>
    /** The ids of the images made for the last submitted frame, in layer order. */
    ghost var lastFrameImageIds: seq<nat>

    /** The producer makes its surfaces on this embedder's session. */
    ghost predicate Valid()
      reads producer, session
    {
      producer.session == session && producer.Valid()
    }

    /**
     * The constructor takes a fresh session id for each of the skeleton's
     * three resources and queues the root scene graph: the skeleton with
     * no layers.
     */
    constructor (debugName: string, session: FakeSession, producer: FakeSurfaceProducer, e: Elevations, o: Opacities)
      requires producer.session == session && producer.Valid()
      modifies session
      ensures Valid()
      ensures this.debugName == debugName && this.session == session && this.producer == producer
      ensures elevations == e && opacities == o
      ensures liveViews == {} && frameState == Idle && frameViews == []
      ensures session.pendingPresents
              == old(session.pendingPresents) + [Present(debugName, RootedSceneGraph(debugName, []))]
      ensures session.debugName == old(session.debugName) && session.sceneGraph == old(session.sceneGraph)
      ensures old(session.nextResourceId) <= rootViewId < session.nextResourceId
      ensures old(session.nextResourceId) <= metricsWatcherId < session.nextResourceId
      ensures old(session.nextResourceId) <= layerTreeId < session.nextResourceId
      ensures rootViewId != metricsWatcherId && rootViewId != layerTreeId && metricsWatcherId != layerTreeId
      ensures session.nextResourceId >= old(session.nextResourceId) + 3
      ensures session.bufferCollections == old(session.bufferCollections)
      ensures session.commands == old(session.commands)
    {
      var viewId := session.AllocResourceId();
      var watcherId := session.AllocResourceId();
      var treeId := session.AllocResourceId();
      rootViewId, metricsWatcherId, layerTreeId := viewId, watcherId, treeId;
      this.debugName := debugName;
      this.session := session;
      this.producer := producer;
      elevations := e;
      opacities := o;
      liveViews := {};
      frameState := Idle;
      frameSize := ISize(0, 0);
      frameViews := [];
      lastFrameImageIds := [];
      new;
      session.SubmitPresent(Present(debugName, RootedSceneGraph(debugName, [])));
    }

    method CreateView(viewId: int) returns (r: Outcome)
      modifies this`liveViews
      ensures viewId in old(liveViews) ==> r == Failed(DuplicateView) && liveViews == old(liveViews)
      ensures viewId !in old(liveViews) ==> r == Done && liveViews == old(liveViews) + {viewId}
    {
      if viewId in liveViews {
        r := Failed(DuplicateView);
      } else {
        liveViews := liveViews + {viewId};
        r := Done;
      }
    }

    method DestroyView(viewId: int) returns (r: Outcome)
      modifies this`liveViews
      ensures viewId !in old(liveViews) ==> r == Failed(UnknownView) && liveViews == old(liveViews)
      ensures viewId in old(liveViews) ==> r == Done && liveViews == old(liveViews) - {viewId}
    {
      if viewId !in liveViews {
        r := Failed(UnknownView);
      } else {
        liveViews := liveViews - {viewId};
        r := Done;
      }
    }

    method BeginFrame(size: ISize) returns (r: Outcome)
      modifies this`frameState, this`frameSize, this`frameViews
      ensures old(frameState) == Idle ==> r == Done && frameState == Building && frameSize == size && frameViews == []
      ensures old(frameState) != Idle ==>
                r == Failed(UsageError) && frameState == old(frameState)
                && frameSize == old(frameSize) && frameViews == old(frameViews)
    {
      if frameState != Idle {
        r := Failed(UsageError);
      } else {
        frameState := Building;
        frameSize := size;
        frameViews := [];
        r := Done;
      }
    }

    /** The canvas of the background layer, layer 0. */
    method GetRootCanvas() returns (c: CanvasResult)
      ensures frameState == Building || frameState == Prerolled ==> c == Canvas(0)
      ensures frameState != Building && frameState != Prerolled ==> c == NoCanvas(UsageError)
    {
      if frameState == Building || frameState == Prerolled {
        c := Canvas(0);
      } else {
        c := NoCanvas(UsageError);
      }
    }

    method PrerollCompositeEmbeddedView(viewId: int, sizePoints: Size) returns (r: Outcome)
      modifies this`frameViews
      ensures frameState != Building ==> r == Failed(UsageError) && frameViews == old(frameViews)
      ensures frameState == Building && viewId !in liveViews ==> r == Failed(UnknownView) && frameViews == old(frameViews)
      ensures frameState == Building && viewId in liveViews ==>
                r == Done && frameViews == old(frameViews) + [EmbeddedView(viewId, sizePoints)]
    {
      if frameState != Building {
        r := Failed(UsageError);
      } else if viewId !in liveViews {
        r := Failed(UnknownView);
      } else {
        frameViews := frameViews + [EmbeddedView(viewId, sizePoints)];
        r := Done;
      }
    }

    method PostPrerollAction() returns (r: Outcome)
      modifies this`frameState
      ensures old(frameState) == Building ==> r == Done && frameState == Prerolled
      ensures old(frameState) != Building ==> r == Failed(UsageError) && frameState == old(frameState)
    {
      if frameState == Building {
        frameState := Prerolled;
        r := Done;
      } else {
        r := Failed(UsageError);
      }
    }

    /** The canvas of the overlay image layer directly above the view's layer. */
    method CompositeEmbeddedView(viewId: int) returns (c: CanvasResult)
      ensures frameState != Prerolled ==> c == NoCanvas(UsageError)
      ensures frameState == Prerolled && IndexOfView(frameViews, viewId).None? ==> c == NoCanvas(UnknownView)
      ensures frameState == Prerolled && IndexOfView(frameViews, viewId).Some? ==>
                c == Canvas(2 * IndexOfView(frameViews, viewId).value + 2)
      ensures c.Canvas? ==> c.layerIndex % 2 == 0 && 2 <= c.layerIndex <= 2 * |frameViews|
                            && frameViews[c.layerIndex / 2 - 1].viewId == viewId
    {
      if frameState != Prerolled {
        c := NoCanvas(UsageError);
      } else {
        match IndexOfView(frameViews, viewId)
        case None =>
          c := NoCanvas(UnknownView);
        case Some(k) =>
          c := Canvas(2 * k + 2);
      }
    }

    method EndFrame() returns (r: Outcome)
      modifies this`frameState
      ensures old(frameState) == Prerolled ==> r == Done && frameState == Ended
      ensures old(frameState) != Prerolled ==> r == Failed(UsageError) && frameState == old(frameState)
    {
      if frameState == Prerolled {
        frameState := Ended;
        r := Done;
      } else {
        r := Failed(UsageError);
      }
    }

    /** Whether `p` presents this frame: the skeleton with the frame's layer layout. */
    predicate PresentsFrame(p: Present)
      reads this
    {
      && p.debugName == debugName
      && p.sceneGraph.RootedSceneGraph?
      && p.sceneGraph.debugName == debugName
      && IsFrameLayout(p.sceneGraph.layers, frameSize, frameViews, elevations, opacities)
    }

    /**
     * Submits the ended frame: one surface of the frame's size for each of
     * its image layers, the frame's layout queued on the session, and the
     * surfaces handed back to the producer, which releases them. The fake
     * producer can only make surfaces of positive size. The images' ids
     * are promised only to be fresh and increasing: the session hands out
     * ids to the embedder's own resources too.
     */
    method SubmitFrame() returns (r: Outcome)
      requires Valid()
      requires frameState == Ended ==> frameSize.width > 0 && frameSize.height > 0
      modifies this`frameState, this`lastFrameImageIds, session, producer
      ensures Valid()
      ensures old(frameState) != Ended ==>
                r == Failed(UsageError) && frameState == old(frameState) && lastFrameImageIds == old(lastFrameImageIds)
                && session.pendingPresents == old(session.pendingPresents)
                && session.nextResourceId == old(session.nextResourceId)
                && session.bufferCollections == old(session.bufferCollections)
                && session.commands == old(session.commands)
                && producer.nextBufferId == old(producer.nextBufferId)
      ensures old(frameState) == Ended ==>
                r == Done && frameState == Idle
                && |session.pendingPresents| == |old(session.pendingPresents)| + 1
                && session.pendingPresents[..|old(session.pendingPresents)|] == old(session.pendingPresents)
                && PresentsFrame(session.pendingPresents[|old(session.pendingPresents)|])
      ensures old(frameState) == Ended ==>
                producer.nextBufferId == old(producer.nextBufferId) + |frameViews| + 1
                && |lastFrameImageIds| == |frameViews| + 1
                && (forall k :: 0 <= k < |lastFrameImageIds| ==>
                      old(session.nextResourceId) <= lastFrameImageIds[k] < session.nextResourceId)
                && (forall j, k :: 0 <= j < k < |lastFrameImageIds| ==> lastFrameImageIds[j] < lastFrameImageIds[k])
                && session.bufferCollections == old(session.bufferCollections)
                && session.commands
                   == old(session.commands)
                      + CreateCommands(lastFrameImageIds, old(producer.nextBufferId), frameSize)
                      + ReleaseCommands(lastFrameImageIds)
      ensures session.debugName == old(session.debugName) && session.sceneGraph == old(session.sceneGraph)
    {
      if frameState != Ended {
        r := Failed(UsageError);
        return;
      }
      var n := |frameViews| + 1;
      ghost var firstBufferId := producer.nextBufferId;
      ghost var registered := session.bufferCollections;
      ghost var commands := session.commands;
      var surfaces := ProduceLayerSurfaces(producer, frameSize, n);
      var children := BuildLayerTree(frameSize, frameViews, elevations, opacities);
      session.SubmitPresent(Present(debugName, RootedSceneGraph(debugName, children)));
      ghost var created := BufferIdsOf(surfaces);
      assert forall id :: id in created ==> id >= firstBufferId;
      assert forall id :: id in registered ==> id < firstBufferId;
      assert (registered + created) - created == registered;
      producer.SubmitSurfaces(surfaces);
      lastFrameImageIds := ImageIdsOf(surfaces);
      frameState := Idle;
      r := Done;
    }
  }

  /**
   * The surfaces of a frame's `n` image layers, in layer order: each has the
   * frame's size, a fresh buffer collection id and a fresh image id.
   */
  method ProduceLayerSurfaces(producer: FakeSurfaceProducer, size: ISize, n: nat)
    returns (surfaces: seq<FakeSurfaceProducerSurface>)
    requires producer.Valid()
    requires size.width > 0 && size.height > 0
    modifies producer, producer.session
    ensures producer.Valid()
    ensures |surfaces| == n
    ensures forall k :: 0 <= k < n ==>
              surfaces[k].session == producer.session && surfaces[k].size == size
              && surfaces[k].bufferId == old(producer.nextBufferId) + k
              && surfaces[k].imageId == old(producer.session.nextResourceId) + k
    ensures producer.nextBufferId == old(producer.nextBufferId) + n
    ensures producer.session.nextResourceId == old(producer.session.nextResourceId) + n
    ensures producer.session.bufferCollections
            == old(producer.session.bufferCollections) + BufferIdsOf(surfaces)
    ensures producer.session.commands
            == old(producer.session.commands) + CreateCommands(ImageIdsOf(surfaces), old(producer.nextBufferId), size)
    ensures producer.session.debugName == old(producer.session.debugName)
    ensures producer.session.sceneGraph == old(producer.session.sceneGraph)
    ensures producer.session.pendingPresents == old(producer.session.pendingPresents)
  {
    var session := producer.session;
    surfaces := [];
    for i := 0 to n
      invariant producer.Valid()
      invariant |surfaces| == i
      invariant forall k :: 0 <= k < i ==>
                  surfaces[k].session == session && surfaces[k].size == size
                  && surfaces[k].bufferId == old(producer.nextBufferId) + k
                  && surfaces[k].imageId == old(session.nextResourceId) + k
      invariant producer.nextBufferId == old(producer.nextBufferId) + i
      invariant session.nextResourceId == old(session.nextResourceId) + i
      invariant session.bufferCollections
                == old(session.bufferCollections) + BufferIdsOf(surfaces)
      invariant session.commands
                == old(session.commands) + CreateCommands(ImageIdsOf(surfaces), old(producer.nextBufferId), size)
      invariant session.debugName == old(session.debugName) && session.sceneGraph == old(session.sceneGraph)
      invariant session.pendingPresents == old(session.pendingPresents)
    {
      var surface := producer.ProduceSurface(size);
      assert CreateCommands(ImageIdsOf(surfaces + [surface]), old(producer.nextBufferId), size)
             == CreateCommands(ImageIdsOf(surfaces), old(producer.nextBufferId), size)
                + [CreateImage2Cmd(surface.imageId, size.width, size.height, surface.bufferId, 0)];
      BufferIdsOfAppend(surfaces, surface);
      surfaces := surfaces + [surface];
    }
  }

  // ---------------------------------------------------------------------
  // The frames the tests draw, and the tests themselves
  // ---------------------------------------------------------------------

  /** DrawSimpleFrame: a frame with no embedded views, queued but not yet visible. */
  method DrawSimpleFrame(embedder: GfxExternalViewEmbedder, frameSize: ISize)
    requires embedder.Valid() && embedder.frameState == Idle
    requires frameSize.width > 0 && frameSize.height > 0
    modifies embedder, embedder.session, embedder.producer
    ensures embedder.Valid()
    ensures embedder.session.bufferCollections == old(embedder.session.bufferCollections)
    ensures embedder.frameState == Idle && embedder.liveViews == old(embedder.liveViews)
    ensures embedder.frameSize == frameSize && embedder.frameViews == []
    ensures |embedder.session.pendingPresents| == |old(embedder.session.pendingPresents)| + 1
    ensures embedder.session.pendingPresents[..|old(embedder.session.pendingPresents)|]
            == old(embedder.session.pendingPresents)
    ensures embedder.PresentsFrame(embedder.session.pendingPresents[|old(embedder.session.pendingPresents)|])
    ensures embedder.session.debugName == old(embedder.session.debugName)
    ensures embedder.session.sceneGraph == old(embedder.session.sceneGraph)
  {
    var r := embedder.BeginFrame(frameSize);
    var rootCanvas := embedder.GetRootCanvas();
    r := embedder.PostPrerollAction();
    r := embedder.EndFrame();
    r := embedder.SubmitFrame();
  }

  /** DrawFrameWithView: a frame embedding one view, queued but not yet visible. */
  method DrawFrameWithView(embedder: GfxExternalViewEmbedder, frameSize: ISize, viewId: int, sizePoints: Size)
    requires embedder.Valid() && embedder.frameState == Idle && viewId in embedder.liveViews
    requires frameSize.width > 0 && frameSize.height > 0
    modifies embedder, embedder.session, embedder.producer
    ensures embedder.Valid()
    ensures embedder.session.bufferCollections == old(embedder.session.bufferCollections)
    ensures embedder.frameState == Idle && embedder.liveViews == old(embedder.liveViews)
    ensures embedder.frameSize == frameSize && embedder.frameViews == [EmbeddedView(viewId, sizePoints)]
    ensures |embedder.session.pendingPresents| == |old(embedder.session.pendingPresents)| + 1
    ensures embedder.session.pendingPresents[..|old(embedder.session.pendingPresents)|]
            == old(embedder.session.pendingPresents)
    ensures embedder.PresentsFrame(embedder.session.pendingPresents[|old(embedder.session.pendingPresents)|])
    ensures embedder.session.debugName == old(embedder.session.debugName)
    ensures embedder.session.sceneGraph == old(embedder.session.sceneGraph)
  {
    var r := embedder.BeginFrame(frameSize);
    var rootCanvas := embedder.GetRootCanvas();
    r := embedder.PrerollCompositeEmbeddedView(viewId, sizePoints);
    r := embedder.PostPrerollAction();
    var overlayCanvas := embedder.CompositeEmbeddedView(viewId);
    assert overlayCanvas == Canvas(2);
    r := embedder.EndFrame();
    r := embedder.SubmitFrame();
  }

  /**
   * Test RootScene: the scene graph is empty until the loop runs, then it
   * is the skeleton; the OnFramePresented round leaves it unchanged.
   */
  method RootScene(e: Elevations, o: Opacities)
    returns (before: SceneGraph, nameBefore: string, after: SceneGraph, nameAfter: string)
    ensures before == EmptySceneGraph && nameBefore == ""
    ensures ExpectRootSceneGraph(after, "RootScene") && nameAfter == "RootScene"
  {
    var session := new FakeSession();
    var producer := new FakeSurfaceProducer(session);
    var embedder := new GfxExternalViewEmbedder("RootScene", session, producer, e, o);
    before, nameBefore := session.sceneGraph, session.debugName;
    session.RunUntilIdle();
    assert session.debugName == "RootScene";
    assert ExpectRootSceneGraph(session.sceneGraph, "RootScene");
    session.RunUntilIdle();
    after, nameAfter := session.sceneGraph, session.debugName;
  }

  /** Test SimpleScene: one 512x512 frame without views yields one image layer, after the loop runs. */
  method SimpleScene(e: Elevations, o: Opacities) returns (stagedScene: SceneGraph, layers: seq<CompositorLayer>)
    ensures ExpectRootSceneGraph(stagedScene, "SimpleScene")
    ensures |layers| == 1
    ensures ExpectImageCompositorLayer(layers[0], ISize(512, 512), e, o)
  {
    var session := new FakeSession();
    var producer := new FakeSurfaceProducer(session);
    var embedder := new GfxExternalViewEmbedder("SimpleScene", session, producer, e, o);
    session.RunUntilIdle();
    session.RunUntilIdle();
    assert ExpectRootSceneGraph(session.sceneGraph, "SimpleScene");

    var frameSize := ISize(512, 512);
    DrawSimpleFrame(embedder, frameSize);
    stagedScene := session.sceneGraph;

    session.RunUntilIdle();
    layers := ExtractLayersFromSceneGraph(session.sceneGraph);
    ExtractedFrameMeetsExpectations(layers, session.sceneGraph, frameSize, [], e, o);
  }

  /**
   * Test SceneWithOneView: a 512x512 frame embedding one 256x512 view
   * yields image, view, image once the loop runs.
   */
  method SceneWithOneView(e: Elevations, o: Opacities, childViewId: int)
    returns (stagedScene: SceneGraph, layers: seq<CompositorLayer>)
    ensures ExpectRootSceneGraph(stagedScene, "SceneWithOneView")
    ensures |layers| == 3
    ensures ExpectImageCompositorLayer(layers[0], ISize(512, 512), e, o)
    ensures ExpectViewCompositorLayer(layers[1], EmbeddedView(childViewId, Size(256.0, 512.0)), e)
    ensures ExpectImageCompositorLayer(layers[2], ISize(512, 512), e, o)
  {
    var session := new FakeSession();
    var producer := new FakeSurfaceProducer(session);
    var embedder := new GfxExternalViewEmbedder("SceneWithOneView", session, producer, e, o);
    session.RunUntilIdle();
    session.RunUntilIdle();

    var childViewSize := Size(256.0, 512.0);
    var created := embedder.CreateView(childViewId);

    var frameSize := ISize(512, 512);
    DrawFrameWithView(embedder, frameSize, childViewId, childViewSize);
    stagedScene := session.sceneGraph;

    session.RunUntilIdle();
    layers := ExtractLayersFromSceneGraph(session.sceneGraph);
    ExtractedFrameMeetsExpectations(layers, session.sceneGraph, frameSize, [EmbeddedView(childViewId, childViewSize)], e, o);

    var destroyed := embedder.DestroyView(childViewId);
    session.RunUntilIdle();
  }
}
