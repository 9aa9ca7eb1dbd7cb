/**
 * The test doubles the embedder tests run against: a fake Scenic session
 * whose scene graph only changes when the message loop is pumped, a fake
 * surface producer that hands out buffer collection ids, and the helper
 * that reads the compositor layers back out of a scene graph.
 */
module FakeScenic {
  import opened CompositorLayout

  /** kInvalidFakeResourceId. */
  const InvalidResourceId: nat := 0

  /**
   * The scene graph Scenic holds for the session. Once the embedder's
   * first Present is processed it is the fixed skeleton
   * root View -> "Flutter::MetricsWatcher" -> "Flutter::LayerTree",
   * with the compositor layers as the children of the layer tree node.
   */
  datatype SceneGraph =
    | EmptySceneGraph
    | RootedSceneGraph(debugName: string, layers: seq<LayerNode>)

  /** Resources one layer contributes: ShapeNode, Shape, Material, Image; or OpacityNode, EntityNode, ViewHolder. */
  function LayerResourceCount(layer: LayerNode): nat
  {
    match layer
    case ImageLayerNode(_, _, _, _, _, _, _) => 4
    case ViewLayerNode(_, _, _, _) => 3
  }

  /** Resources held by a list of layers. */
  function LayersResourceCount(layers: seq<LayerNode>): (n: nat)
    ensures n >= 3 * |layers|
    ensures n == 0 <==> layers == []
  {
    if layers == [] then 0 else LayersResourceCount(layers[..|layers| - 1]) + LayerResourceCount(layers[|layers| - 1])
  }

  /** The size of the scene graph's resource map. */
  function ResourceCount(g: SceneGraph): (n: nat)
    ensures g.EmptySceneGraph? ==> n == 0
    ensures g.RootedSceneGraph? ==> n >= 3 + 3 * |g.layers|
  {
    match g
    case EmptySceneGraph => 0
    case RootedSceneGraph(_, layers) => 3 + LayersResourceCount(layers)
  }

  /**
   * The checks of ExpectRootSceneGraph: the bare skeleton with no layers.
   * Its resource count of three follows (ThreeResourcesIffSkeleton).
   */
  predicate ExpectRootSceneGraph(g: SceneGraph, debugName: string)
  {
    g == RootedSceneGraph(debugName, [])
  }

  /** Only the bare skeleton holds exactly three resources. */
  lemma ThreeResourcesIffSkeleton(g: SceneGraph)
    requires g.RootedSceneGraph?
    ensures ResourceCount(g) == 3 <==> g.layers == []
  {
  }

  /** A Present: the session's debug name and the scene graph it establishes. */
  datatype Present = Present(debugName: string, sceneGraph: SceneGraph)

  /** Session commands the fake surfaces enqueue. */
  datatype Command =
    | CreateImage2Cmd(imageId: nat, width: int, height: int, bufferId: nat, bufferCollectionIndex: nat)
    | ReleaseResourceCmd(resourceId: nat)

  /**
   * The CreateImage2 commands of surfaces of `size` made one after another,
   * with images `imageIds` over consecutive buffer ids from `firstBufferId`.
   */
  function CreateCommands(imageIds: seq<nat>, firstBufferId: nat, size: ISize): seq<Command>
  {
    seq(|imageIds|, k requires 0 <= k < |imageIds| =>
      CreateImage2Cmd(imageIds[k], size.width, size.height, firstBufferId + k, 0))
  }

  /** The ReleaseResource commands of the images `imageIds`, last to first. */
  function ReleaseCommands(imageIds: seq<nat>): seq<Command>
  {
    seq(|imageIds|, k requires 0 <= k < |imageIds| => ReleaseResourceCmd(imageIds[|imageIds| - 1 - k]))
  }

  /** The state Scenic reaches after processing `presents` in order, starting from `g`. */
  function AfterPresents(g: SceneGraph, name: string, presents: seq<Present>): (r: (string, SceneGraph))
    ensures presents == [] ==> r == (name, g)
    ensures presents != [] ==> r == (presents[|presents| - 1].debugName, presents[|presents| - 1].sceneGraph)
    decreases |presents|
  {
    if presents == [] then (name, g)
    else AfterPresents(presents[0].sceneGraph, presents[0].debugName, presents[1..])
  }

  /**
   * FakeSession with its message loop. Presents are queued and take effect
   * only when the loop runs (RunUntilIdle); until then the scene graph the
   * test reads is the one last processed.
   */
  class FakeSession {
    var debugName: string
    var sceneGraph: SceneGraph
    var pendingPresents: seq<Present>
    var nextResourceId: nat
    var bufferCollections: set<nat>
    var commands: seq<Command>

    constructor ()
      ensures debugName == "" && sceneGraph == EmptySceneGraph && pendingPresents == []
      ensures nextResourceId == 1 && bufferCollections == {} && commands == []
    {
      debugName := "";
      sceneGraph := EmptySceneGraph;
      pendingPresents := [];
      nextResourceId := 1;
      bufferCollections := {};
      commands := [];
    }

    /** Session::Present: queued, not yet visible. */
    method SubmitPresent(p: Present)
      modifies this
      ensures pendingPresents == old(pendingPresents) + [p]
      ensures debugName == old(debugName) && sceneGraph == old(sceneGraph)
      ensures nextResourceId == old(nextResourceId) && bufferCollections == old(bufferCollections)
      ensures commands == old(commands)
    {
      pendingPresents := pendingPresents + [p];
    }

    /** TestLoop::RunUntilIdle: every queued Present is processed, in order. */
    method RunUntilIdle()
      modifies this
      ensures (debugName, sceneGraph) == AfterPresents(old(sceneGraph), old(debugName), old(pendingPresents))
      ensures pendingPresents == []
      ensures nextResourceId == old(nextResourceId) && bufferCollections == old(bufferCollections)
      ensures commands == old(commands)
    {
      var i := 0;
      while i < |pendingPresents|
        invariant 0 <= i <= |pendingPresents|
        invariant AfterPresents(sceneGraph, debugName, pendingPresents[i..])
               == AfterPresents(old(sceneGraph), old(debugName), old(pendingPresents))
        invariant pendingPresents == old(pendingPresents)
        invariant nextResourceId == old(nextResourceId) && bufferCollections == old(bufferCollections)
        invariant commands == old(commands)
      {
        assert pendingPresents[i..][1..] == pendingPresents[i + 1..];
        debugName := pendingPresents[i].debugName;
        sceneGraph := pendingPresents[i].sceneGraph;
        i := i + 1;
      }
      pendingPresents := [];
    }

    /** Session::AllocResourceId. */
    method AllocResourceId() returns (id: nat)
      modifies this
      ensures id == old(nextResourceId) && nextResourceId == id + 1
      ensures debugName == old(debugName) && sceneGraph == old(sceneGraph)
      ensures pendingPresents == old(pendingPresents)
      ensures bufferCollections == old(bufferCollections) && commands == old(commands)
    {
      id := nextResourceId;
      nextResourceId := nextResourceId + 1;
    }

    method RegisterBufferCollection(bufferId: nat)
      modifies this
      ensures bufferCollections == old(bufferCollections) + {bufferId}
      ensures debugName == old(debugName) && sceneGraph == old(sceneGraph)
      ensures pendingPresents == old(pendingPresents)
      ensures nextResourceId == old(nextResourceId) && commands == old(commands)
    {
      bufferCollections := bufferCollections + {bufferId};
    }

    method DeregisterBufferCollection(bufferId: nat)
      modifies this
      ensures bufferCollections == old(bufferCollections) - {bufferId}
      ensures debugName == old(debugName) && sceneGraph == old(sceneGraph)
      ensures pendingPresents == old(pendingPresents)
      ensures nextResourceId == old(nextResourceId) && commands == old(commands)
    {
      bufferCollections := bufferCollections - {bufferId};
    }

    method Enqueue(cmd: Command)
      modifies this
      ensures commands == old(commands) + [cmd]
      ensures debugName == old(debugName) && sceneGraph == old(sceneGraph)
      ensures pendingPresents == old(pendingPresents)
      ensures nextResourceId == old(nextResourceId) && bufferCollections == old(bufferCollections)
    {
      commands := commands + [cmd];
    }
  }

  /**
   * FakeSurfaceProducerSurface: on construction it registers its buffer
   * collection and enqueues the creation of its image; Destroy (the
   * destructor) deregisters the same id and releases the same image.
   */
  class FakeSurfaceProducerSurface {
    const session: FakeSession
    const size: ISize
    const imageId: nat
    const bufferId: nat

    constructor (session: FakeSession, size: ISize, bufferId: nat)
      requires bufferId != 0
      requires size.width > 0 && size.height > 0
      modifies session
      ensures this.session == session && this.size == size && this.bufferId == bufferId
      ensures imageId == old(session.nextResourceId) && session.nextResourceId == imageId + 1
      ensures session.bufferCollections == old(session.bufferCollections) + {bufferId}
      ensures session.commands == old(session.commands) + [CreateImage2Cmd(imageId, size.width, size.height, bufferId, 0)]
      ensures session.debugName == old(session.debugName) && session.sceneGraph == old(session.sceneGraph)
      ensures session.pendingPresents == old(session.pendingPresents)
    {
      this.session := session;
      this.size := size;
      this.bufferId := bufferId;
      var id := session.AllocResourceId();
      this.imageId := id;
      new;
      session.RegisterBufferCollection(bufferId);
      session.Enqueue(CreateImage2Cmd(id, size.width, size.height, bufferId, 0));
    }

    method Destroy()
      modifies session
      ensures session.bufferCollections == old(session.bufferCollections) - {bufferId}
      ensures session.commands == old(session.commands) + [ReleaseResourceCmd(imageId)]
      ensures session.debugName == old(session.debugName) && session.sceneGraph == old(session.sceneGraph)
      ensures session.pendingPresents == old(session.pendingPresents)
      ensures session.nextResourceId == old(session.nextResourceId)
    {
      session.DeregisterBufferCollection(bufferId);
      session.Enqueue(ReleaseResourceCmd(imageId));
    }
  }

  /** The image ids of `surfaces`, in order. */
  function ImageIdsOf(surfaces: seq<FakeSurfaceProducerSurface>): (ids: seq<nat>)
    ensures |ids| == |surfaces|
    ensures forall k :: 0 <= k < |surfaces| ==> ids[k] == surfaces[k].imageId
  {
    seq(|surfaces|, k requires 0 <= k < |surfaces| => surfaces[k].imageId)
  }

  /** The buffer collection ids of `surfaces`. */
  function BufferIdsOf(surfaces: seq<FakeSurfaceProducerSurface>): set<nat>
  {
    set k | 0 <= k < |surfaces| :: surfaces[k].bufferId
  }

  lemma BufferIdsOfAppend(surfaces: seq<FakeSurfaceProducerSurface>, surface: FakeSurfaceProducerSurface)
    ensures BufferIdsOf(surfaces + [surface]) == BufferIdsOf(surfaces) + {surface.bufferId}
  {
    var longer := surfaces + [surface];
    forall id | id in BufferIdsOf(longer)
      ensures id in BufferIdsOf(surfaces) + {surface.bufferId}
    {
      var k :| 0 <= k < |longer| && longer[k].bufferId == id;
      if k < |surfaces| {
        assert surfaces[k].bufferId == id;
      }
    }
    forall id | id in BufferIdsOf(surfaces) + {surface.bufferId}
      ensures id in BufferIdsOf(longer)
    {
      if id == surface.bufferId {
        assert longer[|surfaces|].bufferId == id;
      } else {
        var k :| 0 <= k < |surfaces| && surfaces[k].bufferId == id;
        assert longer[k] == surfaces[k];
      }
    }
  }

  /** FakeSurfaceProducer: buffer ids start at 1 and grow by one per surface. */
  class FakeSurfaceProducer {
    const session: FakeSession
    var nextBufferId: nat

    /** Ids are never 0, and every id registered so far is below the next one handed out. */
    ghost predicate Valid()
      reads this, session
    {
      && nextBufferId >= 1
      && forall id :: id in session.bufferCollections ==> 1 <= id < nextBufferId
    }

    constructor (session: FakeSession)
      requires session.bufferCollections == {}
      ensures this.session == session && nextBufferId == 1 && Valid()
    {
      this.session := session;
      nextBufferId := 1;
    }

    method ProduceSurface(size: ISize) returns (surface: FakeSurfaceProducerSurface)
      requires Valid()
      requires size.width > 0 && size.height > 0
      modifies this, session
      ensures Valid()
      ensures surface.session == session && surface.size == size
      ensures surface.bufferId == old(nextBufferId) && surface.bufferId != 0
      ensures nextBufferId == old(nextBufferId) + 1
      ensures surface.bufferId !in old(session.bufferCollections)
      ensures surface.imageId == old(session.nextResourceId) && session.nextResourceId == surface.imageId + 1
      ensures session.bufferCollections == old(session.bufferCollections) + {surface.bufferId}
      ensures session.commands == old(session.commands)
                                  + [CreateImage2Cmd(surface.imageId, size.width, size.height, surface.bufferId, 0)]
      ensures session.debugName == old(session.debugName) && session.sceneGraph == old(session.sceneGraph)
      ensures session.pendingPresents == old(session.pendingPresents)
    {
      surface := new FakeSurfaceProducerSurface(session, size, nextBufferId);
      nextBufferId := nextBufferId + 1;
    }

    /**
     * SubmitSurfaces: the fake takes the surfaces by value and drops them,
     * so the vector's destructor destroys each one, deregistering its
     * buffer collection and releasing its image. C++ leaves the order of
     * that destruction open; libc++ destroys from the back, and so does
     * this model.
     */
    method SubmitSurfaces(surfaces: seq<FakeSurfaceProducerSurface>)
      requires Valid()
      requires forall k :: 0 <= k < |surfaces| ==> surfaces[k].session == session
      modifies session
      ensures Valid()
      ensures session.bufferCollections
              == old(session.bufferCollections) - BufferIdsOf(surfaces)
      ensures session.commands == old(session.commands) + ReleaseCommands(ImageIdsOf(surfaces))
      ensures session.debugName == old(session.debugName) && session.sceneGraph == old(session.sceneGraph)
      ensures session.pendingPresents == old(session.pendingPresents)
      ensures session.nextResourceId == old(session.nextResourceId)
    {
      var n := |surfaces|;
      for i := 0 to n
        invariant Valid()
        invariant session.bufferCollections
                  == old(session.bufferCollections) - set k | n - i <= k < n :: surfaces[k].bufferId
        invariant session.commands
                  == old(session.commands)
                     + seq(i, k requires 0 <= k < i => ReleaseResourceCmd(surfaces[n - 1 - k].imageId))
        invariant session.debugName == old(session.debugName) && session.sceneGraph == old(session.sceneGraph)
        invariant session.pendingPresents == old(session.pendingPresents)
        invariant session.nextResourceId == old(session.nextResourceId)
      {
        assert (set k | n - (i + 1) <= k < n :: surfaces[k].bufferId)
               == (set k | n - i <= k < n :: surfaces[k].bufferId) + {surfaces[n - 1 - i].bufferId};
        assert seq(i + 1, k requires 0 <= k < i + 1 => ReleaseResourceCmd(surfaces[n - 1 - k].imageId))
               == seq(i, k requires 0 <= k < i => ReleaseResourceCmd(surfaces[n - 1 - k].imageId))
                  + [ReleaseResourceCmd(surfaces[n - 1 - i].imageId)];
        surfaces[n - 1 - i].Destroy();
      }
      assert (set k | 0 <= k < n :: surfaces[k].bufferId) == BufferIdsOf(surfaces);
    }
  }

  /**
   * ExtractLayersFromSceneGraph: the children of "Flutter::LayerTree",
   * each tagged with its index and with the type its index parity gives it.
   */
  method ExtractLayersFromSceneGraph(g: SceneGraph) returns (layers: seq<CompositorLayer>)
    requires g.RootedSceneGraph?
    ensures |layers| == |g.layers|
    ensures forall i :: 0 <= i < |layers| ==>
              layers[i].root == g.layers[i] && layers[i].layerIndex == i
              && (layers[i].layerType == Image <==> i % 2 == 0)
  {
    layers := [];
    for k := 0 to |g.layers|
      invariant |layers| == k
      invariant forall i :: 0 <= i < k ==>
                  layers[i].root == g.layers[i] && layers[i].layerIndex == i
                  && (layers[i].layerType == Image <==> i % 2 == 0)
    {
      var layerIndex := |layers|;
      var layerType := if layerIndex % 2 == 0 then Image else View;
      layers := layers + [CompositorLayer(g.layers[k], layerType, layerIndex)];
    }
  }

  /** Layers extracted from a frame layout meet ExpectImage-/ExpectViewCompositorLayer at every index. */
  lemma ExtractedFrameMeetsExpectations(layers: seq<CompositorLayer>, g: SceneGraph, frameSize: ISize,
                                        views: seq<EmbeddedView>, e: Elevations, o: Opacities)
    requires g.RootedSceneGraph? && IsFrameLayout(g.layers, frameSize, views, e, o)
    requires |layers| == |g.layers|
    requires forall i :: 0 <= i < |layers| ==>
               layers[i].root == g.layers[i] && layers[i].layerIndex == i
               && (layers[i].layerType == Image <==> i % 2 == 0)
    ensures |layers| == 2 * |views| + 1
    ensures forall i :: 0 <= i < |layers| && i % 2 == 0 ==> ExpectImageCompositorLayer(layers[i], frameSize, e, o)
    ensures forall i :: 0 <= i < |layers| && i % 2 == 1 ==> ExpectViewCompositorLayer(layers[i], views[i / 2], e)
  {
  }
}
