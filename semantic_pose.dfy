/** The SemanticPose facade: a raw pose, the frame it is expressed in, the
    scope's default frame, and a weak pointer to the scope's
    pose-relative-to graph, together with the query that resolves the pose
    into another frame. */
module SemanticPoses {
  import opened Wrappers
  import opened PoseMath

  /** The error codes this model distinguishes. `ElementInvalid` is the one
      SemanticPose reports itself; the graph query may report any code, and
      every code other than `ElementInvalid` is carried by `Other`. */
  datatype ErrorCode = ElementInvalid | Other(name: string)

  datatype Error = Error(code: ErrorCode, message: string)

  const InvalidGraphMessage: string :=
    "SemanticPose has invalid pointer to PoseRelativeToGraph."

  /** The error returned when the graph can no longer be reached. */
  const InvalidGraphError: Error := Error(ElementInvalid, InvalidGraphMessage)

  /** Right-composing the raw pose onto the pose of the relative-to frame is
      extending the path from the target frame by one last step, the
      entity's own raw pose: if the graph query composes a path of relative
      poses, Resolve's result composes that path followed by the raw pose. */
  lemma {:induction false} ResolvedPoseExtendsChain(chain: seq<Pose>, raw: Pose)
    ensures Compose(ComposeChain(chain), raw) == ComposeChain(chain + [raw])
  {
    ComposeChainAppend(chain, [raw]);
    assert [raw][1..] == [];
    ComposeIdentity(raw);
  }

  /** The shared ownership of a scope's pose-relative-to graph, as a weak
      pointer sees it: `graph` is None once the owning scope has released
      the graph, and a weak pointer that locks it then gets nothing. */
  class GraphOwner<G> {
    var graph: Option<G>

    constructor (g: G)
      ensures graph == Some(g)
    {
      graph := Some(g);
    }
  }

  /** `G` is the type of the pose-relative-to graph, which is not part of
      this model; `resolvePose` over it is passed to Resolve. */
  class SemanticPose<G> {
    const rawPose: Pose
    const relativeTo: string
    const defaultResolveTo: string
    /** A weak pointer to the graph; null stands for an empty weak pointer. */
    const poseRelativeToGraph: GraphOwner?<G>

    constructor (pose: Pose, relativeTo: string, defaultResolveTo: string,
                 graph: GraphOwner?<G>)
      ensures RawPose() == pose
      ensures RelativeTo() == relativeTo
      ensures this.defaultResolveTo == defaultResolveTo
      ensures poseRelativeToGraph == graph
    {
      this.rawPose := pose;
      this.relativeTo := relativeTo;
      this.defaultResolveTo := defaultResolveTo;
      this.poseRelativeToGraph := graph;
    }

    /** The pose as given, not resolved against the graph. */
    function RawPose(): (p: Pose)
    {
      rawPose
    }

    /** The relative-to frame as given, possibly empty, not resolved. */
    function RelativeTo(): (name: string)
    {
      relativeTo
    }

    /** Locking the weak pointer: the graph, if it is still alive. */
    function LockGraph(): (g: Option<G>)
      reads poseRelativeToGraph
      ensures g.Some? <==> poseRelativeToGraph != null && poseRelativeToGraph.graph.Some?
      ensures g.Some? ==> g == poseRelativeToGraph.graph
    {
      if poseRelativeToGraph == null then None else poseRelativeToGraph.graph
    }

    /** Resolves this pose into frame `resolveTo` (the default frame when
        empty). `pose` is the caller's output pose before the call; the
        returned `resolved` is its value afterwards, overwritten only when no
        error was produced. `resolvePose(graph, from, to)` is the graph query:
        the pose of frame `from` in frame `to`, and its errors. */
    method Resolve(pose: Pose, resolveTo: string,
                   resolvePose: (G, string, string) -> (Pose, seq<Error>))
      returns (errors: seq<Error>, resolved: Pose)
      ensures LockGraph().None? ==> errors == [InvalidGraphError] && resolved == pose
      ensures LockGraph().Some? ==>
        var start := if RelativeTo() != "" then RelativeTo() else defaultResolveTo;
        var target := if resolveTo != "" then resolveTo else defaultResolveTo;
        errors == resolvePose(LockGraph().value, start, target).1
      ensures errors == [] ==>
        LockGraph().Some? &&
        var start := if RelativeTo() != "" then RelativeTo() else defaultResolveTo;
        var target := if resolveTo != "" then resolveTo else defaultResolveTo;
        resolved == Compose(resolvePose(LockGraph().value, start, target).0, RawPose())
      ensures errors != [] ==> resolved == pose
    {
      var graph := LockGraph();
      if graph.None? {
        errors := [InvalidGraphError];
        resolved := pose;
        return;
      }

      var from := relativeTo;
      if from == "" {
        from := defaultResolveTo;
      }

      var to := resolveTo;
      if to == "" {
        to := defaultResolveTo;
      }

      var p: Pose;
      p, errors := resolvePose(graph.value, from, to).0, resolvePose(graph.value, from, to).1;
      p := Compose(p, RawPose());

      resolved := pose;
      if errors == [] {
        resolved := p;
      }
    }
  }
}
