/** The per-eye loop of `RiftApp::draw` in Minimal/main.cpp: the choice of
    the pose each eye is rendered from (the B mode, which can freeze the
    position, the orientation or both at their last values), and the A-mode
    dispatch that decides which eye draws, with which projection and pose.
    Positions, orientations and projection matrices are the type parameters
    `V`, `Q` and `P`. */
module Eyes {

  datatype Pose<V, Q> = Pose(position: V, orientation: Q)

  /** `ovrEye_Left` and `ovrEye_Right`, with their array indices 0 and 1. */
  datatype Eye = Left | Right

  function Index(e: Eye): nat
  {
    if e == Left then 0 else 1
  }

  function Other(e: Eye): Eye
  {
    if e == Left then Right else Left
  }

  /** The pose an eye is rendered from, given its last rendered pose and
      the pose `tracked` reported by the tracker.  Mode 0 takes the tracked
      pose, mode 1 the tracked position with the last orientation, mode 2
      the tracked orientation with the last position, every other mode the
      last pose. */
  function Select<V, Q>(bMode: int, last: Pose<V, Q>, tracked: Pose<V, Q>): (r: Pose<V, Q>)
    ensures r.position == (if bMode == 0 || bMode == 1 then tracked else last).position
    ensures r.orientation == (if bMode == 0 || bMode == 2 then tracked else last).orientation
  {
    if bMode == 0 then tracked
    else if bMode == 1 then last.(position := tracked.position)
    else if bMode == 2 then last.(orientation := tracked.orientation)
    else last
  }

  /** `Select` for both eyes. */
  function SelectBoth<V, Q>(bMode: int, last: seq<Pose<V, Q>>, tracked: seq<Pose<V, Q>>): (r: seq<Pose<V, Q>>)
    requires |last| == 2 && |tracked| == 2
    ensures |r| == 2
    ensures forall e :: 0 <= e < 2 ==> r[e] == Select(bMode, last[e], tracked[e])
  {
    [Select(bMode, last[0], tracked[0]), Select(bMode, last[1], tracked[1])]
  }

  /** What the A-mode branch makes one eye do: nothing, or call
      `renderScene` with the projection of one eye, the pose of one eye and
      the `left` flag. */
  datatype Dispatched = Skip | Render(projection: Eye, pose: Eye, left: bool)

  /** The A-mode branch for `eye`.  Mode 0 is stereo, 1 mono (the left pose
      on both eyes), 2 the left eye only, 3 the right eye only, and every
      other mode inverted stereo. */
  function Dispatch(aMode: int, eye: Eye): Dispatched
  {
    if aMode == 0 then
      (if eye == Left then Render(Left, Left, true) else Render(Right, Right, false))
    else if aMode == 1 then Render(eye, Left, true)
    else if aMode == 2 then (if eye == Left then Render(Left, Left, true) else Skip)
    else if aMode == 3 then (if eye == Right then Render(Right, Right, false) else Skip)
    else (if eye == Left then Render(Right, Right, false) else Render(Left, Left, true))
  }

  /** A `renderScene` call: the projection, the pose and the `left` flag. */
  datatype Call<V, Q, P> = Call(projection: P, view: Pose<V, Q>, left: bool)

  /** The calls one eye makes, reading the projections and the current
      contents of `renderEye`. */
  function CallsOf<V, Q, P>(aMode: int, eye: Eye, projections: seq<P>, renderEye: seq<Pose<V, Q>>): seq<Call<V, Q, P>>
    requires |projections| == 2 && |renderEye| == 2
  {
    match Dispatch(aMode, eye)
    case Skip => []
    case Render(p, v, l) => [Call(projections[Index(p)], renderEye[Index(v)], l)]
  }

  /** The calls of one frame as the loop makes them: the left eye is
      handled first, when `renderEye` holds its new left pose and still the
      previous right pose `before[1]`; the right eye sees both new poses. */
  function FrameCalls<V, Q, P>(aMode: int, projections: seq<P>, before: seq<Pose<V, Q>>, after: seq<Pose<V, Q>>): seq<Call<V, Q, P>>
    requires |projections| == 2 && |before| == 2 && |after| == 2
  {
    CallsOf(aMode, Left, projections, [after[0], before[1]]) + CallsOf(aMode, Right, projections, after)
  }

  /** The calls of one frame with both poses selected before either eye is
      drawn. */
  function FrameCallsSelectedFirst<V, Q, P>(aMode: int, projections: seq<P>, after: seq<Pose<V, Q>>): seq<Call<V, Q, P>>
    requires |projections| == 2 && |after| == 2
  {
    CallsOf(aMode, Left, projections, after) + CallsOf(aMode, Right, projections, after)
  }

  // ----- properties of the selections -----

  /** `Select` in each mode. */
  lemma SelectModes<V, Q>(last: Pose<V, Q>, tracked: Pose<V, Q>)
    ensures Select(0, last, tracked) == tracked
    ensures Select(1, last, tracked) == Pose(tracked.position, last.orientation)
    ensures Select(2, last, tracked) == Pose(last.position, tracked.orientation)
    ensures Select(3, last, tracked) == last
  {
  }

  /** Freezing: a pose selected in any mode from tracked poses that keep the
      last position also keeps the position, and likewise the orientation;
      a pose whose tracker reading equals the last one is kept in every mode. */
  lemma SelectUnchangedPose<V, Q>(bMode: int, last: Pose<V, Q>, tracked: Pose<V, Q>)
    ensures tracked.position == last.position ==> Select(bMode, last, tracked).position == last.position
    ensures tracked.orientation == last.orientation ==> Select(bMode, last, tracked).orientation == last.orientation
    ensures tracked == last ==> Select(bMode, last, tracked) == last
  {
  }

  /** The `left` flag of every call says whose pose is rendered: it is set
      exactly when the left eye's pose is used. */
  lemma LeftFlagNamesPose(aMode: int, eye: Eye)
    ensures Dispatch(aMode, eye).Render? ==> (Dispatch(aMode, eye).left <==> Dispatch(aMode, eye).pose == Left)
  {
  }

  /** Every render uses the projection and the pose of one and the same eye,
      except in mono mode, where the right eye uses the left pose. */
  lemma ProjectionMatchesPose(aMode: int, eye: Eye)
    ensures var d := Dispatch(aMode, eye);
      d.Render? ==> (d.projection == d.pose <==> !(aMode == 1 && eye == Right))
  {
  }

  /** The eyes that draw in each mode: both in modes 0, 1 and inverted
      stereo, the left only in mode 2, the right only in mode 3. */
  lemma WhoDraws(aMode: int, eye: Eye)
    ensures Dispatch(aMode, eye).Skip? <==> (aMode == 2 && eye == Right) || (aMode == 3 && eye == Left)
  {
  }

  /** Stereo and inverted stereo: in mode 0 each eye uses its own
      projection and pose, in modes 4 and above (and negative ones) each eye
      uses the other eye's. */
  lemma StereoAndInverted(aMode: int, eye: Eye)
    ensures aMode == 0 ==> Dispatch(aMode, eye) == Render(eye, eye, eye == Left)
    ensures (aMode < 0 || aMode > 3) ==> Dispatch(aMode, eye) == Render(Other(eye), Other(eye), eye == Right)
  {
  }

  /** Mono and the single-eye modes: in mode 1 each eye draws with its own
      projection and the left pose, flagged left; mode 2 draws the left eye
      from its own projection and pose, mode 3 the right eye likewise. */
  lemma MonoAndSingleEye(eye: Eye)
    ensures Dispatch(1, eye) == Render(eye, Left, true)
    ensures Dispatch(2, Left) == Render(Left, Left, true)
    ensures Dispatch(3, Right) == Render(Right, Right, false)
  {
  }

  /** Outside inverted stereo the loop's calls are those of selecting both
      poses first: only that mode reads the right pose while drawing the
      left eye. */
  lemma FrameCallsAgree<V, Q, P>(aMode: int, projections: seq<P>, before: seq<Pose<V, Q>>, after: seq<Pose<V, Q>>)
    requires |projections| == 2 && |before| == 2 && |after| == 2
    requires 0 <= aMode <= 3 || before[1] == after[1]
    ensures FrameCalls(aMode, projections, before, after) == FrameCallsSelectedFirst(aMode, projections, after)
  {
    assert [after[0], before[1]][0] == after[0];
    if before[1] == after[1] {
      assert [after[0], before[1]] == after;
    }
  }

  /** As written, inverted stereo draws the left eye from the right eye's
      pose of the previous frame: the first call shows `before[1]`, not the
      newly selected right pose. */
  lemma InvertedLeftEyeUsesOldPose<V, Q, P>(aMode: int, projections: seq<P>, before: seq<Pose<V, Q>>, after: seq<Pose<V, Q>>)
    requires |projections| == 2 && |before| == 2 && |after| == 2
    requires aMode == 4
    ensures FrameCalls(aMode, projections, before, after)
         == [Call(projections[1], before[1], false), Call(projections[0], after[0], true)]
    ensures before[1] != after[1] ==>
      FrameCalls(aMode, projections, before, after)[0] != FrameCallsSelectedFirst(aMode, projections, after)[0]
  {
  }

  /** With both poses selected first, inverted stereo swaps the two eyes'
      projections and new poses exactly. */
  lemma SelectedFirstInvertedSwaps<V, Q, P>(aMode: int, projections: seq<P>, after: seq<Pose<V, Q>>)
    requires |projections| == 2 && |after| == 2
    requires aMode < 0 || aMode > 3
    ensures FrameCallsSelectedFirst(aMode, projections, after)
         == [Call(projections[1], after[1], false), Call(projections[0], after[0], true)]
  {
  }

  /** The per-eye state of `RiftApp` the loop reads and writes. */
  class Rift<V, Q, P> {
    const eyeProjections: seq<P>
    const renderEye: array<Pose<V, Q>>
    const lastEye: array<Pose<V, Q>>
    /** `_sceneLayer.RenderPose`, the poses handed to the compositor. */
    const renderPose: array<Pose<V, Q>>

    predicate Valid()
      reads this
    {
      && |eyeProjections| == 2
      && renderEye.Length == 2 && lastEye.Length == 2 && renderPose.Length == 2
      && renderEye != lastEye && renderEye != renderPose && lastEye != renderPose
    }

    /** `lastEye` and `renderEye` are never initialised by `RiftApp`, so
        they start as whatever poses `lastInit` and `renderInit` are.
        `renderPose` is zeroed in the source; it starts here as some poses
        (`renderInit`), which `Draw` overwrites before anything reads them. */
    constructor(projections: seq<P>, lastInit: seq<Pose<V, Q>>, renderInit: seq<Pose<V, Q>>)
      requires |projections| == 2 && |lastInit| == 2 && |renderInit| == 2
      ensures Valid()
      ensures fresh(renderEye) && fresh(lastEye) && fresh(renderPose)
      ensures renderEye[..] == renderInit && lastEye[..] == lastInit
    {
      eyeProjections := projections;
      renderEye := new Pose<V, Q>[2](i requires 0 <= i < 2 => renderInit[i]);
      lastEye := new Pose<V, Q>[2](i requires 0 <= i < 2 => lastInit[i]);
      renderPose := new Pose<V, Q>[2](i requires 0 <= i < 2 => renderInit[i]);
      new;
      assert renderEye[..] == [renderEye[0], renderEye[1]];
      assert lastEye[..] == [lastEye[0], lastEye[1]];
    }

    /** The eye loop of `draw` for one frame with tracker poses `eyePoses`:
        each eye's pose is selected by the B mode from its last pose
        and stored as the new last pose, the tracked pose goes to the
        compositor, and the A mode decides the `renderScene` calls, which
        are returned in the order made. */
    method Draw(aMode: int, bMode: int, eyePoses: seq<Pose<V, Q>>) returns (calls: seq<Call<V, Q, P>>)
      requires Valid() && |eyePoses| == 2
      modifies renderEye, lastEye, renderPose
      ensures renderEye[..] == SelectBoth(bMode, old(lastEye[..]), eyePoses)
      ensures lastEye[..] == renderEye[..]
      ensures renderPose[..] == eyePoses
      ensures calls == FrameCalls(aMode, eyeProjections, old(renderEye[..]), renderEye[..])
    {
      ghost var before := renderEye[..];
      ghost var sel := SelectBoth(bMode, lastEye[..], eyePoses);
      calls := [];
      for e := 0 to 2
        invariant forall k :: 0 <= k < e ==> renderEye[k] == sel[k] && lastEye[k] == sel[k] && renderPose[k] == eyePoses[k]
        invariant forall k :: e <= k < 2 ==> renderEye[k] == before[k] && lastEye[k] == old(lastEye[k])
        invariant e == 1 ==> calls == CallsOf(aMode, Left, eyeProjections, [sel[0], before[1]])
        invariant e == 2 ==> calls == FrameCalls(aMode, eyeProjections, before, sel)
        invariant e == 0 ==> calls == []
      {
        var eye := if e == 0 then Left else Right;
        renderEye[e] := lastEye[e];
        if bMode == 0 {
          renderEye[e] := eyePoses[e];
        } else if bMode == 1 {
          renderEye[e] := renderEye[e].(position := eyePoses[e].position);
        } else if bMode == 2 {
          renderEye[e] := renderEye[e].(orientation := eyePoses[e].orientation);
        }
        lastEye[e] := renderEye[e];
        renderPose[e] := eyePoses[e];
        assert renderEye[..] == [renderEye[0], renderEye[1]];
        match Dispatch(aMode, eye)
        case Skip =>
        case Render(p, v, l) =>
          calls := calls + [Call(eyeProjections[Index(p)], renderEye[Index(v)], l)];
      }
      assert renderEye[..] == sel;
      assert lastEye[..] == sel;
      assert renderPose[..] == eyePoses;
    }
  }
}
