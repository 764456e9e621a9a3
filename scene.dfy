/** The X-mode branch of `Scene::render` in Minimal/main.cpp: which of the
    scene's objects one `render` call draws.  Matrices are the type
    parameter `M`; the shader uniforms and the model matrices computed from
    the hand position and `scalor` are not modelled. */
module Scenes {

  /** One draw call of `render`: the hand sphere, one of the three
      skyboxes, or a cube placed at an instance position. */
  datatype Drawn<M> = Sphere | SkyboxLeft | SkyboxRight | SkyboxPlain | Cube(position: M)

  /** The cubes of mode 0, one per instance position, in order. */
  function Cubes<M>(positions: seq<M>): (r: seq<Drawn<M>>)
    ensures |r| == |positions|
    ensures forall i :: 0 <= i < |r| ==> r[i] == Cube(positions[i])
  {
    seq(|positions|, i requires 0 <= i < |positions| => Cube(positions[i]))
  }

  /** The skybox of modes 0 and 1, chosen by the `left` flag. */
  function EyeSkybox<M>(left: bool): Drawn<M>
  {
    if left then SkyboxLeft else SkyboxRight
  }

  /** The draw calls of one `render`: the sphere always; in modes 0 and 1
      the left or right skybox by the `left` flag, followed in mode 0 by the
      cubes; in mode 2 the left skybox; in mode 3 the plain skybox; in any
      other mode nothing more. */
  function SceneDraws<M>(xMode: int, left: bool, positions: seq<M>): seq<Drawn<M>>
  {
    [Sphere] +
    (if xMode == 0 then [EyeSkybox(left)] + Cubes(positions)
     else if xMode == 1 then [EyeSkybox(left)]
     else if xMode == 2 then [SkyboxLeft]
     else if xMode == 3 then [SkyboxPlain]
     else [])
  }

  predicate IsSkybox<M>(d: Drawn<M>)
  {
    d.SkyboxLeft? || d.SkyboxRight? || d.SkyboxPlain?
  }

  // ----- properties of the selection -----

  /** The sphere is drawn first, and only first, in every mode. */
  lemma SphereAlwaysFirst<M>(xMode: int, left: bool, positions: seq<M>)
    ensures var r := SceneDraws(xMode, left, positions);
      |r| >= 1 && r[0] == Sphere && forall i :: 1 <= i < |r| ==> r[i] != Sphere
  {
  }

  /** Each of the four modes draws exactly one skybox, right after the
      sphere; any other value of the counter draws none. */
  lemma OneSkyboxPerMode<M>(xMode: int, left: bool, positions: seq<M>)
    ensures var r := SceneDraws(xMode, left, positions);
      (0 <= xMode <= 3 ==> IsSkybox(r[1]) && forall i :: 2 <= i < |r| ==> !IsSkybox(r[i]))
      && (!(0 <= xMode <= 3) ==> r == [Sphere])
  {
  }

  /** Which skybox is drawn: the eye's own in modes 0 and 1, the left one in
      mode 2 whatever the eye, the plain one in mode 3. */
  lemma SkyboxChoice<M>(xMode: int, left: bool, positions: seq<M>)
    requires 0 <= xMode <= 3
    ensures var s := SceneDraws(xMode, left, positions)[1];
      && (s == SkyboxLeft <==> xMode == 2 || (xMode <= 1 && left))
      && (s == SkyboxRight <==> xMode <= 1 && !left)
      && (s == SkyboxPlain <==> xMode == 3)
  {
  }

  /** Cubes are drawn only in mode 0, and there every instance exactly
      once, in order, after the skybox. */
  lemma CubesOnlyInModeZero<M>(xMode: int, left: bool, positions: seq<M>)
    ensures var r := SceneDraws(xMode, left, positions);
      (xMode == 0 ==> |r| == 2 + |positions| && r[2..] == Cubes(positions))
      && (xMode != 0 ==> forall i :: 0 <= i < |r| ==> !r[i].Cube?)
  {
  }

  /** The scene's two cube instances, 0.3 and 0.9 in front of the origin,
      fixed at construction. */
  class Scene<M> {
    const instancePositions: seq<M>

    constructor(near: M, far: M)
      ensures instancePositions == [near, far]
    {
      instancePositions := [near, far];
    }

    /** `render`'s draw calls, in order, including the loop over the
        `instanceCount` cube instances. */
    method Render(xMode: int, left: bool) returns (draws: seq<Drawn<M>>)
      ensures draws == SceneDraws(xMode, left, instancePositions)
    {
      draws := [Sphere];
      if xMode == 0 || xMode == 1 {
        if left {
          draws := draws + [SkyboxLeft];
        } else {
          draws := draws + [SkyboxRight];
        }
        if xMode == 0 {
          var instanceCount := |instancePositions|;
          for i := 0 to instanceCount
            invariant draws == [Sphere, EyeSkybox(left)] + Cubes(instancePositions[..i])
          {
            draws := draws + [Cube(instancePositions[i])];
            assert instancePositions[..i + 1] == instancePositions[..i] + [instancePositions[i]];
          }
          assert instancePositions[..instanceCount] == instancePositions;
        }
      } else if xMode == 2 {
        draws := draws + [SkyboxLeft];
      } else if xMode == 3 {
        draws := draws + [SkyboxPlain];
      }
    }
  }
}
