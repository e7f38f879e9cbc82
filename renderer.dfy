/**
 * The parts of `src/simulation/renderer.py` (and its identical archived
 * copy) that are arithmetic rather than drawing: the web renderer's two
 * canvas conversions, a flip about a line 100 pixels above the canvas
 * bottom, and the shadow opacity of the desktop renderer.
 */
module Renderer {
  import opened Numbers

  /** Pixels between the canvas bottom and the physics ground. */
  const CANVAS_GROUND_OFFSET: int := 100

  /**
   * The web renderer: its `width` and `height` are stored but the
   * conversions read neither, only the canvas height passed in.
   */
  class WebSimulationRenderer {
    const width: int
    const height: int

    constructor (width0: int, height0: int)
      ensures width == width0 && height == height0
    {
      width := width0;
      height := height0;
    }

    /** `physics_to_canvas_y`: physics height up from the ground, canvas height down from the top. */
    static function PhysicsToCanvasY(physicsY: real, canvasHeight: int): (c: real)
      ensures c + physicsY == (canvasHeight - CANVAS_GROUND_OFFSET) as real
    {
      canvasHeight as real - CANVAS_GROUND_OFFSET as real - physicsY
    }

    /** `canvas_to_physics_y`. */
    static function CanvasToPhysicsY(canvasY: real, canvasHeight: int): (p: real)
      ensures p + canvasY == (canvasHeight - CANVAS_GROUND_OFFSET) as real
    {
      (canvasHeight - CANVAS_GROUND_OFFSET) as real - canvasY
    }
  }

  /** The two conversions undo each other, for every canvas height. */
  lemma ConversionsInverse(y: real, canvasHeight: int)
    ensures WebSimulationRenderer.CanvasToPhysicsY(WebSimulationRenderer.PhysicsToCanvasY(y, canvasHeight), canvasHeight) == y
    ensures WebSimulationRenderer.PhysicsToCanvasY(WebSimulationRenderer.CanvasToPhysicsY(y, canvasHeight), canvasHeight) == y
  {
  }

  /** The ground sits 100 pixels above the canvas bottom, and higher physics points are drawn higher up. */
  lemma GroundAndOrientation(p1: real, p2: real, canvasHeight: int)
    ensures WebSimulationRenderer.PhysicsToCanvasY(0.0, canvasHeight) == (canvasHeight - CANVAS_GROUND_OFFSET) as real
    ensures p1 < p2 <==> WebSimulationRenderer.PhysicsToCanvasY(p2, canvasHeight) < WebSimulationRenderer.PhysicsToCanvasY(p1, canvasHeight)
  {
  }

  /**
   * The shadow opacity of `draw_ball_with_shadow`: the ball's height is
   * first truncated to an integer pixel, then the opacity fades by one per
   * two pixels of distance from the ground, floored at 0.
   */
  function ShadowAlpha(ballY: real, groundY: real): (alpha: int)
  {
    MaxInt(0, 100 - Trunc(Abs(Trunc(ballY) as real - groundY) / 2.0))
  }

  /** The opacity lies in [0, 100], is 100 on the ground, and a shadow is drawn exactly within 200 pixels of it. */
  lemma ShadowAlphaRange(ballY: real, groundY: real)
    ensures 0 <= ShadowAlpha(ballY, groundY) <= 100
    ensures Trunc(ballY) as real == groundY ==> ShadowAlpha(ballY, groundY) == 100
    ensures 0 < ShadowAlpha(ballY, groundY) <==> Abs(Trunc(ballY) as real - groundY) < 200.0
  {
    var d := Abs(Trunc(ballY) as real - groundY);
    var k := Trunc(d / 2.0);
    assert 0 <= k;
    assert k < 100 <==> d < 200.0;
  }
}
