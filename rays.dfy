/** The records `scan` stores and `render` fades: a ray is a pair of
    coloured vertices plus the clock reading at which it was cast. Time is a
    real number of seconds. */
module Rays {
  import opened Geometry

  /** An sf::Color; every channel is a Uint8 (0..255). */
  datatype Color = Color(r: int, g: int, b: int, a: int)

  /** sf::Color::Green, fully opaque. */
  const Green: Color := Color(0, 255, 0, 255)

  /** An sf::Vertex: a position and a colour. */
  datatype Vertex = Vertex(position: Point, color: Color)

  datatype RayPoint = RayPoint(start: Vertex, end: Vertex, creationTime: real)

  /** Storing an int into a Uint8 colour channel keeps it modulo 256. */
  function ToByte(v: int): (b: int)
    ensures 0 <= b < 256
    ensures 0 <= v < 256 ==> b == v
    ensures (b - v) % 256 == 0
  {
    v % 256
  }

  /** `255 - static_cast<int>(elapsed * 255)`: the opacity of a ray `elapsed`
      seconds old. It is positive exactly while the ray is younger than one
      second, and never above 255 once time has started. */
  function Alpha(elapsed: real): (alpha: int)
    ensures alpha > 0 <==> elapsed < 1.0
    ensures 0.0 <= elapsed ==> alpha <= 255
    ensures 0.0 <= elapsed < 1.0 ==> 1 <= alpha <= 255
    ensures elapsed == 0.0 ==> alpha == 255
  {
    255 - Trunc(elapsed * 255.0)
  }

  /** The opacity only falls as time passes. */
  lemma AlphaNonIncreasing(e1: real, e2: real)
    requires 0.0 <= e1 <= e2
    ensures Alpha(e2) <= Alpha(e1)
  {
    assert e1 * 255.0 <= e2 * 255.0;
  }

  /** A ray skipped at one frame is skipped at every later frame: fading
      never brings a ray back. */
  lemma SkippedStaysSkipped(ray: RayPoint, now1: real, now2: real)
    requires now1 <= now2
    requires Alpha(now1 - ray.creationTime) <= 0
    ensures Alpha(now2 - ray.creationTime) <= 0
  {
  }

  /** One ray after a frame of `render` at time `now`: a ray whose alpha is
      not positive is skipped and left as it was; otherwise the alpha of both
      vertices is overwritten. */
  function Faded(ray: RayPoint, now: real): (faded: RayPoint)
    ensures faded.start.position == ray.start.position && faded.end.position == ray.end.position
    ensures faded.creationTime == ray.creationTime
    ensures now - ray.creationTime >= 1.0 ==> faded == ray
    ensures 0.0 <= now - ray.creationTime < 1.0 ==>
              faded.start.color == ray.start.color.(a := Alpha(now - ray.creationTime)) &&
              faded.end.color == ray.end.color.(a := Alpha(now - ray.creationTime))
  {
    var alpha := Alpha(now - ray.creationTime);
    if alpha <= 0 then ray
    else ray.(start := ray.start.(color := ray.start.color.(a := ToByte(alpha))),
              end := ray.end.(color := ray.end.color.(a := ToByte(alpha))))
  }
}
