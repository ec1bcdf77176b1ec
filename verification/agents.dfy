/**
 * The agents of the visualiser and the geometry emitted for them every frame
 * (Renderer.h:5-14, Renderer.cpp:99-187).
 *
 * Single-precision floats are modelled as reals, `rand() / RAND_MAX` as
 * caller-supplied draws in [0, 1], and the cosine and sine of the rotation
 * angle as inputs.
 */
module Agents {

  /** One simulated agent: position, per-frame velocity and three traits. */
  datatype Agent = Agent(x: real, y: real, dx: real, dy: real,
                         proteinLevel: real, greediness: real, speed: real)

  /** The two random draws that jitter a greedy agent in one frame. */
  datatype Jitter = Jitter(rx: real, ry: real)

  /** Zoom and the rotation angle's cosine and sine for one frame. */
  datatype View = View(zoom: real, cosAngle: real, sinAngle: real)

  // Random draws spent on one freshly spawned agent.
  const DrawsPerAgent: nat := 7

  // Vertex layout: every agent is one triangle of three interleaved
  // [x, y, 0.2, proteinLevel, greediness] vertices.
  const VerticesPerAgent: nat := 3
  const FloatsPerVertex: nat := 5
  const FloatBytes: nat := 4
  const FloatsPerAgent: nat := VerticesPerAgent * FloatsPerVertex

  // The pipeline's vertex buffer layout: stride of one vertex and byte
  // offset of the colour attribute (Renderer.cpp:39, 43).
  const VertexStride: nat := FloatsPerVertex * FloatBytes
  const ColorOffset: nat := 2 * FloatBytes

  // Toroidal bounds of the world (1280 / 720 is roughly 1.77).
  const HalfWidth: real := 1.77
  const HalfHeight: real := 1.0

  const GreedyThreshold: real := 0.8
  const JitterScale: real := 0.002
  const BaseSize: real := 0.01
  const ColorMarker: real := 0.2

  predicate IsUnit(r: real) { 0.0 <= r <= 1.0 }

  predicate AllUnit(draws: seq<real>)
  {
    forall i :: 0 <= i < |draws| ==> IsUnit(draws[i])
  }

  /** The ranges every freshly spawned agent falls in. */
  predicate SpawnRanges(a: Agent)
  {
    && -0.9 <= a.x <= 0.9 && -0.9 <= a.y <= 0.9
    && IsUnit(a.proteinLevel) && IsUnit(a.greediness)
    && 0.05 <= a.speed <= 1.05
    && -0.005 <= a.dx <= 0.005 && -0.005 <= a.dy <= 0.005
  }

  /** The agent spawned from the seven draws starting at `base`, consumed in
      the order x, y, protein, greed, speed, dx, dy. */
  function SpawnAgent(draws: seq<real>, base: nat): (a: Agent)
    requires base + DrawsPerAgent <= |draws|
    ensures (forall k :: base <= k < base + DrawsPerAgent ==> IsUnit(draws[k])) ==> SpawnRanges(a)
  {
    Agent(x := draws[base] * 1.8 - 0.9,
          y := draws[base + 1] * 1.8 - 0.9,
          dx := (draws[base + 5] - 0.5) * 0.01,
          dy := (draws[base + 6] - 0.5) * 0.01,
          proteinLevel := draws[base + 2],
          greediness := draws[base + 3],
          speed := draws[base + 4] + 0.05)
  }

  /** The population of `n` agents spawned from consecutive draws. */
  function Population(draws: seq<real>, n: nat): (agents: seq<Agent>)
    requires DrawsPerAgent * n <= |draws|
    ensures |agents| == n
    ensures AllUnit(draws) ==> forall i :: 0 <= i < n ==> SpawnRanges(agents[i])
  {
    seq(n, i requires 0 <= i < n => SpawnAgent(draws, DrawsPerAgent * i))
  }

  /** Toroidal wrap of one coordinate: a value past one edge re-enters at
      exactly the opposite edge. */
  function Wrap(v: real, bound: real): (w: real)
    requires 0.0 <= bound
    ensures -bound <= w <= bound
    ensures v > bound ==> w == -bound
    ensures v < -bound ==> w == bound
    ensures -bound <= v <= bound ==> w == v
  {
    if v > bound then -bound else if v < -bound then bound else v
  }

  /** The agent's position after one explicit Euler step. */
  function Euler(a: Agent): (real, real)
  {
    (a.x + a.dx * a.speed, a.y + a.dy * a.speed)
  }

  /** The agent's position after one Euler step and, for a greedy agent,
      the jitter; before wrapping. */
  function Drift(a: Agent, j: Jitter): (p: (real, real))
    ensures a.greediness <= GreedyThreshold ==> p == Euler(a)
    ensures p == Euler(a) <==> a.greediness <= GreedyThreshold || (j.rx == 0.5 && j.ry == 0.5)
    ensures IsUnit(j.rx) && IsUnit(j.ry) ==>
      && -0.001 <= p.0 - Euler(a).0 <= 0.001
      && -0.001 <= p.1 - Euler(a).1 <= 0.001
  {
    var e := Euler(a);
    if a.greediness > GreedyThreshold then
      (e.0 + (j.rx - 0.5) * JitterScale, e.1 + (j.ry - 0.5) * JitterScale)
    else
      e
  }

  /** One frame of movement for one agent. */
  function Step(a: Agent, j: Jitter): (b: Agent)
    ensures -HalfWidth <= b.x <= HalfWidth && -HalfHeight <= b.y <= HalfHeight
    ensures b.dx == a.dx && b.dy == a.dy && b.speed == a.speed
    ensures b.proteinLevel == a.proteinLevel && b.greediness == a.greediness
    ensures Drift(a, j).0 > HalfWidth ==> b.x == -HalfWidth
    ensures Drift(a, j).0 < -HalfWidth ==> b.x == HalfWidth
    ensures Drift(a, j).1 > HalfHeight ==> b.y == -HalfHeight
    ensures Drift(a, j).1 < -HalfHeight ==> b.y == HalfHeight
    ensures -HalfWidth <= Drift(a, j).0 <= HalfWidth ==> b.x == Drift(a, j).0
    ensures -HalfHeight <= Drift(a, j).1 <= HalfHeight ==> b.y == Drift(a, j).1
  {
    var p := Drift(a, j);
    a.(x := Wrap(p.0, HalfWidth), y := Wrap(p.1, HalfHeight))
  }

  /** One frame of movement for the whole population. */
  function StepAll(agents: seq<Agent>, jitter: seq<Jitter>): (moved: seq<Agent>)
    requires |jitter| == |agents|
    ensures |moved| == |agents|
    ensures forall i :: 0 <= i < |moved| ==>
      && -HalfWidth <= moved[i].x <= HalfWidth && -HalfHeight <= moved[i].y <= HalfHeight
      && moved[i] == agents[i].(x := moved[i].x, y := moved[i].y)
    ensures forall i :: 0 <= i < |moved| ==> moved[i] == Step(agents[i], jitter[i])
  {
    seq(|agents|, i requires 0 <= i < |agents| => Step(agents[i], jitter[i]))
  }

  /** The five floats of vertex `n` of a flat vertex sequence. */
  function VertexAt(data: seq<real>, n: nat): seq<real>
    requires FloatsPerVertex * n + FloatsPerVertex <= |data|
  {
    data[FloatsPerVertex * n .. FloatsPerVertex * n + FloatsPerVertex]
  }

  /** The fifteen floats emitted for agent `i` of a flat vertex sequence. */
  function Block(data: seq<real>, i: nat): seq<real>
    requires FloatsPerAgent * i + FloatsPerAgent <= |data|
  {
    data[FloatsPerAgent * i .. FloatsPerAgent * i + FloatsPerAgent]
  }

  /** The pipeline's vertex layout (stride 20, colour attribute at byte 8)
      agrees with the emitted layout: the colour floats of vertex `n` start
      at float 5n + 2, which is byte 20n + 8. */
  lemma VertexLayout(n: nat)
    ensures VertexStride == 20 && ColorOffset == 8
    ensures (FloatsPerVertex * n + 2) * FloatBytes == VertexStride * n + ColorOffset
  {
  }

  /** The colour slots of one vertex carry the marker and the agent's traits. */
  predicate ColoredBy(vertex: seq<real>, a: Agent)
    requires |vertex| == FloatsPerVertex
  {
    vertex[2] == ColorMarker && vertex[3] == a.proteinLevel && vertex[4] == a.greediness
  }

  /** The rotated, zoomed centre of an agent's triangle. */
  function Centre(a: Agent, v: View): (real, real)
  {
    ((a.x * v.cosAngle - a.y * v.sinAngle) * v.zoom, (a.y * v.cosAngle + a.x * v.sinAngle) * v.zoom)
  }

  /** The three corner offsets of an agent's triangle, of radius
      `BaseSize * zoom`, rotated about its centre. */
  function Offsets(v: View): seq<(real, real)>
  {
    var s := BaseSize * v.zoom;
    var c, sn := v.cosAngle, v.sinAngle;
    [((-s) * c - (-s) * sn, (-s) * c + (-s) * sn),
     (s * c - (-s) * sn, (-s) * c + s * sn),
     (0.0 * c - s * sn, s * c + 0.0 * sn)]
  }

  /** The triangle emitted for one agent: three vertices at its centre plus
      each corner offset, each followed by the marker and the two traits. */
  function AgentVertices(a: Agent, v: View): (data: seq<real>)
    ensures |data| == FloatsPerAgent
  {
    var p, o := Centre(a, v), Offsets(v);
    [p.0 + o[0].0, p.1 + o[0].1, ColorMarker, a.proteinLevel, a.greediness,
     p.0 + o[1].0, p.1 + o[1].1, ColorMarker, a.proteinLevel, a.greediness,
     p.0 + o[2].0, p.1 + o[2].1, ColorMarker, a.proteinLevel, a.greediness]
  }

  /** All three vertices of an agent's triangle carry its colour. */
  lemma AgentColors(a: Agent, v: View)
    ensures var data := AgentVertices(a, v);
      ColoredBy(VertexAt(data, 0), a) && ColoredBy(VertexAt(data, 1), a) && ColoredBy(VertexAt(data, 2), a)
  {
    var data := AgentVertices(a, v);
    assert forall k :: 0 <= k < VerticesPerAgent ==>
      && data[5 * k + 2] == ColorMarker && data[5 * k + 3] == a.proteinLevel && data[5 * k + 4] == a.greediness;
  }

  /** The flat vertex sequence for a population: agent `i` owns block `i`. */
  function Vertices(agents: seq<Agent>, v: View): (data: seq<real>)
    ensures |data| == FloatsPerAgent * |agents|
    ensures forall i {:trigger Block(data, i)} :: 0 <= i < |agents| ==> Block(data, i) == AgentVertices(agents[i], v)
  {
    if agents == [] then []
    else
      var init := agents[..|agents| - 1];
      var prev := Vertices(init, v);
      var data := prev + AgentVertices(agents[|agents| - 1], v);
      assert forall i :: 0 <= i < |init| ==> Block(data, i) == Block(prev, i);
      data
  }

  /** Appending an agent appends its triangle. */
  lemma VerticesSnoc(agents: seq<Agent>, a: Agent, v: View)
    ensures Vertices(agents + [a], v) == Vertices(agents, v) + AgentVertices(a, v)
  {
    assert (agents + [a])[..|agents|] == agents;
  }

  /** Replacing agent i and taking the first i + 1 agents extends the
      vertices of the first i by the new agent's triangle. */
  lemma VerticesUpdate(agents: seq<Agent>, i: nat, a: Agent, v: View)
    requires i < |agents|
    ensures Vertices(agents[i := a][..i + 1], v) == Vertices(agents[..i], v) + AgentVertices(a, v)
  {
    assert agents[i := a][..i + 1] == agents[..i] + [a];
    VerticesSnoc(agents[..i], a, v);
  }

  lemma SliceOfSlice(d: seq<real>, lo: nat, hi: nat, from: nat, to: nat)
    requires lo <= hi <= |d| && from <= to <= hi - lo
    ensures d[lo..hi][from..to] == d[lo + from .. lo + to]
  {
    assert forall m :: 0 <= m < to - from ==> d[lo..hi][from..to][m] == d[lo + from + m];
  }

  /** Vertex 3i + k of a flat sequence is vertex k of block i. */
  lemma VertexInBlock(data: seq<real>, i: nat, k: nat)
    requires FloatsPerAgent * i + FloatsPerAgent <= |data| && k < VerticesPerAgent
    ensures VertexAt(data, VerticesPerAgent * i + k) == VertexAt(Block(data, i), k)
  {
    var lo := 15 * i + 5 * k;
    assert VertexAt(data, 3 * i + k) == data[lo .. lo + 5];
    SliceOfSlice(data, 15 * i, 15 * i + 15, 5 * k, 5 * k + 5);
  }

  /** A block whose three vertices are coloured by `a` colours vertex
      3i + k of the whole sequence, for every k < 3. */
  lemma BlockColors(data: seq<real>, i: nat, k: nat, a: Agent)
    requires FloatsPerAgent * i + FloatsPerAgent <= |data| && k < VerticesPerAgent
    requires var block := Block(data, i);
      ColoredBy(VertexAt(block, 0), a) && ColoredBy(VertexAt(block, 1), a) && ColoredBy(VertexAt(block, 2), a)
    ensures ColoredBy(VertexAt(data, VerticesPerAgent * i + k), a)
  {
    VertexInBlock(data, i, k);
  }

  /** Every emitted vertex carries the marker 0.2, then the proteinLevel and
      greediness of the agent it belongs to: vertex 3i + k, for k < 3, is
      one of agent i's. */
  lemma VertexColors(agents: seq<Agent>, v: View, i: nat, k: nat)
    requires i < |agents| && k < VerticesPerAgent
    ensures |Vertices(agents, v)| == FloatsPerVertex * (VerticesPerAgent * |agents|)
    ensures ColoredBy(VertexAt(Vertices(agents, v), VerticesPerAgent * i + k), agents[i])
  {
    var data := Vertices(agents, v);
    assert FloatsPerAgent * i + FloatsPerAgent <= |data|;
    assert Block(data, i) == AgentVertices(agents[i], v);
    AgentColors(agents[i], v);
    BlockColors(data, i, k, agents[i]);
  }

  /** The point (px, py) turned by the view's angle. */
  function Rot(v: View, px: real, py: real): (real, real)
  {
    (px * v.cosAngle - py * v.sinAngle, py * v.cosAngle + px * v.sinAngle)
  }

  /** The centre is the agent's position turned by the view's angle and
      zoomed; the three corner offsets are the fixed corners (-s, -s),
      (s, -s) and (0, s), s = 0.01 * zoom, turned by the same angle. */
  lemma TriangleRotates(a: Agent, v: View)
    ensures Centre(a, v).0 == Rot(v, a.x, a.y).0 * v.zoom && Centre(a, v).1 == Rot(v, a.x, a.y).1 * v.zoom
    ensures var s := BaseSize * v.zoom; Offsets(v) == [Rot(v, -s, -s), Rot(v, s, -s), Rot(v, 0.0, s)]
  {
    var s := BaseSize * v.zoom;
    var o, corners := Offsets(v), [Rot(v, -s, -s), Rot(v, s, -s), Rot(v, 0.0, s)];
    assert forall k :: 0 <= k < 3 ==> corners[k].0 == o[k].0 && corners[k].1 == o[k].1;
  }

  /** With cos^2 + sin^2 = 1 the corners sit at distances sqrt(2)*s,
      sqrt(2)*s and s from the centre whatever the angle: together with
      `TriangleRotates`, the triangle turns rigidly about its own centre. */
  lemma CornersRotateRigidly(a: Agent, v: View)
    requires v.cosAngle * v.cosAngle + v.sinAngle * v.sinAngle == 1.0
    ensures var d, p, s := AgentVertices(a, v), Centre(a, v), BaseSize * v.zoom;
      && (d[0] - p.0) * (d[0] - p.0) + (d[1] - p.1) * (d[1] - p.1) == 2.0 * s * s
      && (d[5] - p.0) * (d[5] - p.0) + (d[6] - p.1) * (d[6] - p.1) == 2.0 * s * s
      && (d[10] - p.0) * (d[10] - p.0) + (d[11] - p.1) * (d[11] - p.1) == s * s
  {
  }

  /** With no rotation and unit zoom the triangle is the agent's position
      plus the fixed offsets (-0.01, -0.01), (0.01, -0.01) and (0, 0.01). */
  lemma IdentityView(a: Agent)
    ensures var d := AgentVertices(a, View(1.0, 1.0, 0.0));
      && d[0] == a.x - 0.01 && d[1] == a.y - 0.01
      && d[5] == a.x + 0.01 && d[6] == a.y - 0.01
      && d[10] == a.x && d[11] == a.y + 0.01
  {
  }
}
