/** The slice of the OpenGL state machine that `Mesh.Draw` drives: the calls
    it issues, recorded as values, and what each call does to the context.
    Buffer creation and deletion are not part of this model. */
module Gl {

  /** One driver call. `SetSampler` stands for
      `glUniform1i(glGetUniformLocation(shader, name), unit)`. */
  datatype Call =
    | ActiveTexture(unit: nat)
    | SetSampler(shader: nat, name: string, unit: nat)
    | BindTexture2D(id: nat)
    | BindVertexArray(vao: nat)
    | DrawTriangles(count: nat)

  /** The context state those calls touch: the active texture unit, the 2D
      texture bound to each unit, the sampler uniforms of each program, the
      bound vertex array and the element count of every draw so far. */
  datatype State = State(
    active: nat,
    bound: map<nat, nat>,
    samplers: map<(nat, string), nat>,
    vertexArray: nat,
    draws: seq<nat>)

  function Apply(s: State, c: Call): State {
    match c
    case ActiveTexture(u) => s.(active := u)
    case SetSampler(p, name, u) => s.(samplers := s.samplers[(p, name) := u])
    case BindTexture2D(id) => s.(bound := s.bound[s.active := id])
    case BindVertexArray(v) => s.(vertexArray := v)
    case DrawTriangles(n) => s.(draws := s.draws + [n])
  }

  /** The state after issuing `calls` in order, starting from `s`. */
  function Exec(s: State, calls: seq<Call>): State
    decreases |calls|
  {
    if calls == [] then s else Apply(Exec(s, calls[..|calls| - 1]), calls[|calls| - 1])
  }

  /** Issuing two batches one after the other is issuing their concatenation. */
  lemma {:induction false} ExecAppend(s: State, a: seq<Call>, b: seq<Call>)
    ensures Exec(s, a + b) == Exec(Exec(s, a), b)
    decreases |b|
  {
    if b == [] {
      assert a + b == a;
    } else {
      var b' := b[..|b| - 1];
      assert (a + b)[..|a + b| - 1] == a + b';
      ExecAppend(s, a, b');
    }
  }

  /** One more call is applied to the state the earlier calls left. */
  lemma ExecSnoc(p: State, calls: seq<Call>, c: Call)
    ensures Exec(p, calls + [c]) == Apply(Exec(p, calls), c)
  {
    assert (calls + [c])[..|calls|] == calls;
  }

  /** Short batches, call by call. */
  lemma ExecThree(p: State, a: Call, b: Call, c: Call)
    ensures Exec(p, [a, b, c]) == Apply(Apply(Apply(p, a), b), c)
  {
    ExecSnoc(p, [], a);
    assert [] + [a] == [a];
    ExecSnoc(p, [a], b);
    assert [a] + [b] == [a, b];
    ExecSnoc(p, [a, b], c);
    assert [a, b] + [c] == [a, b, c];
  }

  lemma ExecFour(p: State, a: Call, b: Call, c: Call, d: Call)
    ensures Exec(p, [a, b, c, d]) == Apply(Apply(Apply(Apply(p, a), b), c), d)
  {
    ExecThree(p, a, b, c);
    ExecSnoc(p, [a, b, c], d);
    assert [a, b, c] + [d] == [a, b, c, d];
  }

  /** The driver's call log; every component that draws appends to it. */
  class Context {
    var calls: seq<Call>

    constructor ()
      ensures calls == []
    {
      calls := [];
    }
  }
}
