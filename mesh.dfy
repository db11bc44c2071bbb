/** `nsi::Mesh`: one drawable group of vertices, indices and textures, and
    the sampler-binding rule of its `draw`. */
module Meshes {
  import opened Geometry
  import opened Gl

  datatype Vertex = Vertex(position: Vec3, normal: Vec3, texCoords: Vec2, tangent: Vec3, biTangent: Vec3)

  /** `kind` is the texture's semantic type string (`type` in the source). */
  datatype Texture = Texture(id: nat, kind: string, filePath: string)

  const DiffuseKind: string := "texture_diffuse"
  const SpecularKind: string := "texture_specular"
  const NormalKind: string := "texture_normal"
  const HeightKind: string := "texture_height"

  /** The four type names that have a per-type counter in `draw`. */
  predicate IsRecognised(kind: string) {
    kind == DiffuseKind || kind == SpecularKind || kind == NormalKind || kind == HeightKind
  }

  function DigitChar(d: nat): (c: char)
    requires d < 10
    ensures '0' <= c <= '9' && c as int - '0' as int == d
  {
    ('0' as int + d) as char
  }

  /** Decimal rendering of a counter, as `std::to_string` gives it. */
  function NatToString(n: nat): (s: string)
    ensures |s| > 0
    ensures forall i :: 0 <= i < |s| ==> '0' <= s[i] <= '9'
    ensures n < 10 <==> |s| == 1
  {
    if n < 10 then [DigitChar(n)] else NatToString(n / 10) + [DigitChar(n % 10)]
  }

  /** Different counters never render to the same text. */
  lemma {:induction false} NatToStringInjective(a: nat, b: nat)
    ensures NatToString(a) == NatToString(b) ==> a == b
    decreases a
  {
    var sa, sb := NatToString(a), NatToString(b);
    if sa == sb {
      if a < 10 {
        assert sa[0] == DigitChar(a) && sb[0] == DigitChar(b);
      } else {
        var pa, pb := NatToString(a / 10), NatToString(b / 10);
        assert sa == pa + [DigitChar(a % 10)];
        assert sb == pb + [DigitChar(b % 10)];
        assert pa == sa[..|sa| - 1] && pb == sb[..|sb| - 1];
        NatToStringInjective(a / 10, b / 10);
        assert sa[|sa| - 1] == DigitChar(a % 10) && sb[|sb| - 1] == DigitChar(b % 10);
      }
    }
  }

  /** How many textures in `ts` have type `kind`. */
  function CountKind(ts: seq<Texture>, kind: string): nat
    decreases |ts|
  {
    if ts == [] then 0
    else CountKind(ts[..|ts| - 1], kind) + (if ts[|ts| - 1].kind == kind then 1 else 0)
  }

  /** Extending a prefix by one texture advances only that texture's count. */
  lemma CountKindNext(ts: seq<Texture>, i: nat, kind: string)
    requires i < |ts|
    ensures CountKind(ts[..i + 1], kind) == CountKind(ts[..i], kind) + (if ts[i].kind == kind then 1 else 0)
  {
    assert ts[..i + 1][..i] == ts[..i];
  }

  /** The uniform name texture `i` is bound under: a recognised type followed
      by the 1-based count of textures of that same type up to and including
      `i`; any other type verbatim, with no number. */
  function SamplerName(ts: seq<Texture>, i: nat): string
    requires i < |ts|
  {
    var kind := ts[i].kind;
    if IsRecognised(kind) then kind + NatToString(CountKind(ts[..i + 1], kind)) else kind
  }

  /** A recognised type is followed by at least one digit; any other type
      stands alone. */
  lemma SamplerNameShape(ts: seq<Texture>, i: nat)
    requires i < |ts|
    ensures var name, kind := SamplerName(ts, i), ts[i].kind;
      && (IsRecognised(kind) ==> |name| > |kind| && name[..|kind|] == kind && '0' <= name[|kind|] <= '9')
      && (!IsRecognised(kind) ==> name == kind)
  {
  }

  /** The first texture of a recognised type is numbered 1. */
  lemma FirstOfKindIsOne(ts: seq<Texture>, i: nat)
    requires i < |ts| && IsRecognised(ts[i].kind)
    requires forall j :: 0 <= j < i ==> ts[j].kind != ts[i].kind
    ensures SamplerName(ts, i) == ts[i].kind + "1"
  {
    CountKindNext(ts, i, ts[i].kind);
    CountKindAbsent(ts[..i], ts[i].kind);
    assert NatToString(1) == "1";
  }

  lemma {:induction false} CountKindAbsent(ts: seq<Texture>, kind: string)
    requires forall j :: 0 <= j < |ts| ==> ts[j].kind != kind
    ensures CountKind(ts, kind) == 0
    decreases |ts|
  {
    if ts != [] {
      CountKindAbsent(ts[..|ts| - 1], kind);
    }
  }

  /** The counters are independent: a texture of another type inserted
      anywhere before texture `i`, recognised or not, leaves its name as it
      was. */
  lemma OtherKindDoesNotAdvance(u: Texture, ts: seq<Texture>, j: nat, i: nat)
    requires j <= i < |ts| && u.kind != ts[i].kind
    ensures SamplerName(ts[..j] + [u] + ts[j..], i + 1) == SamplerName(ts, i)
  {
    var ins := ts[..j] + [u] + ts[j..];
    assert ins[i + 1] == ts[i];
    CountKindInsert(u, ts, j, i + 1, ts[i].kind);
  }

  /** Inserting a texture of another type at `j` does not change the count of
      `kind` in any prefix that reaches past `j`. */
  lemma CountKindInsert(u: Texture, ts: seq<Texture>, j: nat, m: nat, kind: string)
    requires j <= m <= |ts| && u.kind != kind
    ensures CountKind((ts[..j] + [u] + ts[j..])[..m + 1], kind) == CountKind(ts[..m], kind)
  {
    var ins := ts[..j] + [u] + ts[j..];
    assert ins[..m + 1] == (ts[..j] + [u]) + ts[j..m];
    assert ts[..m] == ts[..j] + ts[j..m];
    CountKindAppend(ts[..j] + [u], ts[j..m], kind);
    CountKindAppend(ts[..j], [u], kind);
    CountKindAppend(ts[..j], ts[j..m], kind);
    assert CountKind([u], kind) == 0 by {
      assert [u][..0] == [];
    }
  }

  /** Counting is additive over concatenation. */
  lemma {:induction false} CountKindAppend(a: seq<Texture>, b: seq<Texture>, kind: string)
    ensures CountKind(a + b, kind) == CountKind(a, kind) + CountKind(b, kind)
    decreases |b|
  {
    if b == [] {
      assert a + b == a;
    } else {
      var init := b[..|b| - 1];
      assert (a + b)[..|a + b| - 1] == a + init;
      assert (a + b)[|a + b| - 1] == b[|b| - 1];
      CountKindAppend(a, init, kind);
    }
  }

  /** Textures added after `i` never rename texture `i`. */
  lemma LaterTexturesKeepNames(ts: seq<Texture>, more: seq<Texture>, i: nat)
    requires i < |ts|
    ensures SamplerName(ts + more, i) == SamplerName(ts, i)
  {
    assert (ts + more)[..i + 1] == ts[..i + 1];
  }

  /** `[diffuse, diffuse, specular]` binds as `texture_diffuse1`,
      `texture_diffuse2`, `texture_specular1`. */
  lemma TwoDiffuseOneSpecular(d1: nat, d2: nat, s1: nat, f1: string, f2: string, f3: string)
    ensures var ts := [Texture(d1, DiffuseKind, f1), Texture(d2, DiffuseKind, f2), Texture(s1, SpecularKind, f3)];
      && SamplerName(ts, 0) == "texture_diffuse1"
      && SamplerName(ts, 1) == "texture_diffuse2"
      && SamplerName(ts, 2) == "texture_specular1"
  {
    var ts := [Texture(d1, DiffuseKind, f1), Texture(d2, DiffuseKind, f2), Texture(s1, SpecularKind, f3)];
    FirstOfKindIsOne(ts, 0);
    FirstOfKindIsOne(ts, 2);
    CountKindNext(ts, 1, DiffuseKind);
    CountKindNext(ts, 0, DiffuseKind);
    assert ts[..0] == [];
    assert NatToString(2) == "2";
  }

  /** The name the loop builds from its counter for texture `i`. */
  lemma SamplerNameFromCounter(ts: seq<Texture>, i: nat, number: string)
    requires i < |ts|
    requires IsRecognised(ts[i].kind) ==> number == NatToString(CountKind(ts[..i], ts[i].kind) + 1)
    requires !IsRecognised(ts[i].kind) ==> number == ""
    ensures SamplerName(ts, i) == ts[i].kind + number
  {
    CountKindNext(ts, i, ts[i].kind);
    assert ts[i].kind + "" == ts[i].kind;
  }

  /** The calls the texture loop of `draw` issues for textures `0 .. n-1`. */
  function BindCalls(ts: seq<Texture>, shader: nat, n: nat): seq<Call>
    requires n <= |ts|
  {
    if n == 0 then []
    else BindCalls(ts, shader, n - 1)
         + [ActiveTexture(n - 1), SetSampler(shader, SamplerName(ts, n - 1), n - 1), BindTexture2D(ts[n - 1].id)]
  }

  /** The texture loop issues three calls per texture, in list order. */
  lemma {:induction false} BindCallsLayout(ts: seq<Texture>, shader: nat, n: nat)
    requires n <= |ts|
    ensures var r := BindCalls(ts, shader, n);
      && |r| == 3 * n
      && (forall i :: 0 <= i < n ==>
            && r[3 * i] == ActiveTexture(i)
            && r[3 * i + 1] == SetSampler(shader, SamplerName(ts, i), i)
            && r[3 * i + 2] == BindTexture2D(ts[i].id))
  {
    if n > 0 {
      BindCallsLayout(ts, shader, n - 1);
      var p, r := BindCalls(ts, shader, n - 1), BindCalls(ts, shader, n);
      var name := SamplerName(ts, n - 1);
      assert r == p + [ActiveTexture(n - 1), SetSampler(shader, name, n - 1), BindTexture2D(ts[n - 1].id)];
      forall i | 0 <= i < n - 1
        ensures r[3 * i] == p[3 * i] && r[3 * i + 1] == p[3 * i + 1] && r[3 * i + 2] == p[3 * i + 2]
      {
        assert 3 * i + 2 < |p|;
      }
    }
  }

  /** The texture loop never draws and never changes the bound vertex array. */
  lemma {:induction false} BindCallsDrawNothing(ts: seq<Texture>, shader: nat, n: nat)
    requires n <= |ts|
    ensures forall k :: 0 <= k < |BindCalls(ts, shader, n)| ==>
      !BindCalls(ts, shader, n)[k].DrawTriangles? && !BindCalls(ts, shader, n)[k].BindVertexArray?
  {
    if n > 0 {
      BindCallsDrawNothing(ts, shader, n - 1);
      var p := BindCalls(ts, shader, n - 1);
      var last := [ActiveTexture(n - 1), SetSampler(shader, SamplerName(ts, n - 1), n - 1), BindTexture2D(ts[n - 1].id)];
      var r := p + last;
      assert BindCalls(ts, shader, n) == r;
      forall k | 0 <= k < |r|
        ensures !r[k].DrawTriangles? && !r[k].BindVertexArray?
      {
        if k < |p| {
          assert r[k] == p[k];
        } else {
          var j := k - |p|;
          assert r[k] == last[j];
          assert j == 0 || j == 1 || j == 2;
        }
      }
    }
  }

  /** Every call one `draw` issues, in order. */
  function DrawCalls(ts: seq<Texture>, shader: nat, vao: nat, count: nat): seq<Call> {
    BindCalls(ts, shader, |ts|) + [BindVertexArray(vao), DrawTriangles(count), BindVertexArray(0), ActiveTexture(0)]
  }

  /** `draw` issues exactly one draw, of `count` elements, between binding the
      mesh's vertex array and unbinding it, and makes unit 0 active last. */
  lemma DrawCallsLayout(ts: seq<Texture>, shader: nat, vao: nat, count: nat)
    ensures var r := DrawCalls(ts, shader, vao, count);
      && |r| == 3 * |ts| + 4
      && (forall k :: 0 <= k < |r| && r[k].DrawTriangles? ==> k == 3 * |ts| + 1 && r[k] == DrawTriangles(count))
      && r[3 * |ts| + 1] == DrawTriangles(count)
      && r[3 * |ts|] == BindVertexArray(vao) && r[3 * |ts| + 2] == BindVertexArray(0)
      && r[|r| - 1] == ActiveTexture(0)
  {
    var p := BindCalls(ts, shader, |ts|);
    BindCallsLayout(ts, shader, |ts|);
    BindCallsDrawNothing(ts, shader, |ts|);
    var r := DrawCalls(ts, shader, vao, count);
    forall k | 0 <= k < |p|
      ensures !r[k].DrawTriangles?
    {
      assert r[k] == p[k];
    }
  }

  /** Texture `i`'s sampler name is not bound again by any of textures `i+1 .. n-1`. */
  predicate NameLastBoundAt(ts: seq<Texture>, i: nat, n: nat)
    requires i < n <= |ts|
  {
    forall j :: i < j < n ==> SamplerName(ts, j) != SamplerName(ts, i)
  }

  /** One more texture: its unit becomes active and holds it, and its sampler
      name is set to that unit; nothing else changes. */
  lemma BindCallsNext(s: State, ts: seq<Texture>, shader: nat, n: nat)
    requires 0 < n <= |ts|
    ensures var p, t := Exec(s, BindCalls(ts, shader, n - 1)), Exec(s, BindCalls(ts, shader, n));
      && t.active == n - 1
      && t.bound == p.bound[n - 1 := ts[n - 1].id]
      && t.samplers == p.samplers[(shader, SamplerName(ts, n - 1)) := n - 1]
      && t.vertexArray == p.vertexArray && t.draws == p.draws
  {
    var prefix := BindCalls(ts, shader, n - 1);
    var a, b, c := ActiveTexture(n - 1), SetSampler(shader, SamplerName(ts, n - 1), n - 1), BindTexture2D(ts[n - 1].id);
    assert BindCalls(ts, shader, n) == prefix + [a, b, c];
    ExecAppend(s, prefix, [a, b, c]);
    ExecThree(Exec(s, prefix), a, b, c);
  }

  /** After the loop over textures `0 .. n-1` the last unit set stays
      active, and the vertex array and the draw list are as before. */
  lemma {:induction false} BindCallsActive(s: State, ts: seq<Texture>, shader: nat, n: nat)
    requires n <= |ts|
    ensures var t := Exec(s, BindCalls(ts, shader, n));
      && t.active == (if n == 0 then s.active else n - 1)
      && t.vertexArray == s.vertexArray && t.draws == s.draws
  {
    if n > 0 {
      BindCallsNext(s, ts, shader, n);
      BindCallsActive(s, ts, shader, n - 1);
    }
  }

  /** After the loop over textures `0 .. n-1` unit `i` holds texture `i`
      and units from `n` on are as before. */
  lemma {:induction false} BindCallsUnits(s: State, ts: seq<Texture>, shader: nat, n: nat)
    requires n <= |ts|
    ensures var t := Exec(s, BindCalls(ts, shader, n));
      && (forall i :: 0 <= i < n ==> i in t.bound && t.bound[i] == ts[i].id)
      && (forall u :: n <= u ==> (u in t.bound <==> u in s.bound))
      && (forall u :: n <= u && u in s.bound ==> t.bound[u] == s.bound[u])
  {
    if n > 0 {
      BindCallsNext(s, ts, shader, n);
      BindCallsUnits(s, ts, shader, n - 1);
      var p, t := Exec(s, BindCalls(ts, shader, n - 1)), Exec(s, BindCalls(ts, shader, n));
      assert t.bound == p.bound[n - 1 := ts[n - 1].id];
    }
  }

  /** After the loop over textures `0 .. n-1` each sampler name holds the
      unit of the last texture bound under it. */
  lemma {:induction false} BindCallsSamplers(s: State, ts: seq<Texture>, shader: nat, n: nat)
    requires n <= |ts|
    ensures var t := Exec(s, BindCalls(ts, shader, n));
      forall i :: 0 <= i < n && NameLastBoundAt(ts, i, n) ==>
        (shader, SamplerName(ts, i)) in t.samplers && t.samplers[(shader, SamplerName(ts, i))] == i
  {
    if n > 0 {
      BindCallsNext(s, ts, shader, n);
      BindCallsSamplers(s, ts, shader, n - 1);
      var p := Exec(s, BindCalls(ts, shader, n - 1));
      var t := Exec(s, BindCalls(ts, shader, n));
      forall i | 0 <= i < n - 1 && NameLastBoundAt(ts, i, n)
        ensures (shader, SamplerName(ts, i)) in t.samplers && t.samplers[(shader, SamplerName(ts, i))] == i
      {
        assert SamplerName(ts, n - 1) != SamplerName(ts, i);
        assert NameLastBoundAt(ts, i, n - 1);
        assert p.samplers[(shader, SamplerName(ts, i))] == i;
      }
    }
  }

  /** After one draw: texture `i` is bound to unit `i`, unit 0 is active again
      however many textures were bound, no vertex array is bound, and exactly
      one draw over `count` indices was issued. */
  lemma DrawEffect(s: State, ts: seq<Texture>, shader: nat, vao: nat, count: nat)
    ensures var t := Exec(s, DrawCalls(ts, shader, vao, count));
      && t.active == 0
      && (forall i :: 0 <= i < |ts| ==> i in t.bound && t.bound[i] == ts[i].id)
      && t.vertexArray == 0
      && t.draws == s.draws + [count]
  {
    var binds := BindCalls(ts, shader, |ts|);
    var tail := [BindVertexArray(vao), DrawTriangles(count), BindVertexArray(0), ActiveTexture(0)];
    ExecAppend(s, binds, tail);
    BindCallsActive(s, ts, shader, |ts|);
    BindCallsUnits(s, ts, shader, |ts|);
    ExecFour(Exec(s, binds), tail[0], tail[1], tail[2], tail[3]);
  }

  /** Two textures of recognised types are never bound under the same name. */
  lemma RecognisedNamesDistinct(ts: seq<Texture>, i: nat, j: nat)
    requires i < |ts| && j < |ts| && i != j
    requires IsRecognised(ts[i].kind) && IsRecognised(ts[j].kind)
    ensures SamplerName(ts, i) != SamplerName(ts, j)
  {
    if ts[i].kind == ts[j].kind {
      if i < j {
        SameKindNamesDistinct(ts, i, j);
      } else {
        SameKindNamesDistinct(ts, j, i);
      }
    } else {
      RecognisedKindsDiffer(ts[i].kind, ts[j].kind);
      SamplerNameShape(ts, i);
      SamplerNameShape(ts, j);
      var ni, nj := SamplerName(ts, i), SamplerName(ts, j);
      assert ni[..|ts[i].kind|][8] == ni[8] && nj[..|ts[j].kind|][8] == nj[8];
    }
  }

  /** The four recognised names differ at their ninth character, just past
      the shared `texture_` prefix. */
  lemma RecognisedKindsDiffer(a: string, b: string)
    requires IsRecognised(a) && IsRecognised(b) && a != b
    ensures |a| > 8 && |b| > 8 && a[8] != b[8]
  {
  }

  lemma SameKindNamesDistinct(ts: seq<Texture>, i: nat, j: nat)
    requires i < j < |ts| && ts[i].kind == ts[j].kind && IsRecognised(ts[i].kind)
    ensures SamplerName(ts, i) != SamplerName(ts, j)
  {
    var k := ts[i].kind;
    CountKindGrows(ts, i, j, k);
    var ci, cj := CountKind(ts[..i + 1], k), CountKind(ts[..j + 1], k);
    var ni, nj := SamplerName(ts, i), SamplerName(ts, j);
    assert ni == k + NatToString(ci) && nj == k + NatToString(cj);
    if ni == nj {
      assert NatToString(ci) == ni[|k|..] == nj[|k|..] == NatToString(cj);
      NatToStringInjective(ci, cj);
    }
  }

  /** A later texture of the same type has a strictly larger ordinal. */
  lemma {:induction false} CountKindGrows(ts: seq<Texture>, i: nat, j: nat, kind: string)
    requires i < j < |ts| && ts[j].kind == kind
    ensures CountKind(ts[..i + 1], kind) < CountKind(ts[..j + 1], kind)
    decreases j
  {
    CountKindNext(ts, j, kind);
    if i < j - 1 {
      CountKindMonotone(ts, i + 1, j, kind);
    }
  }

  lemma {:induction false} CountKindMonotone(ts: seq<Texture>, m: nat, n: nat, kind: string)
    requires m <= n <= |ts|
    ensures CountKind(ts[..m], kind) <= CountKind(ts[..n], kind)
    decreases n
  {
    if m < n {
      CountKindNext(ts, n - 1, kind);
      CountKindMonotone(ts, m, n - 1, kind);
    }
  }

  /** With every texture of a recognised type, each sampler name ends up
      holding the unit of the one texture bound under it. */
  lemma DrawSamplers(s: State, ts: seq<Texture>, shader: nat, vao: nat, count: nat)
    requires forall i :: 0 <= i < |ts| ==> IsRecognised(ts[i].kind)
    ensures var t := Exec(s, DrawCalls(ts, shader, vao, count));
      forall i :: 0 <= i < |ts| ==>
        (shader, SamplerName(ts, i)) in t.samplers && t.samplers[(shader, SamplerName(ts, i))] == i
  {
    var binds := BindCalls(ts, shader, |ts|);
    var tail := [BindVertexArray(vao), DrawTriangles(count), BindVertexArray(0), ActiveTexture(0)];
    ExecAppend(s, binds, tail);
    BindCallsSamplers(s, ts, shader, |ts|);
    ExecFour(Exec(s, binds), tail[0], tail[1], tail[2], tail[3]);
    forall i, j | 0 <= i < j < |ts|
      ensures SamplerName(ts, j) != SamplerName(ts, i)
    {
      RecognisedNamesDistinct(ts, i, j);
    }
  }

  class Mesh {
    var vertices: seq<Vertex>
    var indices: seq<nat>
    var textures: seq<Texture>
    /** Vertex array handle created by the buffer setup, which is not modelled. */
    var vao: nat

    /** The buffer upload reads the first vertex and the first index, so the
        source requires both lists to be non-empty. */
    constructor (vertices: seq<Vertex>, indices: seq<nat>, textures: seq<Texture>)
      requires |vertices| > 0 && |indices| > 0
      ensures this.vertices == vertices && this.indices == indices && this.textures == textures
    {
      this.vertices := vertices;
      this.indices := indices;
      this.textures := textures;
    }

    method Draw(gl: Context, shader: nat)
      modifies gl
      ensures gl.calls == old(gl.calls) + DrawCalls(textures, shader, vao, |indices|)
      ensures unchanged(this)
    {
      var ts, start := textures, gl.calls;
      var diffuseNr, specularNr, normalNr, heightNr := 1, 1, 1, 1;
      for i := 0 to |ts|
        invariant gl.calls == start + BindCalls(ts, shader, i)
        invariant diffuseNr == CountKind(ts[..i], DiffuseKind) + 1
        invariant specularNr == CountKind(ts[..i], SpecularKind) + 1
        invariant normalNr == CountKind(ts[..i], NormalKind) + 1
        invariant heightNr == CountKind(ts[..i], HeightKind) + 1
      {
        CountKindNext(ts, i, DiffuseKind);
        CountKindNext(ts, i, SpecularKind);
        CountKindNext(ts, i, NormalKind);
        CountKindNext(ts, i, HeightKind);

        var number := "";
        var name := ts[i].kind;
        if name == DiffuseKind {
          number := NatToString(diffuseNr);
          diffuseNr := diffuseNr + 1;
        } else if name == SpecularKind {
          number := NatToString(specularNr);
          specularNr := specularNr + 1;
        } else if name == NormalKind {
          number := NatToString(normalNr);
          normalNr := normalNr + 1;
        } else if name == HeightKind {
          number := NatToString(heightNr);
          heightNr := heightNr + 1;
        }

        var uniformName := name + number;
        SamplerNameFromCounter(ts, i, number);
        gl.calls := gl.calls + [ActiveTexture(i), SetSampler(shader, uniformName, i), BindTexture2D(ts[i].id)];
      }
      assert ts[..|ts|] == ts;

      gl.calls := gl.calls + [BindVertexArray(vao), DrawTriangles(|indices|), BindVertexArray(0)];
      // reset to the default unit
      gl.calls := gl.calls + [ActiveTexture(0)];
    }
  }
}
