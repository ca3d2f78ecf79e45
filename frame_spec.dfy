/** What one tick of MainWindow::TimerTick asks of the platform, as a sequence
    of calls, and the ordering facts about it.

    The dynamic instances are drawn texture-batched: for each texture slot j the
    pass sets g_Texture to textures[j] once, then scans all instances in index
    order and draws those whose texture is textures[j], each after reading its
    transform. */
module FrameSpec {
  import opened Vectors
  import opened Platform

  /** nShadowWidth: the shadow texture is square with this side. */
  const ShadowWidth: int := 2048

  /** The instances slot t draws when the scan has reached `count`: those
      among the first `count` whose texture is t (see MatchingSound and
      MatchingComplete). */
  function Matching(t: nat, texs: seq<nat>, count: nat): (r: seq<nat>)
    requires count <= |texs|
    ensures forall k :: 0 <= k < |r| ==> r[k] < count
  {
    if count == 0 then []
    else Matching(t, texs, count - 1) + (if texs[count - 1] == t then [count - 1] else [])
  }

  /** Slot t draws only instances whose texture is t, in increasing index order. */
  lemma {:induction false} MatchingSound(t: nat, texs: seq<nat>, count: nat)
    requires count <= |texs|
    ensures forall k :: 0 <= k < |Matching(t, texs, count)| ==> texs[Matching(t, texs, count)[k]] == t
    ensures forall k1, k2 :: 0 <= k1 < k2 < |Matching(t, texs, count)| ==>
              Matching(t, texs, count)[k1] < Matching(t, texs, count)[k2]
  {
    if count > 0 {
      MatchingSound(t, texs, count - 1);
    }
  }

  /** Slot t draws every instance whose texture is t. */
  lemma {:induction false} MatchingComplete(t: nat, texs: seq<nat>, count: nat, i: nat)
    requires i < count <= |texs| && texs[i] == t
    ensures i in Matching(t, texs, count)
  {
    if i < count - 1 {
      MatchingComplete(t, texs, count - 1, i);
    }
  }

  /** The inner scan of slot t up to instance `count`: each instance whose
      texture is t has its transform read and is drawn, in index order. */
  function SlotDraws(pass: Pass, t: nat, ids: seq<nat>, texs: seq<nat>, count: nat): seq<Call>
    requires count <= |texs| == |ids|
  {
    if count == 0 then []
    else
      SlotDraws(pass, t, ids, texs, count - 1) +
        (if texs[count - 1] == t then [ReadTransform(ids[count - 1]), DrawInstance(pass)] else [])
  }

  /** The texture-batched loops for the first `count` texture slots. */
  function BatchedPass(pass: Pass, textures: seq<nat>, ids: seq<nat>, texs: seq<nat>, count: nat): seq<Call>
    requires count <= |textures| && |ids| == |texs|
  {
    if count == 0 then []
    else
      var t := textures[count - 1];
      BatchedPass(pass, textures, ids, texs, count - 1) +
        [SetTexture(pass, t)] + SlotDraws(pass, t, ids, texs, |texs|)
  }

  /** One render pass: begin, the static scenery, the batched instances, end. */
  function PassCalls(pass: Pass, width: int, height: int, textures: seq<nat>, ids: seq<nat>, texs: seq<nat>): seq<Call>
    requires |ids| == |texs|
  {
    [BeginPass(pass, width, height), DrawScenery(pass)] +
      BatchedPass(pass, textures, ids, texs, |textures|) + [EndPass(pass)]
  }

  /** Everything a tick that is not skipped asks of the platform, in order. */
  function TickCalls(dt: real, width: int, height: int, textures: seq<nat>, ids: seq<nat>, texs: seq<nat>, eye: Vec3): seq<Call>
    requires |ids| == |texs|
  {
    [StepSimulation(dt), ReadbackBodies] +
      PassCalls(Shadow, ShadowWidth, ShadowWidth, textures, ids, texs) +
      PassCalls(Screen, width, height, textures, ids, texs) +
      [DrawSky(eye), SwapBuffers]
  }

  /** A trace that grew by the physics calls, the two passes and the closing
      calls of a tick grew by TickCalls. */
  lemma TickCallsJoin(start: seq<Call>, physics: seq<Call>, shadow: seq<Call>, screen: seq<Call>, done: seq<Call>,
                      dt: real, width: int, height: int, textures: seq<nat>, ids: seq<nat>, texs: seq<nat>, eye: Vec3)
    requires |ids| == |texs|
    requires physics == start + [StepSimulation(dt), ReadbackBodies]
    requires shadow == physics + PassCalls(Shadow, ShadowWidth, ShadowWidth, textures, ids, texs)
    requires screen == shadow + PassCalls(Screen, width, height, textures, ids, texs)
    requires done == screen + [DrawSky(eye)] + [SwapBuffers]
    ensures done == start + TickCalls(dt, width, height, textures, ids, texs, eye)
  {
    var p1, p2 := PassCalls(Shadow, ShadowWidth, ShadowWidth, textures, ids, texs), PassCalls(Screen, width, height, textures, ids, texs);
    assert [DrawSky(eye)] + [SwapBuffers] == [DrawSky(eye), SwapBuffers];
    assert done == start + ([StepSimulation(dt), ReadbackBodies] + p1 + p2 + [DrawSky(eye), SwapBuffers]);
  }

  /** The instances a pass draws, slot after slot. */
  function DrawOrder(textures: seq<nat>, texs: seq<nat>, count: nat): (r: seq<nat>)
    requires count <= |textures|
    ensures forall k :: 0 <= k < |r| ==> r[k] < |texs|
  {
    if count == 0 then []
    else DrawOrder(textures, texs, count - 1) + Matching(textures[count - 1], texs, |texs|)
  }

  /** The bodies whose transforms a sequence of calls reads, in order. */
  function ReadOrder(calls: seq<Call>): seq<nat> {
    if |calls| == 0 then []
    else
      ReadOrder(calls[..|calls| - 1]) +
        (if calls[|calls| - 1].ReadTransform? then [calls[|calls| - 1].body] else [])
  }

  /** The number of g_Texture settings in a sequence of calls. */
  function Binds(calls: seq<Call>): nat {
    if |calls| == 0 then 0
    else Binds(calls[..|calls| - 1]) + (if calls[|calls| - 1].SetTexture? then 1 else 0)
  }

  /** How many of the first `count` texture slots hold t. */
  function SlotCount(textures: seq<nat>, t: nat, count: nat): nat
    requires count <= |textures|
  {
    if count == 0 then 0
    else SlotCount(textures, t, count - 1) + (if textures[count - 1] == t then 1 else 0)
  }

  predicate Distinct(textures: seq<nat>) {
    forall j1, j2 :: 0 <= j1 < j2 < |textures| ==> textures[j1] != textures[j2]
  }

  // ----- binds ----------------------------------------------------------------

  lemma {:induction false} BindsAppend(a: seq<Call>, b: seq<Call>)
    ensures Binds(a + b) == Binds(a) + Binds(b)
  {
    if |b| > 0 {
      assert (a + b)[..|a + b| - 1] == a + b[..|b| - 1];
      BindsAppend(a, b[..|b| - 1]);
    } else {
      assert a + b == a;
    }
  }

  lemma BindsSingle(c: Call)
    ensures Binds([c]) == if c.SetTexture? then 1 else 0
  {
    assert [c][..0] == [];
  }

  lemma {:induction false} SlotDrawsBindNothing(pass: Pass, t: nat, ids: seq<nat>, texs: seq<nat>, count: nat)
    requires count <= |texs| == |ids|
    ensures Binds(SlotDraws(pass, t, ids, texs, count)) == 0
  {
    if count > 0 {
      SlotDrawsBindNothing(pass, t, ids, texs, count - 1);
      if texs[count - 1] == t {
        var read, draw := ReadTransform(ids[count - 1]), DrawInstance(pass);
        BindsAppend(SlotDraws(pass, t, ids, texs, count - 1), [read, draw]);
        BindsAppend([read], [draw]);
        BindsSingle(read);
        BindsSingle(draw);
      } else {
        BindsAppend(SlotDraws(pass, t, ids, texs, count - 1), []);
      }
    }
  }

  lemma BindsOneMore(front: seq<Call>, bind: Call, rest: seq<Call>)
    requires bind.SetTexture? && Binds(rest) == 0
    ensures Binds(front + [bind] + rest) == Binds(front) + 1
  {
    BindsAppend(front, [bind]);
    BindsAppend(front + [bind], rest);
    BindsSingle(bind);
  }

  /** g_Texture is set once per texture slot, whether or not any instance has
      that texture. */
  lemma {:induction false} BindsPerSlot(pass: Pass, textures: seq<nat>, ids: seq<nat>, texs: seq<nat>, count: nat)
    requires count <= |textures| && |ids| == |texs|
    ensures Binds(BatchedPass(pass, textures, ids, texs, count)) == count
  {
    if count > 0 {
      var t := textures[count - 1];
      var front, bind, draws := BatchedPass(pass, textures, ids, texs, count - 1), [SetTexture(pass, t)], SlotDraws(pass, t, ids, texs, |texs|);
      assert BatchedPass(pass, textures, ids, texs, count) == front + bind + draws;
      BindsPerSlot(pass, textures, ids, texs, count - 1);
      SlotDrawsBindNothing(pass, t, ids, texs, |texs|);
      BindsOneMore(front, SetTexture(pass, t), draws);
      assert Binds(front + bind + draws) == count;
    }
  }

  // ----- which transforms are read -------------------------------------------

  lemma {:induction false} ReadOrderAppend(a: seq<Call>, b: seq<Call>)
    ensures ReadOrder(a + b) == ReadOrder(a) + ReadOrder(b)
  {
    if |b| > 0 {
      assert (a + b)[..|a + b| - 1] == a + b[..|b| - 1];
      ReadOrderAppend(a, b[..|b| - 1]);
    } else {
      assert a + b == a;
    }
  }

  lemma ReadOrderSingle(c: Call)
    ensures ReadOrder([c]) == if c.ReadTransform? then [c.body] else []
  {
    assert [c][..0] == [];
  }

  /** Reading a body's transform and drawing it reads exactly that body. */
  lemma ReadThenDraw(body: nat, pass: Pass)
    ensures ReadOrder([ReadTransform(body), DrawInstance(pass)]) == [body]
  {
    ReadOrderAppend([ReadTransform(body)], [DrawInstance(pass)]);
    ReadOrderSingle(ReadTransform(body));
    ReadOrderSingle(DrawInstance(pass));
    assert [ReadTransform(body)] + [DrawInstance(pass)] == [ReadTransform(body), DrawInstance(pass)];
  }

  /** The bodies of the instances listed in `order`. */
  function Bodies(ids: seq<nat>, order: seq<nat>): (r: seq<nat>)
    requires forall k :: 0 <= k < |order| ==> order[k] < |ids|
    ensures |r| == |order| && forall k :: 0 <= k < |order| ==> r[k] == ids[order[k]]
  {
    seq(|order|, k requires 0 <= k < |order| => ids[order[k]])
  }

  /** The scan of slot t reads the transforms of the bodies of the instances
      Matching lists, in that order. */
  lemma {:induction false} SlotDrawsRead(pass: Pass, t: nat, ids: seq<nat>, texs: seq<nat>, count: nat)
    requires count <= |texs| == |ids|
    ensures ReadOrder(SlotDraws(pass, t, ids, texs, count)) == Bodies(ids, Matching(t, texs, count))
  {
    if count > 0 {
      var front := SlotDraws(pass, t, ids, texs, count - 1);
      var before := Matching(t, texs, count - 1);
      SlotDrawsRead(pass, t, ids, texs, count - 1);
      if texs[count - 1] == t {
        var pair := [ReadTransform(ids[count - 1]), DrawInstance(pass)];
        assert SlotDraws(pass, t, ids, texs, count) == front + pair;
        assert Matching(t, texs, count) == before + [count - 1];
        ReadOrderAppend(front, pair);
        ReadThenDraw(ids[count - 1], pass);
        BodiesAppend(ids, before, [count - 1]);
        assert Bodies(ids, [count - 1]) == [ids[count - 1]];
        assert ReadOrder(front + pair) == Bodies(ids, before + [count - 1]);
      } else {
        assert SlotDraws(pass, t, ids, texs, count) == front + [];
        ReadOrderAppend(front, []);
        assert Matching(t, texs, count) == Matching(t, texs, count - 1) + [];
      }
    }
  }

  lemma BodiesAppend(ids: seq<nat>, a: seq<nat>, b: seq<nat>)
    requires forall k :: 0 <= k < |a| ==> a[k] < |ids|
    requires forall k :: 0 <= k < |b| ==> b[k] < |ids|
    ensures Bodies(ids, a + b) == Bodies(ids, a) + Bodies(ids, b)
  {
  }

  /** Setting a texture reads no transform. */
  lemma ReadsPastBind(front: seq<Call>, bind: Call, rest: seq<Call>)
    requires !bind.ReadTransform?
    ensures ReadOrder(front + [bind] + rest) == ReadOrder(front) + ReadOrder(rest)
  {
    ReadOrderAppend(front + [bind], rest);
    ReadOrderAppend(front, [bind]);
    ReadOrderSingle(bind);
    assert ReadOrder(front) + [] == ReadOrder(front);
  }

  /** A pass reads the transforms of exactly the bodies of the instances in
      draw order: slot by slot, and inside a slot by increasing index. */
  lemma {:induction false} PassReadsInDrawOrder(pass: Pass, textures: seq<nat>, ids: seq<nat>, texs: seq<nat>, count: nat)
    requires count <= |textures| && |ids| == |texs|
    ensures ReadOrder(BatchedPass(pass, textures, ids, texs, count)) == Bodies(ids, DrawOrder(textures, texs, count))
  {
    if count > 0 {
      var t := textures[count - 1];
      var before, slot := DrawOrder(textures, texs, count - 1), Matching(t, texs, |texs|);
      var front, draws := BatchedPass(pass, textures, ids, texs, count - 1), SlotDraws(pass, t, ids, texs, |texs|);
      assert BatchedPass(pass, textures, ids, texs, count) == front + [SetTexture(pass, t)] + draws;
      assert DrawOrder(textures, texs, count) == before + slot;
      PassReadsInDrawOrder(pass, textures, ids, texs, count - 1);
      SlotDrawsRead(pass, t, ids, texs, |texs|);
      ReadsPastBind(front, SetTexture(pass, t), draws);
      BodiesAppend(ids, before, slot);
      assert ReadOrder(front + [SetTexture(pass, t)] + draws) == Bodies(ids, before + slot);
    }
  }

  // ----- each instance exactly once ----------------------------------------

  /** How many times x occurs in s. */
  function Occurrences(s: seq<nat>, x: nat): nat {
    if |s| == 0 then 0
    else Occurrences(s[..|s| - 1], x) + (if s[|s| - 1] == x then 1 else 0)
  }

  /** Occurrences in a concatenation add up. */
  lemma {:induction false} OccurrencesAppend(a: seq<nat>, b: seq<nat>, x: nat)
    ensures Occurrences(a + b, x) == Occurrences(a, x) + Occurrences(b, x)
  {
    if |b| > 0 {
      assert (a + b)[..|a + b| - 1] == a + b[..|b| - 1];
      OccurrencesAppend(a, b[..|b| - 1], x);
    } else {
      assert a + b == a;
    }
  }

  lemma OccurrencesPush(s: seq<nat>, y: nat, x: nat)
    ensures Occurrences(s + [y], x) == Occurrences(s, x) + (if y == x then 1 else 0)
  {
    assert (s + [y])[..|s|] == s;
  }

  /** Slot t draws instance i once if i has texture t and never otherwise. */
  lemma {:induction false} MatchingOnce(t: nat, texs: seq<nat>, count: nat, i: nat)
    requires count <= |texs|
    ensures Occurrences(Matching(t, texs, count), i) == if i < count && texs[i] == t then 1 else 0
  {
    if count > 0 {
      var front := Matching(t, texs, count - 1);
      MatchingOnce(t, texs, count - 1, i);
      if texs[count - 1] == t {
        OccurrencesPush(front, count - 1, i);
      } else {
        assert Matching(t, texs, count) == front;
      }
    }
  }

  /** A pass draws instance i once per texture slot that holds its texture. */
  lemma {:induction false} DrawOrderCount(textures: seq<nat>, texs: seq<nat>, count: nat, i: nat)
    requires count <= |textures| && i < |texs|
    ensures Occurrences(DrawOrder(textures, texs, count), i) == SlotCount(textures, texs[i], count)
  {
    if count > 0 {
      var front := DrawOrder(textures, texs, count - 1);
      var slot := Matching(textures[count - 1], texs, |texs|);
      DrawOrderCount(textures, texs, count - 1, i);
      MatchingOnce(textures[count - 1], texs, |texs|, i);
      assert DrawOrder(textures, texs, count) == front + slot;
      OccurrencesAppend(front, slot, i);
      var here := if textures[count - 1] == texs[i] then 1 else 0;
      assert Occurrences(slot, i) == here;
      assert SlotCount(textures, texs[i], count) == SlotCount(textures, texs[i], count - 1) + here;
      assert Occurrences(front + slot, i) == SlotCount(textures, texs[i], count);
    }
  }

  /** A texture held by one of the first `count` slots of a list without
      repetitions is held by exactly one of them. */
  lemma {:induction false} DistinctSlotOnce(textures: seq<nat>, j: nat, count: nat)
    requires Distinct(textures) && j < count <= |textures|
    ensures SlotCount(textures, textures[j], count) == 1
  {
    if j < count - 1 {
      DistinctSlotOnce(textures, j, count - 1);
    } else {
      SlotAbsent(textures, textures[j], j);
    }
  }

  lemma {:induction false} SlotAbsent(textures: seq<nat>, t: nat, count: nat)
    requires count <= |textures|
    requires forall j :: 0 <= j < count ==> textures[j] != t
    ensures SlotCount(textures, t, count) == 0
  {
    if count > 0 {
      SlotAbsent(textures, t, count - 1);
    }
  }

  /** With distinct texture ids and every instance's texture among them, a pass
      draws each instance exactly once; an instance whose texture is in no slot
      is never drawn. */
  lemma DrawnExactlyOnce(textures: seq<nat>, texs: seq<nat>, i: nat)
    requires Distinct(textures) && i < |texs|
    ensures texs[i] in textures ==> Occurrences(DrawOrder(textures, texs, |textures|), i) == 1
    ensures texs[i] !in textures ==> Occurrences(DrawOrder(textures, texs, |textures|), i) == 0
  {
    DrawOrderCount(textures, texs, |textures|, i);
    if texs[i] in textures {
      var j :| 0 <= j < |textures| && textures[j] == texs[i];
      DistinctSlotOnce(textures, j, |textures|);
    } else {
      SlotAbsent(textures, texs[i], |textures|);
    }
  }

  // ----- ordering inside a tick --------------------------------------------

  /** Every call of a slot scan that belongs to a pass belongs to `pass`. */
  lemma {:induction false} SlotDrawsInPass(pass: Pass, t: nat, ids: seq<nat>, texs: seq<nat>, count: nat, k: nat, p: Pass)
    requires count <= |texs| == |ids|
    requires k < |SlotDraws(pass, t, ids, texs, count)| && InPass(SlotDraws(pass, t, ids, texs, count)[k], p)
    ensures p == pass
  {
    var front := SlotDraws(pass, t, ids, texs, count - 1);
    if k < |front| {
      SlotDrawsInPass(pass, t, ids, texs, count - 1, k, p);
    }
  }

  lemma {:induction false} BatchedInPass(pass: Pass, textures: seq<nat>, ids: seq<nat>, texs: seq<nat>, count: nat, k: nat, p: Pass)
    requires count <= |textures| && |ids| == |texs|
    requires k < |BatchedPass(pass, textures, ids, texs, count)|
    requires InPass(BatchedPass(pass, textures, ids, texs, count)[k], p)
    ensures p == pass
  {
    var t := textures[count - 1];
    var front := BatchedPass(pass, textures, ids, texs, count - 1);
    var slot := SlotDraws(pass, t, ids, texs, |texs|);
    assert BatchedPass(pass, textures, ids, texs, count) == front + [SetTexture(pass, t)] + slot;
    if k < |front| {
      BatchedInPass(pass, textures, ids, texs, count - 1, k, p);
    } else if k > |front| {
      SlotDrawsInPass(pass, t, ids, texs, |texs|, k - |front| - 1, p);
    }
  }

  lemma PassCallsInPass(pass: Pass, width: int, height: int, textures: seq<nat>, ids: seq<nat>, texs: seq<nat>, k: nat, p: Pass)
    requires |ids| == |texs|
    requires k < |PassCalls(pass, width, height, textures, ids, texs)|
    requires InPass(PassCalls(pass, width, height, textures, ids, texs)[k], p)
    ensures p == pass
  {
    var batched := BatchedPass(pass, textures, ids, texs, |textures|);
    if 2 <= k < 2 + |batched| {
      BatchedInPass(pass, textures, ids, texs, |textures|, k - 2, p);
    }
  }

  /** Within a tick the simulation step comes first and the readback second, so
      both precede every transform read; every call of the shadow pass precedes
      every call of the screen pass. */
  lemma TickOrder(dt: real, width: int, height: int, textures: seq<nat>, ids: seq<nat>, texs: seq<nat>, eye: Vec3, k1: nat, k2: nat)
    requires |ids| == |texs|
    requires k1 < |TickCalls(dt, width, height, textures, ids, texs, eye)|
    requires k2 < |TickCalls(dt, width, height, textures, ids, texs, eye)|
    ensures TickCalls(dt, width, height, textures, ids, texs, eye)[0] == StepSimulation(dt)
    ensures TickCalls(dt, width, height, textures, ids, texs, eye)[1] == ReadbackBodies
    ensures TickCalls(dt, width, height, textures, ids, texs, eye)[k1].ReadTransform? ==> k1 > 1
    ensures (InPass(TickCalls(dt, width, height, textures, ids, texs, eye)[k1], Shadow) &&
             InPass(TickCalls(dt, width, height, textures, ids, texs, eye)[k2], Screen)) ==> k1 < k2
  {
    var shadow := PassCalls(Shadow, ShadowWidth, ShadowWidth, textures, ids, texs);
    var screen := PassCalls(Screen, width, height, textures, ids, texs);
    var calls := TickCalls(dt, width, height, textures, ids, texs, eye);
    if InPass(calls[k1], Shadow) && InPass(calls[k2], Screen) {
      PassOf(dt, width, height, textures, ids, texs, eye, k1, Shadow);
      PassOf(dt, width, height, textures, ids, texs, eye, k2, Screen);
    }
  }

  /** Where in a tick's calls the calls of each pass lie. */
  lemma PassOf(dt: real, width: int, height: int, textures: seq<nat>, ids: seq<nat>, texs: seq<nat>, eye: Vec3, k: nat, p: Pass)
    requires |ids| == |texs|
    requires k < |TickCalls(dt, width, height, textures, ids, texs, eye)|
    requires InPass(TickCalls(dt, width, height, textures, ids, texs, eye)[k], p)
    ensures var shadow := |PassCalls(Shadow, ShadowWidth, ShadowWidth, textures, ids, texs)|;
            if p == Shadow then 2 <= k < 2 + shadow else 2 + shadow <= k
  {
    var shadow := PassCalls(Shadow, ShadowWidth, ShadowWidth, textures, ids, texs);
    var screen := PassCalls(Screen, width, height, textures, ids, texs);
    var calls := TickCalls(dt, width, height, textures, ids, texs, eye);
    if 2 <= k < 2 + |shadow| {
      assert calls[k] == shadow[k - 2];
      PassCallsInPass(Shadow, ShadowWidth, ShadowWidth, textures, ids, texs, k - 2, p);
    } else if 2 + |shadow| <= k < 2 + |shadow| + |screen| {
      assert calls[k] == screen[k - 2 - |shadow|];
      PassCallsInPass(Screen, width, height, textures, ids, texs, k - 2 - |shadow|, p);
    }
  }
}
