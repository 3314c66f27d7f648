/** MultipleRender: a renderer that forwards every lifecycle call to a list of child
    renderers, remembers which calls it has seen, and replays them on children added later. */
module MultipleRenderSpec {
  import opened Wrappers

  /** A child renderer, by identity; isRecorder says whether it is also a Recorder. */
  datatype Renderer = Renderer(id: nat, isRecorder: bool)

  /** The Renderer callbacks (egl and gl stand for the EGLCore and GL20 objects), and
      Recorder.generateFrameBuffer. */
  datatype Callback =
    | Create(egl: int, gl: int) | Resize(width: int, height: int) | Render(gl: int)
    | Pause | Resume | Dispose | GenerateFrameBuffer

  /** One callback made on one child. */
  datatype Call = Call(to: Renderer, callback: Callback)

  /** The lifecycle flags; once set, none is cleared. */
  datatype Flags = Flags(created: bool, disposed: bool, resized: bool, paused: bool, resumed: bool)

  /** The fields of the composite. */
  datatype Composite = Composite(renderers: seq<Renderer>, flags: Flags, egl: int, gl: int, width: int, height: int)

  datatype Next = Next(state: Composite, calls: seq<Call>)

  const NoFlags := Flags(false, false, false, false, false)

  /** new MultipleRender(renders...): the given children, no flag set. */
  function New(renders: seq<Renderer>): Composite {
    Composite(renders, NoFlags, 0, 0, 0, 0)
  }

  /** One callback to every child, in list order. */
  function Forward(list: seq<Renderer>, cb: Callback): seq<Call> {
    seq(|list|, i requires 0 <= i < |list| => Call(list[i], cb))
  }

  /** What a lifecycle callback records before it is forwarded. */
  function Record(c: Composite, cb: Callback): Composite {
    match cb
    case Create(egl, gl) => c.(flags := c.flags.(created := true), egl := egl, gl := gl)
    case Resize(w, h) => c.(flags := c.flags.(resized := true), width := w, height := h)
    case Render(_) => c
    case Pause => c.(flags := c.flags.(paused := true))
    case Resume => c.(flags := c.flags.(resumed := true))
    case Dispose => c.(flags := c.flags.(disposed := true))
    case GenerateFrameBuffer => c
  }

  /** A lifecycle callback on the composite (create, resize, render, pause, resume, dispose). */
  predicate Lifecycle(cb: Callback) {
    !cb.GenerateFrameBuffer?
  }

  function Notify(c: Composite, cb: Callback): Next
    requires Lifecycle(cb)
  {
    Next(Record(c, cb), Forward(c.renderers, cb))
  }

  /** The calls add makes on a late child: create, resize with the last size, pause,
      each only if the composite has seen it. */
  function Replay(c: Composite, r: Renderer): seq<Call> {
    (if c.flags.created then [Call(r, Create(c.egl, c.gl))] else [])
    + (if c.flags.resized then [Call(r, Resize(c.width, c.height))] else [])
    + (if c.flags.paused then [Call(r, Pause)] else [])
  }

  function Add(c: Composite, r: Renderer): Next {
    Next(c.(renderers := c.renderers + [r]), Replay(c, r))
  }

  /** The first position of x in list, or -1 (List.indexOf). */
  function IndexOf(list: seq<Renderer>, x: Renderer): (i: int)
    ensures -1 <= i < |list|
    ensures i == -1 <==> x !in list
    ensures 0 <= i ==> list[i] == x && x !in list[..i]
  {
    if |list| == 0 then -1
    else if list[0] == x then 0
    else
      var j := IndexOf(list[1..], x);
      if j == -1 then -1
      else
        assert list[..j + 1] == [list[0]] + list[1..][..j];
        j + 1
  }

  function RemoveAt(list: seq<Renderer>, i: nat): seq<Renderer>
    requires i < |list|
  {
    list[..i] + list[i + 1..]
  }

  /** remove(renderer): the first occurrence goes; it is disposed unless the composite is. */
  function RemoveRenderer(c: Composite, r: Renderer): Next {
    var i := IndexOf(c.renderers, r);
    if i < 0 then Next(c, [])
    else Next(c.(renderers := RemoveAt(c.renderers, i)), if c.flags.disposed then [] else [Call(r, Dispose)])
  }

  /** remove(index): no-op past the end; a negative index makes the list throw. */
  function RemoveIndex(c: Composite, index: int): Result<Next> {
    if index >= |c.renderers| then Ok(Next(c, []))
    else if index < 0 then Throws(IndexOutOfBoundsException)
    else
      Ok(Next(c.(renderers := RemoveAt(c.renderers, index)),
              if c.flags.disposed then [] else [Call(c.renderers[index], Dispose)]))
  }

  /** The position of the first child that is a Recorder, or -1. */
  function FirstRecorderIndex(list: seq<Renderer>): (k: int)
    ensures -1 <= k < |list|
    ensures k == -1 <==> forall i :: 0 <= i < |list| ==> !list[i].isRecorder
    ensures 0 <= k ==> list[k].isRecorder && forall i :: 0 <= i < k ==> !list[i].isRecorder
  {
    if |list| == 0 then -1
    else if list[0].isRecorder then 0
    else
      var j := FirstRecorderIndex(list[1..]);
      assert forall i :: 1 <= i < |list| ==> list[i] == list[1..][i - 1];
      if j == -1 then -1 else j + 1
  }

  function FirstRecorder(list: seq<Renderer>): Option<Renderer> {
    var k := FirstRecorderIndex(list);
    if k < 0 then None else Some(list[k])
  }

  /** generateFrameBuffer: the first Recorder child is asked, and its frame buffer returned;
      with none, null. */
  function GenerateFrameBufferOf(c: Composite): (Option<Renderer>, seq<Call>) {
    var r := FirstRecorder(c.renderers);
    (r, if r.Some? then [Call(r.value, GenerateFrameBuffer)] else [])
  }

  // ---------------------------------------------------------------- properties

  lemma ForwardSpec(list: seq<Renderer>, cb: Callback)
    ensures |Forward(list, cb)| == |list|
    ensures forall i :: 0 <= i < |list| ==> Forward(list, cb)[i] == Call(list[i], cb)
  {
  }

  lemma ForwardAppend(a: seq<Renderer>, b: seq<Renderer>, cb: Callback)
    ensures Forward(a + b, cb) == Forward(a, cb) + Forward(b, cb)
  {
    assert |Forward(a + b, cb)| == |Forward(a, cb) + Forward(b, cb)|;
    forall i | 0 <= i < |a| + |b|
      ensures Forward(a + b, cb)[i] == (Forward(a, cb) + Forward(b, cb))[i]
    {
      if i < |a| {
        assert (a + b)[i] == a[i];
      } else {
        assert (a + b)[i] == b[i - |a|];
      }
    }
  }

  /** Every lifecycle callback sets its own flag (render sets none), clears none, and reaches
      every child once, in order. */
  lemma NotifySpec(c: Composite, cb: Callback)
    requires Lifecycle(cb)
    ensures var n := Notify(c, cb); var f := n.state.flags;
      && n.state.renderers == c.renderers
      && (c.flags.created ==> f.created) && (c.flags.disposed ==> f.disposed)
      && (c.flags.resized ==> f.resized) && (c.flags.paused ==> f.paused) && (c.flags.resumed ==> f.resumed)
      && (f.created <==> c.flags.created || cb.Create?) && (f.resized <==> c.flags.resized || cb.Resize?)
      && (f.paused <==> c.flags.paused || cb.Pause?) && (f.resumed <==> c.flags.resumed || cb.Resume?)
      && (f.disposed <==> c.flags.disposed || cb == Dispose)
      && |n.calls| == |c.renderers|
      && forall i :: 0 <= i < |c.renderers| ==> n.calls[i] == Call(c.renderers[i], cb)
  {
  }

  /** add replays what the composite has seen, in order, and never resume or dispose. */
  lemma AddSpec(c: Composite, r: Renderer)
    ensures var n := Add(c, r);
      && n.state.renderers == c.renderers + [r] && n.state.flags == c.flags
      && (forall k :: 0 <= k < |n.calls| ==>
            n.calls[k].to == r && n.calls[k].callback != Resume && n.calls[k].callback != Dispose)
      && (Call(r, Create(c.egl, c.gl)) in n.calls <==> c.flags.created)
      && (Call(r, Resize(c.width, c.height)) in n.calls <==> c.flags.resized)
      && (Call(r, Pause) in n.calls <==> c.flags.paused)
      && |n.calls| <= 3
  {
  }

  /** Replayed calls come in the order create, resize, pause. */
  lemma AddReplaysInOrder(c: Composite, r: Renderer)
    requires c.flags.created && c.flags.resized && c.flags.paused
    ensures Add(c, r).calls == [Call(r, Create(c.egl, c.gl)), Call(r, Resize(c.width, c.height)), Call(r, Pause)]
  {
  }

  /** A pause followed by a resume still leaves a late child paused. */
  lemma PauseIsNeverForgotten(c: Composite, r: Renderer)
    ensures var paused := Notify(c, Pause).state;
      var resumed := Notify(paused, Resume).state;
      Call(r, Pause) in Add(resumed, r).calls && Call(r, Resume) !in Add(resumed, r).calls
  {
    var resumed := Notify(Notify(c, Pause).state, Resume).state;
    assert resumed.flags.paused;
    var before := (if resumed.flags.created then [Call(r, Create(resumed.egl, resumed.gl))] else [])
                  + (if resumed.flags.resized then [Call(r, Resize(resumed.width, resumed.height))] else []);
    assert Add(resumed, r).calls == before + [Call(r, Pause)];
  }

  lemma RemoveAtSpec(list: seq<Renderer>, i: nat)
    requires i < |list|
    ensures |RemoveAt(list, i)| == |list| - 1
    ensures multiset(RemoveAt(list, i)) == multiset(list) - multiset{list[i]}
    ensures forall k :: 0 <= k < i ==> RemoveAt(list, i)[k] == list[k]
    ensures forall k :: i <= k < |list| - 1 ==> RemoveAt(list, i)[k] == list[k + 1]
  {
    assert list == list[..i] + [list[i]] + list[i + 1..];
  }

  /** remove(renderer): one occurrence fewer, the others in place, and a dispose only for a
      child that was present, while the composite is not disposed. */
  lemma RemoveRendererSpec(c: Composite, r: Renderer)
    ensures var n := RemoveRenderer(c, r);
      && n.state.flags == c.flags
      && (r !in c.renderers ==> n.state == c && n.calls == [])
      && (r in c.renderers ==>
            && multiset(n.state.renderers) == multiset(c.renderers) - multiset{r}
            && n.state.renderers == RemoveAt(c.renderers, IndexOf(c.renderers, r)))
      && (n.calls != [] <==> r in c.renderers && !c.flags.disposed)
      && (n.calls != [] ==> n.calls == [Call(r, Dispose)])
  {
    var i := IndexOf(c.renderers, r);
    if i >= 0 {
      RemoveAtSpec(c.renderers, i);
    }
  }

  /** Adding a renderer that is not a child and removing it again restores the list. */
  lemma AddThenRemove(c: Composite, r: Renderer)
    requires r !in c.renderers
    ensures RemoveRenderer(Add(c, r).state, r).state.renderers == c.renderers
  {
    var list := c.renderers + [r];
    assert list[|c.renderers|] == r;
    assert list[..|c.renderers|] == c.renderers;
    assert IndexOf(list, r) == |c.renderers|;
  }

  lemma RemoveIndexSpec(c: Composite, index: int)
    ensures var r := RemoveIndex(c, index);
      && (r.Throws? <==> index < 0)
      && (index >= |c.renderers| ==> r == Ok(Next(c, [])))
      && (0 <= index < |c.renderers| ==>
            && r.Ok? && |r.value.state.renderers| == |c.renderers| - 1
            && multiset(r.value.state.renderers) == multiset(c.renderers) - multiset{c.renderers[index]}
            && r.value.state.flags == c.flags
            && r.value.calls == (if c.flags.disposed then [] else [Call(c.renderers[index], Dispose)]))
  {
    if 0 <= index < |c.renderers| {
      RemoveAtSpec(c.renderers, index);
    }
  }

  lemma GenerateFrameBufferSpec(c: Composite)
    ensures var (r, calls) := GenerateFrameBufferOf(c);
      && (r.None? <==> forall i :: 0 <= i < |c.renderers| ==> !c.renderers[i].isRecorder)
      && (r.None? ==> calls == [])
      && (r.Some? ==> r.value in c.renderers && r.value.isRecorder && calls == [Call(r.value, GenerateFrameBuffer)])
  {
  }
}

/** The composite object, its methods proved against MultipleRenderSpec. */
module MultipleRender {
  import opened Wrappers
  import opened MultipleRenderSpec

  class MultipleRender {
    var rendererList: seq<Renderer>
    var created: bool
    var disposed: bool
    var resized: bool
    var paused: bool
    var resumed: bool
    var egl: int
    var gl: int
    var width: int
    var height: int
    /** The callbacks made on children, in order. */
    var calls: seq<Call>

    function State(): Composite
      reads this
    {
      Composite(rendererList, Flags(created, disposed, resized, paused, resumed), egl, gl, width, height)
    }

    constructor(renders: seq<Renderer>)
      ensures State() == New(renders) && calls == []
    {
      rendererList := renders;
      created, disposed, resized, paused, resumed := false, false, false, false, false;
      egl, gl, width, height := 0, 0, 0, 0;
      calls := [];
    }

    /** The loop shared by the lifecycle methods. */
    method ForwardAll(cb: Callback)
      modifies this
      ensures State() == old(State()) && calls == old(calls) + Forward(rendererList, cb)
    {
      for i := 0 to |rendererList|
        invariant State() == old(State())
        invariant calls == old(calls) + Forward(rendererList[..i], cb)
      {
        assert Forward(rendererList[..i + 1], cb) == Forward(rendererList[..i], cb) + [Call(rendererList[i], cb)];
        calls := calls + [Call(rendererList[i], cb)];
      }
      assert rendererList[..|rendererList|] == rendererList;
    }

    method Create(egl: int, gl: int)
      modifies this
      ensures var n := Notify(old(State()), Callback.Create(egl, gl));
        State() == n.state && calls == old(calls) + n.calls
    {
      this.egl, this.gl := egl, gl;
      created := true;
      ForwardAll(Callback.Create(egl, gl));
    }

    method Resize(width: int, height: int)
      modifies this
      ensures var n := Notify(old(State()), Callback.Resize(width, height));
        State() == n.state && calls == old(calls) + n.calls
    {
      resized := true;
      this.width, this.height := width, height;
      ForwardAll(Callback.Resize(width, height));
    }

    method Render(gl: int)
      modifies this
      ensures var n := Notify(old(State()), Callback.Render(gl));
        State() == n.state && calls == old(calls) + n.calls
    {
      ForwardAll(Callback.Render(gl));
    }

    method Pause()
      modifies this
      ensures var n := Notify(old(State()), Callback.Pause);
        State() == n.state && calls == old(calls) + n.calls
    {
      paused := true;
      ForwardAll(Callback.Pause);
    }

    method Resume()
      modifies this
      ensures var n := Notify(old(State()), Callback.Resume);
        State() == n.state && calls == old(calls) + n.calls
    {
      resumed := true;
      ForwardAll(Callback.Resume);
    }

    method Dispose()
      modifies this
      ensures var n := Notify(old(State()), Callback.Dispose);
        State() == n.state && calls == old(calls) + n.calls
    {
      disposed := true;
      ForwardAll(Callback.Dispose);
    }

    method Size() returns (n: nat)
      ensures n == |rendererList|
    {
      n := |rendererList|;
    }

    method Contains(r: Renderer) returns (b: bool)
      ensures b <==> r in rendererList
    {
      b := r in rendererList;
    }

    method Add(r: Renderer)
      modifies this
      ensures var n := MultipleRenderSpec.Add(old(State()), r);
        State() == n.state && calls == old(calls) + n.calls
    {
      if created {
        calls := calls + [Call(r, Callback.Create(egl, gl))];
      }
      if resized {
        calls := calls + [Call(r, Callback.Resize(width, height))];
      }
      if paused {
        calls := calls + [Call(r, Callback.Pause)];
      }
      rendererList := rendererList + [r];
    }

    method RemoveRenderer(r: Renderer)
      modifies this
      ensures var n := MultipleRenderSpec.RemoveRenderer(old(State()), r);
        State() == n.state && calls == old(calls) + n.calls
    {
      var i := IndexOf(rendererList, r);
      if i >= 0 {
        rendererList := RemoveAt(rendererList, i);
        if !disposed {
          calls := calls + [Call(r, Callback.Dispose)];
        }
      }
    }

    method RemoveIndex(index: int) returns (o: Outcome)
      modifies this
      ensures var r := MultipleRenderSpec.RemoveIndex(old(State()), index);
        && (r.Throws? ==> o == Raised(r.error) && State() == old(State()) && calls == old(calls))
        && (r.Ok? ==> o == Done && State() == r.value.state && calls == old(calls) + r.value.calls)
    {
      if index >= |rendererList| {
        return Done;
      }
      if index < 0 {
        return Raised(IndexOutOfBoundsException);
      }
      var r := rendererList[index];
      rendererList := RemoveAt(rendererList, index);
      if !disposed {
        calls := calls + [Call(r, Callback.Dispose)];
      }
      o := Done;
    }

    /** generateFrameBuffer: the loop stops at the first Recorder; the frame buffer it
        returns is that child's, named here by the child. */
    method GenerateFrameBuffer() returns (recorder: Option<Renderer>)
      modifies this
      ensures State() == old(State())
      ensures recorder == GenerateFrameBufferOf(old(State())).0
      ensures calls == old(calls) + GenerateFrameBufferOf(old(State())).1
    {
      for i := 0 to |rendererList|
        invariant State() == old(State()) && calls == old(calls)
        invariant forall k :: 0 <= k < i ==> !rendererList[k].isRecorder
      {
        if rendererList[i].isRecorder {
          assert FirstRecorderIndex(rendererList) == i;
          calls := calls + [Call(rendererList[i], Callback.GenerateFrameBuffer)];
          return Some(rendererList[i]);
        }
      }
      recorder := None;
    }
  }
}
