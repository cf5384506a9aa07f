/**
 * Michie::EagerMemoizer and its Initializer. The Initializer is included
 * into the class, so its `initialize` runs where the class's own
 * constructor calls `super` (or as the constructor, when the class defines
 * none). It first calls the inherited constructor; when that returns, every
 * method of every eager memoizer in the object's ancestors, this class's
 * and its superclasses', is sent once, in ancestor order, which fills those
 * slots. The rest of the class's own constructor, after its `super`, runs
 * only afterwards and is not modelled.
 */
module EagerMemoizer {
  import opened Results
  import opened Helpers
  import opened Instances
  import opened Memoizer

  /** The methods the construction hook sends: those of every eager layer. */
  function EagerMethods(layers: seq<Layer>): (r: set<string>)
    ensures forall m :: m in r <==> exists i :: 0 <= i < |layers| && layers[i].eager && m in layers[i].methods
  {
    if |layers| == 0 then {}
    else
      var rest := EagerMethods(layers[..|layers| - 1]);
      var last := layers[|layers| - 1];
      rest + (if last.eager then last.methods else {})
  }

  /** No two distinct memoized methods share a slot, in any pair of layers. */
  ghost predicate SlotsDistinct(k: Klass) {
    forall i, j, a, b ::
      (0 <= i < |k.layers| && 0 <= j < |k.layers| && a in k.layers[i].methods && b in k.layers[j].methods &&
       Slot(k, i, a) == Slot(k, j, b)) ==> a == b
  }

  lemma DistinctMethodsDisjointSlots(k: Klass, a: string, b: string)
    requires SlotsDistinct(k) && a != b
    ensures SlotsFrom(k, a, 0) !! SlotsFrom(k, b, 0)
  {
  }

  /** Method `t` has either never run and has no slot, or ran once and has them all. */
  ghost predicate Balanced(k: Klass, o: Obj, t: string) {
    || (Runs(o, t) == 0 && SlotsFrom(k, t, 0) !! o.ivars.Keys)
    || (Runs(o, t) == 1 && SlotsFrom(k, t, 0) <= o.ivars.Keys)
  }

  /** What the original constructor left: no eager body has run and no eager slot is set. */
  ghost predicate Fresh(k: Klass, o: Obj) {
    forall t :: t in EagerMethods(k.layers) ==> Runs(o, t) == 0 && SlotsFrom(k, t, 0) !! o.ivars.Keys
  }

  /** Every instance variable of `o0` is still there with the same value. */
  ghost predicate Kept(o0: Obj, o: Obj) {
    forall key :: key in o0.ivars ==> key in o.ivars && o.ivars[key] == o0.ivars[key]
  }

  /** Every instance variable added since `o0` is a slot of an eager method. */
  ghost predicate OnlyEagerSlotsAdded(k: Klass, o0: Obj, o: Obj) {
    forall key :: key in o.ivars && key !in o0.ivars ==>
      exists t :: t in EagerMethods(k.layers) && key in SlotsFrom(k, t, 0)
  }

  /** No body other than an eager method's has run since `o0`. */
  ghost predicate OnlyEagerBodiesRun(k: Klass, o0: Obj, o: Obj) {
    forall x :: x !in EagerMethods(k.layers) ==> Runs(o, x) == Runs(o0, x)
  }

  ghost predicate AllHit(k: Klass, o: Obj, sent: set<string>) {
    forall t :: t in sent ==> Hit(k, o, t)
  }

  ghost predicate AllBalanced(k: Klass, o: Obj) {
    forall t :: t in EagerMethods(k.layers) ==> Balanced(k, o, t)
  }

  /** The state of the construction hook after sending the methods in `sent`, starting from `o0`. */
  ghost predicate Progress(k: Klass, o0: Obj, o: Obj, sent: set<string>) {
    && sent <= EagerMethods(k.layers)
    && Kept(o0, o)
    && OnlyEagerSlotsAdded(k, o0, o)
    && OnlyEagerBodiesRun(k, o0, o)
    && AllHit(k, o, sent)
    && (SlotsDistinct(k) && Fresh(k, o0) ==> AllBalanced(k, o))
  }

  lemma EagerIsWrapped(k: Klass, m: string)
    requires m in EagerMethods(k.layers)
    ensures FirstLayerFrom(k.layers, m, 0).Some?
  {
  }

  lemma HitNotUnset(k: Klass, o: Obj, t: string)
    requires Hit(k, o, t)
    ensures !(SlotsFrom(k, t, 0) !! o.ivars.Keys)
  {
    var j := FirstLayerFrom(k.layers, t, 0).value;
    assert Slot(k, j, t) in SlotsFrom(k, t, 0);
  }

  /** Balance of `t` survives a call of another method `m`. */
  lemma OtherStaysBalanced(k: Klass, o: Obj, o': Obj, m: string, t: string)
    requires SlotsDistinct(k) && t != m
    requires Balanced(k, o, t)
    requires Runs(o', t) == Runs(o, t)
    requires o.ivars.Keys <= o'.ivars.Keys
    requires forall key :: key in o'.ivars && key !in o.ivars ==> key in SlotsFrom(k, m, 0)
    ensures Balanced(k, o', t)
  {
    DistinctMethodsDisjointSlots(k, t, m);
  }

  lemma SendKeepsFrame(k: Klass, o0: Obj, o: Obj, m: string, body: Body)
    requires Kept(o0, o) && OnlyEagerSlotsAdded(k, o0, o) && OnlyEagerBodiesRun(k, o0, o)
    requires m in EagerMethods(k.layers)
    ensures var o' := Call(k, o, m, body).obj;
            Kept(o0, o') && OnlyEagerSlotsAdded(k, o0, o') && OnlyEagerBodiesRun(k, o0, o')
  {
    var o' := Call(k, o, m, body).obj;
    forall key | key in o'.ivars && key !in o0.ivars
      ensures exists t :: t in EagerMethods(k.layers) && key in SlotsFrom(k, t, 0)
    {
      if key !in o.ivars {
        assert key in SlotsFrom(k, m, 0);
      }
    }
  }

  lemma SendKeepsHits(k: Klass, o: Obj, sent: set<string>, m: string, body: Body)
    requires AllHit(k, o, sent)
    requires FirstLayerFrom(k.layers, m, 0).Some?
    requires Call(k, o, m, body).out.Returned?
    ensures AllHit(k, Call(k, o, m, body).obj, sent + {m})
  {
    ReturnedCallLeavesHit(k, o, m, body);
  }

  lemma SendKeepsBalance(k: Klass, o: Obj, m: string, body: Body)
    requires SlotsDistinct(k) && AllBalanced(k, o)
    requires m in EagerMethods(k.layers)
    requires Call(k, o, m, body).out.Returned?
    ensures AllBalanced(k, Call(k, o, m, body).obj)
  {
    var o' := Call(k, o, m, body).obj;
    EagerIsWrapped(k, m);
    forall t | t in EagerMethods(k.layers)
      ensures Balanced(k, o', t)
    {
      if t != m {
        OtherStaysBalanced(k, o, o', m, t);
      } else if Runs(o, m) == 1 {
        var j := FirstLayerFrom(k.layers, m, 0).value;
        assert Slot(k, j, m) in SlotsFrom(k, m, 0);
        HitServesCache(k, o, m, body);
      } else {
        MissStoresEverywhere(k, o, m, 0, body);
      }
    }
  }

  /** Sending one more eager method, when it returns, keeps the hook's invariant. */
  lemma SendStep(k: Klass, o0: Obj, o: Obj, sent: set<string>, m: string, body: Body)
    requires Progress(k, o0, o, sent)
    requires m in EagerMethods(k.layers)
    requires Call(k, o, m, body).out.Returned?
    ensures Progress(k, o0, Call(k, o, m, body).obj, sent + {m})
  {
    EagerIsWrapped(k, m);
    SendKeepsFrame(k, o0, o, m, body);
    SendKeepsHits(k, o, sent, m, body);
    if SlotsDistinct(k) && Fresh(k, o0) {
      SendKeepsBalance(k, o, m, body);
    }
  }

  /** The eager methods of the first layers are among those of all layers. */
  lemma EagerMethodsOfPrefix(layers: seq<Layer>, n: nat)
    requires n <= |layers|
    ensures EagerMethods(layers[..n]) <= EagerMethods(layers)
  {
    forall m | m in EagerMethods(layers[..n])
      ensures m in EagerMethods(layers)
    {
      var i :| 0 <= i < n && layers[..n][i].eager && m in layers[..n][i].methods;
      assert layers[i] == layers[..n][i];
    }
  }

  /**
   * Initializer#initialize for an object whose memoizer layers are
   * `k.layers`. `base` is what the inherited constructor reached through
   * `super` produced: the object as it then stands, or the exception it
   * raised, in which case the hook does not run. Otherwise each eager layer,
   * outermost first, has each of its methods sent; the first exception a body
   * raises aborts construction.
   */
  method Construct(k: Klass, base: Result<Obj, Error>, body: Body) returns (r: Result<Obj, Error>)
    ensures base.Failure? ==> r == base
    ensures r.Success? ==> base.Success?
    // every eager method is a cache hit on the constructed object
    ensures r.Success? ==> forall m :: m in EagerMethods(k.layers) ==> Hit(k, r.value, m)
    // no other body runs, nothing the constructor set is touched, and only eager slots are added
    ensures r.Success? ==> forall x :: x !in EagerMethods(k.layers) ==> Runs(r.value, x) == Runs(base.value, x)
    ensures r.Success? ==>
              forall key :: key in base.value.ivars ==> key in r.value.ivars && r.value.ivars[key] == base.value.ivars[key]
    ensures r.Success? ==>
              forall key :: key in r.value.ivars && key !in base.value.ivars ==>
                exists t :: t in EagerMethods(k.layers) && key in SlotsFrom(k, t, 0)
    // from a fresh object, each eager body has run exactly once
    ensures r.Success? && SlotsDistinct(k) && Fresh(k, base.value) ==>
              forall m :: m in EagerMethods(k.layers) ==> Runs(r.value, m) == 1
    // a construction that fails after the constructor failed in an eager body
    ensures r.Failure? && base.Success? ==>
              exists t, n :: t in EagerMethods(k.layers) && body(t, n) == Threw(r.error)
  {
    if base.Failure? {
      return base;
    }
    var o := base.value;
    ghost var sent: set<string> := {};
    var li := 0;
    while li < |k.layers|
      invariant 0 <= li <= |k.layers|
      invariant sent == EagerMethods(k.layers[..li])
      invariant Progress(k, base.value, o, sent)
    {
      EagerMethodsOfPrefix(k.layers, li + 1);
      var layer := k.layers[li];
      if layer.eager {
        var todo := layer.methods;
        while todo != {}
          invariant todo <= layer.methods
          invariant sent == EagerMethods(k.layers[..li]) + (layer.methods - todo)
          invariant Progress(k, base.value, o, sent)
          decreases todo
        {
          var m :| m in todo;
          assert m in EagerMethods(k.layers[..li + 1]) by {
            assert k.layers[..li + 1][..li] == k.layers[..li];
          }
          var step := Call(k, o, m, body);
          if step.out.Threw? {
            assert body(m, Runs(o, m)) == Threw(step.out.error);
            return Failure(step.out.error);
          }
          SendStep(k, base.value, o, sent, m, body);
          o := step.obj;
          sent := sent + {m};
          todo := todo - {m};
        }
      }
      assert k.layers[..li + 1][..li] == k.layers[..li];
      li := li + 1;
    }
    assert k.layers[..li] == k.layers;
    if SlotsDistinct(k) && Fresh(k, base.value) {
      forall m | m in EagerMethods(k.layers)
        ensures Runs(o, m) == 1
      {
        HitNotUnset(k, o, m);
      }
    }
    return Success(o);
  }

  /**
   * A lazily memoized method is untouched by construction: if its slots were
   * unset before the eager pass, they are unset after it.
   */
  lemma LazySlotsStayUnset(k: Klass, o0: Obj, o: Obj, x: string)
    requires SlotsDistinct(k)
    requires x !in EagerMethods(k.layers)
    requires SlotsFrom(k, x, 0) !! o0.ivars.Keys
    requires forall key :: key in o.ivars && key !in o0.ivars ==>
               exists t :: t in EagerMethods(k.layers) && key in SlotsFrom(k, t, 0)
    ensures SlotsFrom(k, x, 0) !! o.ivars.Keys
  {
  }
}
