/**
 * Michie::Memoizer: one prepended layer of memoizing wrappers, and the
 * delegation chain a call runs through.
 *
 * A class is modelled as its own method table plus the ordered list of
 * memoizer layers in its objects' ancestors (its own prepended memoizers
 * and those of its superclasses), outermost first. A wrapper's `super`
 * continues with the next layer; past the last layer it reaches the
 * original body.
 */
module Memoizer {
  import opened Results
  import opened Helpers
  import opened Instances

  datatype Visibility = Public | Protected | Private

  /** A class's own instance methods (`false` introspection: nothing inherited) with their visibility. */
  type Table = map<string, Visibility>

  /** `instance_methods(false)`: the public and protected own methods. */
  function InstanceMethods(t: Table): set<string> {
    set m | m in t && t[m] != Private
  }

  /** `protected_instance_methods(false)`. */
  function ProtectedInstanceMethods(t: Table): set<string> {
    set m | m in t && t[m] == Protected
  }

  /** `private_instance_methods(false)`. */
  function PrivateInstanceMethods(t: Table): set<string> {
    set m | m in t && t[m] == Private
  }

  /**
   * One memoizer module: the wrapped method names, the slot prefix, whether
   * it is an eager memoizer, and the visibility each wrapper was given.
   */
  datatype Layer = Layer(methods: set<string>, prefix: string, eager: bool, visibility: map<string, Visibility>)

  /** A class: its own methods and the memoizers in its ancestors, outermost first. */
  datatype Klass = Klass(table: Table, layers: seq<Layer>)

  /**
   * Memoizer#prepended: wrappers start public; each one the class itself
   * holds as protected (private) is made protected (private).
   */
  function Prepended(t: Table, methods: set<string>): (vis: map<string, Visibility>)
    ensures vis.Keys == methods
    ensures forall m :: m in methods ==> (vis[m] == Protected <==> m in ProtectedInstanceMethods(t))
    ensures forall m :: m in methods ==> (vis[m] == Private <==> m in PrivateInstanceMethods(t))
    ensures forall m :: m in methods && m !in t ==> vis[m] == Public
  {
    map m | m in methods :: if m in t then t[m] else Public
  }

  /** The index of the outermost layer at or after `i` that wraps `m`. */
  function FirstLayerFrom(layers: seq<Layer>, m: string, i: nat): (r: Option<nat>)
    decreases |layers| - i
    ensures r.Some? ==> i <= r.value < |layers| && m in layers[r.value].methods
    ensures r.Some? ==> forall j :: i <= j < r.value ==> m !in layers[j].methods
    ensures r.None? ==> forall j :: i <= j < |layers| ==> m !in layers[j].methods
  {
    if i >= |layers| then None
    else if m in layers[i].methods then Some(i)
    else FirstLayerFrom(layers, m, i + 1)
  }

  /** The slot layer `j` caches `m` in. */
  function Slot(k: Klass, j: nat, m: string): string
    requires j < |k.layers|
  {
    IvarName(m, k.layers[j].prefix)
  }

  /** Every slot `m` is cached in by the layers at or after `i`. */
  function SlotsFrom(k: Klass, m: string, i: nat): set<string> {
    set j | i <= j < |k.layers| && m in k.layers[j].methods :: Slot(k, j, m)
  }

  /**
   * A call of `m` entering the chain at layer `i`. A layer that does not
   * wrap `m` passes the call on; a wrapping layer returns its slot when the
   * slot is defined (whatever value it holds), and otherwise calls `super`
   * and stores the result only if `super` returned.
   */
  function CallFrom(k: Klass, o: Obj, m: string, i: nat, body: Body): (r: Step)
    decreases |k.layers| - i
    // instance variables are only ever added, never changed or removed
    ensures forall key :: key in o.ivars ==> key in r.obj.ivars && r.obj.ivars[key] == o.ivars[key]
    // and the ones added are slots of `m`
    ensures forall key :: key in r.obj.ivars && key !in o.ivars ==> key in SlotsFrom(k, m, i)
    // no other body runs, and the body of `m` runs at most once
    ensures forall x :: x != m ==> Runs(r.obj, x) == Runs(o, x)
    ensures Runs(r.obj, m) == Runs(o, m) || Runs(r.obj, m) == Runs(o, m) + 1
    // when the body ran, its outcome is what the caller sees
    ensures Runs(r.obj, m) == Runs(o, m) + 1 ==> r.out == body(m, Runs(o, m))
    // when it did not, the call was served from a slot of `m` that was already defined
    ensures Runs(r.obj, m) == Runs(o, m) ==>
              r.out.Returned? &&
              exists key :: key in SlotsFrom(k, m, i) && key in o.ivars && o.ivars[key] == r.out.value
    // a raised exception is not cached
    ensures r.out.Threw? ==> r.obj.ivars == o.ivars
    // a returned value is left in the outermost slot of `m`
    ensures r.out.Returned? && FirstLayerFrom(k.layers, m, i).Some? ==>
              var j := FirstLayerFrom(k.layers, m, i).value;
              Slot(k, j, m) in r.obj.ivars && r.obj.ivars[Slot(k, j, m)] == r.out.value
  {
    if i >= |k.layers| then RunBody(o, m, body)
    else if m !in k.layers[i].methods then CallFrom(k, o, m, i + 1, body)
    else
      var slot := Slot(k, i, m);
      if slot in o.ivars then Step(o, Returned(o.ivars[slot]))
      else
        var inner := CallFrom(k, o, m, i + 1, body);
        match inner.out
        case Returned(v) => Step(inner.obj.(ivars := inner.obj.ivars[slot := v]), inner.out)
        case Threw(_) => inner
  }

  /** Calling `m` on an object: dispatch starts at the outermost layer. */
  function Call(k: Klass, o: Obj, m: string, body: Body): Step {
    CallFrom(k, o, m, 0, body)
  }

  /** The outermost wrapper of `m` finds its slot defined. */
  predicate Hit(k: Klass, o: Obj, m: string) {
    match FirstLayerFrom(k.layers, m, 0)
    case Some(j) => Slot(k, j, m) in o.ivars
    case None => false
  }

  /** Layers that do not wrap `m` only pass the call on. */
  lemma {:induction false} SkipToFirstLayer(k: Klass, o: Obj, m: string, i: nat, body: Body)
    requires FirstLayerFrom(k.layers, m, i).Some?
    ensures CallFrom(k, o, m, i, body) == CallFrom(k, o, m, FirstLayerFrom(k.layers, m, i).value, body)
    decreases |k.layers| - i
  {
    if m !in k.layers[i].methods {
      SkipToFirstLayer(k, o, m, i + 1, body);
    }
  }

  /** A method no layer wraps runs its original body on every call. */
  lemma {:induction false} UnwrappedRunsBody(k: Klass, o: Obj, m: string, i: nat, body: Body)
    requires FirstLayerFrom(k.layers, m, i).None?
    ensures CallFrom(k, o, m, i, body) == RunBody(o, m, body)
    decreases |k.layers| - i
  {
    if i < |k.layers| {
      UnwrappedRunsBody(k, o, m, i + 1, body);
    }
  }

  /** A cache hit returns the slot's value, runs no body and changes nothing. */
  lemma HitServesCache(k: Klass, o: Obj, m: string, body: Body)
    requires Hit(k, o, m)
    ensures var j := FirstLayerFrom(k.layers, m, 0).value;
            Call(k, o, m, body) == Step(o, Returned(o.ivars[Slot(k, j, m)]))
  {
    SkipToFirstLayer(k, o, m, 0, body);
  }

  /** After a call of a memoized method returns, the next call is a hit. */
  lemma ReturnedCallLeavesHit(k: Klass, o: Obj, m: string, body: Body)
    requires FirstLayerFrom(k.layers, m, 0).Some?
    requires Call(k, o, m, body).out.Returned?
    ensures Hit(k, Call(k, o, m, body).obj, m)
  {
  }

  /**
   * Calling a memoized method twice: once the first call has returned, the
   * second returns the very same value, runs no body and changes nothing.
   */
  lemma CallTwice(k: Klass, o: Obj, m: string, body: Body)
    requires FirstLayerFrom(k.layers, m, 0).Some?
    requires Call(k, o, m, body).out.Returned?
    ensures var first := Call(k, o, m, body);
            Call(k, first.obj, m, body) == first
  {
    var first := Call(k, o, m, body);
    HitServesCache(k, first.obj, m, body);
  }

  /** Slot sets along the chain, one layer at a time. */
  lemma SlotsFromStep(k: Klass, m: string, i: nat)
    ensures i >= |k.layers| ==> SlotsFrom(k, m, i) == {}
    ensures i < |k.layers| && m !in k.layers[i].methods ==> SlotsFrom(k, m, i) == SlotsFrom(k, m, i + 1)
    ensures i < |k.layers| && m in k.layers[i].methods ==>
              SlotsFrom(k, m, i) == {Slot(k, i, m)} + SlotsFrom(k, m, i + 1)
  {
    if i < |k.layers| && m in k.layers[i].methods {
      assert Slot(k, i, m) in SlotsFrom(k, m, i);
    }
  }

  /** The cache contents after one value is stored in each of `keys`. */
  function StoreAll(ivars: map<string, Value>, keys: set<string>, v: Value): (r: map<string, Value>)
    ensures r.Keys == ivars.Keys + keys
    ensures forall key :: key in keys ==> r[key] == v
    ensures forall key :: key in ivars && key !in keys ==> r[key] == ivars[key]
  {
    ivars + map key | key in keys :: v
  }

  /**
   * A full miss: when no slot of `m` is defined, the original body runs
   * exactly once, and if it returns, every wrapper of `m` stores its result.
   */
  lemma {:induction false} MissStoresEverywhere(k: Klass, o: Obj, m: string, i: nat, body: Body)
    requires SlotsFrom(k, m, i) !! o.ivars.Keys
    ensures var r := CallFrom(k, o, m, i, body);
            && Runs(r.obj, m) == Runs(o, m) + 1
            && r.out == body(m, Runs(o, m))
            && (r.out.Returned? ==> r.obj.ivars == StoreAll(o.ivars, SlotsFrom(k, m, i), r.out.value))
    decreases |k.layers| - i
  {
    SlotsFromStep(k, m, i);
    if i >= |k.layers| {
      var out := body(m, Runs(o, m));
      if out.Returned? {
        assert StoreAll(o.ivars, {}, out.value) == o.ivars;
      }
    } else if m !in k.layers[i].methods {
      MissStoresEverywhere(k, o, m, i + 1, body);
    } else {
      var slot := Slot(k, i, m);
      assert slot !in o.ivars;
      MissStoresEverywhere(k, o, m, i + 1, body);
      var inner := CallFrom(k, o, m, i + 1, body);
      if inner.out.Returned? {
        StoreOneMore(o.ivars, SlotsFrom(k, m, i + 1), slot, inner.out.value);
      }
    }
  }

  lemma StoreOneMore(ivars: map<string, Value>, keys: set<string>, key: string, v: Value)
    ensures StoreAll(ivars, keys, v)[key := v] == StoreAll(ivars, {key} + keys, v)
  {
  }

  /**
   * Failures are not cached: when a call with no slot of `m` defined raises,
   * the slots stay unset and the next call runs the body again, as its next
   * invocation.
   */
  lemma FailureIsRetried(k: Klass, o: Obj, m: string, body: Body)
    requires SlotsFrom(k, m, 0) !! o.ivars.Keys
    requires Call(k, o, m, body).out.Threw?
    ensures var first := Call(k, o, m, body);
            var second := Call(k, first.obj, m, body);
            && first.obj.ivars == o.ivars
            && Runs(second.obj, m) == Runs(o, m) + 2
            && second.out == body(m, Runs(o, m) + 1)
  {
    MissStoresEverywhere(k, o, m, 0, body);
    var first := Call(k, o, m, body);
    MissStoresEverywhere(k, first.obj, m, 0, body);
  }

  /**
   * With one memoizer layer, the first call of a wrapped method whose slot is
   * unset runs the body once and, if it returns, adds exactly that slot,
   * holding exactly the returned value.
   */
  lemma FirstCallAddsOneSlot(k: Klass, o: Obj, m: string, body: Body)
    requires |k.layers| == 1 && m in k.layers[0].methods
    requires IvarName(m, k.layers[0].prefix) !in o.ivars
    ensures var r := Call(k, o, m, body);
            && Runs(r.obj, m) == Runs(o, m) + 1
            && r.out == body(m, Runs(o, m))
            && (r.out.Returned? ==> r.obj.ivars == o.ivars[IvarName(m, k.layers[0].prefix) := r.out.value])
  {
    SlotsFromStep(k, m, 0);
    SlotsFromStep(k, m, 1);
    MissStoresEverywhere(k, o, m, 0, body);
  }

  /**
   * Two distinct wrapped methods of one layer, neither the `?`/`!` alias of
   * the other, each called on a fresh object: each body runs once and the object ends with exactly the two
   * slots, which are distinct.
   */
  lemma TwoMethodsTwoSlots(k: Klass, a: string, b: string, body: Body)
    requires |k.layers| == 1 && a in k.layers[0].methods && b in k.layers[0].methods
    requires a != b && !Aliases(a, b) && !Aliases(b, a)
    requires Call(k, Obj(map[], map[]), a, body).out.Returned?
    requires Call(k, Call(k, Obj(map[], map[]), a, body).obj, b, body).out.Returned?
    ensures var p := k.layers[0].prefix;
            var s := Call(k, Call(k, Obj(map[], map[]), a, body).obj, b, body).obj;
            && s.ivars.Keys == {IvarName(a, p), IvarName(b, p)}
            && IvarName(a, p) != IvarName(b, p)
            && Runs(s, a) == 1 && Runs(s, b) == 1
  {
    var p := k.layers[0].prefix;
    var o := Obj(map[], map[]);
    FirstCallAddsOneSlot(k, o, a, body);
    var o1 := Call(k, o, a, body).obj;
    SameSlotIff(a, b, p);
    FirstCallAddsOneSlot(k, o1, b, body);
  }

  /**
   * The visibility a caller sees for `m`: that of its outermost wrapper, or
   * the class's own when no layer wraps it; None when neither defines it.
   */
  function EffectiveVisibility(k: Klass, m: string): Option<Visibility> {
    match FirstLayerFrom(k.layers, m, 0)
    case Some(j) => Some(if m in k.layers[j].visibility then k.layers[j].visibility[m] else Public)
    case None => if m in k.table then Some(k.table[m]) else None
  }
}
