/**
 * Michie#memoize: the declaration that picks the methods to memoize,
 * validates its arguments, and prepends one memoizer layer.
 */
module Michie {
  import opened Results
  import opened Helpers
  import opened Instances
  import opened Memoizer

  /** The slot prefix used when a declaration names none. */
  const DefaultIvarPrefix: string := "__michie"

  const BothMessage: string := "memoize takes method names or a block defining methods, not both."

  /** The own methods introspection lists: `instance_methods(false) + private_instance_methods(false)`. */
  function OwnMethods(t: Table): (r: set<string>)
    ensures r == t.Keys
  {
    InstanceMethods(t) + PrivateInstanceMethods(t)
  }

  /** A new memoizer layer, prepended to a class whose own methods are `t`. */
  function NewLayer(t: Table, methods: set<string>, prefix: string, eager: bool): Layer {
    Layer(methods, prefix, eager, Prepended(t, methods))
  }

  /**
   * `memoize(*args, eager:, prefix:)` with an optional block. `block` is None
   * when no block is given, and otherwise the class's own method table as it
   * stands once the block has run. A failure leaves the class as it was.
   */
  function Memoize(k: Klass, args: seq<string>, block: Option<Table>, eager: bool, prefix: string): (r: Result<Klass, Error>)
    // exactly one of names and block is accepted
    ensures r.Failure? <==> (block.Some? <==> |args| > 0)
    ensures block.Some? && |args| > 0 ==> r == Failure(ArgumentError(BothMessage))
    // with neither, the memoizer is built from nil and `nil.each` fails
    ensures block.None? && |args| == 0 ==> r == Failure(NoMethodError("each"))
    ensures r.Success? ==> r.value.table == (if block.Some? then block.value else k.table)
    // one new layer goes in front of the existing ones
    ensures r.Success? ==> |r.value.layers| == |k.layers| + 1 && r.value.layers[1..] == k.layers
    ensures r.Success? ==> r.value.layers[0].prefix == prefix && r.value.layers[0].eager == eager
    // a block selects exactly the methods it newly defined, whatever their visibility
    ensures r.Success? && block.Some? ==>
              forall m :: m in r.value.layers[0].methods <==> m in block.value && m !in k.table
    // names are taken as given, whether or not the class defines them
    ensures r.Success? && block.None? ==>
              forall m :: m in r.value.layers[0].methods <==> m in args
  {
    if block.Some? && |args| > 0 then Failure(ArgumentError(BothMessage))
    else if block.Some? then
      var before := OwnMethods(k.table);
      var t := block.value;
      var targets := OwnMethods(t) - before;
      Success(Klass(t, [NewLayer(t, targets, prefix, eager)] + k.layers))
    else if |args| > 0 then
      Success(Klass(k.table, [NewLayer(k.table, (set m | m in args), prefix, eager)] + k.layers))
    else Failure(NoMethodError("each"))
  }

  /** A method the class had before the block is never selected, even when the block redefines it. */
  lemma RedefinedMethodNotSelected(k: Klass, t: Table, eager: bool, prefix: string, m: string)
    requires m in k.table && m in t
    ensures Memoize(k, [], Some(t), eager, prefix).Success?
    ensures m !in Memoize(k, [], Some(t), eager, prefix).value.layers[0].methods
  {
  }

  /** Prepending a layer in front shifts every layer index by one. */
  lemma {:induction false} FirstLayerShift(l: Layer, ls: seq<Layer>, m: string, i: nat)
    requires m !in l.methods
    ensures FirstLayerFrom([l] + ls, m, i + 1) == (match FirstLayerFrom(ls, m, i)
                                                   case Some(j) => Some(j + 1)
                                                   case None => None)
    decreases |ls| - i
  {
    var ls' := [l] + ls;
    if i < |ls| {
      assert ls'[i + 1] == ls[i];
      if m !in ls[i].methods {
        FirstLayerShift(l, ls, m, i + 1);
      }
    }
  }

  /**
   * Visibility is kept: each newly wrapped method is protected or private
   * exactly when the class itself holds it so, and public when the class does
   * not define it itself; every other method is seen as before.
   */
  lemma MemoizeKeepsVisibility(k: Klass, args: seq<string>, block: Option<Table>, eager: bool, prefix: string, m: string)
    requires Memoize(k, args, block, eager, prefix).Success?
    ensures var k' := Memoize(k, args, block, eager, prefix).value;
            m in k'.layers[0].methods ==>
              EffectiveVisibility(k', m) == Some(if m in k'.table then k'.table[m] else Public)
    ensures var k' := Memoize(k, args, block, eager, prefix).value;
            m !in k'.layers[0].methods ==>
              EffectiveVisibility(k', m) == EffectiveVisibility(Klass(k'.table, k.layers), m)
  {
    var k' := Memoize(k, args, block, eager, prefix).value;
    if m !in k'.layers[0].methods {
      assert k'.layers == [k'.layers[0]] + k.layers;
      FirstLayerShift(k'.layers[0], k.layers, m, 0);
      match FirstLayerFrom(k.layers, m, 0)
      case Some(j) => assert k'.layers[j + 1] == k.layers[j];
      case None =>
    }
  }

  /**
   * EagerMemoizer#prepended as written: it overrides Memoizer#prepended
   * without calling it, so every eager wrapper keeps the public visibility
   * `module_eval` gave it.
   */
  function EagerVisibilityAsWritten(methods: set<string>): map<string, Visibility> {
    map m | m in methods :: Public
  }

  /** `memoize` as written: like Memoize, except that an eager layer's wrappers all stay public. */
  function MemoizeAsWritten(k: Klass, args: seq<string>, block: Option<Table>, eager: bool, prefix: string): Result<Klass, Error> {
    match Memoize(k, args, block, eager, prefix)
    case Failure(e) => Failure(e)
    case Success(c) =>
      if eager then
        var l := c.layers[0];
        Success(c.(layers := [l.(visibility := EagerVisibilityAsWritten(l.methods))] + c.layers[1..]))
      else Success(c)
  }

  /** For a lazy declaration the code as written already behaves as Memoize. */
  lemma LazyAsWrittenIsMemoize(k: Klass, args: seq<string>, block: Option<Table>, prefix: string)
    ensures MemoizeAsWritten(k, args, block, false, prefix) == Memoize(k, args, block, false, prefix)
  {
  }

  /**
   * As written, an eager declaration makes every method it wraps public; it
   * is seen differently from the corrected declaration exactly when the
   * class itself holds it as protected or private. Methods it does not wrap
   * are seen the same way by both.
   */
  lemma EagerVisibilityLostAsWritten(k: Klass, args: seq<string>, block: Option<Table>, prefix: string, m: string)
    requires Memoize(k, args, block, true, prefix).Success?
    ensures MemoizeAsWritten(k, args, block, true, prefix).Success?
    ensures var w := MemoizeAsWritten(k, args, block, true, prefix).value;
            var c := Memoize(k, args, block, true, prefix).value;
            m in c.layers[0].methods ==>
              && EffectiveVisibility(w, m) == Some(Public)
              && (EffectiveVisibility(w, m) != EffectiveVisibility(c, m) <==>
                    m in ProtectedInstanceMethods(c.table) + PrivateInstanceMethods(c.table))
    ensures var w := MemoizeAsWritten(k, args, block, true, prefix).value;
            var c := Memoize(k, args, block, true, prefix).value;
            m !in c.layers[0].methods ==> EffectiveVisibility(w, m) == EffectiveVisibility(c, m)
  {
    var w := MemoizeAsWritten(k, args, block, true, prefix).value;
    var c := Memoize(k, args, block, true, prefix).value;
    MemoizeKeepsVisibility(k, args, block, true, prefix, m);
    if m in c.layers[0].methods {
      assert FirstLayerFrom(w.layers, m, 0) == Some(0);
    } else {
      assert w.layers == [w.layers[0]] + k.layers;
      assert c.layers == [c.layers[0]] + k.layers;
      FirstLayerShift(w.layers[0], k.layers, m, 0);
      FirstLayerShift(c.layers[0], k.layers, m, 0);
      match FirstLayerFrom(k.layers, m, 0)
      case Some(j) =>
        assert w.layers[j + 1] == k.layers[j] == c.layers[j + 1];
      case None =>
    }
  }

  /** As written, a private method memoized eagerly becomes publicly callable. */
  lemma EagerPrivateBecomesPublicAsWritten()
    ensures var t := map["secret" := Private];
            var r := MemoizeAsWritten(Klass(map[], []), [], Some(t), true, DefaultIvarPrefix);
            r.Success? && EffectiveVisibility(r.value, "secret") == Some(Public)
  {
    var t := map["secret" := Private];
    EagerVisibilityLostAsWritten(Klass(map[], []), [], Some(t), DefaultIvarPrefix, "secret");
  }

  /** With the visibility re-applied for eager layers too, the same method stays private. */
  lemma EagerKeepsPrivate()
    ensures var t := map["secret" := Private];
            var r := Memoize(Klass(map[], []), [], Some(t), true, DefaultIvarPrefix);
            r.Success? && EffectiveVisibility(r.value, "secret") == Some(Private)
  {
    var t := map["secret" := Private];
    MemoizeKeepsVisibility(Klass(map[], []), [], Some(t), true, DefaultIvarPrefix, "secret");
  }
}
